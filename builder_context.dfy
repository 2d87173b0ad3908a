/**
 * The builder context: the configuration a feature build carries through
 * its merges — the provider that resolves included features, the ordered
 * feature extension handlers, and the variable and framework-property
 * overrides.
 */
module Builder {
  import opened Wrappers
  import opened KeyValueTable

  /** Resolves included features; the context only holds it, never calls it. */
  class FeatureProvider {
    constructor () { }
  }

  /** Merges one kind of feature extension; opaque to the context. */
  class FeatureExtensionHandler {
    constructor () { }
  }

  /** The one error the context raises (IllegalArgumentException). */
  datatype Error = IllegalArgument(message: string)

  /** The message of the error raised for a missing provider. */
  const ProviderMustNotBeNull: string := "Provider must not be null"

  class BuilderContext {
    /** The provider of included features; never null, never replaced. */
    const provider: FeatureProvider

    /** The registered extension handlers, in registration order. */
    var featureExtensionHandlers: seq<FeatureExtensionHandler?>

    /** Variables to override on feature merge. */
    var variables: Table

    /** Framework properties to override on feature merge. */
    var properties: Table

    /** Both override tables are maps: no key appears twice. */
    predicate Valid()
      reads this
    {
      UniqueKeys(variables) && UniqueKeys(properties)
    }

    /**
     * Builds a context around a provider that is known to be present: starts
     * from an empty handler list and empty tables, then copies in the entries
     * of each override map that is given.
     */
    constructor (provider: FeatureProvider, variables: Option<Table>, properties: Option<Table>)
      requires variables.Some? ==> UniqueKeys(variables.value)
      requires properties.Some? ==> UniqueKeys(properties.value)
      ensures Valid()
      ensures this.provider == provider
      ensures this.featureExtensionHandlers == []
      ensures this.variables == if variables.Some? then variables.value else []
      ensures this.properties == if properties.Some? then properties.value else []
    {
      this.provider := provider;
      this.featureExtensionHandlers := [];
      this.variables := [];
      this.properties := [];
      new;
      if variables.Some? {
        PutAllIntoEmpty(variables.value);
        this.variables := PutAll(this.variables, variables.value);
      }
      if properties.Some? {
        PutAllIntoEmpty(properties.value);
        this.properties := PutAll(this.properties, properties.value);
      }
    }

    /**
     * The three-argument Java constructor: fails with IllegalArgument when the
     * provider is null, whatever the overrides are; otherwise a new context
     * whose tables hold exactly the given entries (empty when absent) and
     * whose handler list is empty.
     */
    static method Create(provider: FeatureProvider?, variables: Option<Table>, properties: Option<Table>)
      returns (r: Result<BuilderContext, Error>)
      requires variables.Some? ==> UniqueKeys(variables.value)
      requires properties.Some? ==> UniqueKeys(properties.value)
      ensures r.Failure? <==> provider == null
      ensures r.Failure? ==> r.error == IllegalArgument(ProviderMustNotBeNull)
      ensures r.Success? ==> fresh(r.value) && r.value.Valid()
      ensures r.Success? ==> r.value.provider == provider
      ensures r.Success? ==> r.value.featureExtensionHandlers == []
      ensures r.Success? ==> r.value.variables == if variables.Some? then variables.value else []
      ensures r.Success? ==> r.value.properties == if properties.Some? then properties.value else []
    {
      if provider == null {
        return Failure(IllegalArgument(ProviderMustNotBeNull));
      }
      var ctx := new BuilderContext(provider, variables, properties);
      r := Success(ctx);
    }

    /**
     * The one-argument Java constructor: the three-argument one with neither
     * override map.
     */
    static method CreateDefault(provider: FeatureProvider?) returns (r: Result<BuilderContext, Error>)
      ensures r.Failure? <==> provider == null
      ensures r.Failure? ==> r.error == IllegalArgument(ProviderMustNotBeNull)
      ensures r.Success? ==> fresh(r.value) && r.value.Valid()
      ensures r.Success? ==> r.value.provider == provider
      ensures r.Success? ==> r.value.featureExtensionHandlers == []
      ensures r.Success? ==> r.value.variables == [] && r.value.properties == []
    {
      r := Create(provider, None, None);
    }

    /**
     * Registers handlers after those already present, in argument order, and
     * returns this same context; nothing but the handler list changes.
     */
    method Add(handlers: seq<FeatureExtensionHandler?>) returns (r: BuilderContext)
      modifies this
      ensures r == this
      ensures Valid() == old(Valid())
      ensures featureExtensionHandlers == old(featureExtensionHandlers) + handlers
      ensures variables == old(variables) && properties == old(properties)
    {
      featureExtensionHandlers := featureExtensionHandlers + handlers;
      r := this;
    }

    /** The live variables table; a well-formed map while the context is valid. */
    function GetVariables(): (t: Table)
      reads this
      requires Valid()
      ensures t == variables && UniqueKeys(t)
    {
      variables
    }

    /** The live properties table; a well-formed map while the context is valid. */
    function GetProperties(): (t: Table)
      reads this
      requires Valid()
      ensures t == properties && UniqueKeys(t)
    {
      properties
    }

    /** The provider fixed at construction. */
    function GetFeatureProvider(): (p: FeatureProvider)
      ensures p == provider
    {
      provider
    }

    /** The live handler list, in registration order. */
    function GetFeatureExtensionHandlers(): (hs: seq<FeatureExtensionHandler?>)
      reads this
      ensures hs == featureExtensionHandlers
    {
      featureExtensionHandlers
    }

    /**
     * A new context bound to another provider: fails with IllegalArgument
     * when that provider is null; otherwise it holds fresh copies of this
     * context's tables and handler list. This context is left as it was.
     */
    method Clone(featureProvider: FeatureProvider?) returns (r: Result<BuilderContext, Error>)
      requires Valid()
      ensures unchanged(this)
      ensures r.Failure? <==> featureProvider == null
      ensures r.Failure? ==> r.error == IllegalArgument(ProviderMustNotBeNull)
      ensures r.Success? ==> fresh(r.value) && r.value.Valid()
      ensures r.Success? ==> r.value.provider == featureProvider
      ensures r.Success? ==> r.value.variables == variables && r.value.properties == properties
      ensures r.Success? ==> r.value.featureExtensionHandlers == featureExtensionHandlers
    {
      r := Create(featureProvider, Some(variables), Some(properties));
      if r.Success? {
        var ctx := r.value;
        ctx.featureExtensionHandlers := ctx.featureExtensionHandlers + featureExtensionHandlers;
      }
    }
  }

  /**
   * A clone and its source are independent: handlers registered on either
   * one after cloning do not reach the other, and both keep the same
   * override tables.
   */
  method CloneThenAdd(c: BuilderContext, p: FeatureProvider, onSource: seq<FeatureExtensionHandler?>,
                      onClone: seq<FeatureExtensionHandler?>)
    returns (d: BuilderContext)
    requires c.Valid()
    modifies c
    ensures fresh(d) && d.provider == p
    ensures c.featureExtensionHandlers == old(c.featureExtensionHandlers) + onSource
    ensures d.featureExtensionHandlers == old(c.featureExtensionHandlers) + onClone
    ensures c.variables == d.variables == old(c.variables)
    ensures c.properties == d.properties == old(c.properties)
  {
    var r := c.Clone(p);
    d := r.value;
    var _ := c.Add(onSource);
    var _ := d.Add(onClone);
  }
}
