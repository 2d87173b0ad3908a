# BuilderContext, modelled in Dafny

This project models `BuilderContext` from Apache Sling's feature model
builder. The context holds the services the feature builder uses:

- the `FeatureProvider` that resolves included features (required);
- the ordered list of `FeatureExtensionHandler`s;
- the variables to override on feature merge (a `KeyValueMap`);
- the framework properties to override (a `LinkedHashMap`).

Files:

- `wrappers.dfy`: `Option` (a Java reference that may be null) and `Result`
  (a value, or the exception the Java code throws).
- `key_value_table.dfy`: module `KeyValueTable`. The two override maps are
  modelled as insertion-ordered tables, that is, sequences of key/value
  entries. `Put` follows `LinkedHashMap.put`: a key already present keeps its
  position and takes the new value, and a new key goes at the end.
  `PutAll` puts the source's entries one by one, in the source's order.
  The lemmas relate a table to a plain Dafny `map` (`ToMap`). Under that
  view, `putAll` is the map union in which the source wins. Copying a map
  into an empty table gives back the same entries in the same order.
- `builder_context.dfy`: module `Builder` with the class `BuilderContext`.
  The provider is a `const` reference to an opaque class, as the Java field
  is `final`. The handler list and the two tables are value-typed fields that
  the methods reassign. The Java constructors can throw, so they become the
  static methods `Create` and `CreateDefault`. These return a `Result`
  and delegate to a Dafny constructor that takes a provider known to be
  non-null.

`clone` (line 108) calls the three-argument constructor, which copies the entries into the new context's
own maps (lines 35-36, 57-62). So a clone's tables are equal in content
to its source's but are distinct objects. Since the model's tables are
values, no context can see another context's tables change.

`Clone` requires `Valid()`: neither table has a duplicate key. Every
context that `Create` builds is valid, and `Add` keeps it valid, so every
Java caller meets this.

## Model

| member | source | states |
|---|---|---|
| KeyValueTable.Get | src/main/java/org/apache/sling/feature/builder/BuilderContext.java:35-36 | a lookup finds a value exactly when the key is in the table, and that value belongs to an entry for the key |
| KeyValueTable.ToMap | src/main/java/org/apache/sling/feature/builder/BuilderContext.java:35-36 | the unordered view of a table has the table's keys, each with the value a lookup gives |
| KeyValueTable.Put | src/main/java/org/apache/sling/feature/builder/BuilderContext.java:57-62 | a put adds the key to the key set; a new key is appended after the existing entries; an existing key keeps every position |
| KeyValueTable.PutGet | src/main/java/org/apache/sling/feature/builder/BuilderContext.java:57-62 | after a put, the key maps to the new value and every other key keeps its value |
| KeyValueTable.PutAll | src/main/java/org/apache/sling/feature/builder/BuilderContext.java:57-62 | putAll leaves the keys of both maps in the table |
| KeyValueTable.PutAllGet | src/main/java/org/apache/sling/feature/builder/BuilderContext.java:58 | after putAll, a key of the source map has the source's value (overwrite on collision) and any other key keeps the old value |
| KeyValueTable.PutAllMerges | src/main/java/org/apache/sling/feature/builder/BuilderContext.java:61 | as unordered maps, putAll is the union of the two maps in which the source's values win |
| KeyValueTable.PutAllKeepsUniqueKeys | src/main/java/org/apache/sling/feature/builder/BuilderContext.java:57-62 | putAll never creates a duplicate key |
| KeyValueTable.PutAllFreshKeys | src/main/java/org/apache/sling/feature/builder/BuilderContext.java:57-62 | when none of the source's keys is already present, putAll appends the source's entries in the source's order |
| KeyValueTable.PutAllIntoEmpty | src/main/java/org/apache/sling/feature/builder/BuilderContext.java:35-36 | copying a map into a new, empty table yields exactly its entries, in its order |
| Builder.BuilderContext.constructor | src/main/java/org/apache/sling/feature/builder/BuilderContext.java:34-62 | a new context has the given provider, an empty handler list, and tables holding exactly the given entries, or empty tables when none are given |
| Builder.BuilderContext.Create | src/main/java/org/apache/sling/feature/builder/BuilderContext.java:56-67 | fails with IllegalArgument and the message "Provider must not be null" exactly when the provider is null, whatever overrides are given; otherwise a fresh, valid context with that provider, no handlers, and exactly the given variables and properties (empty when absent) |
| Builder.BuilderContext.CreateDefault | src/main/java/org/apache/sling/feature/builder/BuilderContext.java:44-46 | behaves as Create with no variables and no properties: the same failure on a null provider, otherwise empty tables and no handlers |
| Builder.BuilderContext.Add | src/main/java/org/apache/sling/feature/builder/BuilderContext.java:74-77 | appends the handlers after the existing ones in argument order, returns the same context, and leaves both tables unchanged; adding nothing changes nothing |
| Builder.BuilderContext.GetVariables | src/main/java/org/apache/sling/feature/builder/BuilderContext.java:79-81 | returns the context's own variables table, which has no duplicate key |
| Builder.BuilderContext.GetProperties | src/main/java/org/apache/sling/feature/builder/BuilderContext.java:83-85 | returns the context's own properties table, which has no duplicate key |
| Builder.BuilderContext.GetFeatureProvider | src/main/java/org/apache/sling/feature/builder/BuilderContext.java:90-92 | returns the provider fixed at construction |
| Builder.BuilderContext.GetFeatureExtensionHandlers | src/main/java/org/apache/sling/feature/builder/BuilderContext.java:98-100 | returns the handler list in registration order |
| Builder.BuilderContext.Clone | src/main/java/org/apache/sling/feature/builder/BuilderContext.java:107-111 | leaves the source unchanged; fails with IllegalArgument exactly when the new provider is null; otherwise a fresh, valid context bound to the new provider whose tables and handler list equal the source's |
| Builder.CloneThenAdd | src/main/java/org/apache/sling/feature/builder/BuilderContext.java:108-109 | after a clone, handlers added to the source and handlers added to the clone each reach only that context, and both keep the source's override tables |

## Left out

- Concurrency: the thread-safety of the `CopyOnWriteArrayList` handler list (line 34), such as appending while another thread iterates. The list is a plain sequence.
- Mutation through the getters: the Java getters return the live collections, so callers could change them. The model's getters return the current field values, and nothing outside the class changes them.
- Null keys and values: a `LinkedHashMap` (line 36) or a caller's `Map<String, String>` may hold a null key or null values; an `Entry` has a string key and a string value, so the model cannot represent them.
- `KeyValueMap` internals: that class is not part of this model. It is modelled with the same insertion-ordered put and putAll as `LinkedHashMap`.
- The behaviour of `FeatureProvider` and `FeatureExtensionHandler`: they are opaque classes here, because the context never calls them.
- The merge algorithm and the first-claiming-handler dispatch rule: both belong to `FeatureBuilder`, which is not part of this model.
- A null varargs array passed to `add`: Java throws `NullPointerException` from `Arrays.asList`. `Add` takes a sequence, which cannot be null. Null elements inside the array are modelled: the handler list holds possibly-null references.
- Construction order: the Java constructor copies the maps before it checks the provider. This is not observable, because an exception means no object escapes. `Create` checks first.
