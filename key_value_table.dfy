/**
 * A map from string keys to string values, modelled as insertion-ordered:
 * the builder context's framework properties (a LinkedHashMap) keep
 * insertion order, and its variables (a KeyValueMap) are modelled the same
 * way. A table is the sequence of its entries in iteration order.
 */
module KeyValueTable {
  import opened Wrappers

  /** One key/value pair of a table. */
  datatype Entry = Entry(key: string, value: string)

  /** The entries of a table in iteration order. */
  type Table = seq<Entry>

  /** The keys present in a table. */
  function Keys(t: Table): (ks: set<string>)
    ensures forall i :: 0 <= i < |t| ==> t[i].key in ks
  {
    if t == [] then {} else {t[0].key} + Keys(t[1..])
  }

  /** A key present in a table sits at some position of it. */
  lemma {:induction false} KeyAt(t: Table, k: string) returns (i: nat)
    requires k in Keys(t)
    ensures i < |t| && t[i].key == k
  {
    if t[0].key == k {
      i := 0;
    } else {
      i := KeyAt(t[1..], k);
      i := i + 1;
    }
  }

  /** No key occurs twice: the shape of every table a Java map produces. */
  predicate UniqueKeys(t: Table) {
    forall i, j :: 0 <= i < j < |t| ==> t[i].key != t[j].key
  }

  /** Looks a key up; the value of its first entry, if any. */
  function Get(t: Table, k: string): (r: Option<string>)
    ensures r.None? <==> k !in Keys(t)
    ensures r.Some? ==> Entry(k, r.value) in t
  {
    if t == [] then None
    else if t[0].key == k then Some(t[0].value)
    else Get(t[1..], k)
  }

  /**
   * Associates k with v the way LinkedHashMap.put does: an existing key keeps
   * its position and takes the new value; a new key is added at the end.
   */
  function Put(t: Table, k: string, v: string): (r: Table)
    ensures Keys(r) == Keys(t) + {k}
    ensures k !in Keys(t) ==> r == t + [Entry(k, v)]
    ensures k in Keys(t) ==> |r| == |t| && forall i :: 0 <= i < |t| ==> r[i].key == t[i].key
  {
    if t == [] then [Entry(k, v)]
    else if t[0].key == k then [Entry(k, v)] + t[1..]
    else
      var rest := Put(t[1..], k, v);
      assert ([t[0]] + rest)[1..] == rest;
      [t[0]] + rest
  }

  /**
   * Copies every entry of src into t, in src's iteration order, overwriting
   * the value of a key that t already holds (Map.putAll).
   */
  function PutAll(t: Table, src: Table): (r: Table)
    ensures Keys(r) == Keys(t) + Keys(src)
    decreases |src|
  {
    if src == [] then t
    else PutAll(Put(t, src[0].key, src[0].value), src[1..])
  }

  /** The table's content as an unordered map. */
  function ToMap(t: Table): (m: map<string, string>)
    ensures m.Keys == Keys(t)
    ensures forall k :: k in m ==> Get(t, k) == Some(m[k])
  {
    if t == [] then map[]
    else ToMap(t[1..])[t[0].key := t[0].value]
  }

  /** After a Put, k maps to v and every other key keeps its value. */
  lemma {:induction false} PutGet(t: Table, k: string, v: string, j: string)
    ensures Get(Put(t, k, v), j) == if j == k then Some(v) else Get(t, j)
  {
    if t != [] && t[0].key != k {
      var rest := Put(t[1..], k, v);
      assert Put(t, k, v) == [t[0]] + rest;
      assert ([t[0]] + rest)[1..] == rest;
      PutGet(t[1..], k, v, j);
    }
  }

  /**
   * Looking a key up after putAll: a key of src has src's value (the
   * overwrite on collision), any other key keeps what t held.
   */
  lemma {:induction false} PutAllGet(t: Table, src: Table, k: string)
    requires UniqueKeys(src)
    ensures Get(PutAll(t, src), k) == if k in Keys(src) then Get(src, k) else Get(t, k)
    decreases |src|
  {
    if src != [] {
      var e, rest := src[0], src[1..];
      var t' := Put(t, e.key, e.value);
      assert UniqueKeys(rest) by {
        forall i, j | 0 <= i < j < |rest| ensures rest[i].key != rest[j].key {
          assert rest[i] == src[i + 1] && rest[j] == src[j + 1];
        }
      }
      PutAllGet(t', rest, k);
      PutGet(t, e.key, e.value, k);
      if k == e.key && k in Keys(rest) {
        var i := KeyAt(rest, k);
        assert false;
      }
    }
  }

  /** putAll keeps a table free of duplicate keys. */
  lemma {:induction false} PutAllKeepsUniqueKeys(t: Table, src: Table)
    requires UniqueKeys(t)
    ensures UniqueKeys(PutAll(t, src))
    decreases |src|
  {
    if src != [] {
      var k, v := src[0].key, src[0].value;
      var t' := Put(t, k, v);
      if k in Keys(t) {
        assert forall i :: 0 <= i < |t| ==> t'[i].key == t[i].key;
      } else {
        assert t' == t + [Entry(k, v)];
        forall i | 0 <= i < |t| ensures t[i].key != k {
        }
      }
      PutAllKeepsUniqueKeys(t', src[1..]);
    }
  }

  /** A key that no entry carries is not among the table's keys. */
  lemma {:induction false} KeyAbsent(t: Table, k: string)
    requires forall i :: 0 <= i < |t| ==> t[i].key != k
    ensures k !in Keys(t)
  {
    if t != [] {
      KeyAbsent(t[1..], k);
    }
  }

  /** In a table without duplicate keys, no key of a prefix recurs after it. */
  lemma KeysDisjoint(t: Table, src: Table)
    requires UniqueKeys(t + src)
    ensures Keys(t) !! Keys(src)
  {
    forall k | k in Keys(t) ensures k !in Keys(src) {
      var i := KeyAt(t, k);
      forall j | 0 <= j < |src| ensures src[j].key != k {
        assert (t + src)[i] == t[i] && (t + src)[|t| + j] == src[j];
      }
      KeyAbsent(src, k);
    }
  }

  /**
   * When no key of src is already in t, putAll appends src's entries after
   * t's, in src's order.
   */
  lemma {:induction false} PutAllFreshKeys(t: Table, src: Table)
    requires UniqueKeys(t + src)
    ensures PutAll(t, src) == t + src
    decreases |src|
  {
    if src != [] {
      var e, rest := src[0], src[1..];
      KeysDisjoint(t, src);
      assert e.key in Keys(src);
      var t' := t + [e];
      assert Put(t, e.key, e.value) == t';
      assert t' + rest == t + src;
      PutAllFreshKeys(t', rest);
    }
  }

  /**
   * Copying a map into a fresh, empty table yields the same entries in the
   * same order.
   */
  lemma {:induction false} PutAllIntoEmpty(src: Table)
    requires UniqueKeys(src)
    ensures PutAll([], src) == src
  {
    assert [] + src == src;
    PutAllFreshKeys([], src);
  }

  /**
   * As unordered maps, putAll is the union in which src's values win on a
   * key both tables hold.
   */
  lemma {:induction false} PutAllMerges(t: Table, src: Table)
    requires UniqueKeys(src)
    ensures ToMap(PutAll(t, src)) == ToMap(t) + ToMap(src)
  {
    var m, l, r := ToMap(PutAll(t, src)), ToMap(t), ToMap(src);
    forall k | k in m ensures m[k] == (l + r)[k] {
      PutAllGet(t, src, k);
    }
  }
}
