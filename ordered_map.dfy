/**
 * A JavaScript `Map` with string keys, as the mock repositories use it: `set` upserts (a new key
 * goes to the end of the iteration order, an existing key keeps its place), `delete` removes a
 * key, and `values()` iterates in insertion order.
 */
module OrderedMaps {
  import opened Wrappers

  /** The entries, and the keys in insertion order. */
  datatype OrderedMap<V> = OrderedMap(keys: seq<string>, entries: map<string, V>) {
    /** Every key is listed exactly once. */
    ghost predicate Valid() {
      Distinct(keys) && (forall k :: k in entries <==> k in keys)
    }
  }

  /** `new Map()`. */
  function Empty<V>(): (m: OrderedMap<V>)
    ensures m.Valid() && m.entries == map[]
  {
    OrderedMap([], map[])
  }

  /** `map.get(k)`, with `undefined` as `None`. */
  function Get<V>(m: OrderedMap<V>, k: string): (r: Option<V>)
    ensures r.Some? <==> k in m.entries
    ensures r.Some? ==> r.value == m.entries[k]
  {
    if k in m.entries then Some(m.entries[k]) else None
  }

  /** `map.set(k, v)`. */
  function Put<V>(m: OrderedMap<V>, k: string, v: V): (r: OrderedMap<V>)
    ensures m.Valid() ==> r.Valid()
    ensures k in r.entries && r.entries[k] == v
    ensures forall j | j != k :: (j in r.entries <==> j in m.entries)
    ensures forall j | j != k && j in m.entries :: r.entries[j] == m.entries[j]
    ensures k in m.entries ==> r.keys == m.keys
    ensures k !in m.entries ==> r.keys == m.keys + [k]
  {
    var keys := if k in m.entries then m.keys else m.keys + [k];
    OrderedMap(keys, m.entries[k := v])
  }

  /** `map.delete(k)`. */
  function Remove<V>(m: OrderedMap<V>, k: string): (r: OrderedMap<V>)
    ensures m.Valid() ==> r.Valid()
    ensures k !in r.entries
    ensures forall j | j != k :: (j in r.entries <==> j in m.entries)
    ensures forall j | j != k && j in r.entries :: r.entries[j] == m.entries[j]
    ensures r.keys == Filter(m.keys, (j: string) => j != k)
  {
    var keys := Filter(m.keys, (j: string) => j != k);
    OrderedMap(keys, m.entries - {k})
  }

  /** The values of the listed keys, in the order of the list. */
  function ValuesOf<V>(keys: seq<string>, entries: map<string, V>): (r: seq<V>)
    requires forall k | k in keys :: k in entries
    ensures |r| == |keys|
    ensures forall i | 0 <= i < |keys| :: r[i] == entries[keys[i]]
  {
    if keys == [] then [] else [entries[keys[0]]] + ValuesOf(keys[1..], entries)
  }

  /** `Array.from(map.values())`. */
  function Values<V>(m: OrderedMap<V>): (r: seq<V>)
    requires m.Valid()
    ensures |r| == |m.keys|
    ensures forall i | 0 <= i < |m.keys| :: r[i] == m.entries[m.keys[i]]
  {
    ValuesOf(m.keys, m.entries)
  }

  /** The values listed are exactly the values bound. */
  lemma {:induction false} ValuesAreEntries<V>(m: OrderedMap<V>)
    requires m.Valid()
    ensures forall v | v in Values(m) :: exists k | k in m.entries :: m.entries[k] == v
    ensures forall k | k in m.entries :: m.entries[k] in Values(m)
  {
    var r := Values(m);
    forall v | v in r
      ensures exists k | k in m.entries :: m.entries[k] == v
    {
      var i :| 0 <= i < |r| && r[i] == v;
      assert m.entries[m.keys[i]] == v;
    }
    forall k | k in m.entries
      ensures m.entries[k] in r
    {
      var i :| 0 <= i < |m.keys| && m.keys[i] == k;
      assert r[i] == m.entries[k];
    }
  }

  /** Setting a key already bound to that very value changes nothing (the repositories' `update`). */
  lemma {:induction false} PutSame<V>(m: OrderedMap<V>, k: string)
    requires k in m.entries
    ensures Put(m, k, m.entries[k]) == m
  {
    assert Put(m, k, m.entries[k]).entries == m.entries;
  }

  /** A new key appends its value at the end of the iteration order. */
  lemma {:induction false} PutNewAppends<V>(m: OrderedMap<V>, k: string, v: V)
    requires m.Valid() && k !in m.entries
    ensures Values(Put(m, k, v)) == Values(m) + [v]
  {
    var r := Values(Put(m, k, v));
    var t := Values(m) + [v];
    assert |r| == |t|;
    forall i | 0 <= i < |r|
      ensures r[i] == t[i]
    {
      if i < |m.keys| {
        assert m.keys[i] != k;
      }
    }
  }

  /** An existing key keeps its place; only its value changes. */
  lemma {:induction false} PutExistingInPlace<V>(m: OrderedMap<V>, k: string, v: V)
    requires m.Valid() && k in m.entries
    ensures |Values(Put(m, k, v))| == |Values(m)|
    ensures forall i | 0 <= i < |m.keys| ::
      Values(Put(m, k, v))[i] == if m.keys[i] == k then v else Values(m)[i]
  {
    var p := Put(m, k, v);
    assert p.keys == m.keys;
  }

  /** After `set`, `get` of that key gives the value and `get` of any other key is as before. */
  lemma {:induction false} GetAfterPut<V>(m: OrderedMap<V>, k: string, v: V, j: string)
    ensures Get(Put(m, k, v), k) == Some(v)
    ensures j != k ==> Get(Put(m, k, v), j) == Get(m, j)
  {
  }

  /** After `delete`, `get` of that key is absent and `get` of any other key is as before. */
  lemma {:induction false} GetAfterRemove<V>(m: OrderedMap<V>, k: string, j: string)
    ensures Get(Remove(m, k), k) == None
    ensures j != k ==> Get(Remove(m, k), j) == Get(m, j)
  {
  }
}
