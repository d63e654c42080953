/** A JavaScript `Map`: a dictionary that remembers the order in which its keys
 *  were first inserted (`Array.from(m.values())` and `m.forEach` follow that
 *  order; `set` on an existing key keeps its place). */
module OMaps {
  import opened Wrappers

  datatype OMap<K, V> = OMap(keys: seq<K>, entries: map<K, V>) {

    /** Keys are distinct and are exactly the keys of `entries`. */
    ghost predicate Valid() {
      (forall i, j :: 0 <= i < j < |keys| ==> keys[i] != keys[j])
      && (forall i :: 0 <= i < |keys| ==> keys[i] in entries)
      && (forall k :: k in entries ==> k in keys)
    }

    predicate Has(k: K) {
      k in entries
    }

    /** `m.get(k)`. */
    function Get(k: K): (r: Option<V>)
      ensures r.Some? <==> k in entries
      ensures r.Some? ==> r.value == entries[k]
    {
      if k in entries then Some(entries[k]) else None
    }

    /** `m.set(k, v)`: a new key goes last, an existing key keeps its place. */
    function Set(k: K, v: V): (r: OMap<K, V>)
      requires Valid()
      ensures r.Valid()
      ensures r.entries == entries[k := v]
      ensures k in entries ==> r.keys == keys
      ensures k !in entries ==> r.keys == keys + [k]
    {
      if k in entries then OMap(keys, entries[k := v])
      else OMap(keys + [k], entries[k := v])
    }

    /** `Array.from(m.values())`. */
    function Values(): (r: seq<V>)
      requires Valid()
      ensures |r| == |keys|
      ensures forall i :: 0 <= i < |keys| ==> r[i] == entries[keys[i]]
    {
      seq(|keys|, i requires 0 <= i < |keys| && Valid() => entries[keys[i]])
    }

    /** The number of entries (`m.size`). */
    function Size(): nat {
      |keys|
    }
  }

  function Empty<K, V>(): (r: OMap<K, V>)
    ensures r.Valid() && r.keys == [] && r.entries == map[]
  {
    OMap([], map[])
  }

  function Of1<K, V>(k1: K, v1: V): (r: OMap<K, V>)
    ensures r.Valid() && r.keys == [k1] && r.Values() == [v1]
    ensures r.Get(k1) == Some(v1) && r.entries == map[k1 := v1]
  {
    OMap([k1], map[k1 := v1])
  }

  function Of2<K, V>(k1: K, v1: V, k2: K, v2: V): (r: OMap<K, V>)
    requires k1 != k2
    ensures r.Valid() && r.keys == [k1, k2] && r.Values() == [v1, v2]
    ensures r.Get(k1) == Some(v1) && r.Get(k2) == Some(v2)
  {
    OMap([k1, k2], map[k1 := v1, k2 := v2])
  }

  function Of3<K, V>(k1: K, v1: V, k2: K, v2: V, k3: K, v3: V): (r: OMap<K, V>)
    requires k1 != k2 && k1 != k3 && k2 != k3
    ensures r.Valid() && r.keys == [k1, k2, k3] && r.Values() == [v1, v2, v3]
  {
    OMap([k1, k2, k3], map[k1 := v1, k2 := v2, k3 := v3])
  }

  /** Reading back a key just written gives the written value, and other keys
   *  are untouched. */
  lemma GetSet<K, V>(m: OMap<K, V>, k: K, v: V, k': K)
    requires m.Valid()
    ensures m.Set(k, v).Get(k') == if k' == k then Some(v) else m.Get(k')
  {
  }

  /** Overwriting a key keeps the order of the values and changes only that
   *  key's value. */
  lemma SetValuesExisting<K, V>(m: OMap<K, V>, k: K, v: V, i: nat)
    requires m.Valid() && k in m.entries && i < |m.keys|
    ensures m.Set(k, v).Values()[i] == if m.keys[i] == k then v else m.Values()[i]
  {
  }

  /** Overwriting the key at position `i` replaces that one value. */
  lemma SetValuesAt<K, V>(m: OMap<K, V>, k: K, v: V, i: nat)
    requires m.Valid() && i < |m.keys| && m.keys[i] == k
    ensures m.Set(k, v).Values() == m.Values()[i := v]
  {
    assert forall j :: 0 <= j < |m.keys| && j != i ==> m.keys[j] != k;
  }

  /** Setting a key twice is setting it once to the second value. */
  lemma SetTwice<K, V>(m: OMap<K, V>, k: K, v1: V, v2: V)
    requires m.Valid()
    ensures m.Set(k, v1).Set(k, v2) == m.Set(k, v2)
  {
  }

  /** Inserting a new key appends its value to `Values()`. */
  lemma SetValuesNew<K, V>(m: OMap<K, V>, k: K, v: V)
    requires m.Valid() && k !in m.entries
    ensures m.Set(k, v).Values() == m.Values() + [v]
  {
    var r := m.Set(k, v);
    assert forall i :: 0 <= i < |m.keys| ==> m.keys[i] != k;
    assert r.Values() == m.Values() + [v];
  }
}
