/**
 * Python's built-in `dict` with `str` keys, as a value: the keys in insertion
 * order together with the mapping from each key to its value.
 */
module Dicts {

  datatype Dict<V> = Dict(keys: seq<string>, entries: map<string, V>) {

    /** Every dict keeps each key once, and its key list and mapping agree. */
    ghost predicate Valid() {
      && (forall i, j :: 0 <= i < j < |keys| ==> keys[i] != keys[j])
      && (forall k :: k in entries <==> k in keys)
    }
  }

  /** `{}`, the empty dict. */
  function Empty<V>(): (d: Dict<V>)
    ensures d.Valid() && d.keys == [] && forall k :: k !in d.entries
  {
    Dict([], map[])
  }

  /**
   * `d[k] = v`: a new key goes to the end of the key order, an existing key
   * keeps its place and only its value changes.
   */
  function SetItem<V>(d: Dict<V>, k: string, v: V): (r: Dict<V>)
    requires d.Valid()
    ensures r.Valid()
    ensures k in r.entries && r.entries[k] == v
    ensures forall k' :: k' != k ==> (k' in r.entries <==> k' in d.entries)
    ensures forall k' :: k' != k && k' in d.entries ==> r.entries[k'] == d.entries[k']
    ensures k in d.entries ==> r.keys == d.keys
    ensures k !in d.entries ==> r.keys == d.keys + [k]
  {
    if k in d.entries then Dict(d.keys, d.entries[k := v])
    else Dict(d.keys + [k], d.entries[k := v])
  }

  /** The dict whose keys, in the same order, map to `f` of the old values. */
  function MapValues<V, W>(d: Dict<V>, f: V -> W): (r: Dict<W>)
    ensures d.Valid() ==> r.Valid()
    ensures r.keys == d.keys
    ensures forall k :: k in r.entries <==> k in d.entries
    ensures forall k :: k in d.entries ==> r.entries[k] == f(d.entries[k])
  {
    Dict(d.keys, map k | k in d.entries :: f(d.entries[k]))
  }

  /** The dict holding the first `n` keys of `d` in insertion order, with their values. */
  function Take<V>(d: Dict<V>, n: nat): (r: Dict<V>)
    requires d.Valid() && n <= |d.keys|
    ensures r.Valid() && r.keys == d.keys[..n]
    ensures forall k :: k in r.entries ==> k in d.entries && r.entries[k] == d.entries[k]
  {
    Dict(d.keys[..n], map k | k in d.keys[..n] :: d.entries[k])
  }

  /** Taking every key gives the whole dict. */
  lemma TakeAll<V>(d: Dict<V>)
    requires d.Valid()
    ensures Take(d, |d.keys|) == d
  {
    assert d.keys[..|d.keys|] == d.keys;
  }

  /** Taking no key gives an empty dict. */
  lemma TakeNone<V>(d: Dict<V>)
    requires d.Valid()
    ensures Take(d, 0) == Empty()
  {
  }

  /** One more key is one more `d[k] = v` at the end, on a brand-new key. */
  lemma TakeNext<V>(d: Dict<V>, n: nat)
    requires d.Valid() && n < |d.keys|
    ensures d.keys[n] !in Take(d, n).entries
    ensures Take(d, n + 1) == SetItem(Take(d, n), d.keys[n], d.entries[d.keys[n]])
  {
    assert d.keys[..n + 1] == d.keys[..n] + [d.keys[n]];
    assert d.keys[n] !in d.keys[..n];
  }

  /** Setting a key twice keeps only the second value. */
  lemma SetItemTwice<V>(d: Dict<V>, k: string, v: V, w: V)
    requires d.Valid()
    ensures SetItem(SetItem(d, k, v), k, w) == SetItem(d, k, w)
  {
  }

  /** Mapping the values commutes with setting an entry. */
  lemma MapValuesSetItem<V, W>(d: Dict<V>, k: string, v: V, f: V -> W)
    requires d.Valid()
    ensures MapValues(SetItem(d, k, v), f) == SetItem(MapValues(d, f), k, f(v))
  {
    var lhs := MapValues(SetItem(d, k, v), f);
    var rhs := SetItem(MapValues(d, f), k, f(v));
    assert lhs.keys == rhs.keys;
    forall k' | k' in lhs.entries
      ensures k' in rhs.entries && lhs.entries[k'] == rhs.entries[k']
    {
    }
    assert lhs.entries.Keys == rhs.entries.Keys;
  }
}
