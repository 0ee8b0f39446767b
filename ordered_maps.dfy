/**
 * A JavaScript plain object used as a dictionary: string keys, one value per key,
 * and `Object.keys` listing the keys in the order they were first assigned.
 */
module OrderedMaps {

  datatype RawDict<V> = RawDict(keys: seq<string>, entries: map<string, V>) {
    /** Every key is listed once, and exactly the listed keys have entries. */
    predicate WellFormed() {
      && (forall i, j :: 0 <= i < j < |keys| ==> keys[i] != keys[j])
      && (forall k :: k in entries ==> k in keys)
      && (forall i :: 0 <= i < |keys| ==> keys[i] in entries)
    }
  }

  /** An object with its key order. */
  type Dict<V> = d: RawDict<V> | d.WellFormed() witness RawDict([], map[])

  /** `{}` */
  function Empty<V>(): (d: Dict<V>)
    ensures d.keys == [] && d.entries == map[]
  {
    RawDict([], map[])
  }

  /** `obj[k] = v`: an existing key keeps its place, a new key goes last. */
  function Put<V>(d: Dict<V>, k: string, v: V): (r: Dict<V>)
    ensures r.entries == d.entries[k := v]
    ensures k in d.entries ==> r.keys == d.keys
    ensures k !in d.entries ==> r.keys == d.keys + [k]
  {
    if k in d.entries then RawDict(d.keys, d.entries[k := v])
    else RawDict(d.keys + [k], d.entries[k := v])
  }

  /** The object built by visiting the keys of d in order and storing f(key, value) under each. */
  function MapWithKey<V, W>(d: Dict<V>, f: (string, V) -> W): (r: Dict<W>)
    ensures r.keys == d.keys
    ensures forall k :: k in d.entries ==> k in r.entries && r.entries[k] == f(k, d.entries[k])
  {
    RawDict(d.keys, map k | k in d.entries :: f(k, d.entries[k]))
  }

  /** What MapWithKey has built after visiting the first n keys. */
  function MapPrefix<V, W>(d: Dict<V>, n: nat, f: (string, V) -> W): (r: Dict<W>)
    requires n <= |d.keys|
    ensures r.keys == d.keys[..n]
  {
    var r := RawDict(d.keys[..n], map k | k in d.keys[..n] :: f(k, d.entries[k]));
    assert forall k :: k in r.entries <==> k in r.keys;
    r
  }

  /** Visiting key n extends the prefix by one: a loop that does `out[key] = f(key, d[key])`
      keeps `out == MapPrefix(d, i, f)`. */
  lemma MapPrefixStep<V, W>(d: Dict<V>, n: nat, f: (string, V) -> W)
    requires n < |d.keys|
    ensures Put(MapPrefix(d, n, f), d.keys[n], f(d.keys[n], d.entries[d.keys[n]])) == MapPrefix(d, n + 1, f)
  {
    var k := d.keys[n];
    assert d.keys[..n + 1] == d.keys[..n] + [k];
    assert k !in d.keys[..n];
  }

  /** Visiting every key gives MapWithKey. */
  lemma MapPrefixAll<V, W>(d: Dict<V>, f: (string, V) -> W)
    ensures MapPrefix(d, |d.keys|, f) == MapWithKey(d, f)
  {
    assert d.keys[..|d.keys|] == d.keys;
  }

}
