// Python dictionaries keyed by strings, as association lists in iteration order.

module Dicts {
  import opened Wrappers

  /**
   * A dictionary as its entries in iteration order. Setting a key already
   * present replaces its entry in place; a new key goes last.
   */
  type Dict<V> = seq<(string, V)>

  function Keys<V>(d: Dict<V>): set<string> {
    if d == [] then {} else {d[0].0} + Keys(d[1..])
  }

  /** No key appears twice. */
  predicate Distinct<V>(d: Dict<V>) {
    d == [] || (d[0].0 !in Keys(d[1..]) && Distinct(d[1..]))
  }

  /** `d.get(k)`. */
  function Lookup<V>(d: Dict<V>, k: string): Option<V> {
    if d == [] then None
    else if d[0].0 == k then Some(d[0].1)
    else Lookup(d[1..], k)
  }

  /** A lookup succeeds exactly for the keys of the dictionary. */
  lemma {:induction false} LookupKeys<V>(d: Dict<V>, k: string)
    ensures Lookup(d, k).Some? <==> k in Keys(d)
  {
    if d != [] {
      LookupKeys(d[1..], k);
    }
  }

  /** `d[k] = v`. */
  function Put<V>(d: Dict<V>, k: string, v: V): Dict<V> {
    if d == [] then [(k, v)]
    else if d[0].0 == k then [(k, v)] + d[1..]
    else [d[0]] + Put(d[1..], k, v)
  }

  /** After `d[k] = v`, `k` reads `v` and every other key reads as before. */
  lemma {:induction false} PutLookup<V>(d: Dict<V>, k: string, v: V, k': string)
    ensures Lookup(Put(d, k, v), k') == if k' == k then Some(v) else Lookup(d, k')
  {
    if d != [] && d[0].0 != k {
      PutLookup(d[1..], k, v, k');
      assert Put(d, k, v)[1..] == Put(d[1..], k, v);
    }
  }

  /** Setting a key adds it to the keys and nothing else. */
  lemma {:induction false} PutKeys<V>(d: Dict<V>, k: string, v: V)
    ensures Keys(Put(d, k, v)) == Keys(d) + {k}
  {
    if d != [] {
      if d[0].0 == k {
        assert Put(d, k, v)[1..] == d[1..];
      } else {
        PutKeys(d[1..], k, v);
        assert Put(d, k, v)[1..] == Put(d[1..], k, v);
      }
    }
  }

  /** Setting a key keeps every key once. */
  lemma {:induction false} PutDistinct<V>(d: Dict<V>, k: string, v: V)
    requires Distinct(d)
    ensures Distinct(Put(d, k, v))
  {
    if d != [] {
      if d[0].0 == k {
        assert Put(d, k, v)[1..] == d[1..];
      } else {
        PutDistinct(d[1..], k, v);
        PutKeys(d[1..], k, v);
        assert Put(d, k, v)[1..] == Put(d[1..], k, v);
      }
    }
  }

  /** The dictionary as a map. */
  function AsMap<V>(d: Dict<V>): map<string, V> {
    if d == [] then map[] else AsMap(d[1..])[d[0].0 := d[0].1]
  }

  /** The map holds what a lookup reads. */
  lemma {:induction false} AsMapLookup<V>(d: Dict<V>, k: string)
    ensures k in AsMap(d) <==> Lookup(d, k).Some?
    ensures k in AsMap(d) ==> Some(AsMap(d)[k]) == Lookup(d, k)
  {
    if d != [] {
      AsMapLookup(d[1..], k);
    }
  }

  /** `del d[k]`, for a key that is present. */
  function Remove<V>(d: Dict<V>, k: string): Dict<V> {
    if d == [] then []
    else if d[0].0 == k then Remove(d[1..], k)
    else [d[0]] + Remove(d[1..], k)
  }

  /** After `del d[k]`, `k` is gone and every other key reads as before. */
  lemma {:induction false} RemoveLookup<V>(d: Dict<V>, k: string, k': string)
    ensures Lookup(Remove(d, k), k') == if k' == k then None else Lookup(d, k')
  {
    if d != [] {
      RemoveLookup(d[1..], k, k');
      if d[0].0 != k {
        assert Remove(d, k)[1..] == Remove(d[1..], k);
      }
    }
  }

  /** `a.update(b)`: the entries of `b` set one after the other, in order. */
  function Update<V>(a: Dict<V>, b: Dict<V>): Dict<V> {
    if b == [] then a else Put(Update(a, b[..|b| - 1]), b[|b| - 1].0, b[|b| - 1].1)
  }

  /** After `a.update(b)` a key of `b` reads its value in `b`, any other key its value in `a`. */
  lemma {:induction false} UpdateLookup<V>(a: Dict<V>, b: Dict<V>, k: string)
    requires Distinct(b)
    ensures Lookup(Update(a, b), k) == if k in Keys(b) then Lookup(b, k) else Lookup(a, k)
  {
    if b != [] {
      var init := b[..|b| - 1];
      var last := b[|b| - 1];
      assert b == init + [last];
      SnocDistinct(init, last);
      UpdateLookup(a, init, k);
      PutLookup(Update(a, init), last.0, last.1, k);
      SnocLookup(init, last, k);
      LookupKeys(init, k);
      LookupKeys(b, k);
    }
  }

  /** The keys and lookups of a dictionary with one more entry at the end. */
  lemma {:induction false} SnocLookup<V>(d: Dict<V>, e: (string, V), k: string)
    ensures Keys(d + [e]) == Keys(d) + {e.0}
    ensures Lookup(d + [e], k) == if Lookup(d, k).Some? then Lookup(d, k) else if k == e.0 then Some(e.1) else None
  {
    if d != [] {
      assert (d + [e])[1..] == d[1..] + [e];
      SnocLookup(d[1..], e, k);
    } else {
      assert [e][1..] == [];
    }
  }

  /** A dictionary without repeated keys stays so without its last entry, which is new. */
  lemma {:induction false} SnocDistinct<V>(d: Dict<V>, e: (string, V))
    requires Distinct(d + [e])
    ensures Distinct(d) && e.0 !in Keys(d)
  {
    if d != [] {
      assert (d + [e])[1..] == d[1..] + [e];
      SnocLookup(d[1..], e, e.0);
      SnocDistinct(d[1..], e);
    }
  }
}
