/**
 * Insertion-ordered dictionaries: a JavaScript object with string keys, or a
 * `Map`, iterated by `for…in`/`for…of` in the order its keys were first added.
 */
module OrderedMaps {
  import opened Wrappers

  datatype OMap<V> = OMap(keys: seq<string>, values: map<string, V>) {

    /** Keys are listed once each, and exactly the keys of `values` are listed. */
    ghost predicate Valid() {
      && Distinct(keys)
      && (forall k :: k in values <==> k in keys)
    }

    function Get(k: string): Option<V> {
      if k in values then Some(values[k]) else None
    }

    /** `obj[k] = v`: a new key goes to the end, an existing key keeps its place. */
    function Put(k: string, v: V): (r: OMap<V>)
      ensures Valid() ==> r.Valid()
      ensures r.values == values[k := v]
      ensures r.keys == if k in values then keys else keys + [k]
    {
      if k in values then OMap(keys, values[k := v]) else OMap(keys + [k], values[k := v])
    }

    /** `map.delete(k)`: the other keys keep their order. */
    function Remove(k: string): (r: OMap<V>)
      ensures Valid() ==> r.Valid()
      ensures r.values == values - {k}
      ensures forall x :: x in r.keys <==> x in keys && x != k
      ensures |r.keys| <= |keys|
      ensures Valid() && k in values ==> |r.keys| == |keys| - 1
    {
      OMap(Without(keys, k), values - {k})
    }

    function Count(): nat {
      |keys|
    }
  }

  function Empty<V>(): (r: OMap<V>)
    ensures r.Valid() && r.keys == [] && r.values == map[]
  {
    OMap([], map[])
  }

  /** No key is listed twice. */
  predicate Distinct(xs: seq<string>) {
    forall i, j :: 0 <= i < j < |xs| ==> xs[i] != xs[j]
  }

  /** `xs` with every occurrence of `k` dropped, order kept. */
  function Without(xs: seq<string>, k: string): (r: seq<string>)
    ensures forall x :: x in r <==> x in xs && x != k
    ensures |r| <= |xs|
    ensures k !in xs ==> r == xs
    ensures Distinct(xs) ==> Distinct(r)
    ensures Distinct(xs) && k in xs ==> |r| == |xs| - 1
  {
    if xs == [] then []
    else if xs[0] == k then
      assert Distinct(xs) ==> k !in xs[1..];
      Without(xs[1..], k)
    else
      var rest := Without(xs[1..], k);
      assert Distinct(xs) ==> xs[0] !in rest;
      [xs[0]] + rest
  }
}
