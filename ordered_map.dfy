/** JavaScript `Map` semantics: a finite map whose iteration order is the order
    in which keys were first inserted. `set` on a key that is already present
    replaces its value and keeps its position; `delete` removes the key. */
module OrderedMaps {

  datatype OrderedMap<K(==), V> = OrderedMap(keys: seq<K>, items: map<K, V>)
  {
    /** The key sequence lists every key of `items` exactly once. */
    predicate Valid()
    {
      && (forall i, j | 0 <= i < j < |keys| :: keys[i] != keys[j])
      && (forall k | k in items :: k in keys)
      && (forall i | 0 <= i < |keys| :: keys[i] in items)
    }

    /** `map.size`. */
    function Size(): nat
    {
      |keys|
    }

    /** `map.set(k, v)`. */
    function Set(k: K, v: V): (r: OrderedMap<K, V>)
      requires Valid()
      ensures r.Valid()
      ensures r.items == items[k := v]
      ensures k in items ==> r.keys == keys
      ensures k !in items ==> r.keys == keys + [k]
    {
      OrderedMap(if k in items then keys else keys + [k], items[k := v])
    }

    /** `Array.from(map.values())`: the values in key order. */
    function Values(): (r: seq<V>)
      requires Valid()
      ensures |r| == |keys|
      ensures forall i | 0 <= i < |keys| :: r[i] == items[keys[i]]
    {
      seq(|keys|, i requires 0 <= i < |keys| && Valid() => items[keys[i]])
    }

    /** `map.delete(k)`: the key leaves the order, the others keep theirs. */
    function Remove(k: K): (r: OrderedMap<K, V>)
      requires Valid()
      ensures r.Valid() && r.items == items - {k}
      ensures r.keys == RemoveFrom(keys, k)
    {
      RemoveFromSpec(keys, k);
      OrderedMap(RemoveFrom(keys, k), items - {k})
    }

    /** Replace every value by `f` of it, keeping the keys and their order
        (a loop of `map.set(k, f(v))` over the entries). */
    function MapValues(f: V -> V): (r: OrderedMap<K, V>)
      requires Valid()
      ensures r.Valid() && r.keys == keys && r.items.Keys == items.Keys
      ensures forall k | k in items :: r.items[k] == f(items[k])
    {
      OrderedMap(keys, map k | k in items :: f(items[k]))
    }

    /** Delete every entry whose value fails `keep`, keeping the order of the
        others (a loop of `map.delete(k)` over the entries). */
    function Filter(keep: V -> bool): (r: OrderedMap<K, V>)
      requires Valid()
      ensures r.Valid()
      ensures forall k | k in r.items :: k in items && keep(items[k])
      ensures forall k | k in items && keep(items[k]) :: k in r.items
      ensures forall k | k in r.items :: r.items[k] == items[k]
      ensures r.keys == FilterKeys(keys, items, keep)
    {
      FilterKeysValid(keys, items, keep);
      var ks := FilterKeys(keys, items, keep);
      var m := map k | k in items && keep(items[k]) :: items[k];
      OrderedMap(ks, m)
    }
  }

  function Empty<K(==), V>(): (r: OrderedMap<K, V>)
    ensures r.Valid() && r.Size() == 0 && r.items == map[]
  {
    OrderedMap([], map[])
  }

  /** The keys of `ks` whose value passes `keep`, in their order. */
  function FilterKeys<K(==), V>(ks: seq<K>, items: map<K, V>, keep: V -> bool): (r: seq<K>)
    requires forall i | 0 <= i < |ks| :: ks[i] in items
  {
    if ks == [] then []
    else if keep(items[ks[0]]) then [ks[0]] + FilterKeys(ks[1..], items, keep)
    else FilterKeys(ks[1..], items, keep)
  }

  lemma {:induction false} FilterKeysValid<K, V>(ks: seq<K>, items: map<K, V>, keep: V -> bool)
    requires forall i | 0 <= i < |ks| :: ks[i] in items
    requires forall i, j | 0 <= i < j < |ks| :: ks[i] != ks[j]
    ensures var r := FilterKeys(ks, items, keep);
      && (forall i, j | 0 <= i < j < |r| :: r[i] != r[j])
      && (forall k :: k in r <==> k in ks && keep(items[k]))
      && (forall i | 0 <= i < |r| :: r[i] in items && keep(items[r[i]]))
  {
    if ks != [] {
      FilterKeysValid(ks[1..], items, keep);
      var rest := FilterKeys(ks[1..], items, keep);
      assert ks[0] !in ks[1..];
      assert ks[0] !in rest;
      assert forall k :: k in ks <==> k == ks[0] || k in ks[1..];
    }
  }

  /** `ks` without `k`, in order. */
  function RemoveFrom<K(==)>(ks: seq<K>, k: K): seq<K>
  {
    if ks == [] then [] else if ks[0] == k then RemoveFrom(ks[1..], k) else [ks[0]] + RemoveFrom(ks[1..], k)
  }

  lemma {:induction false} RemoveFromSpec<K>(ks: seq<K>, k: K)
    requires forall i, j | 0 <= i < j < |ks| :: ks[i] != ks[j]
    ensures var r := RemoveFrom(ks, k);
      && (forall i, j | 0 <= i < j < |r| :: r[i] != r[j])
      && (forall x :: x in r <==> x in ks && x != k)
      && (forall i | 0 <= i < |r| :: r[i] in ks && r[i] != k)
  {
    if ks != [] {
      RemoveFromSpec(ks[1..], k);
      assert ks[0] !in ks[1..];
      assert forall x :: x in ks <==> x == ks[0] || x in ks[1..];
    }
  }

  /** Removing a key that occurs once, between `a` and `b`, joins `a` and `b`. */
  lemma {:induction false} RemoveFromMiddle<K>(a: seq<K>, k: K, b: seq<K>)
    requires k !in a && k !in b
    ensures RemoveFrom(a + [k] + b, k) == a + b
  {
    if a == [] {
      assert [k] + b == [k] + b;
      assert (a + [k] + b)[1..] == b;
      RemoveFromAbsent(b, k);
    } else {
      assert (a + [k] + b)[1..] == a[1..] + [k] + b;
      RemoveFromMiddle(a[1..], k, b);
      assert a + b == [a[0]] + (a[1..] + b);
    }
  }

  lemma {:induction false} RemoveFromAbsent<K>(ks: seq<K>, k: K)
    requires k !in ks
    ensures RemoveFrom(ks, k) == ks
  {
    if ks != [] {
      RemoveFromAbsent(ks[1..], k);
    }
  }

  /** `FilterKeys` over a prefix grown by one key. */
  lemma {:induction false} FilterKeysSnoc<K, V>(ks: seq<K>, k: K, items: map<K, V>, keep: V -> bool)
    requires forall i | 0 <= i < |ks| :: ks[i] in items
    requires k in items
    ensures FilterKeys(ks + [k], items, keep) == FilterKeys(ks, items, keep) + (if keep(items[k]) then [k] else [])
  {
    if ks != [] {
      assert (ks + [k])[1..] == ks[1..] + [k];
      FilterKeysSnoc(ks[1..], k, items, keep);
    } else {
      assert [k][1..] == [];
    }
  }

  /** Replacing the value of a present key leaves its position alone:
      iteration still meets every key at the index it had before. */
  lemma SetKeepsPosition<K, V>(m: OrderedMap<K, V>, k: K, v: V, i: int)
    requires m.Valid() && 0 <= i < |m.keys| && m.keys[i] == k
    ensures m.Set(k, v).keys[i] == k && m.Set(k, v).Values()[i] == v
    ensures forall j | 0 <= j < |m.keys| && j != i :: m.Set(k, v).Values()[j] == m.Values()[j]
  {
  }
}
