/** Frequency counting and ranking, the two idioms the analysis code repeats:
    a plain object used as a counter (`acc[k] = (acc[k] || 0) + 1`, whose
    `Object.entries` come back in first-insertion order) and `Array.prototype.sort`
    with a descending comparator (`(a, b) => b.n - a.n`), which is stable. */
module Ranking {

  /** One counter entry: a key and its count. */
  type Entry = (string, nat)

  /** A counter: keys with their counts, in first-insertion order. */
  type Tally = seq<Entry>

  predicate DistinctKeys(t: Tally)
  {
    forall i, j | 0 <= i < j < |t| :: t[i].0 != t[j].0
  }

  function KeysOf(t: Tally): (r: seq<string>)
    ensures |r| == |t| && forall i | 0 <= i < |t| :: r[i] == t[i].0
  {
    if t == [] then [] else [t[0].0] + KeysOf(t[1..])
  }

  /** `acc[k] || 0`. */
  function CountOf(t: Tally, k: string): nat
  {
    if t == [] then 0 else if t[0].0 == k then t[0].1 else CountOf(t[1..], k)
  }

  /** `acc[k] = (acc[k] || 0) + 1`: a present key is counted up in place, a
      new one goes last with count 1. */
  function Bump(t: Tally, k: string): (r: Tally)
    ensures CountOf(r, k) == CountOf(t, k) + 1
    ensures forall j | j != k :: CountOf(r, j) == CountOf(t, j)
  {
    if t == [] then [(k, 1)]
    else if t[0].0 == k then [(k, t[0].1 + 1)] + t[1..]
    else [t[0]] + Bump(t[1..], k)
  }

  /** Bumping keeps the existing keys where they were and adds `k` at the end
      when it is new. */
  lemma {:induction false} BumpKeys(t: Tally, k: string)
    ensures KeysOf(Bump(t, k)) == if k in KeysOf(t) then KeysOf(t) else KeysOf(t) + [k]
  {
    if t != [] && t[0].0 != k {
      BumpKeys(t[1..], k);
    }
  }

  /** Bumping keeps the keys distinct. */
  lemma BumpDistinct(t: Tally, k: string)
    requires DistinctKeys(t)
    ensures DistinctKeys(Bump(t, k))
  {
    BumpKeys(t, k);
    var r := Bump(t, k);
    var kt, kr := KeysOf(t), KeysOf(r);
    forall i, j | 0 <= i < j < |r| ensures r[i].0 != r[j].0 {
      assert r[i].0 == kr[i] && r[j].0 == kr[j];
      if j < |t| {
        assert kr[i] == kt[i] == t[i].0 && kr[j] == kt[j] == t[j].0;
      } else {
        assert kr[j] == k && kr[i] == kt[i] && k !in kt;
      }
    }
  }

  /** Count every element of `ks`, in order, on top of `t`. */
  function TallyAll(t: Tally, ks: seq<string>): (r: Tally)
  {
    if ks == [] then t else Bump(TallyAll(t, ks[..|ks| - 1]), ks[|ks| - 1])
  }

  lemma TallyAllSnoc(t: Tally, ks: seq<string>, k: string)
    ensures TallyAll(t, ks + [k]) == Bump(TallyAll(t, ks), k)
  {
    assert (ks + [k])[..|ks|] == ks;
  }

  /** Counting two runs of keys is counting the first, then the second. */
  lemma {:induction false} TallyAllConcat(t: Tally, a: seq<string>, b: seq<string>)
    ensures TallyAll(t, a + b) == TallyAll(TallyAll(t, a), b)
  {
    if b != [] {
      var init := b[..|b| - 1];
      assert (a + b)[..|a + b| - 1] == a + init;
      TallyAllConcat(t, a, init);
    } else {
      assert a + b == a;
    }
  }

  /** The occurrences of `k` in `ks`. */
  function Occurrences(ks: seq<string>, k: string): nat
  {
    multiset(ks)[k]
  }

  /** A counter built from nothing holds exactly the number of times each key
      occurs, lists each key once, and lists only keys that occur. */
  lemma {:induction false} TallyAllCounts(t: Tally, ks: seq<string>)
    requires DistinctKeys(t)
    ensures DistinctKeys(TallyAll(t, ks))
    ensures forall k :: CountOf(TallyAll(t, ks), k) == CountOf(t, k) + Occurrences(ks, k)
    ensures forall k :: k in KeysOf(TallyAll(t, ks)) <==> k in KeysOf(t) || k in ks
  {
    if ks != [] {
      var init := ks[..|ks| - 1];
      var last := ks[|ks| - 1];
      TallyAllCounts(t, init);
      BumpKeys(TallyAll(t, init), last);
      BumpDistinct(TallyAll(t, init), last);
      assert ks == init + [last];
      assert multiset(ks) == multiset(init) + multiset{last};
      forall k ensures k in ks <==> k in init || k == last {
        assert k in ks <==> k in multiset(ks);
      }
    }
  }

  // ---------------------------------------------------------------
  // Stable descending sort
  // ---------------------------------------------------------------

  predicate SortedDesc<T>(s: seq<T>, key: T -> real)
  {
    forall i, j | 0 <= i < j < |s| :: key(s[i]) >= key(s[j])
  }

  /** Insert `x` in front of the first element whose key is not larger, and
      so after every element with a larger key and before every element with
      the same key. */
  function Insert<T>(x: T, s: seq<T>, key: T -> real): (r: seq<T>)
  {
    if s == [] || key(x) >= key(s[0]) then [x] + s else [s[0]] + Insert(x, s[1..], key)
  }

  /** Insertion sort from the back, so that of two elements with equal keys
      the earlier one stays in front (a stable sort). */
  function SortDesc<T>(s: seq<T>, key: T -> real): (r: seq<T>)
  {
    if s == [] then [] else Insert(s[0], SortDesc(s[1..], key), key)
  }

  /** Every key of the result is below a bound that `x` and all of `s` keep. */
  lemma {:induction false} InsertBound<T>(x: T, s: seq<T>, key: T -> real, b: real)
    requires key(x) <= b && forall i | 0 <= i < |s| :: key(s[i]) <= b
    ensures forall j | 0 <= j < |Insert(x, s, key)| :: key(Insert(x, s, key)[j]) <= b
  {
    if s != [] && key(x) < key(s[0]) {
      InsertBound(x, s[1..], key, b);
    }
  }

  lemma {:induction false} InsertSorted<T>(x: T, s: seq<T>, key: T -> real)
    requires SortedDesc(s, key)
    ensures SortedDesc(Insert(x, s, key), key)
  {
    if s != [] && key(x) < key(s[0]) {
      InsertSorted(x, s[1..], key);
      InsertBound(x, s[1..], key, key(s[0]));
    }
  }

  lemma {:induction false} InsertPerm<T>(x: T, s: seq<T>, key: T -> real)
    ensures multiset(Insert(x, s, key)) == multiset(s) + multiset{x}
  {
    if s != [] && key(x) < key(s[0]) {
      InsertPerm(x, s[1..], key);
      assert s == [s[0]] + s[1..];
    }
  }

  /** The sort yields the same elements ordered by non-increasing key. */
  lemma {:induction false} SortDescSpec<T>(s: seq<T>, key: T -> real)
    ensures SortedDesc(SortDesc(s, key), key)
    ensures multiset(SortDesc(s, key)) == multiset(s)
    ensures |SortDesc(s, key)| == |s|
  {
    SortDescSorted(s, key);
    SortDescPerm(s, key);
    assert |SortDesc(s, key)| == |multiset(SortDesc(s, key))|;
  }

  lemma {:induction false} SortDescSorted<T>(s: seq<T>, key: T -> real)
    ensures SortedDesc(SortDesc(s, key), key)
  {
    if s != [] {
      SortDescSorted(s[1..], key);
      InsertSorted(s[0], SortDesc(s[1..], key), key);
    }
  }

  lemma {:induction false} SortDescPerm<T>(s: seq<T>, key: T -> real)
    ensures multiset(SortDesc(s, key)) == multiset(s)
  {
    if s != [] {
      SortDescPerm(s[1..], key);
      InsertPerm(s[0], SortDesc(s[1..], key), key);
      assert s == [s[0]] + s[1..];
    }
  }

  /** The elements of `s` whose key is `v`, in their order in `s`. */
  function WithKey<T>(s: seq<T>, key: T -> real, v: real): seq<T>
  {
    if s == [] then [] else (if key(s[0]) == v then [s[0]] else []) + WithKey(s[1..], key, v)
  }

  /** Inserting puts `x` in front of every element with the same key and
      leaves the order of the other elements of each key as it was. */
  lemma {:induction false} InsertWithKey<T>(x: T, s: seq<T>, key: T -> real, v: real)
    ensures WithKey(Insert(x, s, key), key, v) == (if key(x) == v then [x] else []) + WithKey(s, key, v)
  {
    var r := Insert(x, s, key);
    if s == [] || key(x) >= key(s[0]) {
      assert r[0] == x && r[1..] == s;
    } else {
      InsertWithKey(x, s[1..], key, v);
      assert r[0] == s[0] && r[1..] == Insert(x, s[1..], key);
    }
  }

  /** The sort is stable: the elements of any one key come out in the order
      they went in. */
  lemma {:induction false} SortDescStable<T>(s: seq<T>, key: T -> real, v: real)
    ensures WithKey(SortDesc(s, key), key, v) == WithKey(s, key, v)
  {
    if s != [] {
      SortDescStable(s[1..], key, v);
      InsertWithKey(s[0], SortDesc(s[1..], key), key, v);
    }
  }

  /** A sorted sequence keeps its order when cut down to a prefix. */
  lemma SortedPrefix<T>(s: seq<T>, key: T -> real, n: nat)
    requires SortedDesc(s, key) && n <= |s|
    ensures SortedDesc(s[..n], key)
  {
  }

  /** `array.slice(0, n)`. */
  function Take<T>(s: seq<T>, n: nat): (r: seq<T>)
    ensures |r| == if |s| <= n then |s| else n
    ensures r == s[..|r|]
  {
    if |s| <= n then s else s[..n]
  }

  // ---------------------------------------------------------------
  // Counting then ranking
  // ---------------------------------------------------------------

  /** The count of an entry, as the sort key of `(a, b) => b[1] - a[1]`. */
  function ByCount(e: Entry): real
  {
    e.1 as real
  }

  /** Count the keys and order the counter's entries by falling count, ties
      in first-seen order (`Object.entries(counts).sort((a, b) => b[1] - a[1])`). */
  function Ranked(ks: seq<string>): Tally
  {
    SortDesc(TallyAll([], ks), ByCount)
  }

  /** Inserting adds the key of `x` to the keys and nothing else. */
  lemma {:induction false} InsertKeys(x: Entry, s: Tally, key: Entry -> real)
    ensures forall k :: k in KeysOf(Insert(x, s, key)) <==> k == x.0 || k in KeysOf(s)
  {
    if s != [] && key(x) < key(s[0]) {
      InsertKeys(x, s[1..], key);
      assert KeysOf(s) == [s[0].0] + KeysOf(s[1..]);
      assert KeysOf(Insert(x, s, key)) == [s[0].0] + KeysOf(Insert(x, s[1..], key));
    }
  }

  /** Every entry of the result is `x` or an entry of `s`. */
  lemma {:induction false} InsertMembers(x: Entry, s: Tally, key: Entry -> real)
    ensures forall i | 0 <= i < |Insert(x, s, key)| :: Insert(x, s, key)[i] == x || Insert(x, s, key)[i] in s
  {
    if s != [] && key(x) < key(s[0]) {
      InsertMembers(x, s[1..], key);
      var rest := Insert(x, s[1..], key);
      assert Insert(x, s, key) == [s[0]] + rest;
      forall i | 1 <= i < |rest| + 1 ensures ([s[0]] + rest)[i] == x || ([s[0]] + rest)[i] in s {
        assert ([s[0]] + rest)[i] == rest[i - 1];
      }
    }
  }

  /** Inserting a new key keeps the keys distinct. */
  lemma {:induction false} InsertDistinct(x: Entry, s: Tally, key: Entry -> real)
    requires DistinctKeys(s) && x.0 !in KeysOf(s)
    ensures DistinctKeys(Insert(x, s, key))
  {
    if s != [] && key(x) < key(s[0]) {
      assert KeysOf(s) == [s[0].0] + KeysOf(s[1..]);
      InsertDistinct(x, s[1..], key);
      InsertKeys(x, s[1..], key);
      var rest := Insert(x, s[1..], key);
      assert s[0].0 !in KeysOf(rest);
      assert Insert(x, s, key) == [s[0]] + rest;
    }
  }

  lemma {:induction false} SortTally(t: Tally, key: Entry -> real)
    ensures forall k :: k in KeysOf(SortDesc(t, key)) <==> k in KeysOf(t)
    ensures forall i | 0 <= i < |SortDesc(t, key)| :: SortDesc(t, key)[i] in t
    ensures DistinctKeys(t) ==> DistinctKeys(SortDesc(t, key))
  {
    if t != [] {
      SortTally(t[1..], key);
      InsertKeys(t[0], SortDesc(t[1..], key), key);
      InsertMembers(t[0], SortDesc(t[1..], key), key);
      assert KeysOf(t) == [t[0].0] + KeysOf(t[1..]);
      if DistinctKeys(t) {
        assert DistinctKeys(t[1..]);
        assert t[0].0 !in KeysOf(t[1..]);
        InsertDistinct(t[0], SortDesc(t[1..], key), key);
      }
    }
  }

  /** In a counter with distinct keys every entry holds the key's count. */
  lemma {:induction false} CountOfMember(t: Tally, i: int)
    requires DistinctKeys(t) && 0 <= i < |t|
    ensures CountOf(t, t[i].0) == t[i].1
  {
    if i > 0 {
      assert t[0].0 != t[i].0;
      CountOfMember(t[1..], i - 1);
    }
  }

  /** The ranking lists every counted key exactly once, with the number of
      its occurrences, ordered by falling count. */
  lemma {:induction false} RankedSpec(ks: seq<string>)
    ensures DistinctKeys(Ranked(ks))
    ensures SortedDesc(Ranked(ks), ByCount)
    ensures forall k :: k in KeysOf(Ranked(ks)) <==> k in ks
    ensures forall i | 0 <= i < |Ranked(ks)| :: Ranked(ks)[i].1 == Occurrences(ks, Ranked(ks)[i].0)
  {
    var t := TallyAll([], ks);
    TallyAllCounts([], ks);
    SortTally(t, ByCount);
    SortDescSpec(t, ByCount);
    var r := Ranked(ks);
    forall i | 0 <= i < |r| ensures r[i].1 == Occurrences(ks, r[i].0) {
      var m :| 0 <= m < |t| && t[m] == r[i];
      CountOfMember(t, m);
    }
  }
}
