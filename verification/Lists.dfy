/** Facts about lists and finite maps that several components share: sums over a map,
    subsequences, and the ranked truncation ("sort descending, keep k") that both the
    east-west graph and the prober table end with. */
module Lists {

  // ---- sums over a finite map ------------------------------------------------------

  ghost function SumMap<K>(m: map<K, nat>): nat {
    if m == map[] then 0 else var k :| k in m; m[k] + SumMap(m - {k})
  }

  /** The sum does not depend on the order in which keys are taken. */
  lemma {:induction false} SumMapAnyKey<K>(m: map<K, nat>, k: K)
    requires k in m
    ensures SumMap(m) == m[k] + SumMap(m - {k})
    decreases |m|
  {
    var j :| j in m && SumMap(m) == m[j] + SumMap(m - {j});
    if j != k {
      SumMapAnyKey(m - {j}, k);
      SumMapAnyKey(m - {k}, j);
      assert m - {j} - {k} == m - {k} - {j};
    }
  }

  lemma SumMapUpdate<K>(m: map<K, nat>, k: K, v: nat)
    ensures SumMap(m[k := v]) + (if k in m then m[k] else 0) == SumMap(m) + v
  {
    SumMapAnyKey(m[k := v], k);
    assert m[k := v] - {k} == m - {k};
    if k in m {
      SumMapAnyKey(m, k);
    } else {
      assert m - {k} == m;
    }
  }

  /** A map splits along any set of keys. */
  lemma {:induction false} SumMapSplit<K>(m: map<K, nat>, ks: set<K>)
    ensures SumMap(m) == SumMap(m - ks) + SumMap(map k | k in m && k in ks :: m[k])
    decreases |m|
  {
    var inside := map k | k in m && k in ks :: m[k];
    if m == map[] {
      assert inside == map[];
    } else {
      var k :| k in m;
      SumMapAnyKey(m, k);
      SumMapSplit(m - {k}, ks);
      var inside' := map j | j in m - {k} && j in ks :: (m - {k})[j];
      if k in ks {
        SumMapAnyKey(inside, k);
        assert inside - {k} == inside';
        assert m - {k} - ks == m - ks;
      } else {
        SumMapAnyKey(m - ks, k);
        assert inside == inside';
        assert m - ks - {k} == m - {k} - ks;
      }
    }
  }

  lemma {:induction false} SumMapZero<K>(m: map<K, nat>)
    ensures SumMap(m) == 0 <==> forall k :: k in m ==> m[k] == 0
    decreases |m|
  {
    if m != map[] {
      forall k | k in m && SumMap(m) == 0 ensures m[k] == 0 {
        SumMapAnyKey(m, k);
      }
      if forall k :: k in m ==> m[k] == 0 {
        var k :| k in m;
        SumMapAnyKey(m, k);
        SumMapZero(m - {k});
      }
    }
  }

  // ---- filters and subsequences ------------------------------------------------------

  function Filter<T>(s: seq<T>, p: T -> bool): seq<T> {
    if s == [] then []
    else Filter(s[..|s| - 1], p) + (if p(s[|s| - 1]) then [s[|s| - 1]] else [])
  }

  function Take<T>(k: nat, s: seq<T>): seq<T> {
    if |s| <= k then s else s[..k]
  }

  /** a is obtained from b by leaving elements out. */
  ghost predicate Subsequence<T>(a: seq<T>, b: seq<T>) {
    a == [] ||
    (b != [] && (Subsequence(a, b[..|b| - 1])
                 || (a[|a| - 1] == b[|b| - 1] && Subsequence(a[..|a| - 1], b[..|b| - 1]))))
  }

  lemma SubsequenceSkip<T>(a: seq<T>, b: seq<T>, x: T)
    requires Subsequence(a, b)
    ensures Subsequence(a, b + [x])
  {
    assert (b + [x])[..|b|] == b;
  }

  lemma SubsequenceKeep<T>(a: seq<T>, b: seq<T>, x: T)
    requires Subsequence(a, b)
    ensures Subsequence(a + [x], b + [x])
  {
    assert (b + [x])[..|b|] == b && (a + [x])[..|a|] == a;
  }

  lemma {:induction false} SubsequenceOfItself<T>(a: seq<T>)
    ensures Subsequence(a, a)
  {
    if a != [] {
      SubsequenceOfItself(a[..|a| - 1]);
    }
  }

  lemma FilterAppend<T>(s: seq<T>, x: T, p: T -> bool)
    ensures Filter(s + [x], p) == Filter(s, p) + (if p(x) then [x] else [])
  {
    assert (s + [x])[..|s|] == s;
  }

  lemma {:induction false} FilterConcat<T>(s: seq<T>, t: seq<T>, p: T -> bool)
    ensures Filter(s + t, p) == Filter(s, p) + Filter(t, p)
  {
    if t == [] {
      assert s + t == s;
    } else {
      var t', x := t[..|t| - 1], t[|t| - 1];
      FilterConcat(s, t', p);
      assert s + t == (s + t') + [x];
      FilterAppend(s + t', x, p);
    }
  }

  /** What a filter keeps: the elements with the property, */
  lemma {:induction false} FilterMembers<T>(s: seq<T>, p: T -> bool)
    ensures forall x :: x in Filter(s, p) <==> x in s && p(x)
  {
    if s != [] {
      FilterMembers(s[..|s| - 1], p);
      assert s == s[..|s| - 1] + [s[|s| - 1]];
    }
  }

  /** in their order, */
  lemma {:induction false} FilterIsSubsequence<T>(s: seq<T>, p: T -> bool)
    ensures Subsequence(Filter(s, p), s)
  {
    if s != [] {
      var init, x := s[..|s| - 1], s[|s| - 1];
      FilterIsSubsequence(init, p);
      SubsequenceKeep(Filter(init, p), init, x);
      SubsequenceSkip(Filter(init, p), init, x);
      assert s == init + [x];
      FilterAppend(init, x, p);
      assert Filter(init, p) + [] == Filter(init, p);
    }
  }

  /** and each as often as it occurs. */
  lemma {:induction false} FilterCounts<T>(s: seq<T>, p: T -> bool)
    ensures forall x :: multiset(Filter(s, p))[x] == if p(x) then multiset(s)[x] else 0
  {
    if s != [] {
      var init, x := s[..|s| - 1], s[|s| - 1];
      FilterCounts(init, p);
      assert s == init + [x];
    }
  }

  // ---- sort descending and keep k -------------------------------------------------------

  ghost predicate Descending<T>(s: seq<T>, key: T -> nat) {
    forall i, j :: 0 <= i < j < |s| ==> key(s[i]) >= key(s[j])
  }

  function SumKeys<T>(s: seq<T>, key: T -> nat): nat {
    if s == [] then 0 else SumKeys(s[..|s| - 1], key) + key(s[|s| - 1])
  }

  /** out is a ranked selection of k from the pool: in order, as many as there are up to k,
      nothing invented or repeated, and nothing left behind that outranks what was kept. */
  ghost predicate TopOf<T>(out: seq<T>, pool: multiset<T>, k: nat, key: T -> nat) {
    && Descending(out, key)
    && |out| == (if |pool| <= k then |pool| else k)
    && multiset(out) <= pool
    && forall x, y :: x in out && y in pool - multiset(out) ==> key(x) >= key(y)
  }

  function InsertAt<T>(r: seq<T>, p: nat, x: T): (t: seq<T>)
    requires p <= |r|
    ensures |t| == |r| + 1 && t[p] == x
    ensures forall i :: 0 <= i < p ==> t[i] == r[i]
    ensures forall i :: p < i < |t| ==> t[i] == r[i - 1]
  {
    r[..p] + [x] + r[p..]
  }

  lemma InsertInOrder<T>(r: seq<T>, p: nat, x: T, key: T -> nat)
    requires p <= |r| && Descending(r, key)
    requires p > 0 ==> key(r[p - 1]) >= key(x)
    requires p < |r| ==> key(x) >= key(r[p])
    ensures Descending(InsertAt(r, p, x), key)
  {
    var t := InsertAt(r, p, x);
    forall i, j | 0 <= i < j < |t| ensures key(t[i]) >= key(t[j]) {
      if i < p {
        if j == p { assert key(r[i]) >= key(r[p - 1]); }
      } else if i == p {
        assert key(r[p]) >= key(r[j - 1]);
      }
    }
  }

  lemma InsertMultiset<T>(r: seq<T>, p: nat, x: T)
    requires p <= |r|
    ensures multiset(InsertAt(r, p, x)) == multiset(r) + multiset{x}
  {
    assert r == r[..p] + r[p..];
  }

  /** What sort.Slice promises: the same elements, in order; equal keys in any order. */
  method SortSlice<T>(s: seq<T>, key: T -> nat) returns (r: seq<T>)
    ensures multiset(r) == multiset(s) && Descending(r, key)
  {
    r := [];
    for i := 0 to |s|
      invariant multiset(r) == multiset(s[..i]) && Descending(r, key)
    {
      var x, p := s[i], |r|;
      while p > 0 && key(r[p - 1]) < key(x)
        invariant 0 <= p <= |r|
        invariant p < |r| ==> key(r[p]) < key(x)
      {
        p := p - 1;
      }
      InsertInOrder(r, p, x, key);
      InsertMultiset(r, p, x);
      assert s[..i + 1] == s[..i] + [x];
      r := InsertAt(r, p, x);
    }
    assert s[..|s|] == s;
  }

  /** Truncating a sorted list selects the top of it. */
  lemma TruncateIsTop<T>(s: seq<T>, k: nat, key: T -> nat)
    requires Descending(s, key)
    ensures TopOf(Take(k, s), multiset(s), k, key)
  {
    if |s| > k {
      CutIsTop(s, s[..k], s[k..], key);
    }
  }

  lemma CutIsTop<T>(s: seq<T>, kept: seq<T>, dropped: seq<T>, key: T -> nat)
    requires Descending(s, key) && s == kept + dropped
    ensures TopOf(kept, multiset(s), |kept|, key)
  {
    forall i, j | 0 <= i < |kept| && 0 <= j < |dropped| ensures key(kept[i]) >= key(dropped[j]) {
      assert kept[i] == s[i] && dropped[j] == s[|kept| + j];
    }
    forall i, j | 0 <= i < j < |kept| ensures key(kept[i]) >= key(kept[j]) {
      assert kept[i] == s[i] && kept[j] == s[j];
    }
    MultisetCut(s, kept, dropped);
    forall x, y | x in kept && y in multiset(s) - multiset(kept) ensures key(x) >= key(y) {
      assert y in multiset(dropped);
      assert x in kept && y in dropped;
    }
  }

  lemma MultisetCut<T>(s: seq<T>, kept: seq<T>, dropped: seq<T>)
    requires s == kept + dropped
    ensures multiset(s) - multiset(kept) == multiset(dropped) && multiset(kept) <= multiset(s)
  {
    assert multiset(s) == multiset(kept) + multiset(dropped);
  }

  lemma {:induction false} SumKeysConcat<T>(s: seq<T>, t: seq<T>, key: T -> nat)
    ensures SumKeys(s + t, key) == SumKeys(s, key) + SumKeys(t, key)
  {
    if t == [] {
      assert s + t == s;
    } else {
      SumKeysConcat(s, t[..|t| - 1], key);
      assert (s + t)[..|s + t| - 1] == s + t[..|t| - 1];
    }
  }

  /** The sum depends on the elements only, not on their order. */
  lemma {:induction false} SumKeysPermutation<T>(s: seq<T>, t: seq<T>, key: T -> nat)
    requires multiset(s) == multiset(t)
    ensures SumKeys(s, key) == SumKeys(t, key)
    decreases |s|
  {
    if s == [] {
      assert |t| == |multiset(t)| == |multiset(s)|;
    } else {
      var init, x := s[..|s| - 1], s[|s| - 1];
      assert s == init + [x];
      assert x in multiset(t);
      var i :| 0 <= i < |t| && t[i] == x;
      assert t == t[..i] + [x] + t[i + 1..];
      assert multiset(t) == multiset(t[..i]) + multiset{x} + multiset(t[i + 1..]);
      assert multiset(s) == multiset(init) + multiset{x};
      assert multiset(init) == multiset(s) - multiset{x};
      assert multiset(t[..i] + t[i + 1..]) == multiset(t) - multiset{x};
      SumKeysPermutation(init, t[..i] + t[i + 1..], key);
      SumKeysConcat(t[..i], t[i + 1..], key);
      SumKeysConcat(t[..i] + [x], t[i + 1..], key);
      SumKeysConcat(t[..i], [x], key);
    }
  }

  lemma {:induction false} SumKeysBelow<T>(s: seq<T>, key: T -> nat, hi: int)
    requires forall x :: x in s ==> key(x) <= hi
    ensures SumKeys(s, key) <= |s| * hi
  {
    if s != [] {
      SumKeysBelow(s[..|s| - 1], key, hi);
      assert |s| * hi == (|s| - 1) * hi + hi;
    }
  }

  lemma {:induction false} SumKeysAbove<T>(s: seq<T>, key: T -> nat, lo: int)
    requires forall x :: x in s ==> key(x) >= lo
    ensures SumKeys(s, key) >= |s| * lo
  {
    if s != [] {
      SumKeysAbove(s[..|s| - 1], key, lo);
      assert |s| * lo == (|s| - 1) * lo + lo;
    }
  }

  /** part out of whole, in number parts out of wholes: at least the proportional share. */
  predicate FairShare(part: nat, parts: nat, whole: nat, wholes: nat) {
    part * wholes >= parts * whole
  }

  lemma CrossBound(kept: nat, dropped: nat, total: nat, k: nat, rest: nat, n: nat, x: nat)
    requires kept >= k * x && dropped <= rest * x
    requires total == kept + dropped && n == k + rest
    ensures FairShare(kept, k, total, n)
  {
    assert kept * rest >= (k * x) * rest;
    assert k * dropped <= k * (rest * x);
    assert (k * x) * rest == k * (rest * x);
    assert kept * n == kept * k + kept * rest;
    assert k * total == k * kept + k * dropped;
  }

  lemma CutShare<T>(s: seq<T>, kept: seq<T>, dropped: seq<T>, key: T -> nat, x: nat)
    requires s == kept + dropped
    requires forall r :: r in kept ==> key(r) >= x
    requires forall r :: r in dropped ==> key(r) <= x
    ensures FairShare(SumKeys(kept, key), |kept|, SumKeys(s, key), |s|)
  {
    SumKeysAbove(kept, key, x);
    SumKeysBelow(dropped, key, x);
    SumKeysConcat(kept, dropped, key);
    CrossBound(SumKeys(kept, key), SumKeys(dropped, key), SumKeys(s, key), |kept|, |dropped|, |s|, x);
  }

  /** The kept rows carry at least their proportional share of the total: the average
      count of what is shown is never below the average count of everything. */
  lemma TopCarriesItsShare<T>(s: seq<T>, k: nat, key: T -> nat)
    requires Descending(s, key)
    ensures FairShare(SumKeys(Take(k, s), key), |Take(k, s)|, SumKeys(s, key), |s|)
  {
    if 0 < k < |s| {
      CutShare(s, s[..k], s[k..], key, key(s[k - 1]));
    }
  }

  // ---- listing the values of a map in any order, then ranking them --------------------------------

  ghost function Keyed<K, R>(m: map<K, R>, key: R -> nat): map<K, nat> {
    map k | k in m :: key(m[k])
  }

  ghost function Part<K, R>(m: map<K, R>, ks: set<K>): map<K, R> {
    map k | k in ks && k in m :: m[k]
  }

  ghost predicate Distinct<K, R>(m: map<K, R>) {
    forall j, k :: j in m && k in m && m[j] == m[k] ==> j == k
  }

  /** all lists the values of m, except those under the keys in todo. */
  ghost predicate Pending<K, R>(all: seq<R>, m: map<K, R>, todo: set<K>, key: R -> nat) {
    && todo <= m.Keys
    && multiset(all) + multiset(Part(m, todo).Values) == multiset(m.Values)
    && |all| + |todo| == |m|
    && SumKeys(all, key) + SumMap(Keyed(Part(m, todo), key)) == SumMap(Keyed(m, key))
  }

  lemma CollectNext<K, R>(all: seq<R>, m: map<K, R>, todo: set<K>, k: K, key: R -> nat)
    requires Distinct(m) && Pending(all, m, todo, key) && k in todo
    ensures Pending(all + [m[k]], m, todo - {k}, key)
  {
    var p, p' := Part(m, todo), Part(m, todo - {k});
    assert p.Values == p'.Values + {m[k]} by {
      assert forall j :: j in p ==> j == k || (j in p' && p'[j] == p[j]);
      assert forall j :: j in p' ==> j in p && p[j] == p'[j];
      assert k in p && p[k] == m[k];
    }
    assert m[k] !in p'.Values;
    SumMapAnyKey(Keyed(p, key), k);
    assert Keyed(p, key) - {k} == Keyed(p', key);
    assert (all + [m[k]])[..|all|] == all;
  }

  lemma CollectEnds<K, R>(all: seq<R>, m: map<K, R>, key: R -> nat)
    ensures Pending([], m, m.Keys, key)
    ensures Pending(all, m, {}, key) ==>
              multiset(all) == multiset(m.Values) && |all| == |m| && SumKeys(all, key) == SumMap(Keyed(m, key))
  {
    assert Part(m, m.Keys) == m;
    assert Part(m, {}) == map[] && Keyed(Part(m, {}), key) == map[];
  }

  /** Listing a map's rows, sorting and truncating keeps the top rows, and they carry at
      least their share of the total. */
  lemma RankedTop<K, R>(rows: seq<R>, all: seq<R>, m: map<K, R>, k: nat, key: R -> nat)
    requires Pending(rows, m, {}, key)
    requires multiset(all) == multiset(rows) && Descending(all, key)
    ensures multiset(all) == multiset(m.Values)
    ensures TopOf(Take(k, all), multiset(m.Values), k, key)
    ensures FairShare(SumKeys(Take(k, all), key), |Take(k, all)|, SumMap(Keyed(m, key)), |m|)
  {
    CollectEnds(rows, m, key);
    TruncateIsTop(all, k, key);
    TopCarriesItsShare(all, k, key);
    SumKeysPermutation(all, rows, key);
    assert |all| == |multiset(all)| == |multiset(rows)| == |rows|;
  }
}
