/**
 Stable descending sort by an integer key, as `Array.prototype.sort` performs it (section
 23.1.3.30 of ECMA-262 ES2023 requires stability), and what determines its result.
 */
module StableSort {

  function Insert<T>(x: T, ys: seq<T>, key: T -> int): seq<T> {
    if ys == [] || key(x) >= key(ys[0]) then [x] + ys else [ys[0]] + Insert(x, ys[1..], key)
  }

  /** Sorted by descending key; entries with equal keys keep their order. */
  function SortDesc<T>(xs: seq<T>, key: T -> int): seq<T> {
    if xs == [] then [] else Insert(xs[0], SortDesc(xs[1..], key), key)
  }

  function Filter<T>(xs: seq<T>, p: T -> bool): seq<T> {
    if xs == [] then [] else if p(xs[0]) then [xs[0]] + Filter(xs[1..], p) else Filter(xs[1..], p)
  }

  function WithKey<T>(xs: seq<T>, key: T -> int, k: int): seq<T> {
    if xs == [] then []
    else if key(xs[0]) == k then [xs[0]] + WithKey(xs[1..], key, k)
    else WithKey(xs[1..], key, k)
  }

  predicate Descending<T>(ys: seq<T>, key: T -> int) {
    forall i, j :: 0 <= i < j < |ys| ==> key(ys[i]) >= key(ys[j])
  }

  /** `ys` is `xs` in descending order, and each group of equal keys is in its original order. */
  ghost predicate IsStableSort<T>(xs: seq<T>, ys: seq<T>, key: T -> int) {
    var ok := Descending(ys, key) && forall k :: WithKey(ys, key, k) == WithKey(xs, key, k);
    ok
  }

  lemma WithKeyCons<T>(x: T, ys: seq<T>, key: T -> int, k: int)
    ensures WithKey([x] + ys, key, k) == (if key(x) == k then [x] else []) + WithKey(ys, key, k)
  {
    assert ([x] + ys)[1..] == ys;
  }

  lemma {:induction false} InsertKeepsGroups<T>(x: T, ys: seq<T>, key: T -> int, k: int)
    requires Descending(ys, key)
    ensures WithKey(Insert(x, ys, key), key, k) == WithKey([x] + ys, key, k)
  {
    if ys != [] && key(x) < key(ys[0]) {
      InsertKeepsGroups(x, ys[1..], key, k);
      WithKeyCons(x, ys[1..], key, k);
      WithKeyCons(ys[0], Insert(x, ys[1..], key), key, k);
      WithKeyCons(x, ys, key, k);
    }
  }

  lemma {:induction false} InsertPermutes<T>(x: T, ys: seq<T>, key: T -> int)
    ensures multiset(Insert(x, ys, key)) == multiset{x} + multiset(ys)
    ensures forall y :: y in Insert(x, ys, key) ==> y == x || y in ys
  {
    if ys != [] && key(x) < key(ys[0]) {
      InsertPermutes(x, ys[1..], key);
      assert ys == [ys[0]] + ys[1..];
    }
  }

  lemma {:induction false} InsertDescends<T>(x: T, ys: seq<T>, key: T -> int)
    requires Descending(ys, key)
    ensures Descending(Insert(x, ys, key), key)
  {
    if ys != [] && key(x) < key(ys[0]) {
      InsertDescends(x, ys[1..], key);
      InsertPermutes(x, ys[1..], key);
      forall y | y in Insert(x, ys[1..], key) ensures key(ys[0]) >= key(y) {
        assert y == x || y in ys[1..];
      }
    }
  }

  lemma {:induction false} SortIsStable<T>(xs: seq<T>, key: T -> int)
    ensures IsStableSort(xs, SortDesc(xs, key), key)
    ensures multiset(SortDesc(xs, key)) == multiset(xs)
  {
    if xs == [] {
    } else {
      SortIsStable(xs[1..], key);
      var rest := SortDesc(xs[1..], key);
      InsertDescends(xs[0], rest, key);
      InsertPermutes(xs[0], rest, key);
      assert xs == [xs[0]] + xs[1..];
      forall k ensures WithKey(SortDesc(xs, key), key, k) == WithKey(xs, key, k) {
        InsertKeepsGroups(xs[0], rest, key, k);
        WithKeyCons(xs[0], rest, key, k);
        assert WithKey(rest, key, k) == WithKey(xs[1..], key, k);
      }
    }
  }

  lemma {:induction false} WithKeyHead<T>(ys: seq<T>, key: T -> int, k: int)
    ensures WithKey(ys, key, k) != [] ==>
              exists i :: 0 <= i < |ys| && key(ys[i]) == k && ys[i] == WithKey(ys, key, k)[0]
  {
    if ys != [] && key(ys[0]) != k {
      WithKeyHead(ys[1..], key, k);
      if WithKey(ys[1..], key, k) != [] {
        var i :| 0 <= i < |ys[1..]| && key(ys[1..][i]) == k && ys[1..][i] == WithKey(ys[1..], key, k)[0];
        assert ys[i + 1] == ys[1..][i];
      }
    } else if ys != [] {
      assert ys[0] == WithKey(ys, key, k)[0];
    }
  }

  lemma HeadGroup<T>(ys: seq<T>, key: T -> int)
    ensures ys != [] ==> WithKey(ys, key, key(ys[0])) != []
  {
  }

  /** A descending sequence is determined by its groups of equal keys. */
  lemma {:induction false} GroupsDetermine<T>(ys: seq<T>, zs: seq<T>, key: T -> int)
    requires Descending(ys, key) && Descending(zs, key)
    requires forall k :: WithKey(ys, key, k) == WithKey(zs, key, k)
    ensures ys == zs
  {
    if ys == [] {
      HeadGroup(zs, key);
    } else {
      var k := key(ys[0]);
      assert WithKey(zs, key, k) == WithKey(ys, key, k) != [];
      WithKeyHead(zs, key, k);
      assert zs != [];
      assert WithKey(ys, key, key(zs[0])) == WithKey(zs, key, key(zs[0])) != [];
      WithKeyHead(ys, key, key(zs[0]));
      assert key(zs[0]) == k;
      assert ys[0] == zs[0];
      forall j ensures WithKey(ys[1..], key, j) == WithKey(zs[1..], key, j) {
        assert WithKey(ys, key, j) == WithKey(zs, key, j);
        if j == k {
          assert WithKey(ys, key, j)[1..] == WithKey(ys[1..], key, j);
          assert WithKey(zs, key, j)[1..] == WithKey(zs[1..], key, j);
        }
      }
      GroupsDetermine(ys[1..], zs[1..], key);
    }
  }

  /** Whatever algorithm is used, a stable descending sort has exactly one result. */
  lemma StableSortIsUnique<T>(xs: seq<T>, ys: seq<T>, key: T -> int)
    ensures IsStableSort(xs, ys, key) <==> ys == SortDesc(xs, key)
  {
    SortIsStable(xs, key);
    if IsStableSort(xs, ys, key) {
      var zs := SortDesc(xs, key);
      forall k ensures WithKey(ys, key, k) == WithKey(zs, key, k) {
        assert WithKey(ys, key, k) == WithKey(xs, key, k);
        assert WithKey(zs, key, k) == WithKey(xs, key, k);
      }
      GroupsDetermine(ys, zs, key);
    }
  }

  lemma FilterCons<T>(x: T, ys: seq<T>, p: T -> bool)
    ensures Filter([x] + ys, p) == (if p(x) then [x] else []) + Filter(ys, p)
  {
    assert ([x] + ys)[1..] == ys;
  }

  lemma {:induction false} FilterSnoc<T>(ys: seq<T>, x: T, p: T -> bool)
    ensures Filter(ys + [x], p) == Filter(ys, p) + if p(x) then [x] else []
  {
    if ys == [] {
      FilterCons(x, [], p);
      assert ys + [x] == [x] + [];
    } else {
      FilterSnoc(ys[1..], x, p);
      FilterCons(ys[0], ys[1..] + [x], p);
      assert ys + [x] == [ys[0]] + (ys[1..] + [x]);
    }
  }

  lemma {:induction false} FilterWithKey<T>(xs: seq<T>, p: T -> bool, key: T -> int, k: int)
    ensures WithKey(Filter(xs, p), key, k) == Filter(WithKey(xs, key, k), p)
  {
    if xs == [] {
    } else {
      FilterWithKey(xs[1..], p, key, k);
      WithKeyCons(xs[0], Filter(xs[1..], p), key, k);
      FilterCons(xs[0], WithKey(xs[1..], key, k), p);
    }
  }

  lemma {:induction false} FilterMember<T>(xs: seq<T>, p: T -> bool, x: T)
    ensures x in Filter(xs, p) <==> x in xs && p(x)
  {
    if xs == [] {
    } else {
      FilterMember(xs[1..], p, x);
      assert xs == [xs[0]] + xs[1..];
    }
  }

  ghost function Chosen<T>(xs: seq<T>, p: T -> bool): set<T> { set x | x in xs && p(x) }

  lemma ChosenCons<T>(x: T, xs: seq<T>, p: T -> bool)
    ensures Chosen([x] + xs, p) == if p(x) then {x} + Chosen(xs, p) else Chosen(xs, p)
  {
  }

  /** Filtering a sequence without repetitions keeps each selected entry once. */
  lemma {:induction false} FilterOnce<T>(xs: seq<T>, p: T -> bool)
    requires forall i, j :: 0 <= i < j < |xs| ==> xs[i] != xs[j]
    ensures multiset(Filter(xs, p)) == multiset(Chosen(xs, p))
  {
    if xs == [] {
    } else {
      FilterOnce(xs[1..], p);
      assert xs == [xs[0]] + xs[1..];
      ChosenCons(xs[0], xs[1..], p);
      assert xs[0] !in Chosen(xs[1..], p);
    }
  }

  predicate ExactlyOne(a: bool, b: bool, c: bool) { (a && !b && !c) || (!a && b && !c) || (!a && !b && c) }

  lemma ConsIntoPart<T>(x: T, rest: seq<T>, a: seq<T>, b: seq<T>, c: seq<T>)
    requires multiset(rest) == multiset(a) + multiset(b) + multiset(c)
    ensures multiset([x] + rest) == multiset([x] + a) + multiset(b) + multiset(c)
    ensures multiset([x] + rest) == multiset(a) + multiset([x] + b) + multiset(c)
    ensures multiset([x] + rest) == multiset(a) + multiset(b) + multiset([x] + c)
  {
    assert multiset([x] + rest) == multiset{x} + multiset(rest);
    assert multiset([x] + a) == multiset{x} + multiset(a);
    assert multiset([x] + b) == multiset{x} + multiset(b);
    assert multiset([x] + c) == multiset{x} + multiset(c);
  }

  /** Three tests of which each entry passes exactly one split a sequence into three parts. */
  lemma {:induction false} FilterPartition<T>(xs: seq<T>, p: T -> bool, q: T -> bool, r: T -> bool)
    requires forall x :: x in xs ==> ExactlyOne(p(x), q(x), r(x))
    ensures multiset(xs) == multiset(Filter(xs, p)) + multiset(Filter(xs, q)) + multiset(Filter(xs, r))
  {
    if xs == [] {
    } else {
      var x, rest := xs[0], xs[1..];
      assert xs == [x] + rest;
      assert ExactlyOne(p(x), q(x), r(x));
      FilterPartition(rest, p, q, r);
      ConsIntoPart(x, rest, Filter(rest, p), Filter(rest, q), Filter(rest, r));
    }
  }

  lemma {:induction false} FilterDescends<T>(xs: seq<T>, p: T -> bool, key: T -> int)
    requires Descending(xs, key)
    ensures Descending(Filter(xs, p), key)
  {
    if xs == [] {
    } else {
      FilterDescends(xs[1..], p, key);
      forall y | y in Filter(xs[1..], p) ensures key(xs[0]) >= key(y) {
        FilterMember(xs[1..], p, y);
      }
    }
  }

  /** Filtering commutes with sorting. */
  lemma SortCommutesWithFilter<T>(xs: seq<T>, p: T -> bool, key: T -> int)
    ensures Filter(SortDesc(xs, key), p) == SortDesc(Filter(xs, p), key)
  {
    var ys := SortDesc(xs, key);
    SortIsStable(xs, key);
    FilterDescends(ys, p, key);
    forall k ensures WithKey(Filter(ys, p), key, k) == WithKey(Filter(xs, p), key, k) {
      FilterWithKey(ys, p, key, k);
      FilterWithKey(xs, p, key, k);
      assert WithKey(ys, key, k) == WithKey(xs, key, k);
    }
    StableSortIsUnique(Filter(xs, p), Filter(ys, p), key);
  }

  function Map<A, B>(xs: seq<A>, f: A -> B): (ys: seq<B>)
    ensures |ys| == |xs| && forall i :: 0 <= i < |xs| ==> ys[i] == f(xs[i])
  {
    seq(|xs|, i requires 0 <= i < |xs| => f(xs[i]))
  }

  lemma {:induction false} InsertMaps<A, B>(x: A, ys: seq<A>, f: A -> B, key: A -> int, key': B -> int)
    requires key(x) == key'(f(x)) && forall y :: y in ys ==> key(y) == key'(f(y))
    ensures Map(Insert(x, ys, key), f) == Insert(f(x), Map(ys, f), key')
    ensures forall y :: y in Insert(x, ys, key) ==> y == x || y in ys
  {
    if ys != [] && key(x) < key(ys[0]) {
      InsertMaps(x, ys[1..], f, key, key');
      assert Map(ys, f)[1..] == Map(ys[1..], f);
    }
  }

  /** Sorting objects by a key they carry is sorting their images by the same key. */
  lemma {:induction false} SortMaps<A, B>(xs: seq<A>, f: A -> B, key: A -> int, key': B -> int)
    requires forall x :: x in xs ==> key(x) == key'(f(x))
    ensures Map(SortDesc(xs, key), f) == SortDesc(Map(xs, f), key')
    ensures forall x :: x in SortDesc(xs, key) ==> x in xs
  {
    if xs == [] {
    } else {
      SortMaps(xs[1..], f, key, key');
      InsertMaps(xs[0], SortDesc(xs[1..], key), f, key, key');
      assert Map(xs, f)[1..] == Map(xs[1..], f);
    }
  }

  lemma {:induction false} FilterAll<T>(xs: seq<T>, p: T -> bool)
    requires forall x :: x in xs ==> p(x)
    ensures Filter(xs, p) == xs
  {
    if xs == [] {
    } else {
      FilterAll(xs[1..], p);
    }
  }

  lemma {:induction false} FilterTwoParts<T>(xs: seq<T>, ys: seq<T>, p: T -> bool)
    ensures Filter(xs + ys, p) == Filter(xs, p) + Filter(ys, p)
  {
    if xs == [] {
      assert xs + ys == ys;
    } else {
      FilterTwoParts(xs[1..], ys, p);
      assert (xs + ys)[1..] == xs[1..] + ys;
    }
  }

  lemma MapTwoParts<A, B>(xs: seq<A>, ys: seq<A>, f: A -> B)
    ensures Map(xs + ys, f) == Map(xs, f) + Map(ys, f)
  {
  }

  // ---- who comes before whom ----

  predicate Precedes<T(==)>(xs: seq<T>, a: T, b: T) { exists i, j :: 0 <= i < j < |xs| && xs[i] == a && xs[j] == b }

  lemma PrecedesCons<T>(x: T, xs: seq<T>, a: T, b: T)
    ensures Precedes([x] + xs, a, b) <==> (a == x && b in xs) || Precedes(xs, a, b)
  {
    var all := [x] + xs;
    if a == x && b in xs {
      var j :| 0 <= j < |xs| && xs[j] == b;
      assert all[0] == a && all[j + 1] == b;
    }
    if Precedes(xs, a, b) {
      var i, j :| 0 <= i < j < |xs| && xs[i] == a && xs[j] == b;
      assert all[i + 1] == a && all[j + 1] == b;
    }
    if Precedes(all, a, b) {
      var i, j :| 0 <= i < j < |all| && all[i] == a && all[j] == b;
      assert all[j] == xs[j - 1] && (i > 0 ==> all[i] == xs[i - 1]);
    }
  }

  lemma {:induction false} FilterPrecedes<T>(xs: seq<T>, p: T -> bool, a: T, b: T)
    ensures Precedes(Filter(xs, p), a, b) <==> p(a) && p(b) && Precedes(xs, a, b)
  {
    if xs == [] {
    } else {
      var rest := xs[1..];
      assert xs == [xs[0]] + rest;
      FilterPrecedes(rest, p, a, b);
      FilterMember(rest, p, b);
      PrecedesCons(xs[0], rest, a, b);
      PrecedesCons(xs[0], Filter(rest, p), a, b);
    }
  }

  lemma {:induction false} WithKeyFilters<T>(xs: seq<T>, key: T -> int, k: int)
    ensures WithKey(xs, key, k) == Filter(xs, x => key(x) == k)
  {
    if xs == [] {
    } else {
      WithKeyFilters(xs[1..], key, k);
    }
  }

  /** Entries with equal keys keep their order. */
  lemma TiesKeepOrder<T>(xs: seq<T>, ys: seq<T>, key: T -> int, a: T, b: T)
    requires IsStableSort(xs, ys, key) && key(a) == key(b)
    ensures Precedes(ys, a, b) <==> Precedes(xs, a, b)
  {
    var p := x => key(x) == key(a);
    WithKeyFilters(xs, key, key(a));
    WithKeyFilters(ys, key, key(a));
    FilterPrecedes(xs, p, a, b);
    FilterPrecedes(ys, p, a, b);
  }
}
