// Orders of the same actions. If every pair that two orders disagree on can change
// places, the two orders come to the same thing.

module Commuting {
  import opened Basics
  import opened Dag

  // One action after another, each of which may fail.
  function Run<S>(act: (nat, S) -> Option<S>, order: seq<nat>, s: S): Option<S> {
    if order == [] then Some(s) else Chain(act, Run(act, order[..|order| - 1], s), order[|order| - 1])
  }

  function Chain<S>(act: (nat, S) -> Option<S>, s: Option<S>, i: nat): Option<S> {
    if s.None? then None else act(i, s.value)
  }

  ghost predicate Commute<S(!new)>(act: (nat, S) -> Option<S>, i: nat, j: nat) {
    forall s :: Chain(act, act(i, s), j) == Chain(act, act(j, s), i)
  }

  // Each of 0, ..., n - 1 once.
  ghost predicate Permutes(order: seq<nat>, n: nat) {
    |order| == n && NoRepeats(order) && forall i | i in order :: i < n
  }

  ghost predicate InversionsCommute<S(!new)>(act: (nat, S) -> Option<S>, order: seq<nat>) {
    forall a, b | 0 <= a < b < |order| && order[a] > order[b] :: Commute(act, order[a], order[b])
  }

  function Counting(n: nat): (r: seq<nat>)
    ensures |r| == n && forall i | 0 <= i < n :: r[i] == i
  {
    seq(n, i => i)
  }

  lemma RunLast<S>(act: (nat, S) -> Option<S>, order: seq<nat>, i: nat, s: S)
    ensures Run(act, order + [i], s) == Chain(act, Run(act, order, s), i)
  {
    assert (order + [i])[..|order|] == order;
  }

  lemma RunPair<S>(act: (nat, S) -> Option<S>, i: nat, j: nat, s: S)
    ensures Run(act, [i, j], s) == Chain(act, act(i, s), j)
  {
    assert [i, j][..1] == [i] && [i][..0] == [];
    assert Run(act, [i], s) == Chain(act, Run(act, [], s), i);
  }

  lemma {:induction false} RunSplit<S>(act: (nat, S) -> Option<S>, xs: seq<nat>, ys: seq<nat>, s: S)
    ensures Run(act, xs + ys, s) ==
      if Run(act, xs, s).None? then None else Run(act, ys, Run(act, xs, s).value)
  {
    if ys == [] {
      assert xs + ys == xs;
    } else {
      var init, y := ys[..|ys| - 1], ys[|ys| - 1];
      RunSplit(act, xs, init, s);
      assert xs + ys == (xs + init) + [y];
      RunLast(act, xs + init, y, s);
    }
  }

  lemma {:induction false} MovePast<S(!new)>(act: (nat, S) -> Option<S>, xs: seq<nat>, x: nat, ys: seq<nat>, s: S)
    requires forall y | y in ys :: Commute(act, x, y)
    ensures Run(act, xs + [x] + ys, s) == Run(act, xs + ys + [x], s)
  {
    if ys == [] {
      assert xs + [x] + ys == xs + ys + [x];
    } else {
      var init, y := ys[..|ys| - 1], ys[|ys| - 1];
      MovePast(act, xs, x, init, s);
      assert xs + [x] + ys == (xs + [x] + init) + [y];
      RunLast(act, xs + [x] + init, y, s);
      RunLast(act, xs + init, x, s);
      RunLast(act, xs + init, y, s);
      assert xs + ys == (xs + init) + [y];
      RunLast(act, xs + ys, x, s);
      assert Commute(act, x, y);
    }
  }

  lemma {:induction false} LargestIsThere(order: seq<nat>, n: nat) returns (k: nat)
    requires n > 0 && Permutes(order, n)
    ensures k < n && order[k] == n - 1
  {
    if !(exists k :: 0 <= k < n && order[k] == n - 1) {
      forall t | 0 <= t < |order| ensures order[t] in Upto(n - 1) { assert order[t] in order; }
      var a, b := Pigeonhole(order, Upto(n - 1));
      assert false;
    }
    k :| 0 <= k < n && order[k] == n - 1;
  }

  lemma WithoutLargest(order: seq<nat>, n: nat, k: nat)
    requires n > 0 && Permutes(order, n) && k < n && order[k] == n - 1
    ensures Permutes(order[..k] + order[k + 1..], n - 1)
    ensures order == order[..k] + [n - 1] + order[k + 1..]
  {
    var rest := order[..k] + order[k + 1..];
    forall t | 0 <= t < |rest| ensures rest[t] == order[if t < k then t else t + 1] {}
    forall a, b | 0 <= a < b < |rest| ensures rest[a] != rest[b] {}
    forall i | i in rest ensures i < n - 1 {
      var t :| 0 <= t < |rest| && rest[t] == i;
      var u := if t < k then t else t + 1;
      assert order[u] in order && order[u] != order[k];
    }
  }

  lemma WithoutInversions<S(!new)>(act: (nat, S) -> Option<S>, order: seq<nat>, k: nat)
    requires k < |order| && InversionsCommute(act, order)
    ensures InversionsCommute(act, order[..k] + order[k + 1..])
  {
    var rest := order[..k] + order[k + 1..];
    forall a, b | 0 <= a < b < |rest| && rest[a] > rest[b] ensures Commute(act, rest[a], rest[b]) {
      var a', b' := if a < k then a else a + 1, if b < k then b else b + 1;
      assert rest[a] == order[a'] && rest[b] == order[b'];
    }
  }

  lemma LargestCommutes<S(!new)>(act: (nat, S) -> Option<S>, order: seq<nat>, n: nat, k: nat, ys: seq<nat>)
    requires n > 0 && Permutes(order, n) && k < n && order[k] == n - 1 && InversionsCommute(act, order)
    requires ys == order[k + 1..]
    ensures forall y | y in ys :: Commute(act, n - 1, y)
  {
    forall y | y in ys ensures Commute(act, n - 1, y) {
      var t :| 0 <= t < |ys| && ys[t] == y;
      var u := k + 1 + t;
      assert order[u] == y && order[u] in order && order[k] != order[u];
    }
  }

  lemma CountingOn(n: nat)
    ensures n == 0 ==> Counting(n) == []
    ensures n > 0 ==> Counting(n) == Counting(n - 1) + [n - 1]
  {
  }

  // Any order whose inversions commute does what counting upwards does.
  lemma {:induction false} SortByCommuting<S(!new)>(act: (nat, S) -> Option<S>, order: seq<nat>, n: nat, s: S)
    requires Permutes(order, n) && InversionsCommute(act, order)
    ensures Run(act, order, s) == Run(act, Counting(n), s)
    decreases n
  {
    if n == 0 {
      CountingOn(n);
    } else {
      var k := LargestIsThere(order, n);
      var xs, ys := order[..k], order[k + 1..];
      WithoutLargest(order, n, k);
      WithoutInversions(act, order, k);
      LargestCommutes(act, order, n, k, ys);
      hide Permutes, InversionsCommute, Commute, Run;
      SortByCommuting(act, xs + ys, n - 1, s);
      MovePast(act, xs, n - 1, ys, s);
      RunLast(act, xs + ys, n - 1, s);
      RunLast(act, Counting(n - 1), n - 1, s);
      CountingOn(n);
    }
  }

  // ---- Orders by rank ------------------------------------------------------

  // The numbers of one rank, counting upwards.
  ghost function Ranked(rank: nat -> nat, r: nat, n: nat): (o: seq<nat>)
    ensures forall i: nat :: i in o <==> i < n && rank(i) == r
    ensures forall a, b | 0 <= a < b < |o| :: o[a] < o[b]
  {
    if n == 0 then []
    else
      var init := Ranked(rank, r, n - 1);
      assert forall k | 0 <= k < |init| :: init[k] in init;
      if rank(n - 1) == r then init + [n - 1] else init
  }

  // Rank by rank, and counting upwards within each.
  ghost function RankByRank(rank: nat -> nat, n: nat): seq<nat> {
    Ranked(rank, 0, n) + Ranked(rank, 1, n) + Ranked(rank, 2, n) + Ranked(rank, 3, n)
  }

  ghost predicate InRankOrder(rank: nat -> nat, o: seq<nat>) {
    forall a, b | 0 <= a < b < |o| :: rank(o[a]) < rank(o[b]) || (rank(o[a]) == rank(o[b]) && o[a] < o[b])
  }

  lemma {:induction false} RankedCount(rank: nat -> nat, n: nat)
    requires forall i | 0 <= i < n :: rank(i) < 4
    ensures |RankByRank(rank, n)| == n
  {
    if n > 0 { RankedCount(rank, n - 1); }
  }

  lemma JoinRanks(rank: nat -> nat, xs: seq<nat>, r: nat, n: nat)
    requires InRankOrder(rank, xs) && forall i | i in xs :: rank(i) < r
    ensures InRankOrder(rank, xs + Ranked(rank, r, n))
    ensures forall i | i in xs + Ranked(rank, r, n) :: rank(i) < r + 1
  {
    var ys := Ranked(rank, r, n);
    forall a, b | 0 <= a < b < |xs + ys|
      ensures var o := xs + ys; rank(o[a]) < rank(o[b]) || (rank(o[a]) == rank(o[b]) && o[a] < o[b])
    {
      if a < |xs| { assert xs[a] in xs; } else { assert ys[a - |xs|] in ys; }
      if b >= |xs| { assert ys[b - |xs|] in ys; }
    }
  }

  lemma RankByRankPermutes(rank: nat -> nat, n: nat)
    requires forall i | 0 <= i < n :: rank(i) < 4
    ensures InRankOrder(rank, RankByRank(rank, n)) && Permutes(RankByRank(rank, n), n)
  {
    var r0, r1, r2 := Ranked(rank, 0, n), Ranked(rank, 1, n), Ranked(rank, 2, n);
    RankedCount(rank, n);
    assert [] + r0 == r0;
    JoinRanks(rank, [], 0, n);
    JoinRanks(rank, r0, 1, n);
    JoinRanks(rank, r0 + r1, 2, n);
    JoinRanks(rank, r0 + r1 + r2, 3, n);
  }

  // What ranks no higher and counts lower comes earlier.
  lemma RankedEarlier(rank: nat -> nat, o: seq<nat>, a: nat, j: nat)
    requires InRankOrder(rank, o) && a < |o| && j in o && j < o[a] && rank(j) <= rank(o[a])
    ensures j in o[..a]
  {
    var b :| 0 <= b < |o| && o[b] == j;
    assert b < a;
    assert o[..a][b] == j;
  }

  lemma {:induction false} LowestRank(rank: nat -> nat, s: nat, n: nat)
    requires s <= n && forall i | 0 <= i < n :: rank(i) == 0 <==> i < s
    ensures Ranked(rank, 0, n) == Counting(s)
    decreases n
  {
    if n > s {
      LowestRank(rank, s, n - 1);
    } else if n > 0 {
      LowestRank(rank, s - 1, n - 1);
      CountingOn(s);
    }
  }

  lemma {:induction false} HighestRank(rank: nat -> nat, e: nat, n: nat)
    requires e <= n && forall i | 0 <= i < n :: rank(i) == 3 <==> e <= i
    ensures |Ranked(rank, 3, n)| == n - e
    decreases n
  {
    if n > e {
      HighestRank(rank, e, n - 1);
    } else if n > 0 {
      HighestRank(rank, e - 1, n - 1);
    }
  }
}
