// applyReadiness (src/jev-domain.js, lines 236-276) as a function of the nodes, and
// what its fixpoint is.

module Readiness {
  import opened Basics
  import opened Dag
  import opened Nodes

  // A dependency in this status means the node can never run.
  predicate Dooms(mode: Mode, s: Status) {
    match mode
    case WhenSettled => s.Cancelled? || s.Skipped?
    case WhenSucceeded => s.Failed? || s.Skipped? || s.Cancelled? || s.TimedOut?
  }

  // A dependency in this status no longer holds the node back.
  predicate Meets(mode: Mode, s: Status) {
    match mode
    case WhenSettled => Terminal(s)
    case WhenSucceeded => s.Succeeded?
  }

  predicate Movable(s: Status) {
    s.Pending? || s.Ready?
  }

  // `deps.find(...)`: the first listed dependency that dooms.
  function FirstDoom(ns: seq<Node>, mode: Mode, deps: seq<string>): (r: Option<string>)
    requires forall k | k in deps :: HasKey(Defs(ns), k)
    ensures r.Some? ==> exists x :: 0 <= x < |deps| && deps[x] == r.value && Dooms(mode, StatusOf(ns, r.value))
                                     && forall y | 0 <= y < x :: !Dooms(mode, StatusOf(ns, deps[y]))
    ensures r.None? ==> forall k | k in deps :: !Dooms(mode, StatusOf(ns, k))
  {
    if deps == [] then None
    else if Dooms(mode, StatusOf(ns, deps[0])) then Some(deps[0])
    else
      var r := FirstDoom(ns, mode, deps[1..]);
      assert r.Some? ==> exists x :: 0 < x < |deps| && deps[x] == r.value
                                     && forall y | 0 <= y < x :: !Dooms(mode, StatusOf(ns, deps[y])) by {
        if r.Some? {
          var x :| 0 <= x < |deps| - 1 && deps[1..][x] == r.value
            && forall y | 0 <= y < x :: !Dooms(mode, StatusOf(ns, deps[1..][y]));
          assert deps[x + 1] == r.value;
          forall y | 0 <= y < x + 1 ensures !Dooms(mode, StatusOf(ns, deps[y])) {
            if y > 0 { assert deps[y] == deps[1..][y - 1]; }
          }
        }
      }
      r
  }

  predicate AllMeet(ns: seq<Node>, mode: Mode, deps: seq<string>)
    requires forall k | k in deps :: HasKey(Defs(ns), k)
  {
    forall k | k in deps :: Meets(mode, StatusOf(ns, k))
  }

  // The body of the inner loop, for node i.
  function Visit(ns: seq<Node>, i: nat): (ms: seq<Node>)
    requires WellShaped(Defs(ns)) && i < |ns|
    ensures SameApartFromStatus(ns, ms)
  {
    var n := ns[i];
    assert forall k | k in Defs(ns)[i].deps :: HasKey(Defs(ns), k);
    if !Movable(n.status) then ns
    else match FirstDoom(ns, n.def.mode, n.def.deps)
      case Some(k) => ns[i := n.(status := Skipped, skippedBecause := Some(k))]
      case None =>
        if n.status.Pending? && AllMeet(ns, n.def.mode, n.def.deps)
        then ns[i := n.(status := Ready)]
        else ns
  }

  // One pass over the nodes from position i on.
  function PassFrom(ns: seq<Node>, i: nat): (ms: seq<Node>)
    requires WellShaped(Defs(ns)) && i <= |ns|
    ensures SameApartFromStatus(ns, ms)
    decreases |ns| - i
  {
    if i == |ns| then ns
    else
      var next := Visit(ns, i);
      SameDefs(ns, next);
      PassFrom(next, i + 1)
  }

  function Rank(ns: seq<Node>): nat {
    if ns == [] then 0
    else (if ns[0].status.Pending? then 2 else if ns[0].status.Ready? then 1 else 0) + Rank(ns[1..])
  }

  lemma {:induction false} RankUpdate(ns: seq<Node>, i: nat, n: Node)
    requires i < |ns|
    requires (ns[i].status.Pending? && !n.status.Pending?) || (ns[i].status.Ready? && !Movable(n.status))
    ensures Rank(ns[i := n]) < Rank(ns)
  {
    var ms := ns[i := n];
    if i == 0 {
      assert ms[1..] == ns[1..];
    } else {
      RankUpdate(ns[1..], i - 1, n);
      assert ms[1..] == ns[1..][i - 1 := n];
    }
  }

  lemma {:induction false} VisitRank(ns: seq<Node>, i: nat)
    requires WellShaped(Defs(ns)) && i < |ns|
    ensures Visit(ns, i) == ns || Rank(Visit(ns, i)) < Rank(ns)
  {
    if Visit(ns, i) != ns { RankUpdate(ns, i, Visit(ns, i)[i]); }
  }

  lemma {:induction false} PassRank(ns: seq<Node>, i: nat)
    requires WellShaped(Defs(ns)) && i <= |ns|
    ensures PassFrom(ns, i) == ns || Rank(PassFrom(ns, i)) < Rank(ns)
    decreases |ns| - i
  {
    if i < |ns| {
      var next := Visit(ns, i);
      SameDefs(ns, next);
      VisitRank(ns, i);
      PassRank(next, i + 1);
    }
  }

  // Passes until one changes nothing.
  function Settle(ns: seq<Node>): (ms: seq<Node>)
    requires WellShaped(Defs(ns))
    ensures SameApartFromStatus(ns, ms)
    decreases Rank(ns)
  {
    var next := PassFrom(ns, 0);
    SameDefs(ns, next);
    PassRank(ns, 0);
    if next == ns then ns else Settle(next)
  }

  // ---- The fixpoint, without loops ---------------------------------------

  ghost predicate DoomedAt(ns: seq<Node>, i: int) {
    0 <= i < |ns| && exists j :: Lists(ns, i, j) && Dooms(ns[i].def.mode, ns[j].status)
  }

  ghost predicate UnblockedAt(ns: seq<Node>, i: int) {
    0 <= i < |ns| && forall j | Lists(ns, i, j) ::
      Meets(ns[i].def.mode, ns[j].status) && !Dooms(ns[i].def.mode, ns[j].status)
  }

  // Nothing left to do.
  ghost predicate Stable(ns: seq<Node>) {
    forall i | 0 <= i < |ns| && Movable(ns[i].status) ::
      !DoomedAt(ns, i) && (ns[i].status.Pending? ==> !UnblockedAt(ns, i))
  }

  // Nodes waiting on one another, the first of which has a doomed dependency.
  ghost predicate DoomChain(ns: seq<Node>, p: seq<nat>) {
    && p != []
    && (forall t | 0 <= t < |p| :: p[t] < |ns| && Movable(ns[p[t]].status))
    && (forall t | 0 <= t < |p| - 1 :: Lists(ns, p[t + 1], p[t]))
    && DoomedAt(ns, p[0])
  }

  ghost predicate WillSkip(ns: seq<Node>, i: int) {
    exists p :: DoomChain(ns, p) && p[|p| - 1] == i
  }

  // What settling makes of node i.
  ghost predicate SettledNode(before: seq<Node>, after: seq<Node>, i: int)
    requires |before| == |after| && 0 <= i < |before|
  {
    if !Movable(before[i].status) then after[i] == before[i]
    else if WillSkip(before, i) then
      && after[i] == before[i].(status := Skipped, skippedBecause := after[i].skippedBecause)
      && exists j :: Lists(before, i, j) && Dooms(before[i].def.mode, after[j].status)
                     && after[i].skippedBecause == Some(before[j].def.key)
    else if before[i].status.Pending? && UnblockedAt(before, i) then
      after[i] == before[i].(status := Ready)
    else after[i] == before[i]
  }

  // Where a run of visits that started from `start` may have got to at node i.
  ghost predicate Underway(start: seq<Node>, now: seq<Node>, i: int)
    requires |start| == |now| && 0 <= i < |start|
  {
    || now[i] == start[i]
    || (&& Movable(start[i].status) && WillSkip(start, i)
        && now[i] == start[i].(status := Skipped, skippedBecause := now[i].skippedBecause)
        && exists j :: Lists(start, i, j) && Dooms(start[i].def.mode, now[j].status)
                       && now[i].skippedBecause == Some(start[j].def.key))
    || (&& start[i].status.Pending? && UnblockedAt(start, i)
        && now[i] == start[i].(status := Ready))
  }

  ghost predicate AllUnderway(start: seq<Node>, now: seq<Node>) {
    |start| == |now| && forall i | 0 <= i < |start| :: Underway(start, now, i)
  }

  lemma LookupByIndex(ns: seq<Node>, j: int)
    requires DistinctKeys(Defs(ns)) && 0 <= j < |ns|
    ensures HasKey(Defs(ns), ns[j].def.key) && StatusOf(ns, ns[j].def.key) == ns[j].status
  {
    IndexOfKey(Defs(ns), j);
  }

  lemma AllUnderwayShape(start: seq<Node>, now: seq<Node>)
    requires AllUnderway(start, now)
    ensures SameApartFromStatus(start, now)
  {
    forall i | 0 <= i < |start|
      ensures now[i] == start[i].(status := now[i].status, skippedBecause := now[i].skippedBecause)
    {
      assert Underway(start, now, i);
    }
  }

  lemma ExtendChain(ns: seq<Node>, i: nat, j: nat)
    requires Lists(ns, i, j) && WillSkip(ns, j) && Movable(ns[i].status)
    ensures WillSkip(ns, i)
  {
    var p :| DoomChain(ns, p) && p[|p| - 1] == j;
    var q := p + [i];
    assert DoomChain(ns, q) && q[|q| - 1] == i;
  }

  lemma StartChain(ns: seq<Node>, i: int)
    requires 0 <= i < |ns| && Movable(ns[i].status) && DoomedAt(ns, i)
    ensures WillSkip(ns, i)
  {
    assert DoomChain(ns, [i]) && [i][|[i]| - 1] == i;
  }

  // A dependency that dooms now either doomed from the start or will be skipped.
  lemma DoomHasCause(start: seq<Node>, now: seq<Node>, i: int, j: int)
    requires AllUnderway(start, now) && Lists(start, i, j) && Movable(start[i].status)
    requires Dooms(start[i].def.mode, now[j].status)
    ensures WillSkip(start, i)
  {
    assert Underway(start, now, j);
    if now[j] == start[j] {
      assert DoomedAt(start, i);
      StartChain(start, i);
    } else {
      ExtendChain(start, i, j);
    }
  }

  lemma VisitFinds(ns: seq<Node>, i: nat)
    requires WellShaped(Defs(ns)) && i < |ns| && Movable(ns[i].status)
    ensures
      var ms := Visit(ns, i);
      if DoomedAt(ns, i) then
        && (exists j :: Lists(ns, i, j) && Dooms(ns[i].def.mode, ns[j].status)
              && ms == ns[i := ns[i].(status := Skipped, skippedBecause := Some(ns[j].def.key))])
      else if ns[i].status.Pending? && UnblockedAt(ns, i) then
        ms == ns[i := ns[i].(status := Ready)]
      else ms == ns
  {
    var ds := Defs(ns);
    var n := ns[i];
    assert forall k | k in ds[i].deps :: HasKey(ds, k);
    forall j | Lists(ns, i, j) ensures StatusOf(ns, ns[j].def.key) == ns[j].status { LookupByIndex(ns, j); }
    forall k | k in n.def.deps
      ensures Lists(ns, i, IndexOf(ds, k)) && ns[IndexOf(ds, k)].def.key == k
    {
      assert ds[IndexOf(ds, k)].key == k;
    }
  }

  lemma VisitUnderway(start: seq<Node>, now: seq<Node>, i: nat)
    requires WellShaped(Defs(now)) && AllUnderway(start, now) && i < |now|
    ensures AllUnderway(start, Visit(now, i))
  {
    AllUnderwayShape(start, now);
    SameDefs(start, now);
    var ms := Visit(now, i);
    assert Underway(start, now, i);
    if Movable(now[i].status) {
      VisitFinds(now, i);
      if DoomedAt(now, i) {
        var j :| Lists(now, i, j) && Dooms(now[i].def.mode, now[j].status)
              && ms == now[i := now[i].(status := Skipped, skippedBecause := Some(now[j].def.key))];
        DoomHasCause(start, now, i, j);
        SkipKeepsUnderway(start, now, ms, i, j);
      } else if now[i].status.Pending? && UnblockedAt(now, i) {
        forall j | Lists(start, i, j)
          ensures Meets(start[i].def.mode, start[j].status) && !Dooms(start[i].def.mode, start[j].status)
        {
          assert Underway(start, now, j) && Lists(now, i, j);
        }
        PromoteKeepsUnderway(start, now, ms, i);
      }
    }
  }

  lemma SkipKeepsUnderway(start: seq<Node>, now: seq<Node>, ms: seq<Node>, i: int, j: int)
    requires AllUnderway(start, now) && Lists(start, i, j) && Movable(now[i].status) && WillSkip(start, i)
    requires Movable(start[i].status)
    requires Dooms(start[i].def.mode, now[j].status)
    requires ms == now[i := now[i].(status := Skipped, skippedBecause := Some(start[j].def.key))]
    ensures AllUnderway(start, ms)
  {
    assert Underway(start, now, i);
    forall x | 0 <= x < |start| ensures Underway(start, ms, x) {
      assert Underway(start, now, x);
      KeepsReason(start, now, ms, i, x);
      if x == i {
        assert Lists(start, i, j) && Dooms(start[i].def.mode, ms[j].status);
      }
    }
  }

  // A recorded skip reason stays valid when node i moves.
  lemma KeepsReason(start: seq<Node>, now: seq<Node>, ms: seq<Node>, i: int, x: int)
    requires |start| == |now| == |ms| && 0 <= i < |now| && 0 <= x < |now| && Movable(now[i].status)
    requires forall y | 0 <= y < |now| && y != i :: ms[y] == now[y]
    ensures
      (exists j :: Lists(start, x, j) && Dooms(start[x].def.mode, now[j].status)
                   && now[x].skippedBecause == Some(start[j].def.key))
      ==> (exists j :: Lists(start, x, j) && Dooms(start[x].def.mode, ms[j].status)
                       && now[x].skippedBecause == Some(start[j].def.key))
  {
    if j :| Lists(start, x, j) && Dooms(start[x].def.mode, now[j].status)
            && now[x].skippedBecause == Some(start[j].def.key) {
      assert j != i;
      assert Dooms(start[x].def.mode, ms[j].status);
    }
  }

  lemma PromoteKeepsUnderway(start: seq<Node>, now: seq<Node>, ms: seq<Node>, i: nat)
    requires AllUnderway(start, now) && i < |now| && now[i].status.Pending? && UnblockedAt(start, i)
    requires ms == now[i := now[i].(status := Ready)]
    ensures AllUnderway(start, ms)
  {
    assert Underway(start, now, i);
    forall x | 0 <= x < |start| ensures Underway(start, ms, x) {
      assert Underway(start, now, x);
      KeepsReason(start, now, ms, i, x);
    }
  }

  lemma {:induction false} PassUnderway(start: seq<Node>, now: seq<Node>, i: nat)
    requires WellShaped(Defs(now)) && AllUnderway(start, now) && i <= |now|
    ensures AllUnderway(start, PassFrom(now, i))
    decreases |now| - i
  {
    if i < |now| {
      VisitUnderway(start, now, i);
      SameDefs(now, Visit(now, i));
      PassUnderway(start, Visit(now, i), i + 1);
    }
  }

  lemma {:induction false} SettleUnderway(start: seq<Node>, now: seq<Node>)
    requires WellShaped(Defs(now)) && AllUnderway(start, now)
    ensures AllUnderway(start, Settle(now))
    decreases Rank(now)
  {
    var next := PassFrom(now, 0);
    PassUnderway(start, now, 0);
    SameDefs(now, next);
    PassRank(now, 0);
    if next != now { SettleUnderway(start, next); }
  }

  lemma {:induction false} QuietPass(ns: seq<Node>, i: nat, x: nat)
    requires WellShaped(Defs(ns)) && i <= x < |ns| && PassFrom(ns, i) == ns
    ensures Visit(ns, x) == ns
    decreases |ns| - i
  {
    hide Visit, Rank;
    var next := Visit(ns, i);
    SameDefs(ns, next);
    VisitRank(ns, i);
    PassRank(next, i + 1);
    if i < x { QuietPass(ns, i + 1, x); }
  }

  lemma {:induction false} SettleIsStable(ns: seq<Node>)
    requires WellShaped(Defs(ns))
    ensures Stable(Settle(ns))
    decreases Rank(ns)
  {
    var next := PassFrom(ns, 0);
    SameDefs(ns, next);
    PassRank(ns, 0);
    if next != ns {
      SettleIsStable(next);
    } else {
      forall i | 0 <= i < |ns| && Movable(ns[i].status)
        ensures !DoomedAt(ns, i) && (ns[i].status.Pending? ==> !UnblockedAt(ns, i))
      {
        QuietPass(ns, 0, i);
        VisitFinds(ns, i);
      }
    }
  }

  // Once nothing moves, every node of a doom chain has been skipped.
  lemma {:induction false} ChainIsSkipped(start: seq<Node>, now: seq<Node>, p: seq<nat>)
    requires AllUnderway(start, now) && Stable(now) && DoomChain(start, p)
    ensures now[p[|p| - 1]].status.Skipped?
  {
    AllUnderwayShape(start, now);
    SameDefs(start, now);
    var i := p[|p| - 1];
    assert Underway(start, now, i);
    if |p| == 1 {
      var j :| Lists(start, i, j) && Dooms(start[i].def.mode, start[j].status);
      assert Underway(start, now, j);
      assert Lists(now, i, j) && Dooms(now[i].def.mode, now[j].status);
      assert DoomedAt(now, i);
    } else {
      var q := p[..|p| - 1];
      assert DoomChain(start, q) by {
        forall t | 0 <= t < |q| - 1 ensures Lists(start, q[t + 1], q[t]) { assert Lists(start, p[t + 1], p[t]); }
      }
      ChainIsSkipped(start, now, q);
      var j := q[|q| - 1];
      assert Lists(start, p[|p| - 2 + 1], p[|p| - 2]);
      assert Lists(now, i, j) && Dooms(now[i].def.mode, now[j].status);
      assert DoomedAt(now, i);
    }
  }

  // The whole of applyReadiness: exactly the nodes at the end of a doom chain are
  // skipped, exactly the unblocked pending ones become ready, and nothing else
  // moves.
  lemma {:induction false} SettleMeaning(ns: seq<Node>)
    requires WellShaped(Defs(ns))
    ensures Stable(Settle(ns))
    ensures forall i | 0 <= i < |ns| :: SettledNode(ns, Settle(ns), i)
  {
    var now := Settle(ns);
    SettleIsStable(ns);
    assert AllUnderway(ns, ns);
    SettleUnderway(ns, ns);
    SameDefs(ns, now);
    forall i | 0 <= i < |ns| ensures SettledNode(ns, now, i) {
      assert Underway(ns, now, i);
      if WillSkip(ns, i) {
        var p :| DoomChain(ns, p) && p[|p| - 1] == i;
        ChainIsSkipped(ns, now, p);
      } else if ns[i].status.Pending? && UnblockedAt(ns, i) {
        if now[i] == ns[i] {
          forall j | Lists(now, i, j)
            ensures Meets(now[i].def.mode, now[j].status) && !Dooms(now[i].def.mode, now[j].status)
          {
            assert Lists(ns, i, j) && Underway(ns, now, j);
          }
          assert UnblockedAt(now, i);
        }
      }
    }
  }

  lemma StableHasNoChain(ns: seq<Node>)
    requires Stable(ns)
    ensures forall p :: !DoomChain(ns, p)
    ensures forall i :: !WillSkip(ns, i)
  {
    forall p ensures !DoomChain(ns, p) {
      if p != [] && p[0] < |ns| && Movable(ns[p[0]].status) { assert !DoomedAt(ns, p[0]); }
    }
  }

  // A graph with nothing left to do is left exactly as it is.
  lemma {:induction false} SettleOfStable(ns: seq<Node>)
    requires WellShaped(Defs(ns)) && Stable(ns)
    ensures Settle(ns) == ns
  {
    SettleMeaning(ns);
    StableHasNoChain(ns);
    forall i | 0 <= i < |ns| ensures Settle(ns)[i] == ns[i] {
      assert SettledNode(ns, Settle(ns), i);
    }
  }

  // ---- Node order does not matter ----------------------------------------

  // `ms` is `ns` listed in another order: position i of `ms` is position at[i] of `ns`.
  ghost predicate Rearranged(ns: seq<Node>, ms: seq<Node>, at: seq<nat>) {
    && |ns| == |ms| == |at|
    && (forall i | 0 <= i < |at| :: at[i] < |ns| && ms[i] == ns[at[i]])
  }

  lemma {:induction false} ChainRearranged(ns: seq<Node>, ms: seq<Node>, at: seq<nat>, i: nat)
    requires Rearranged(ns, ms, at) && i < |ms| && WillSkip(ms, i)
    ensures WillSkip(ns, at[i])
  {
    var p :| DoomChain(ms, p) && p[|p| - 1] == i;
    var q := seq(|p|, t requires 0 <= t < |p| => at[p[t]]);
    forall t | 0 <= t < |q| - 1 ensures Lists(ns, q[t + 1], q[t]) { assert Lists(ms, p[t + 1], p[t]); }
    var j :| Lists(ms, p[0], j) && Dooms(ms[p[0]].def.mode, ms[j].status);
    assert Lists(ns, q[0], at[j]) && Dooms(ns[q[0]].def.mode, ns[at[j]].status);
    assert DoomChain(ns, q) && q[|q| - 1] == at[i];
  }

  // Visiting the nodes in another order gives every node the same status.
  lemma {:induction false} SettleOrderIndependent(ns: seq<Node>, ms: seq<Node>, at: seq<nat>, back: seq<nat>)
    requires WellShaped(Defs(ns)) && WellShaped(Defs(ms))
    requires Rearranged(ns, ms, at) && Rearranged(ms, ns, back)
    requires forall i | 0 <= i < |at| :: back[at[i]] == i
    ensures forall i | 0 <= i < |ms| :: Settle(ms)[i].status == Settle(ns)[at[i]].status
  {
    SettleMeaning(ns);
    SettleMeaning(ms);
    forall i | 0 <= i < |ms| ensures Settle(ms)[i].status == Settle(ns)[at[i]].status {
      if WillSkip(ms, i) { ChainRearranged(ns, ms, at, i); }
      if WillSkip(ns, at[i]) { ChainRearranged(ms, ns, back, at[i]); }
      UnblockedRearranged(ns, ms, at, back, i);
      SettledAlike(ns, ms, Settle(ns), Settle(ms), at[i], i);
    }
  }

  lemma SettledAlike(
    ns: seq<Node>, ms: seq<Node>, ns': seq<Node>, ms': seq<Node>, i: int, j: int)
    requires |ns| == |ns'| == |ms| == |ms'| && 0 <= i < |ns| && 0 <= j < |ms| && ns[i] == ms[j]
    requires SettledNode(ns, ns', i) && SettledNode(ms, ms', j)
    requires WillSkip(ns, i) == WillSkip(ms, j) && UnblockedAt(ns, i) == UnblockedAt(ms, j)
    ensures ns'[i].status == ms'[j].status
  {
  }

  lemma {:induction false} UnblockedRearranged(ns: seq<Node>, ms: seq<Node>, at: seq<nat>, back: seq<nat>, i: nat)
    requires Rearranged(ns, ms, at) && Rearranged(ms, ns, back) && i < |ms|
    ensures UnblockedAt(ns, at[i]) <==> UnblockedAt(ms, i)
  {
    if UnblockedAt(ns, at[i]) {
      forall j | Lists(ms, i, j)
        ensures Meets(ms[i].def.mode, ms[j].status) && !Dooms(ms[i].def.mode, ms[j].status)
      {
        assert Lists(ns, at[i], at[j]);
      }
    }
    if UnblockedAt(ms, i) {
      forall j | Lists(ns, at[i], j)
        ensures Meets(ns[at[i]].def.mode, ns[j].status) && !Dooms(ns[at[i]].def.mode, ns[j].status)
      {
        assert Lists(ms, i, back[j]);
      }
    }
  }
}
