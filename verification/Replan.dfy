// Re-planning a running graph around an approved change (expandWithReplan,
// src/jev-model-graph.js, lines 286-359): what the replan waits for.

module Replan {
  import opened Basics
  import opened Dag
  import opened GraphShape
  import opened Nodes
  import opened Scheduler
  import opened Invariants
  import opened GraphRuns
  import opened Planner
  import opened ModelKeys
  import opened ModelGraph
  import opened ModelGrowth
  import opened ModelAccept
  import opened ModelLoop
  import opened Frontier

  predicate AtFrontier(ns: seq<Node>, j: int) {
    0 <= j < |ns| && forall i | 0 <= i < |ns| :: ns[j].def.key !in ns[i].def.deps
  }

  // The keys, among the first n, that nothing depends on.
  function FrontierKeys(ns: seq<Node>, n: nat): (ks: seq<string>)
    requires n <= |ns|
    ensures forall j | 0 <= j < n && AtFrontier(ns, j) :: ns[j].def.key in ks
  {
    if n == 0 then [] else FrontierKeys(ns, n - 1) + (if AtFrontier(ns, n - 1) then [ns[n - 1].def.key] else [])
  }

  function ReplanKey(n: nat): string { "astra-replan-" + Dec(n) }

  // The replan, waiting for the whole frontier to settle, and the rework of it.
  function ReplanRequests(ns: seq<Node>, index: nat): seq<Request> {
    [ModelNode("model_replan", ReplanKey(index), FrontierKeys(ns, |ns|), false).(mode := WhenSettled),
     ModelNode("model_implement", ReworkKey(index), [ReplanKey(index)], true)]
  }

  // Where a replan goes: to the cycle after the one already produced for, if any.
  function ReplanIndex(ns: seq<Node>, highestExec: nat): nat {
    if ProducerKeyFor(ns, highestExec + 1).Some? then highestExec + 1 else highestExec
  }

  // /^fable-rework-\d+$/, not yet succeeded
  ghost predicate ReworkPending(ns: seq<Node>) {
    exists i :: 0 <= i < |ns| && MatchTail(REWORK, ns[i].def.key).Some? && !ns[i].status.Succeeded?
  }

  ghost function ReplanFor(ns: seq<Node>, highestExec: nat): Option<seq<Request>> {
    var index := ReplanIndex(ns, highestExec);
    if ReworkPending(ns) || Has(ns, ReplanKey(index)) || Has(ns, ReworkKey(index)) then None
    else Some(ReplanRequests(ns, index))
  }

  // A replan is asked for unless some rework has not succeeded yet, or the next cycle has
  // its replan or its rework; it waits until everything nothing else waits for has settled,
  // and the rework of it waits for the replan.
  lemma {:induction false} ReplanAsked(ns: seq<Node>, highestExec: nat)
    requires DistinctKeys(Defs(ns))
    ensures var asked := ReplanFor(ns, highestExec);
      var n := if ProducerKeyFor(ns, highestExec + 1).Some? then highestExec + 1 else highestExec;
      && (asked.Some? <==>
            && (forall x | x in ns && MatchTail("fable-rework-", x.def.key).Some? :: x.status == Succeeded)
            && (forall x | x in ns :: x.def.key != "astra-replan-" + Dec(n) && x.def.key != "fable-rework-" + Dec(n)))
      && (asked.Some? ==>
            && |asked.value| == 2
            && asked.value[0] == Request("astra-replan-" + Dec(n), "model_replan", asked.value[0].deps, WhenSettled,
                                         Payload(false, None), "cpu", 2, 0, 0)
            && (forall key :: key in asked.value[0].deps <==>
                  exists x :: x in ns && x.def.key == key && forall y | y in ns :: key !in y.def.deps)
            && asked.value[1] == Request("fable-rework-" + Dec(n), "model_implement", ["astra-replan-" + Dec(n)],
                                         WhenSucceeded, Payload(true, None), "cpu", 2, 0, 0))
  {
    hide Dec, MatchTail, Find, ProducerKeyFor;
    var n := ReplanIndex(ns, highestExec);
    NoneHas(ns, ReplanKey(n));
    NoneHas(ns, ReworkKey(n));
    if x :| x in ns && MatchTail("fable-rework-", x.def.key).Some? && x.status != Succeeded {
      var i :| 0 <= i < |ns| && ns[i] == x;
      assert ReworkPending(ns);
    }
    FrontierIs(ns);
  }

  lemma NoneHas(ns: seq<Node>, key: string)
    ensures Has(ns, key) <==> exists x :: x in ns && x.def.key == key
  {
    if Has(ns, key) { assert ns[Find(ns, key).value] in ns; }
  }

  lemma {:induction false} FrontierFound(ns: seq<Node>, n: nat, key: string) returns (j: nat)
    requires n <= |ns| && key in FrontierKeys(ns, n)
    ensures j < n && AtFrontier(ns, j) && ns[j].def.key == key
  {
    hide AtFrontier;
    if key in FrontierKeys(ns, n - 1) { j := FrontierFound(ns, n - 1, key); } else { j := n - 1; }
  }

  lemma {:induction false} FrontierIs(ns: seq<Node>)
    ensures forall key :: key in FrontierKeys(ns, |ns|) <==>
      exists x :: x in ns && x.def.key == key && forall y | y in ns :: key !in y.def.deps
  {
    forall key ensures key in FrontierKeys(ns, |ns|) <==>
      exists x :: x in ns && x.def.key == key && forall y | y in ns :: key !in y.def.deps
    {
      if key in FrontierKeys(ns, |ns|) {
        var j := FrontierFound(ns, |ns|, key);
        assert ns[j] in ns;
      }
      if x :| x in ns && x.def.key == key && forall y | y in ns :: key !in y.def.deps {
        var j :| 0 <= j < |ns| && ns[j] == x;
        forall i | 0 <= i < |ns| ensures ns[j].def.key !in ns[i].def.deps { assert ns[i] in ns; }
        assert AtFrontier(ns, j);
      }
    }
  }

  // ---- Acceptance ---------------------------------------------------------

  lemma {:induction false} FrontierKeysFit(ns: seq<Node>, n: nat)
    requires DistinctKeys(Defs(ns)) && n <= |ns|
    ensures NoRepeats(FrontierKeys(ns, n))
    ensures forall k | k in FrontierKeys(ns, n) :: exists j :: 0 <= j < n && Defs(ns)[j].key == k
  {
    hide AtFrontier;
    if n > 0 {
      FrontierKeysFit(ns, n - 1);
      var earlier := FrontierKeys(ns, n - 1);
      forall k | k in earlier ensures k != ns[n - 1].def.key {
        var j :| 0 <= j < n - 1 && Defs(ns)[j].key == k;
        assert Defs(ns)[j].key != Defs(ns)[n - 1].key;
      }
      OneMoreDistinct(FrontierKeys(ns, n - 1), ns[n - 1].def.key);
    }
  }

  // A replan's two nodes on top of the existing ones.
  ghost predicate TwoMore(was: seq<Def>, ds: seq<Def>, deps: seq<string>) {
    && |ds| == |was| + 2 && (forall i | 0 <= i < |was| :: ds[i] == was[i])
    && ds[|was|].deps == deps && ds[|was| + 1].deps == [ds[|was|].key]
    && ds[|was|].key != ds[|was| + 1].key
    && !HasKey(was, ds[|was|].key) && !HasKey(was, ds[|was| + 1].key)
    && NoRepeats(deps) && forall k | k in deps :: HasKey(was, k)
  }

  lemma {:induction false} TwoMoreIsShaped(was: seq<Def>, ds: seq<Def>, deps: seq<string>)
    requires WellShaped(was) && Acyclic(was) && TwoMore(was, ds, deps)
    ensures WellShaped(ds) && Acyclic(ds)
  {
    KeysCarryOver(was, ds);
    forall i, j | 0 <= i < j < |ds| ensures ds[i].key != ds[j].key {
      if i < |was| { assert HasKey(was, ds[i].key); }
    }
    assert HasKey(ds, ds[|was|].key);
    TwoMoreAcyclic(was, ds, deps);
  }

  lemma {:induction false} TwoMoreAcyclic(was: seq<Def>, ds: seq<Def>, deps: seq<string>)
    requires KnownDeps(was) && Acyclic(was) && TwoMore(was, ds, deps) && DistinctKeys(ds)
    ensures Acyclic(ds)
  {
    forall i: nat, j: nat | i < |was| && DepOf(ds, i, j) ensures j < |was| { OldDepsOld(was, ds, i, j); }
    forall j: nat | DepOf(ds, |was|, j) ensures j < |was| {
      var x :| 0 <= x < |was| && was[x].key == ds[j].key;
      KeyAt(ds, j, x);
    }
    var rework := |was| + 1;
    forall j: nat | DepOf(ds, rework, j) ensures j == |was| { KeyAt(ds, j, |was|); }
    forall p | Walk(ds, p) && |p| >= 2 && p[0] == p[|p| - 1] ensures Touches(p, |was|) {
      assert DepOf(ds, p[0], p[0 + 1]);
      if p[1] >= |was| {
        assert |p| > 2;
        assert DepOf(ds, p[1], p[1 + 1]);
        assert p[2] < |was|;
      }
    }
    UnionAcyclic(was, ds);
  }

  // A replan that is asked for is accepted exactly when the graph has neither failed
  // nor been cancelled.
  lemma {:induction false} ReplanAcceptedIffOpen(g: Graph, highestExec: nat)
    requires Structured(g.nodes) && ReplanFor(g.nodes, highestExec).Some?
    ensures Expandable(g, ReplanFor(g.nodes, highestExec).value) <==> Open(g)
  {
    var index := ReplanIndex(g.nodes, highestExec);
    ReplanIsTight(g.nodes, index);
    ReplanIsShaped(g.nodes, index);
    AcceptedWhenShaped(g, ReplanRequests(g.nodes, index));
  }

  lemma {:induction false} ReplanIsTight(ns: seq<Node>, index: nat)
    ensures forall n | 0 <= n < 2 :: Tight(ReplanRequests(ns, index)[n].key)
  {
    NumberedIsTight("astra-replan-", index);
    NumberedIsTight(REWORK, index);
  }

  lemma {:induction false} ReplanIsShaped(ns: seq<Node>, index: nat)
    requires Structured(ns) && !Has(ns, ReplanKey(index)) && !Has(ns, ReworkKey(index))
    ensures var ds := Defs(Union(ns, ReplanRequests(ns, index), 0)); WellShaped(ds) && Acyclic(ds)
  {
    ReplanFits(ns, index);
    TwoMoreIsShaped(Defs(ns), Defs(Union(ns, ReplanRequests(ns, index), 0)), FrontierKeys(ns, |ns|));
  }

  lemma {:induction false} ReplanFits(ns: seq<Node>, index: nat)
    requires DistinctKeys(Defs(ns)) && !Has(ns, ReplanKey(index)) && !Has(ns, ReworkKey(index))
    ensures TwoMore(Defs(ns), Defs(Union(ns, ReplanRequests(ns, index), 0)), FrontierKeys(ns, |ns|))
  {
    UnionDefs(ns, ReplanRequests(ns, index), 0);
    NumberedIsTight("astra-replan-", index);
    NumberedIsTight(REWORK, index);
    TightIsTrimmed(ReplanKey(index));
    TightIsTrimmed(ReworkKey(index));
    FrontierKeysFit(ns, |ns|);
    assert ReplanKey(index)[0] == 'a' && ReworkKey(index)[0] == 'f';
    NotHeld(ns, ReplanKey(index));
    NotHeld(ns, ReworkKey(index));
  }

  lemma NotHeld(ns: seq<Node>, key: string)
    requires !Has(ns, key)
    ensures !HasKey(Defs(ns), key)
  {
  }

  // ---- What it waits for --------------------------------------------------

  lemma {:induction false} ReplanWaits(ns: seq<Node>, ns': seq<Node>, index: nat)
    requires Added(ns, ns', ReplanRequests(ns, index))
    ensures WaitsOnSinks(ns', |ns|, Upto(|ns|))
  {
    forall j | j in Upto(|ns|) ensures Lists(ns', |ns|, j) || ListedBy(ns', Upto(|ns|), j) {
      assert ns'[j].def == ns[j].def;
      if AtFrontier(ns, j) {
        assert ns'[|ns|].def.deps == FrontierKeys(ns, |ns|);
      } else {
        var i: nat :| i < |ns| && ns[j].def.key in ns[i].def.deps;
        assert ns'[i].def == ns[i].def && Lists(ns', i, j) && i in Upto(|ns|);
      }
    }
  }

  // Definitions never change, so what a node waits on it waits on for good.
  lemma WaitsForGood(ns: seq<Node>, ns': seq<Node>, x: nat, s: set<nat>)
    requires KeepsOld(ns, ns') && WaitsOnSinks(ns, x, s) && x < |ns|
    ensures WaitsOnSinks(ns', x, s)
  {
    forall i, j | Lists(ns, i, j) ensures Lists(ns', i, j) {
      assert ns'[i].def == ns[i].def && ns'[j].def == ns[j].def;
    }
    forall j | j in s ensures Lists(ns', x, j) || ListedBy(ns', s, j) {
      if !Lists(ns, x, j) {
        var k :| k in s && Lists(ns, k, j);
        assert Lists(ns', k, j);
      }
    }
  }

  lemma {:induction false} RunKeepsWaiting(g: Graph, moves: seq<Move>, x: nat, s: set<nat>)
    requires Structured(g.nodes) && CanRun(g, moves) && x < |g.nodes| && WaitsOnSinks(g.nodes, x, s)
    ensures x < |After(g, moves).nodes| && WaitsOnSinks(After(g, moves).nodes, x, s)
    decreases |moves|
  {
    if moves != [] {
      MoveKeepsOld(g, moves[0]);
      WaitsForGood(g.nodes, Next(g, moves[0]).nodes, x, s);
      RunKeepsWaiting(Next(g, moves[0]), moves[1..], x, s);
    }
  }

  // However the graph runs on after a replan is added, without reopening, the
  // replan is claimed only once every node that was there when it was added has
  // run to an end, those that others depend on (when succeeded) successfully.
  lemma {:induction false} ReplanSeesEverythingSettled(
    g: Graph, h: History, index: nat, id: nat, moves: seq<Move>)
    requires Live(g, h) && !h.reopened && Expandable(g, ReplanRequests(g.nodes, index))
    requires Structured(g.nodes)
    requires CanRun(Next(g, Expand(ReplanRequests(g.nodes, index), id)), moves)
    requires forall m | m in moves :: !m.Reopen?
    ensures var after := After(Next(g, Expand(ReplanRequests(g.nodes, index), id)), moves);
      Started(after.nodes, |g.nodes|) ==> HasRun(after.nodes, Upto(|g.nodes|))
  {
    var rs := ReplanRequests(g.nodes, index);
    var g1 := Next(g, Expand(rs, id));
    GrowthAdds(g, rs, id);
    MoveKeepsLive(g, h, Expand(rs, id));
    ReplanWaits(g.nodes, g1.nodes, index);
    RunKeepsWaiting(g1, moves, |g.nodes|, Upto(|g.nodes|));
    NoReopenIsFair(h, moves);
    RunKeepsLive(g1, h, moves);
    if Started(After(g1, moves).nodes, |g.nodes|) {
      FrontierHasRun(After(g1, moves), HistoryOf(h, moves), |g.nodes|, Upto(|g.nodes|));
    }
  }
}
