// Draining a graph with one worker: claim the first claimable node, resolve it,
// repeat (executeNextNode and drainGraph, src/jev-executor.js, lines 130-387). What
// the work inside a node comes to is an arbitrary answer.

module Drain {
  import opened Basics
  import opened Dag
  import opened GraphShape
  import opened Nodes
  import opened Readiness
  import opened Scheduler
  import opened Invariants
  import opened GraphRuns
  import opened Deadlock

  datatype Answer = Succeeds(output: Output) | Fails(retryable: bool)

  ghost predicate Idle(ns: seq<Node>) {
    forall i | 0 <= i < |ns| :: !ns[i].status.Running?
  }

  ghost predicate SomethingToClaim(g: Graph) {
    Active(g) && exists i: nat :: FirstClaimable(g.nodes, None, i)
  }

  ghost function ToClaim(g: Graph): (i: nat)
    requires SomethingToClaim(g)
    ensures FirstClaimable(g.nodes, None, i)
  {
    var i: nat :| FirstClaimable(g.nodes, None, i); i
  }

  function ClaimMove(i: nat, now: int): Move {
    Claim(i, 0, "inline-worker", 120000, now)
  }

  function Resolution(i: nat, a: Answer): Move {
    match a
    case Succeeds(output) => Complete(i, output)
    case Fails(retryable) => Fail(i, retryable)
  }

  ghost function Claimed(g: Graph, now: int): (g': Graph)
    requires Structured(g.nodes) && SomethingToClaim(g)
    ensures Structured(g'.nodes) && |g'.nodes| == |g.nodes|
    ensures ToClaim(g) < |g.nodes| && g'.nodes[ToClaim(g)].status.Running?
  {
    WrittenNode(g, ClaimMove(ToClaim(g), now), ToClaim(g));
    Next(g, ClaimMove(ToClaim(g), now))
  }

  ghost function Round(g: Graph, a: Answer, now: int): (g': Graph)
    requires Structured(g.nodes) && SomethingToClaim(g)
    ensures Structured(g'.nodes)
  {
    Next(Claimed(g, now), Resolution(ToClaim(g), a))
  }

  ghost function Drained(g: Graph, answers: seq<Answer>, now: int): (g': Graph)
    requires Structured(g.nodes)
    decreases |answers|
  {
    if answers == [] || !SomethingToClaim(g) then g
    else Drained(Round(g, answers[0], now), answers[1..], now)
  }

  // The keys of the nodes claimed, in the order they were claimed.
  ghost function Executed(g: Graph, answers: seq<Answer>, now: int): seq<string>
    requires Structured(g.nodes)
    decreases |answers|
  {
    if answers == [] || !SomethingToClaim(g) then []
    else [g.nodes[ToClaim(g)].def.key] + Executed(Round(g, answers[0], now), answers[1..], now)
  }

  // ---- There is a first one ----------------------------------------------

  lemma {:induction false} LeastOf(ns: seq<Node>, s: set<nat>) returns (i: nat)
    requires s != {} && DistinctKeys(Defs(ns)) && forall x | x in s :: x < |ns|
    ensures i in s && forall x | x in s && x != i :: Earlier(ns[i].def, ns[x].def)
  {
    var y :| y in s;
    if s == {y} {
      i := y;
    } else {
      var z := LeastOf(ns, s - {y});
      EarlierIsTotal(ns, y, z);
      if Earlier(ns[z].def, ns[y].def) {
        i := z;
      } else {
        i := y;
        forall x | x in s && x != y ensures Earlier(ns[y].def, ns[x].def) {
          if x != z { EarlierIsTransitive(ns[y].def, ns[z].def, ns[x].def); }
        }
      }
    }
  }

  lemma EarlierIsTotal(ns: seq<Node>, a: nat, b: nat)
    requires DistinctKeys(Defs(ns)) && a < |ns| && b < |ns| && a != b
    ensures Earlier(ns[a].def, ns[b].def) || Earlier(ns[b].def, ns[a].def)
  {
    TextLessTotal(ns[a].def.key, ns[b].def.key);
    assert Defs(ns)[a].key != Defs(ns)[b].key;
  }

  lemma EarlierIsTransitive(a: Def, b: Def, c: Def)
    requires Earlier(a, b) && Earlier(b, c)
    ensures Earlier(a, c)
  {
    if a.order == b.order == c.order { TextLessTransitive(a.key, b.key, c.key); }
  }

  lemma EarlierIsAsymmetric(a: Def, b: Def)
    requires Earlier(a, b)
    ensures !Earlier(b, a)
  {
    if a.order == b.order && TextLess(b.key, a.key) {
      TextLessTransitive(a.key, b.key, a.key);
    }
    TextLessIrreflexive(a.key);
  }

  lemma FirstExists(ns: seq<Node>, filter: Option<string>, w: int)
    requires DistinctKeys(Defs(ns)) && Claimable(ns, w) && ClassFits(ns[w], filter)
    ensures exists i: nat :: FirstClaimable(ns, filter, i)
  {
    var s := set i: nat | i in Upto(|ns|) && Claimable(ns, i) && ClassFits(ns[i], filter);
    assert (w as nat) in s;
    var i := LeastOf(ns, s);
    forall j | Claimable(ns, j) && ClassFits(ns[j], filter) && j != i ensures Earlier(ns[i].def, ns[j].def) {
      assert (j as nat) in s;
    }
    assert FirstClaimable(ns, filter, i);
  }

  lemma FirstIsUnique(ns: seq<Node>, filter: Option<string>, i: int, j: int)
    requires FirstClaimable(ns, filter, i) && FirstClaimable(ns, filter, j)
    ensures i == j
  {
    if i != j { EarlierIsAsymmetric(ns[i].def, ns[j].def); }
  }

  // ---- One round ----------------------------------------------------------

  lemma {:induction false} RoundKeepsLive(g: Graph, h: History, a: Answer, now: int)
    requires Live(g, h) && SomethingToClaim(g)
    ensures Live(Round(g, a, now), h)
  {
    MoveKeepsLive(g, h, ClaimMove(ToClaim(g), now));
    MoveKeepsLive(Claimed(g, now), h, Resolution(ToClaim(g), a));
  }

  lemma ClaimedNodes(g: Graph, now: int)
    requires Structured(g.nodes) && SomethingToClaim(g)
    ensures var i := ToClaim(g);
      Claimed(g, now).nodes == g.nodes[i := ClaimedNode(g.nodes[i], 0, "inline-worker", 120000, now)]
  {
  }

  // The resolved node is left as written; the others only by propagation.
  lemma {:induction false} ResolvedNode(g: Graph, h: History, m: Move, x: nat)
    requires Live(g, h) && (m.Complete? || m.Fail?) && Enabled(g, m) && x < |g.nodes|
    ensures |Next(g, m).nodes| == |g.nodes|
    ensures x == m.i ==> Next(g, m).nodes[x] == Written(g, m)[x]
    ensures x != m.i ==> Propagated(g.nodes[x], Next(g, m).nodes[x])
  {
    hide Acyclic, Settle;
    var ms := Written(g, m);
    ResolvedAreHanded(g, m);
    SameDefsStructured(g.nodes, ms);
    HandedKeepsGrounded(g.nodes, ms, h);
    SettlePropagates(ms, h);
    SettledLeaves(ms, x);
  }

  lemma {:induction false} RoundNode(g: Graph, h: History, a: Answer, now: int, x: nat)
    requires Live(g, h) && SomethingToClaim(g) && Idle(g.nodes) && x < |g.nodes|
    ensures |Round(g, a, now).nodes| == |g.nodes|
    ensures var n, n', i := g.nodes[x], Round(g, a, now).nodes[x], ToClaim(g);
      && n'.def == n.def
      && n'.attempt == n.attempt + (if x == i then 1 else 0)
      && n'.maxAttempts == n.maxAttempts
      && !n'.status.Running?
      && (x == i && a.Succeeds? ==> n'.status.Succeeded?)
      && (x != i ==> Propagated(n, n'))
  {
    hide Structured, Settle, Stable, Grounded, NodesOk, Derive;
    MoveKeepsLive(g, h, ClaimMove(ToClaim(g), now));
    ClaimedNodes(g, now);
    ResolvedNode(Claimed(g, now), h, Resolution(ToClaim(g), a), x);
    assert !g.nodes[x].status.Running?;
  }

  // ---- Termination --------------------------------------------------------

  function AttemptsLeft(ns: seq<Node>): int {
    if ns == [] then 0 else ns[0].maxAttempts - ns[0].attempt + AttemptsLeft(ns[1..])
  }

  lemma {:induction false} AttemptsLeftDrops(ns: seq<Node>, ms: seq<Node>, i: int)
    requires |ms| == |ns| && i < |ns|
    requires forall x | 0 <= x < |ns| ::
      ms[x].maxAttempts == ns[x].maxAttempts && ms[x].attempt == ns[x].attempt + (if x == i then 1 else 0)
    ensures AttemptsLeft(ms) == AttemptsLeft(ns) - (if i >= 0 then 1 else 0)
  {
    if ns != [] {
      AttemptsLeftDrops(ns[1..], ms[1..], i - 1);
    }
  }

  // Nobody works on the graph, and its status is the derived one.
  ghost predicate Unheld(g: Graph) {
    Structured(g.nodes) && g.status == Derive(g.nodes) && Idle(g.nodes)
  }

  lemma {:induction false} RoundCounts(g: Graph, a: Answer, now: int, x: nat)
    requires Structured(g.nodes) && SomethingToClaim(g) && x < |g.nodes|
    ensures var n, g' := g.nodes[x], Round(g, a, now);
      && |g'.nodes| == |g.nodes| && g'.nodes[x].maxAttempts == n.maxAttempts
      && g'.nodes[x].attempt == n.attempt + (if x == ToClaim(g) then 1 else 0)
      && (n.status.Running? && x != ToClaim(g) <== g'.nodes[x].status.Running?)
  {
    hide Structured, Settle, Derive, Claimable, UnblockedAt;
    var c, m := Claimed(g, now), Resolution(ToClaim(g), a);
    ClaimedNodes(g, now);
    MoveCounts(g, ClaimMove(ToClaim(g), now), x);
    MoveCounts(c, m, x);
    NextLength(c, m);
    NextFollows(c, m, x);
    ResolvedStatus(c, m, x);
  }

  lemma ResolvedStatus(c: Graph, m: Move, x: nat)
    requires (m.Complete? || m.Fail?) && Enabled(c, m) && x < |c.nodes|
    ensures |Written(c, m)| == |c.nodes|
    ensures Written(c, m)[x].status.Running? ==> x != m.i && c.nodes[x].status.Running?
  {
  }

  lemma {:induction false} RoundUsesOneAttempt(g: Graph, a: Answer, now: int)
    requires Structured(g.nodes) && SomethingToClaim(g) && Idle(g.nodes)
    ensures AttemptsLeft(Round(g, a, now).nodes) == AttemptsLeft(g.nodes) - 1
    ensures Idle(Round(g, a, now).nodes)
  {
    hide Structured, Round, SomethingToClaim;
    var g', i := Round(g, a, now), ToClaim(g);
    forall x: nat | x < |g.nodes|
      ensures |g'.nodes| == |g.nodes| && !g'.nodes[x].status.Running?
      ensures g'.nodes[x].maxAttempts == g.nodes[x].maxAttempts
      ensures g'.nodes[x].attempt == g.nodes[x].attempt + (if x == i then 1 else 0)
    {
      RoundCounts(g, a, now, x);
    }
    RoundCounts(g, a, now, i);
    AttemptsLeftDrops(g.nodes, g'.nodes, i);
  }

  lemma {:induction false} ClaimableHasAttempts(g: Graph)
    requires NodesOk(g.nodes) && SomethingToClaim(g)
    ensures AttemptsLeft(g.nodes) > 0
  {
    AttemptsLeftCovers(g.nodes);
    assert NodeOk(g.nodes[ToClaim(g)]);
  }

  // A round is never what gets the graph stuck: it ends with propagation, or the node
  // it put back can be claimed again.
  lemma {:induction false} RoundKeepsUnheld(g: Graph, a: Answer, now: int)
    requires Unheld(g) && SomethingToClaim(g)
    ensures Unheld(Round(g, a, now)) && !Deadlocked(Round(g, a, now).nodes)
  {
    hide Structured, Stable, Derive, Deadlocked, Idle, Settle;
    var c, m := Claimed(g, now), Resolution(ToClaim(g), a);
    RoundUsesOneAttempt(g, a, now);
    MoveKeepsDerived(g, ClaimMove(ToClaim(g), now));
    MoveKeepsDerived(c, m);
    if Propagates(c, m) {
      SettledIsQuiet(c, m);
      NotStuckWhenQuiet(Next(c, m));
    } else {
      ClaimedIsUnblocked(g, now);
      RetryDeadlocksIff(c, m);
    }
  }

  lemma {:induction false} SettledIsQuiet(g: Graph, m: Move)
    requires Structured(g.nodes) && g.status == Derive(g.nodes) && Enabled(g, m) && Propagates(g, m)
    ensures Quiet(Next(g, m))
  {
    hide Acyclic, WellShaped, Derive, Stable;
    MoveKeepsStructure(g, m);
    MoveKeepsDerived(g, m);
    SettleIsStable(Written(g, m));
  }

  lemma {:induction false} ClaimedIsUnblocked(g: Graph, now: int)
    requires Structured(g.nodes) && SomethingToClaim(g)
    ensures UnblockedAt(Claimed(g, now).nodes, ToClaim(g))
  {
    hide Structured;
    var i := ToClaim(g);
    assert Claimable(g.nodes, i);
    ClaimedNodes(g, now);
    UntouchedReadiness(g.nodes, Claimed(g, now).nodes, i, i);
  }

  lemma {:induction false} RoundKeepsNodesOk(g: Graph, a: Answer, now: int)
    requires Structured(g.nodes) && NodesOk(g.nodes) && SomethingToClaim(g)
    ensures NodesOk(Round(g, a, now).nodes)
  {
    hide Structured, NodesOk, Next;
    MoveKeepsNodesOk(g, ClaimMove(ToClaim(g), now));
    MoveKeepsNodesOk(Claimed(g, now), Resolution(ToClaim(g), a));
  }

  lemma {:induction false} AttemptsLeftCovers(ns: seq<Node>)
    requires NodesOk(ns)
    ensures AttemptsLeft(ns) >= 0
    ensures AttemptsLeft(ns) == 0 ==> forall i | 0 <= i < |ns| :: ns[i].attempt == ns[i].maxAttempts
  {
    if ns != [] {
      assert NodeOk(ns[0]);
      assert NodesOk(ns[1..]) by {
        forall i | 0 <= i < |ns[1..]| ensures NodeOk(ns[1..][i]) { assert NodeOk(ns[i + 1]); }
      }
      AttemptsLeftCovers(ns[1..]);
      if AttemptsLeft(ns) == 0 {
        forall i | 0 <= i < |ns| ensures ns[i].attempt == ns[i].maxAttempts {
          if i > 0 { assert ns[1..][i - 1] == ns[i]; }
        }
      }
    }
  }

  lemma {:induction false} ClaimsWhileProgress(g: Graph)
    requires Unheld(g)
    ensures SomethingToClaim(g) <==> CanProgress(g.nodes)
  {
    hide Acyclic, Derive, UnblockedAt;
    if w :| Claimable(g.nodes, w) {
      FirstExists(g.nodes, None, w);
      assert !Terminal(g.nodes[w].status);
      UnfinishedIsActive(g.nodes);
    }
    if SomethingToClaim(g) { assert Claimable(g.nodes, ToClaim(g)); }
  }

  lemma {:induction false} NothingToClaimIsFinished(g: Graph, h: History)
    requires Live(g, h) && Idle(g.nodes)
    ensures SomethingToClaim(g) <==> Unfinished(g.nodes)
  {
    hide Structured, NodesOk, Stable, Grounded, Derive, Idle, SomethingToClaim;
    NoDeadlock(g);
    ClaimsWhileProgress(g);
  }

  // Whatever the work answers, draining takes at most as many claims as there are
  // attempts left, and leaves a node unsettled exactly when the graph was stuck to begin
  // with, as no quiet graph is.
  lemma {:induction false} DrainSettlesEverything(g: Graph, answers: seq<Answer>, now: int)
    requires Unheld(g) && NodesOk(g.nodes) && |answers| >= AttemptsLeft(g.nodes)
    ensures Unfinished(Drained(g, answers, now).nodes) <==> Deadlocked(g.nodes)
    ensures Quiet(g) ==> !Unfinished(Drained(g, answers, now).nodes)
    ensures |Executed(g, answers, now)| <= AttemptsLeft(g.nodes)
    decreases |answers|
  {
    hide Structured, Derive, Stable, Round, AttemptsLeft, SomethingToClaim, Idle, NodesOk, Claimable;
    if Quiet(g) { NotStuckWhenQuiet(g); }
    AttemptsLeftCovers(g.nodes);
    ClaimsWhileProgress(g);
    if SomethingToClaim(g) {
      ClaimableHasAttempts(g);
      RoundKeepsNodesOk(g, answers[0], now);
      RoundKeepsUnheld(g, answers[0], now);
      RoundUsesOneAttempt(g, answers[0], now);
      DrainSettlesEverything(Round(g, answers[0], now), answers[1..], now);
    }
  }

  // ---- The order of a clean run ------------------------------------------

  // Exactly the nodes in `done` have succeeded and nothing has gone wrong.
  ghost predicate DoneSoFar(ns: seq<Node>, done: seq<string>) {
    forall i | 0 <= i < |ns| ::
      if ns[i].def.key in done then ns[i].status.Succeeded? else Movable(ns[i].status)
  }

  lemma DoneIsIdle(ns: seq<Node>, done: seq<string>)
    requires DoneSoFar(ns, done)
    ensures Idle(ns)
  {
  }

  lemma {:induction false} ClaimableIsFree(g: Graph, done: seq<string>, i: nat)
    requires Structured(g.nodes) && Stable(g.nodes) && DoneSoFar(g.nodes, done) && i < |g.nodes|
    ensures Claimable(g.nodes, i) <==> Free(Defs(g.nodes), done, g.nodes[i].def.key)
  {
    hide Free, Claimable, Stable, DoneSoFar, Acyclic;
    if Claimable(g.nodes, i) { ClaimableSoFree(g, done, i); }
    if Free(Defs(g.nodes), done, g.nodes[i].def.key) { FreeSoClaimable(g, done, i); }
  }

  lemma {:induction false} ClaimableSoFree(g: Graph, done: seq<string>, i: nat)
    requires WellShaped(Defs(g.nodes)) && DoneSoFar(g.nodes, done) && Claimable(g.nodes, i) && i < |g.nodes|
    ensures Free(Defs(g.nodes), done, g.nodes[i].def.key)
  {
    var ns, ds := g.nodes, Defs(g.nodes);
    IndexOfKey(ds, i);
    forall d | d in DepsOf(ds, ns[i].def.key) ensures d in done {
      assert HasKey(ds, d);
      var j :| 0 <= j < |ds| && ds[j].key == d;
      assert Lists(ns, i, j);
    }
  }

  lemma {:induction false} FreeSoClaimable(g: Graph, done: seq<string>, i: nat)
    requires WellShaped(Defs(g.nodes)) && Stable(g.nodes) && DoneSoFar(g.nodes, done) && i < |g.nodes|
    requires Free(Defs(g.nodes), done, g.nodes[i].def.key)
    ensures Claimable(g.nodes, i)
  {
    var ns, ds := g.nodes, Defs(g.nodes);
    IndexOfKey(ds, i);
    forall j | Lists(ns, i, j)
      ensures Meets(ns[i].def.mode, ns[j].status) && !Dooms(ns[i].def.mode, ns[j].status)
    {
      assert ns[j].def.key in DepsOf(ds, ns[i].def.key);
    }
    assert UnblockedAt(ns, i);
  }

  lemma {:induction false} FirstIsLeastFree(g: Graph, done: seq<string>)
    requires Structured(g.nodes) && Stable(g.nodes) && DoneSoFar(g.nodes, done) && SomethingToClaim(g)
    ensures var ds, k := Defs(g.nodes), g.nodes[ToClaim(g)].def.key;
      && Free(ds, done, k)
      && forall k' | Free(ds, done, k') :: k' == k || Before(PositionTable(ds), k, k')
  {
    var ns, ds := g.nodes, Defs(g.nodes);
    var i := ToClaim(g);
    ClaimableIsFree(g, done, i);
    forall k' | Free(ds, done, k') ensures k' == ns[i].def.key || Before(PositionTable(ds), ns[i].def.key, k') {
      var j := IndexOf(ds, k');
      ClaimableIsFree(g, done, j);
      if j != i {
        assert Earlier(ns[i].def, ns[j].def);
        assert PositionTable(ds)[ds[i].key] == ds[i].order && PositionTable(ds)[ds[j].key] == ds[j].order;
      }
    }
  }

  lemma {:induction false} CleanRound(g: Graph, h: History, done: seq<string>, a: Answer, now: int)
    requires Live(g, h) && SomethingToClaim(g) && DoneSoFar(g.nodes, done) && a.Succeeds?
    ensures var g', k := Round(g, a, now), g.nodes[ToClaim(g)].def.key;
      Live(g', h) && Idle(g'.nodes) && Defs(g'.nodes) == Defs(g.nodes) && DoneSoFar(g'.nodes, done + [k])
  {
    DoneIsIdle(g.nodes, done);
    RoundKeepsLive(g, h, a, now);
    RoundUsesOneAttempt(g, a, now);
    RoundKeepsDefs(g, h, a, now);
    OthersPropagated(g, h, a, now);
    CleanRoundSkipsNothing(g, h, a, now);
    CleanRoundDone(g.nodes, Round(g, a, now).nodes, done, ToClaim(g));
  }

  lemma {:induction false} OthersPropagated(g: Graph, h: History, a: Answer, now: int)
    requires Live(g, h) && SomethingToClaim(g) && Idle(g.nodes) && a.Succeeds?
    ensures |Round(g, a, now).nodes| == |g.nodes|
    ensures var n, n' := g.nodes[ToClaim(g)], Round(g, a, now).nodes[ToClaim(g)];
      n'.status.Succeeded? && n'.def == n.def
    ensures forall x | 0 <= x < |g.nodes| && x != ToClaim(g) :: Propagated(g.nodes[x], Round(g, a, now).nodes[x])
  {
    RoundNode(g, h, a, now, ToClaim(g));
    forall x: nat | x < |g.nodes| && x != ToClaim(g)
      ensures Propagated(g.nodes[x], Round(g, a, now).nodes[x])
    {
      RoundNode(g, h, a, now, x);
    }
  }

  lemma {:induction false} RoundKeepsDefs(g: Graph, h: History, a: Answer, now: int)
    requires Live(g, h) && SomethingToClaim(g) && Idle(g.nodes)
    ensures Defs(Round(g, a, now).nodes) == Defs(g.nodes)
  {
    hide Idle, Propagated, Structured, NodesOk, Stable, Grounded, Derive, Round;
    RoundNode(g, h, a, now, 0);
    forall x: nat | x < |g.nodes| ensures Round(g, a, now).nodes[x].def == g.nodes[x].def {
      RoundNode(g, h, a, now, x);
    }
  }

  lemma CleanRoundDone(ns: seq<Node>, ms: seq<Node>, done: seq<string>, i: nat)
    requires DistinctKeys(Defs(ns)) && |ms| == |ns| && i < |ns| && DoneSoFar(ns, done)
    requires ms[i].status.Succeeded? && ms[i].def == ns[i].def
    requires forall x | 0 <= x < |ns| && x != i :: Propagated(ns[x], ms[x]) && !ms[x].status.Skipped?
    ensures DoneSoFar(ms, done + [ns[i].def.key])
  {
    forall x: nat | x < |ns| && x != i ensures ns[x].def.key != ns[i].def.key && ms[x].def == ns[x].def {
      assert Defs(ns)[x].key != Defs(ns)[i].key;
    }
  }

  // With no failure anywhere there is nothing to propagate.
  lemma {:induction false} NoFailureNoSkip(ns: seq<Node>)
    requires WellShaped(Defs(ns))
    requires forall x | 0 <= x < |ns| :: ns[x].status.Succeeded? || Movable(ns[x].status)
    ensures forall x | 0 <= x < |ns| :: !Settle(ns)[x].status.Skipped?
  {
    SettleMeaning(ns);
    forall i ensures !DoomedAt(ns, i) {}
    NoDoomNoChain(ns);
    forall x | 0 <= x < |ns| ensures !Settle(ns)[x].status.Skipped? {
      assert SettledNode(ns, Settle(ns), x);
    }
  }

  lemma NoDoomNoChain(ns: seq<Node>)
    requires forall i :: !DoomedAt(ns, i)
    ensures forall i :: !WillSkip(ns, i)
  {
    forall p ensures !DoomChain(ns, p) {}
  }

  lemma {:induction false} CleanRoundWrites(g: Graph, a: Answer, now: int)
    requires Structured(g.nodes) && SomethingToClaim(g) && a.Succeeds?
    requires forall x | 0 <= x < |g.nodes| :: g.nodes[x].status.Succeeded? || Movable(g.nodes[x].status)
    ensures var g1, m := Claimed(g, now), Resolution(ToClaim(g), a);
      && Enabled(g1, m) && |Written(g1, m)| == |g.nodes|
      && forall x | 0 <= x < |g.nodes| :: Written(g1, m)[x].status.Succeeded? || Movable(Written(g1, m)[x].status)
  {
    hide SomethingToClaim, Structured;
    ClaimedNodes(g, now);
  }

  lemma {:induction false} CleanRoundSkipsNothing(g: Graph, h: History, a: Answer, now: int)
    requires Live(g, h) && SomethingToClaim(g) && a.Succeeds?
    requires forall x | 0 <= x < |g.nodes| :: g.nodes[x].status.Succeeded? || Movable(g.nodes[x].status)
    ensures |Round(g, a, now).nodes| == |g.nodes|
    ensures forall x | 0 <= x < |g.nodes| :: !Round(g, a, now).nodes[x].status.Skipped?
  {
    assert Structured(g.nodes);
    hide Live, SomethingToClaim, Structured, Settle;
    CleanRoundWrites(g, a, now);
    MoveKeepsStructure(Claimed(g, now), Resolution(ToClaim(g), a));
    hide Written, Claimed;
    NoFailureNoSkip(Written(Claimed(g, now), Resolution(ToClaim(g), a)));
  }

  ghost predicate AllSucceed(answers: seq<Answer>) {
    forall t | 0 <= t < |answers| :: answers[t].Succeeds?
  }

  // Greedy under the stored positions, which is what topologicalOrder sorts by.
  ghost predicate GreedyIn(ds: seq<Def>, ordered: seq<string>) {
    DistinctKeys(ds) && Greedy(ds, PositionTable(ds), ordered)
  }

  lemma {:induction false} ExecutedUnfolds(g: Graph, answers: seq<Answer>, now: int)
    requires Structured(g.nodes)
    ensures answers == [] || !SomethingToClaim(g) ==> Executed(g, answers, now) == []
    ensures answers != [] && SomethingToClaim(g) ==>
      Executed(g, answers, now)
        == [g.nodes[ToClaim(g)].def.key] + Executed(Round(g, answers[0], now), answers[1..], now)
  {
  }

  // A state on the way through a clean run of the graph `ds`.
  ghost predicate Clean(g: Graph, h: History, ds: seq<Def>, done: seq<string>) {
    Live(g, h) && Idle(g.nodes) && DoneSoFar(g.nodes, done) && Defs(g.nodes) == ds && GreedyIn(ds, done)
  }

  lemma {:induction false} CleanStep(
    g: Graph, h: History, ds: seq<Def>, done: seq<string>, a: Answer, now: int)
    requires Clean(g, h, ds, done) && SomethingToClaim(g) && a.Succeeds?
    ensures Clean(Round(g, a, now), h, ds, done + [g.nodes[ToClaim(g)].def.key])
    ensures AttemptsLeft(Round(g, a, now).nodes) == AttemptsLeft(g.nodes) - 1
  {
    RoundUsesOneAttempt(g, a, now);
    CleanRound(g, h, done, a, now);
    FirstExtendsGreedy(g, done);
  }

  lemma MoveOver<T>(a: seq<T>, b: seq<T>)
    requires b != []
    ensures (a + b[..1]) + b[1..] == a + b
  {
  }

  lemma NothingAdded<T>(a: seq<T>)
    ensures a + [] == a && [] + a == a
  {
  }

  // A clean run in progress: `done` has succeeded, `out` is still to be claimed.
  ghost predicate CleanRun(
    g: Graph, h: History, ds: seq<Def>, done: seq<string>, answers: seq<Answer>, now: int, out: seq<string>)
  {
    && Clean(g, h, ds, done)
    && AllSucceed(answers) && |answers| >= AttemptsLeft(g.nodes)
    && out == Executed(g, answers, now)
  }

  lemma {:induction false} CleanRunStep(
    g: Graph, h: History, ds: seq<Def>, done: seq<string>, answers: seq<Answer>, now: int, out: seq<string>)
    returns (g': Graph)
    requires CleanRun(g, h, ds, done, answers, now, out) && SomethingToClaim(g)
    ensures answers != [] && out != []
    ensures CleanRun(g', h, ds, done + out[..1], answers[1..], now, out[1..])
  {
    ClaimableHasAttempts(g);
    g' := Round(g, answers[0], now);
    CleanStep(g, h, ds, done, answers[0], now);
    ExecutedUnfolds(g, answers, now);
  }

  lemma {:induction false} CleanRunEnd(
    g: Graph, h: History, ds: seq<Def>, done: seq<string>, answers: seq<Answer>, now: int, out: seq<string>)
    requires CleanRun(g, h, ds, done, answers, now, out) && !SomethingToClaim(g)
    ensures out == [] && GreedyIn(ds, done) && Finished(ds, done)
  {
    ExecutedUnfolds(g, answers, now);
    NothingToClaimIsFinished(g, h);
    NothingFreeWhenFinished(g, done);
  }

  lemma {:induction false} CleanRunIsGreedy(
    g: Graph, h: History, ds: seq<Def>, done: seq<string>, answers: seq<Answer>, now: int, out: seq<string>)
    requires CleanRun(g, h, ds, done, answers, now, out)
    ensures GreedyIn(ds, done + out) && Finished(ds, done + out)
    decreases |answers|
  {
    if SomethingToClaim(g) {
      var g' := CleanRunStep(g, h, ds, done, answers, now, out);
      CleanRunIsGreedy(g', h, ds, done + out[..1], answers[1..], now, out[1..]);
      MoveOver(done, out);
    } else {
      CleanRunEnd(g, h, ds, done, answers, now, out);
      NothingAdded(done);
    }
  }

  lemma {:induction false} FirstExtendsGreedy(g: Graph, done: seq<string>)
    requires Structured(g.nodes) && Stable(g.nodes) && DoneSoFar(g.nodes, done) && SomethingToClaim(g)
    requires GreedyIn(Defs(g.nodes), done)
    ensures GreedyIn(Defs(g.nodes), done + [g.nodes[ToClaim(g)].def.key])
  {
    FirstIsLeastFree(g, done);
    ExtendGreedy(Defs(g.nodes), PositionTable(Defs(g.nodes)), done, g.nodes[ToClaim(g)].def.key);
  }

  lemma {:induction false} NothingFreeWhenFinished(g: Graph, done: seq<string>)
    requires Structured(g.nodes) && Stable(g.nodes) && DoneSoFar(g.nodes, done) && !Unfinished(g.nodes)
    ensures Finished(Defs(g.nodes), done)
  {
    forall k ensures !Free(Defs(g.nodes), done, k) {
      if HasKey(Defs(g.nodes), k) {
        var i := IndexOf(Defs(g.nodes), k);
        ClaimableIsFree(g, done, i);
        assert Terminal(g.nodes[i].status);
      }
    }
  }

  // One worker and no failures: nodes are claimed exactly in the order
  // topologicalOrder gives for the stored graph.
  lemma {:induction false} CleanRunFollowsTopologicalOrder(
    id: nat, task: string, tenant: string, now: int, rs: seq<Request>, answers: seq<Answer>, ordered: seq<string>)
    requires Creatable(rs) && AllSucceed(answers)
    requires |answers| >= AttemptsLeft(Initial(id, task, tenant, now, rs).nodes)
    requires var ds := Defs(Initial(id, task, tenant, now, rs).nodes);
      GreedyIn(ds, ordered) && Finished(ds, ordered)
    ensures Executed(Initial(id, task, tenant, now, rs), answers, now) == ordered
  {
    var g := Initial(id, task, tenant, now, rs);
    var out := Executed(g, answers, now);
    CleanRunStarts(id, task, tenant, now, rs, answers);
    CleanRunIsGreedy(g, Untouched, Defs(g.nodes), [], answers, now, out);
    NothingAdded(out);
    GreedyUnique(Defs(g.nodes), PositionTable(Defs(g.nodes)), out, ordered);
  }

  lemma {:induction false} CleanRunStarts(
    id: nat, task: string, tenant: string, now: int, rs: seq<Request>, answers: seq<Answer>)
    requires Creatable(rs) && AllSucceed(answers)
    requires |answers| >= AttemptsLeft(Initial(id, task, tenant, now, rs).nodes)
    ensures var g := Initial(id, task, tenant, now, rs);
      CleanRun(g, Untouched, Defs(g.nodes), [], answers, now, Executed(g, answers, now))
  {
    CreatedIsLive(id, task, tenant, now, rs);
    CreatedIsFresh(id, task, tenant, now, rs);
  }

  lemma SettledWaiting(before: seq<Node>, after: seq<Node>, i: nat)
    requires |before| == |after| && i < |before| && SettledNode(before, after, i)
    requires before[i].status.Pending? && !after[i].status.Skipped?
    ensures after[i] == before[i] || after[i] == before[i].(status := Ready)
  {
  }

  predicate FreshNode(r: Request, order: int, n: Node) {
    Movable(n.status) && n.attempt == 0 && n.def == PreparedDef(r, order) && n.maxAttempts == Max(1, r.maxAttempts)
  }

  lemma {:induction false} CreatedIsFresh(id: nat, task: string, tenant: string, now: int, rs: seq<Request>)
    requires Creatable(rs)
    ensures var ns := Initial(id, task, tenant, now, rs).nodes;
      |ns| == |rs| && forall i | 0 <= i < |ns| :: FreshNode(rs[i], i, ns[i])
  {
    UnionStructured([], rs, id + 1);
    FreshSettles(rs, id + 1);
  }

  lemma {:induction false} FreshSettles(rs: seq<Request>, id: nat)
    requires WellShaped(Defs(Union([], rs, id)))
    ensures var ns := Settle(Union([], rs, id));
      |ns| == |rs| && forall i | 0 <= i < |ns| :: FreshNode(rs[i], i, ns[i])
  {
    var all := Union([], rs, id);
    NoFailureNoSkip(all);
    SettleMeaning(all);
    forall i: nat | i < |rs| ensures FreshNode(rs[i], i, Settle(all)[i]) {
      SettledWaiting(all, Settle(all), i);
    }
  }
}
