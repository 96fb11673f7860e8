// A run that gets stuck: nodes of a cancelled graph are reopened, a running node is
// doomed behind its worker's back, and its failure is put back for a retry without
// propagation (src/jev.js, lines 461-474 and 542-577).

module StuckRun {
  import opened Basics
  import opened Dag
  import opened GraphShape
  import opened Nodes
  import opened Readiness
  import opened Scheduler
  import opened Invariants
  import opened GraphRuns
  import opened Deadlock
  import opened Drain

  // ---- The graph ----------------------------------------------------------

  function StepRequest(key: string, deps: seq<string>, expands: bool): Request {
    Request(key, "command", deps, WhenSettled, Payload(expands, None), "cpu", 2, 0, 0)
  }

  // Three steps, each waiting for the one before to settle, and a producer that is
  // owed its expansion, which keeps the cancelled graph running.
  const CHAIN: seq<Request> := [
    StepRequest("a", [], false), StepRequest("b", ["a"], false), StepRequest("c", ["b"], false),
    StepRequest("p", [], true)]

  ghost predicate OnChain(ns: seq<Node>) {
    |ns| == 4 && forall i | 0 <= i < 4 :: ns[i].def == PreparedDef(CHAIN[i], i)
  }

  lemma PlainKeys()
    ensures forall i | 0 <= i < 4 :: Trim(CHAIN[i].key) == CHAIN[i].key != ""
    ensures "a" != "b" && "a" != "c" && "a" != "p" && "b" != "c" && "b" != "p" && "c" != "p"
  {
    assert "a"[0] != "b"[0] && "a"[0] != "c"[0] && "a"[0] != "p"[0] && "b"[0] != "c"[0] && "b"[0] != "p"[0]
      && "c"[0] != "p"[0];
    forall i | 0 <= i < 4 ensures Trim(CHAIN[i].key) == CHAIN[i].key {
      var k := CHAIN[i].key;
      assert |k| == 1 && !IsSpace(k[0]);
      assert TrimStart(k) == k && TrimEnd(k) == k;
    }
  }

  ghost predicate ChainLinked(ns: seq<Node>) {
    && |ns| == 4
    && (forall i, j :: Lists(ns, i, j) <==> (i == 1 && j == 0) || (i == 2 && j == 1))
    && (forall i | 0 <= i < 4 :: ns[i].def.mode.WhenSettled? && (ns[i].def.payload.expandsGraph <==> i == 3))
  }

  lemma ChainLinks(ns: seq<Node>)
    requires OnChain(ns)
    ensures ChainLinked(ns)
  {
    PlainKeys();
    assert CHAIN[0].key != CHAIN[1].key;
  }

  lemma {:induction false} ChainIsCreatable()
    ensures Creatable(CHAIN)
  {
    var ns := Union([], CHAIN, 0);
    assert OnChain(ns);
    ChainIsShaped(ns);
  }

  lemma {:induction false} ChainIsShaped(ns: seq<Node>)
    requires OnChain(ns)
    ensures AcceptableShape(Defs(ns))
  {
    var ds := Defs(ns);
    PlainKeys();
    ChainLinks(ns);
    forall i: nat, j: nat | DepOf(ds, i, j) ensures j < i { assert Lists(ns, i, j); }
    forall i | 0 <= i < 4 ensures ds[i].key == CHAIN[i].key && ds[i].deps == CHAIN[i].deps {}
    hide Trim;
    BackwardIsAcyclic(ds);
    ChainIsWellShaped(ds);
    hide Acyclic, WellShaped;
    AcceptableShapeWhenTrimmed(ds);
  }

  lemma ChainIsWellShaped(ds: seq<Def>)
    requires |ds| == 4 && forall i | 0 <= i < 4 :: ds[i].key == CHAIN[i].key && ds[i].deps == CHAIN[i].deps
    ensures WellShaped(ds)
  {
    PlainKeys();
    FourAreWellShaped(ds, ds[0].key, ds[1].key, ds[2].key, ds[3].key);
  }

  lemma FourAreWellShaped(ds: seq<Def>, a: string, b: string, c: string, p: string)
    requires a != b && a != c && a != p && b != c && b != p && c != p
    requires |ds| == 4 && ds[0].key == a && ds[1].key == b && ds[2].key == c && ds[3].key == p
    requires ds[0].deps == [] && ds[1].deps == [a] && ds[2].deps == [b] && ds[3].deps == []
    ensures WellShaped(ds)
  {
    assert HasKey(ds, a) && HasKey(ds, b);
  }

  lemma {:induction false} BackwardIsAcyclic(ds: seq<Def>)
    requires forall i: nat, j: nat | DepOf(ds, i, j) :: j < i
    ensures Acyclic(ds)
  {
    forall p | Walk(ds, p) && |p| >= 2 ensures p[0] != p[|p| - 1] { WalkDescends(ds, p); }
  }

  lemma {:induction false} WalkDescends(ds: seq<Def>, p: seq<nat>)
    requires (forall i: nat, j: nat | DepOf(ds, i, j) :: j < i) && Walk(ds, p) && |p| >= 2
    ensures p[|p| - 1] < p[0]
  {
    var init := p[..|p| - 1];
    assert DepOf(ds, p[|p| - 2], p[|p| - 1]);
    if |p| > 2 {
      forall t | 0 <= t < |init| - 1 ensures DepOf(ds, init[t], init[t + 1]) { assert DepOf(ds, p[t], p[t + 1]); }
      WalkDescends(ds, init);
    }
  }

  // ---- Propagation along the chain ----------------------------------------

  function Passed(s: Status, dep: Status): Status {
    if Movable(s) && Dooms(WhenSettled, dep) then Skipped
    else if s.Pending? && Meets(WhenSettled, dep) then Ready
    else s
  }

  function Begun(s: Status): Status { if s.Pending? then Ready else s }

  function Spread(s: seq<Status>): (r: seq<Status>)
    requires |s| == 4
    ensures |r| == 4
  {
    var s1 := Passed(s[1], s[0]);
    [Begun(s[0]), s1, Passed(s[2], s1), Begun(s[3])]
  }

  ghost predicate Show(ns: seq<Node>, s: seq<Status>) {
    |ns| == |s| == 4 && forall i | 0 <= i < 4 :: ns[i].status == s[i]
  }

  lemma {:induction false} SkippedOnChain(ns: seq<Node>)
    requires ChainLinked(ns)
    ensures !WillSkip(ns, 0) && !WillSkip(ns, 3)
    ensures WillSkip(ns, 1) <==> Movable(ns[1].status) && Dooms(WhenSettled, ns[0].status)
    ensures WillSkip(ns, 2) <==> Movable(ns[2].status) && (Dooms(WhenSettled, ns[1].status) || WillSkip(ns, 1))
  {
    forall p | DoomChain(ns, p) ensures EndsAt(ns, p[|p| - 1]) { ChainEnd(ns, p); }
    assert Dooms(WhenSettled, ns[0].status) ==> Lists(ns, 1, 0) && DoomedAt(ns, 1);
    assert Dooms(WhenSettled, ns[1].status) ==> Lists(ns, 2, 1) && DoomedAt(ns, 2);
    if Movable(ns[1].status) && Dooms(WhenSettled, ns[0].status) { assert DoomChain(ns, [1]); }
    if Movable(ns[2].status) && Dooms(WhenSettled, ns[1].status) { assert DoomChain(ns, [2]); }
    if Movable(ns[2].status) && WillSkip(ns, 1) { assert DoomChain(ns, [1, 2]); }
  }

  // Where a chain can end, and why.
  ghost predicate EndsAt(ns: seq<Node>, i: int)
    requires |ns| == 4
  {
    || (i == 1 && Movable(ns[1].status) && Dooms(WhenSettled, ns[0].status))
    || (i == 2 && Movable(ns[2].status) && (Dooms(WhenSettled, ns[1].status) || WillSkip(ns, 1)))
  }

  lemma {:induction false} ChainEnd(ns: seq<Node>, p: seq<nat>)
    requires ChainLinked(ns) && DoomChain(ns, p)
    ensures EndsAt(ns, p[|p| - 1])
  {
    var last := |p| - 1;
    if last > 0 {
      var q := p[..last];
      forall t | 0 <= t < |q| ensures q[t] == p[t] {}
      forall t | 0 <= t < |q| - 1 ensures Lists(ns, q[t + 1], q[t]) { assert Lists(ns, p[t + 1], p[t]); }
      assert Lists(ns, p[last - 1 + 1], p[last - 1]);
      assert DoomChain(ns, q);
      ChainEnd(ns, q);
      assert q[|q| - 1] == p[last - 1];
    }
  }

  function Moved(s: Status, skips: bool, open: bool): Status {
    if !Movable(s) then s else if skips then Skipped else if s.Pending? && open then Ready else s
  }

  lemma {:induction false} SettledOnChain(ns: seq<Node>, i: nat)
    requires ChainLinked(ns) && WellShaped(Defs(ns)) && i < 4
    ensures |Settle(ns)| == 4 && Settle(ns)[i].status == Moved(ns[i].status, WillSkip(ns, i), UnblockedAt(ns, i))
  {
    SettleMeaning(ns);
    assert SettledNode(ns, Settle(ns), i);
  }

  lemma SpreadByParts(s: seq<Status>, skips1: bool, skips2: bool)
    requires |s| == 4 && (skips1 <==> Movable(s[1]) && Dooms(WhenSettled, s[0]))
    requires skips2 <==> Movable(s[2]) && (Dooms(WhenSettled, s[1]) || skips1)
    ensures Spread(s)[0] == Moved(s[0], false, true) && Spread(s)[3] == Moved(s[3], false, true)
    ensures Spread(s)[1] == Moved(s[1], skips1, Meets(WhenSettled, s[0]) && !Dooms(WhenSettled, s[0]))
    ensures Spread(s)[2] == Moved(s[2], skips2, Meets(WhenSettled, s[1]) && !Dooms(WhenSettled, s[1]))
  {
  }

  lemma OpenOnChain(ns: seq<Node>)
    requires ChainLinked(ns)
    ensures UnblockedAt(ns, 0) && UnblockedAt(ns, 3)
    ensures UnblockedAt(ns, 1) <==> Meets(WhenSettled, ns[0].status) && !Dooms(WhenSettled, ns[0].status)
    ensures UnblockedAt(ns, 2) <==> Meets(WhenSettled, ns[1].status) && !Dooms(WhenSettled, ns[1].status)
  {
    assert Lists(ns, 1, 0) && Lists(ns, 2, 1);
  }

  lemma {:induction false} SettleOnChain(ns: seq<Node>, s: seq<Status>)
    requires ChainLinked(ns) && WellShaped(Defs(ns)) && Show(ns, s)
    ensures Show(Settle(ns), Spread(s))
  {
    SkippedOnChain(ns);
    OpenOnChain(ns);
    hide ChainLinked, WellShaped, Settle, WillSkip, UnblockedAt, Spread, Moved, Movable, Dooms, Meets;
    SettledOnChain(ns, 0);
    SettledOnChain(ns, 1);
    SettledOnChain(ns, 2);
    SettledOnChain(ns, 3);
    SpreadByParts(s, WillSkip(ns, 1), WillSkip(ns, 2));
  }

  // ---- The moves on it ----------------------------------------------------

  // The statuses, and the attempts and the ceiling of the last step of the chain.
  ghost predicate Looks(g: Graph, s: seq<Status>, attempt: nat, ceiling: nat) {
    && Structured(g.nodes) && ChainLinked(g.nodes) && Show(g.nodes, s) && g.status == Derive(g.nodes)
    && g.nodes[2].attempt == attempt && g.nodes[2].maxAttempts == ceiling
  }

  // Definitions do not change, so the links stay.
  lemma SameLinks(ns: seq<Node>, ms: seq<Node>)
    requires ChainLinked(ns) && |ms| == |ns| && forall i | 0 <= i < |ns| :: ms[i].def == ns[i].def
    ensures ChainLinked(ms)
  {
    forall i, j ensures Lists(ms, i, j) <==> Lists(ns, i, j) {}
  }

  // A move of Scheduler shows what it wrote, propagated if it propagates.
  lemma {:induction false} MoveOnChain(g: Graph, s: seq<Status>, a: nat, l: nat, m: Move, written: seq<Status>)
    requires Looks(g, s, a, l) && Enabled(g, m) && !m.Expand? && Show(Written(g, m), written)
    ensures Looks(Next(g, m), if Propagates(g, m) then Spread(written) else written,
                  if m.Claim? && m.i == 2 then a + 1 else a, if m.Reopen? && m.i == 2 then l + 1 else l)
  {
    hide ChainLinked, Structured, Settle, Next, Written, Propagates, WellShaped, Enabled, Derive, Spread;
    NextNodes(g, m);
    MoveKeepsDerived(g, m);
    WrittenLinks(g, m);
    NextLinks(g, m);
    MoveCounts(g, m, 2);
    if Propagates(g, m) { SettleOnChain(Written(g, m), written); }
  }

  lemma {:induction false} NextNodes(g: Graph, m: Move)
    requires Structured(g.nodes) && Enabled(g, m)
    ensures WellShaped(Defs(Written(g, m)))
    ensures Next(g, m).nodes == if Propagates(g, m) then Settle(Written(g, m)) else Written(g, m)
  {
    MoveKeepsStructure(g, m);
  }

  lemma {:induction false} WrittenLinks(g: Graph, m: Move)
    requires ChainLinked(g.nodes) && Enabled(g, m) && !m.Expand?
    ensures ChainLinked(Written(g, m))
  {
    forall i: nat | i < |g.nodes| ensures |Written(g, m)| == |g.nodes| && Written(g, m)[i].def == g.nodes[i].def {
      WrittenNode(g, m, i);
    }
    hide Written, ChainLinked;
    WrittenNode(g, m, 0);
    SameLinks(g.nodes, Written(g, m));
  }

  lemma {:induction false} NextLinks(g: Graph, m: Move)
    requires Structured(g.nodes) && ChainLinked(g.nodes) && Enabled(g, m) && !m.Expand?
    ensures ChainLinked(Next(g, m).nodes)
  {
    NextLength(g, m);
    WrittenNode(g, m, 0);
    forall i: nat | i < |g.nodes| ensures i < |Next(g, m).nodes| && Next(g, m).nodes[i].def == g.nodes[i].def {
      MoveCounts(g, m, i);
    }
    hide Next, ChainLinked, Structured;
    SameLinks(g.nodes, Next(g, m).nodes);
  }

  // ---- The run ------------------------------------------------------------

  ghost predicate MayStart(s: seq<Status>, i: nat)
    requires |s| == 4 && i < 4
  {
    && s[i].Ready?
    && (i == 1 ==> Meets(WhenSettled, s[0]) && !Dooms(WhenSettled, s[0]))
    && (i == 2 ==> Meets(WhenSettled, s[1]) && !Dooms(WhenSettled, s[1]))
  }

  lemma {:induction false} ClaimOnChain(g: Graph, s: seq<Status>, a: nat, l: nat, i: nat)
    requires Looks(g, s, a, l) && i < 4 && MayStart(s, i)
    ensures Enabled(g, ClaimMove(i, 0))
    ensures Looks(Next(g, ClaimMove(i, 0)), s[i := Running], if i == 2 then a + 1 else a, l)
  {
    ClaimEnabled(g, s, a, l, i);
    hide Looks, Enabled, MayStart, Next, Written;
    MoveOnChain(g, s, a, l, ClaimMove(i, 0), s[i := Running]);
  }

  lemma {:induction false} ClaimEnabled(g: Graph, s: seq<Status>, a: nat, l: nat, i: nat)
    requires Looks(g, s, a, l) && i < 4 && MayStart(s, i)
    ensures Enabled(g, ClaimMove(i, 0)) && Show(Written(g, ClaimMove(i, 0)), s[i := Running])
    ensures !Propagates(g, ClaimMove(i, 0))
  {
    OpenOnChain(g.nodes);
    ReadyIsActive(g, i);
    assert s[i].Ready? && UnblockedAt(g.nodes, i);
    hide Structured, ChainLinked, Derive, UnblockedAt, MayStart, Active, Lists;
  }

  lemma ReadyIsActive(g: Graph, i: nat)
    requires i < |g.nodes| && g.nodes[i].status.Ready? && g.status == Derive(g.nodes)
    ensures Active(g)
  {
    assert !Terminal(g.nodes[i].status);
    UnfinishedIsActive(g.nodes);
    hide Derive;
  }

  lemma {:induction false} CompleteOnChain(g: Graph, s: seq<Status>, a: nat, l: nat, i: nat)
    requires Looks(g, s, a, l) && i < 4 && s[i].Running?
    ensures Enabled(g, Complete(i, NoOutput)) && Looks(Next(g, Complete(i, NoOutput)), Spread(s[i := Succeeded]), a, l)
  {
    hide Structured, ChainLinked, Derive, Next;
    MoveOnChain(g, s, a, l, Complete(i, NoOutput), s[i := Succeeded]);
  }

  lemma {:induction false} FailOnChain(g: Graph, s: seq<Status>, a: nat, l: nat, i: nat)
    requires Looks(g, s, a, l) && i < 4 && s[i].Running?
    ensures Enabled(g, Fail(i, false)) && Looks(Next(g, Fail(i, false)), Spread(s[i := Failed]), a, l)
  {
    hide Structured, ChainLinked, Derive, Next;
    MoveOnChain(g, s, a, l, Fail(i, false), s[i := Failed]);
  }

  lemma ReopenShows(ns: seq<Node>, s: seq<Status>, i: nat)
    requires Show(ns, s) && i < 4 && Status.Skipped !in s
    ensures Show(AfterReopen(ns, i), s[i := Pending])
  {
    assert forall x | 0 <= x < 4 :: s[x] in s;
  }

  lemma {:induction false} ReopenOnChain(g: Graph, s: seq<Status>, a: nat, l: nat, i: nat)
    requires Looks(g, s, a, l) && i < 4 && s[i].Failed? && s[3].Succeeded? && Status.Skipped !in s
    ensures Enabled(g, Reopen(i))
    ensures Looks(Next(g, Reopen(i)), Spread(s[i := Pending]), a, if i == 2 then l + 1 else l)
  {
    assert AwaitsExpansion(g.nodes, 3);
    assert g.status.GraphRunning?;
    hide Structured, ChainLinked, Derive, Next, AwaitsExpansion;
    ReopenShows(g.nodes, s, i);
    MoveOnChain(g, s, a, l, Reopen(i), s[i := Pending]);
  }

  // What a cancel leaves.
  function Ended(s: seq<Status>): (r: seq<Status>)
    requires |s| == 4
    ensures |r| == 4 && forall i | 0 <= i < 4 :: r[i] == if Terminal(s[i]) then s[i] else Cancelled
  {
    seq(4, i requires 0 <= i < 4 => if Terminal(s[i]) then s[i] else Cancelled)
  }

  lemma {:induction false} CancelOnChain(g: Graph, s: seq<Status>, a: nat, l: nat)
    requires Looks(g, s, a, l)
    ensures Enabled(g, Cancel)
    ensures Looks(Next(g, Cancel), Ended(s), a, l)
  {
    hide Structured, ChainLinked, Derive, Next;
    MoveOnChain(g, s, a, l, Cancel, Ended(s));
  }

  lemma {:induction false} RetryOnChain(g: Graph, s: seq<Status>, a: nat, l: nat)
    requires Looks(g, s, a, l) && s[2].Running? && a < l
    ensures Enabled(g, Fail(2, true)) && Looks(Next(g, Fail(2, true)), s[2 := Ready], a, l)
  {
    hide Structured, ChainLinked, Derive, Next;
    MoveOnChain(g, s, a, l, Fail(2, true), s[2 := Ready]);
  }

  lemma {:induction false} OneMore(g: Graph, moves: seq<Move>, m: Move)
    requires Structured(g.nodes) && CanRun(g, moves) && Enabled(After(g, moves), m)
    ensures CanRun(g, moves + [m]) && After(g, moves + [m]) == Next(After(g, moves), m)
    decreases |moves|
  {
    hide Next, Structured, Enabled;
    if moves == [] {
      assert moves + [m] == [m] && [m][1..] == [];
      assert CanRun(Next(g, m), []) && After(Next(g, m), []) == Next(g, m);
    } else {
      assert (moves + [m])[0] == moves[0] && (moves + [m])[1..] == moves[1..] + [m];
      OneMore(Next(g, moves[0]), moves[1..], m);
    }
  }

  // Where the moves have brought the graph.
  ghost predicate Reaches(start: Graph, moves: seq<Move>, s: seq<Status>, a: nat, l: nat)
    requires Structured(start.nodes)
  {
    CanRun(start, moves) && Looks(After(start, moves), s, a, l)
  }

  lemma {:induction false} ReachesNext(start: Graph, moves: seq<Move>, m: Move, s: seq<Status>, a: nat, l: nat)
    requires Structured(start.nodes) && CanRun(start, moves) && Enabled(After(start, moves), m)
    requires Looks(Next(After(start, moves), m), s, a, l)
    ensures Reaches(start, moves + [m], s, a, l)
  {
    hide Looks, Next, CanRun, After, Structured, Enabled;
    OneMore(start, moves, m);
  }

  lemma {:induction false} ClaimReaches(start: Graph, moves: seq<Move>, s: seq<Status>, a: nat, l: nat, i: nat)
    requires Structured(start.nodes) && Reaches(start, moves, s, a, l) && |s| == 4 && i < 4 && MayStart(s, i)
    ensures Reaches(start, moves + [ClaimMove(i, 0)], s[i := Running], if i == 2 then a + 1 else a, l)
  {
    hide Looks, Next, CanRun, After, Structured, Enabled;
    ClaimOnChain(After(start, moves), s, a, l, i);
    ReachesNext(start, moves, ClaimMove(i, 0), s[i := Running], if i == 2 then a + 1 else a, l);
  }

  // Node i is claimed and fails for good.
  lemma {:induction false} FailReaches(start: Graph, moves: seq<Move>, s: seq<Status>, a: nat, l: nat, i: nat)
    returns (more: seq<Move>)
    requires Structured(start.nodes) && Reaches(start, moves, s, a, l) && |s| == 4 && i < 4 && MayStart(s, i)
    ensures Reaches(start, more, Spread(s[i := Failed]), if i == 2 then a + 1 else a, l)
    ensures moves <= more && ClaimMove(i, 0) in more
  {
    hide Looks, Next, CanRun, After, Structured, Enabled, Spread, MayStart;
    more := moves + [ClaimMove(i, 0)];
    var a' := if i == 2 then a + 1 else a;
    ClaimReaches(start, moves, s, a, l, i);
    FailOnChain(After(start, more), s[i := Running], a', l, i);
    assert s[i := Running][i := Failed] == s[i := Failed];
    ReachesNext(start, more, Fail(i, false), Spread(s[i := Failed]), a', l);
    assert more[|moves|] == ClaimMove(i, 0);
    more := more + [Fail(i, false)];
    assert more[|moves|] == ClaimMove(i, 0);
  }

  // The producer is claimed and succeeds.
  lemma {:induction false} CompleteReaches(start: Graph, moves: seq<Move>, s: seq<Status>, a: nat, l: nat)
    returns (more: seq<Move>)
    requires Structured(start.nodes) && Reaches(start, moves, s, a, l) && |s| == 4 && MayStart(s, 3)
    ensures Reaches(start, more, Spread(s[3 := Succeeded]), a, l)
  {
    hide Looks, Next, CanRun, After, Structured, Enabled, Spread, MayStart;
    more := moves + [ClaimMove(3, 0)];
    ClaimReaches(start, moves, s, a, l, 3);
    CompleteOnChain(After(start, more), s[3 := Running], a, l, 3);
    assert s[3 := Running][3 := Succeeded] == s[3 := Succeeded];
    ReachesNext(start, more, Complete(3, NoOutput), Spread(s[3 := Succeeded]), a, l);
    more := more + [Complete(3, NoOutput)];
  }

  lemma {:induction false} ReopenReaches(start: Graph, moves: seq<Move>, s: seq<Status>, a: nat, l: nat, i: nat)
    requires Structured(start.nodes) && Reaches(start, moves, s, a, l)
    requires |s| == 4 && i < 4 && s[i].Failed? && s[3].Succeeded? && Status.Skipped !in s
    ensures Reaches(start, moves + [Reopen(i)], Spread(s[i := Pending]), a, if i == 2 then l + 1 else l)
  {
    hide Looks, Next, CanRun, After, Structured, Enabled, Spread;
    ReopenOnChain(After(start, moves), s, a, l, i);
    ReachesNext(start, moves, Reopen(i), Spread(s[i := Pending]), a, if i == 2 then l + 1 else l);
  }

  lemma {:induction false} CancelReaches(start: Graph, moves: seq<Move>, s: seq<Status>, a: nat, l: nat)
    requires Structured(start.nodes) && Reaches(start, moves, s, a, l) && |s| == 4
    ensures Reaches(start, moves + [Cancel], Ended(s), a, l)
  {
    hide Looks, Next, CanRun, After, Structured, Enabled, Terminal;
    CancelOnChain(After(start, moves), s, a, l);
    ReachesNext(start, moves, Cancel, Ended(s), a, l);
  }

  lemma {:induction false} RetryReaches(start: Graph, moves: seq<Move>, s: seq<Status>, a: nat, l: nat)
    requires Structured(start.nodes) && Reaches(start, moves, s, a, l) && |s| == 4 && s[2].Running? && a < l
    ensures Reaches(start, moves + [Fail(2, true)], s[2 := Ready], a, l)
  {
    hide Looks, Next, CanRun, After, Structured, Enabled;
    RetryOnChain(After(start, moves), s, a, l);
    ReachesNext(start, moves, Fail(2, true), s[2 := Ready], a, l);
  }

  // The statuses the run goes through.
  const S0 := [Ready, Pending, Pending, Ready]
  const S1 := [Ready, Pending, Pending, Succeeded]
  const S2 := [Failed, Ready, Pending, Succeeded]
  const S3 := [Failed, Failed, Ready, Succeeded]
  const S4 := [Failed, Failed, Failed, Succeeded]
  const S5 := [Ready, Failed, Failed, Succeeded]
  const S6 := [Cancelled, Failed, Failed, Succeeded]
  const S7 := [Cancelled, Failed, Ready, Succeeded]
  const S8 := [Cancelled, Failed, Running, Succeeded]
  const S9 := [Cancelled, Skipped, Running, Succeeded]
  const S10 := [Cancelled, Skipped, Ready, Succeeded]

  lemma Statuses()
    ensures Spread([Pending, Pending, Pending, Pending]) == S0
    ensures Spread(S0[3 := Succeeded]) == S1 && Spread(S1[0 := Failed]) == S2
    ensures Spread(S2[1 := Failed]) == S3 && Spread(S3[2 := Failed]) == S4
    ensures MayStart(S0, 3) && MayStart(S1, 0) && MayStart(S2, 1) && MayStart(S3, 2)
  {
  }

  lemma LaterStatuses()
    ensures Spread(S4[0 := Pending]) == S5 && Spread(S6[2 := Pending]) == S7
    ensures Ended(S5) == S6
    ensures S7[2 := Running] == S8 && Spread(S8[1 := Pending]) == S9 && S9[2 := Ready] == S10
    ensures MayStart(S7, 2) && Status.Skipped !in S4 && Status.Skipped !in S6 && Status.Skipped !in S8
  {
  }

  // The graph as created, its sources ready.
  lemma {:induction false} Starts(id: nat, task: string, tenant: string, now: int)
    ensures Creatable(CHAIN)
    ensures Reaches(Initial(id, task, tenant, now, CHAIN), [], S0, 0, 2)
  {
    ChainIsCreatable();
    var ns, g := Union([], CHAIN, id + 1), Initial(id, task, tenant, now, CHAIN);
    InitialNodes(id, task, tenant, now, CHAIN);
    CreatedIsFresh(id, task, tenant, now, CHAIN);
    NewOnChain(id + 1);
    hide Initial, Structured, Live, Creatable, Union, Looks, OnChain, FreshNode;
    FreshOnChain(g.nodes);
    StartLooks(ns, g);
    NoMoves(g);
  }

  lemma NoMoves(g: Graph)
    requires Structured(g.nodes)
    ensures CanRun(g, []) && After(g, []) == g
  {
  }

  lemma NewOnChain(id: nat)
    ensures OnChain(Union([], CHAIN, id)) && Show(Union([], CHAIN, id), [Pending, Pending, Pending, Pending])
  {
  }

  lemma FreshOnChain(ns: seq<Node>)
    requires |ns| == |CHAIN| && forall i | 0 <= i < |ns| :: FreshNode(CHAIN[i], i, ns[i])
    ensures OnChain(ns) && ns[2].attempt == 0 && ns[2].maxAttempts == 2
  {
    assert FreshNode(CHAIN[2], 2, ns[2]);
  }

  lemma {:induction false} InitialNodes(id: nat, task: string, tenant: string, now: int, rs: seq<Request>)
    requires Creatable(rs)
    ensures var ns, g := Union([], rs, id + 1), Initial(id, task, tenant, now, rs);
      Structured(ns) && Structured(g.nodes) && g.nodes == Settle(ns) && g.status == Derive(g.nodes)
  {
    UnionStructured([], rs, id + 1);
  }

  lemma {:induction false} StartLooks(ns: seq<Node>, g: Graph)
    requires OnChain(ns) && OnChain(g.nodes) && Show(ns, [Pending, Pending, Pending, Pending])
    requires Structured(ns) && Structured(g.nodes) && g.nodes == Settle(ns) && g.status == Derive(g.nodes)
    requires g.nodes[2].attempt == 0 && g.nodes[2].maxAttempts == 2
    ensures Looks(g, S0, 0, 2)
  {
    hide OnChain, WellShaped, Acyclic, Settle, Spread, ChainLinked;
    ChainLinks(ns);
    ChainLinks(g.nodes);
    Statuses();
    SettleOnChain(ns, [Pending, Pending, Pending, Pending]);
  }

  // The first half of the run: the producer succeeds unexpanded, the three steps run
  // and fail in turn.
  lemma {:induction false} AllFail(id: nat, task: string, tenant: string, now: int) returns (moves: seq<Move>)
    ensures Creatable(CHAIN)
    ensures Reaches(Initial(id, task, tenant, now, CHAIN), moves, S4, 1, 2)
    ensures ClaimMove(1, 0) in moves
  {
    hide Reaches, Structured, Live, Initial, Creatable, Spread, MayStart;
    Starts(id, task, tenant, now);
    var g := Initial(id, task, tenant, now, CHAIN);
    Statuses();
    moves := CompleteReaches(g, [], S0, 0, 2);
    moves := FailReaches(g, moves, S1, 0, 2, 0);
    moves := FailReaches(g, moves, S2, 0, 2, 1);
    moves := FailReaches(g, moves, S3, 0, 2, 2);
  }

  // The second half: the first step is reopened and then cancelled with the graph; the
  // last is reopened and claimed; the one between them is reopened and skipped, because
  // of the first; and the last fails and is put back.
  lemma {:induction false} PutBack(start: Graph, moves: seq<Move>) returns (more: seq<Move>)
    requires Structured(start.nodes) && Reaches(start, moves, S4, 1, 2)
    ensures Reaches(start, more, S10, 2, 3) && moves <= more
  {
    hide Reaches, Structured, Spread, MayStart;
    LaterStatuses();
    ReopenReaches(start, moves, S4, 1, 2, 0);
    more := moves + [Reopen(0)];
    CancelReaches(start, more, S5, 1, 2);
    more := more + [Cancel];
    ReopenReaches(start, more, S6, 1, 2, 2);
    more := more + [Reopen(2)];
    ClaimReaches(start, more, S7, 1, 3, 2);
    more := more + [ClaimMove(2, 0)];
    ReopenReaches(start, more, S8, 2, 3, 1);
    more := more + [Reopen(1)];
    RetryReaches(start, more, S9, 2, 3);
    more := more + [Fail(2, true)];
  }

  lemma {:induction false} EndsStuck(g: Graph, a: nat, l: nat)
    requires Looks(g, S10, a, l)
    ensures Active(g) && Deadlocked(g.nodes)
  {
    hide Structured, ChainLinked, Derive, UnblockedAt;
    var ns := g.nodes;
    OpenOnChain(ns);
    assert !Terminal(ns[2].status);
    UnfinishedIsActive(ns);
    forall i | 0 <= i < 4 ensures !ns[i].status.Running? && !Claimable(ns, i) {}
  }

  lemma {:induction false} RunsIntoIt(id: nat, task: string, tenant: string, now: int) returns (moves: seq<Move>)
    ensures Creatable(CHAIN)
    ensures Reaches(Initial(id, task, tenant, now, CHAIN), moves, S10, 2, 3)
    ensures ClaimMove(1, 0) in moves
  {
    hide Reaches, Initial, Structured, Live, Creatable;
    var first := AllFail(id, task, tenant, now);
    moves := PutBack(Initial(id, task, tenant, now, CHAIN), first);
    var t :| 0 <= t < |first| && first[t] == ClaimMove(1, 0);
    assert moves[t] == ClaimMove(1, 0);
  }

  // A graph that can be created and moves it allows, after which it is active, has
  // work left, and nothing is running or can be claimed.
  lemma {:induction false} ACancelledGraphCanGetStuck(id: nat, task: string, tenant: string, now: int)
    returns (moves: seq<Move>)
    ensures Creatable(CHAIN) && CanRun(Initial(id, task, tenant, now, CHAIN), moves)
    ensures var g := After(Initial(id, task, tenant, now, CHAIN), moves); Active(g) && Deadlocked(g.nodes)
    ensures !NoneRetriesDoomed(Initial(id, task, tenant, now, CHAIN), moves)
  {
    moves := RunsIntoIt(id, task, tenant, now);
    var g := Initial(id, task, tenant, now, CHAIN);
    EndsStuck(After(g, moves), 2, 3);
    hide Looks, Initial, Structured, CanRun, After, Unfinished, CanProgress;
    if NoneRetriesDoomed(g, moves) { NoReachableDeadlock(id, task, tenant, now, CHAIN, moves); }
  }
}
