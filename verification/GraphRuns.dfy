// Whole runs of one graph: any sequence of enabled moves after its creation.

module GraphRuns {
  import opened Basics
  import opened Dag
  import opened GraphShape
  import opened Nodes
  import opened Readiness
  import opened Scheduler
  import opened Invariants

  // ---- Runs ---------------------------------------------------------------

  // What an operation's own writes do to one existing node.
  lemma WrittenNode(g: Graph, m: Move, i: nat)
    requires Enabled(g, m) && i < |g.nodes|
    ensures !m.Expand? ==> |Written(g, m)| == |g.nodes|
    ensures var n, n' := g.nodes[i], Written(g, m)[i];
      && n'.def == n.def
      && n'.attempt == n.attempt + (if m.Claim? && m.i == i then 1 else 0)
      && n'.maxAttempts == n.maxAttempts + (if m.Reopen? && m.i == i then 1 else 0)
      && (n.deadline.Some? && n.def.timeoutMs > 0 ==> n'.deadline == n.deadline)
      && (n.status.Succeeded? ==> n' == n)
  {
    match m
    case Claim(_, _, _, _, _) =>
    case Reopen(_) =>
    case Sweep(_) =>
    case Cancel =>
    case Expand(_, _) =>
    case _ =>
  }

  lemma MoveKeepsStructure(g: Graph, m: Move)
    requires Structured(g.nodes) && Enabled(g, m)
    ensures WellShaped(Defs(Written(g, m))) && Structured(Apply(g, m).nodes)
  {
    hide Acyclic, WellShaped, Settle;
    var ms := Written(g, m);
    if m.Expand? {
      UnionStructured(g.nodes, m.requests, m.firstId);
    } else {
      forall i | 0 <= i < |g.nodes| ensures |ms| == |g.nodes| && ms[i].def == g.nodes[i].def { WrittenNode(g, m, i); }
      SameDefsStructured(g.nodes, ms);
    }
    SettledStructured(ms);
  }

  lemma SettledStructured(ns: seq<Node>)
    requires Structured(ns)
    ensures Structured(Settle(ns))
  {
    SameDefsStructured(ns, Settle(ns));
  }

  ghost function Next(g: Graph, m: Move): (g': Graph)
    requires Structured(g.nodes) && Enabled(g, m)
    ensures Structured(g'.nodes)
  {
    MoveKeepsStructure(g, m);
    Apply(g, m)
  }

  ghost predicate CanRun(g: Graph, moves: seq<Move>)
    requires Structured(g.nodes)
    decreases |moves|
  {
    moves != [] ==> Enabled(g, moves[0]) && CanRun(Next(g, moves[0]), moves[1..])
  }

  ghost function After(g: Graph, moves: seq<Move>): (g': Graph)
    requires Structured(g.nodes) && CanRun(g, moves)
    ensures Structured(g'.nodes)
    decreases |moves|
  {
    if moves == [] then g else After(Next(g, moves[0]), moves[1..])
  }

  function HistoryOf(h: History, moves: seq<Move>): History
    decreases |moves|
  {
    if moves == [] then h else HistoryOf(Remember(h, moves[0]), moves[1..])
  }

  predicate FairRun(h: History, moves: seq<Move>)
    decreases |moves|
  {
    moves != [] ==> Fair(h, moves[0]) && FairRun(Remember(h, moves[0]), moves[1..])
  }

  lemma {:induction false} RunKeepsLive(g: Graph, h: History, moves: seq<Move>)
    requires Live(g, h) && CanRun(g, moves) && FairRun(h, moves)
    ensures Live(After(g, moves), HistoryOf(h, moves))
    decreases |moves|
  {
    if moves != [] {
      MoveKeepsLive(g, h, moves[0]);
      RunKeepsLive(Next(g, moves[0]), Remember(h, moves[0]), moves[1..]);
    }
  }

  lemma {:induction false} NoReopenIsFair(h: History, moves: seq<Move>)
    requires !h.reopened && forall m | m in moves :: !m.Reopen?
    ensures FairRun(h, moves) && !HistoryOf(h, moves).reopened
    decreases |moves|
  {
    if moves != [] { NoReopenIsFair(Remember(h, moves[0]), moves[1..]); }
  }

  // ---- No deadlock --------------------------------------------------------

  ghost predicate Unfinished(ns: seq<Node>) {
    exists i :: 0 <= i < |ns| && !Terminal(ns[i].status)
  }

  ghost predicate CanProgress(ns: seq<Node>) {
    || (exists i :: 0 <= i < |ns| && ns[i].status.Running?)
    || (exists i :: Claimable(ns, i))
  }

  lemma UnfinishedIsActive(ns: seq<Node>)
    requires Unfinished(ns)
    ensures Derive(ns).GraphPending? || Derive(ns).GraphRunning?
  {
    var i :| 0 <= i < |ns| && !Terminal(ns[i].status);
    assert !ns[i].status.Succeeded?;
  }

  // Nothing left to propagate, under the derived status.
  ghost predicate Quiet(g: Graph) {
    Structured(g.nodes) && Stable(g.nodes) && g.status == Derive(g.nodes)
  }

  // A quiet graph with work left has a node some worker holds or can claim.
  lemma {:induction false} NoDeadlock(g: Graph)
    requires Quiet(g)
    ensures Unfinished(g.nodes) <==> CanProgress(g.nodes)
    ensures Unfinished(g.nodes) ==> Active(g)
  {
    var ns := g.nodes;
    if Unfinished(ns) {
      UnfinishedIsActive(ns);
      if forall i | 0 <= i < |ns| :: !ns[i].status.Running? {
        FirstUnfinishedIsClaimable(ns);
      }
    }
  }

  lemma {:induction false} FirstUnfinishedIsClaimable(ns: seq<Node>)
    requires Structured(ns) && Stable(ns) && Unfinished(ns)
    requires forall i | 0 <= i < |ns| :: !ns[i].status.Running?
    ensures exists i :: Claimable(ns, i)
  {
    var open, i := LeastOpen(ns);
    hide Structured, Stable, DepOf;
    OpenDepsAllow(ns, open, i);
    assert Claimable(ns, i);
  }

  // Among the unsettled nodes there is one that lists none of them.
  lemma {:induction false} LeastOpen(ns: seq<Node>) returns (open: set<nat>, i: nat)
    requires Acyclic(Defs(ns)) && Unfinished(ns)
    ensures forall j: nat :: j in open <==> j < |ns| && !Terminal(ns[j].status)
    ensures i in open && forall j | j in open :: !DepOf(Defs(ns), i, j)
  {
    hide Acyclic, DepOf;
    open := set i: nat | i in Upto(|ns|) && !Terminal(ns[i].status);
    var w :| 0 <= w < |ns| && !Terminal(ns[w].status);
    assert w in open;
    i := MinimalMember(Defs(ns), open);
  }

  lemma OpenDepsAllow(ns: seq<Node>, open: set<nat>, i: nat)
    requires Stable(ns) && i < |ns| && Movable(ns[i].status)
    requires forall j: nat | j < |ns| && j !in open :: Terminal(ns[j].status)
    requires forall j | j in open :: !DepOf(Defs(ns), i, j)
    ensures ns[i].status.Ready? && UnblockedAt(ns, i)
  {
    forall j: nat | Lists(ns, i, j)
      ensures Meets(ns[i].def.mode, ns[j].status) && !Dooms(ns[i].def.mode, ns[j].status)
    {
      assert DepOf(Defs(ns), i, j);
      assert !DoomedAt(ns, i);
    }
    assert UnblockedAt(ns, i);
  }

  // ---- What has run, and on what ------------------------------------------

  // Without reopening, a skipped node never ran, and everything a node that ran
  // depends on, however indirectly, ran before it and was not written off.
  lemma {:induction false} RanOnSettledWork(g: Graph, h: History, p: seq<nat>)
    requires Live(g, h) && !h.reopened
    requires Walk(Defs(g.nodes), p) && |p| >= 2 && g.nodes[p[0]].attempt > 0
    ensures var d := g.nodes[p[|p| - 1]];
      d.attempt > 0 && Terminal(d.status) && !d.status.Skipped? && !d.status.Cancelled?
  {
    var q := p[..|p| - 1];
    assert DepOf(Defs(g.nodes), p[|p| - 2], p[|p| - 2 + 1]);
    ListsIsDepOf(g.nodes);
    assert Lists(g.nodes, p[|p| - 2], p[|p| - 1]);
    if |p| > 2 {
      assert Walk(Defs(g.nodes), q) by {
        forall t | 0 <= t < |q| - 1 ensures DepOf(Defs(g.nodes), q[t], q[t + 1]) {
          assert DepOf(Defs(g.nodes), p[t], p[t + 1]);
        }
      }
      RanOnSettledWork(g, h, q);
    }
  }

  // Nor, in any fair run, does a node that was skipped.
  lemma {:induction false} SkippedNeverRan(
    id: nat, task: string, tenant: string, now: int, rs: seq<Request>, moves: seq<Move>, i: nat)
    requires Creatable(rs) && CanRun(Initial(id, task, tenant, now, rs), moves) && FairRun(Untouched, moves)
    requires var g := After(Initial(id, task, tenant, now, rs), moves); i < |g.nodes| && g.nodes[i].status.Skipped?
    ensures After(Initial(id, task, tenant, now, rs), moves).nodes[i].attempt == 0
  {
    hide Structured, NodesOk, Stable, Derive, Creatable;
    RunKeepsLive(Initial(id, task, tenant, now, rs), Untouched, moves);
  }

  // Propagation rewrites nothing but a status and a skip reason, and not those of
  // a node that is not waiting.
  predicate Follows(n: Node, n': Node) {
    || n' == n
    || (&& Movable(n.status) && (n'.status.Skipped? || n'.status.Ready?)
        && n' == n.(status := n'.status, skippedBecause := n'.skippedBecause))
  }

  lemma {:induction false} SettledLeaves(ns: seq<Node>, i: nat)
    requires WellShaped(Defs(ns)) && i < |ns|
    ensures Follows(ns[i], Settle(ns)[i])
  {
    SettleMeaning(ns);
    assert SettledNode(ns, Settle(ns), i);
  }

  lemma {:induction false} NextFollows(g: Graph, m: Move, i: nat)
    requires Structured(g.nodes) && Enabled(g, m) && i < |Written(g, m)|
    ensures |Next(g, m).nodes| == |Written(g, m)| && Follows(Written(g, m)[i], Next(g, m).nodes[i])
  {
    MoveKeepsStructure(g, m);
    SettledLeaves(Written(g, m), i);
  }

  lemma {:induction false} NextKeepsDef(g: Graph, m: Move, i: nat)
    requires Structured(g.nodes) && Enabled(g, m) && i < |Written(g, m)|
    ensures i < |Next(g, m).nodes| && Next(g, m).nodes[i].def == Written(g, m)[i].def
  {
    NextFollows(g, m, i);
  }

  lemma {:induction false} NextLength(g: Graph, m: Move)
    requires Structured(g.nodes) && Enabled(g, m)
    ensures |Next(g, m).nodes| == |Written(g, m)|
  {
    MoveKeepsStructure(g, m);
  }

  // ---- A success is final -------------------------------------------------

  lemma {:induction false} SuccessIsFinal(g: Graph, m: Move, i: nat)
    requires Structured(g.nodes) && Enabled(g, m)
    requires i < |g.nodes| && g.nodes[i].status.Succeeded?
    ensures i < |Next(g, m).nodes| && Next(g, m).nodes[i] == g.nodes[i]
  {
    WrittenNode(g, m, i);
    NextFollows(g, m, i);
  }

  // So is a cancellation: reopening is for nodes that failed.
  lemma {:induction false} CancellationIsFinal(g: Graph, m: Move, i: nat)
    requires Structured(g.nodes) && Enabled(g, m)
    requires i < |g.nodes| && g.nodes[i].status.Cancelled?
    ensures i < |Next(g, m).nodes| && Next(g, m).nodes[i] == g.nodes[i]
  {
    hide Structured, Next, Settle, UnblockedAt, AcceptableShape;
    WrittenNode(g, m, i);
    NextFollows(g, m, i);
  }

  lemma {:induction false} SuccessStaysFinal(g: Graph, moves: seq<Move>, i: nat)
    requires Structured(g.nodes) && CanRun(g, moves)
    requires i < |g.nodes| && g.nodes[i].status.Succeeded?
    ensures i < |After(g, moves).nodes| && After(g, moves).nodes[i] == g.nodes[i]
    decreases |moves|
  {
    if moves != [] {
      SuccessIsFinal(g, moves[0], i);
      SuccessStaysFinal(Next(g, moves[0]), moves[1..], i);
    }
  }

  // ---- Attempts and deadlines ---------------------------------------------

  function ClaimsOf(moves: seq<Move>, i: nat): nat {
    if moves == [] then 0
    else (if moves[0].Claim? && moves[0].i == i then 1 else 0) + ClaimsOf(moves[1..], i)
  }

  function ReopensOf(moves: seq<Move>, i: nat): nat {
    if moves == [] then 0
    else (if moves[0].Reopen? && moves[0].i == i then 1 else 0) + ReopensOf(moves[1..], i)
  }

  // What one move can do to the counters and the deadline of an existing node.
  lemma {:induction false} MoveCounts(g: Graph, m: Move, i: nat)
    requires Structured(g.nodes) && Enabled(g, m) && i < |g.nodes|
    ensures i < |Next(g, m).nodes|
    ensures var n, n' := g.nodes[i], Next(g, m).nodes[i];
      && n'.def == n.def
      && n'.attempt == n.attempt + (if m.Claim? && m.i == i then 1 else 0)
      && n'.maxAttempts == n.maxAttempts + (if m.Reopen? && m.i == i then 1 else 0)
      && (n.deadline.Some? && n.def.timeoutMs > 0 ==> n'.deadline == n.deadline)
  {
    WrittenNode(g, m, i);
    NextFollows(g, m, i);
  }

  lemma {:induction false} RunCounts(g: Graph, moves: seq<Move>, i: nat)
    requires Structured(g.nodes) && CanRun(g, moves) && i < |g.nodes|
    ensures i < |After(g, moves).nodes|
    ensures var n, n' := g.nodes[i], After(g, moves).nodes[i];
      && n'.def == n.def
      && n'.attempt == n.attempt + ClaimsOf(moves, i)
      && n'.maxAttempts == n.maxAttempts + ReopensOf(moves, i)
      && (n.deadline.Some? && n.def.timeoutMs > 0 ==> n'.deadline == n.deadline)
    decreases |moves|
  {
    if moves != [] {
      MoveCounts(g, moves[0], i);
      RunCounts(Next(g, moves[0]), moves[1..], i);
    }
  }

  lemma {:induction false} MoveKeepsNodesOk(g: Graph, m: Move)
    requires Structured(g.nodes) && NodesOk(g.nodes) && Enabled(g, m)
    ensures NodesOk(Next(g, m).nodes)
  {
    MoveKeepsStructure(g, m);
    var ms := Written(g, m);
    forall i | 0 <= i < |ms| ensures NodeOk(ms[i]) { WrittenNodeOk(g, m, i); }
    SettleKeepsNodesOk(ms);
  }

  lemma WrittenNodeOk(g: Graph, m: Move, i: nat)
    requires NodesOk(g.nodes) && Enabled(g, m) && i < |Written(g, m)|
    ensures NodeOk(Written(g, m)[i])
  {
    if i < |g.nodes| { assert NodeOk(g.nodes[i]); }
  }

  lemma {:induction false} RunKeepsNodesOk(g: Graph, moves: seq<Move>)
    requires Structured(g.nodes) && NodesOk(g.nodes) && CanRun(g, moves)
    ensures NodesOk(After(g, moves).nodes)
    decreases |moves|
  {
    if moves != [] {
      MoveKeepsNodesOk(g, moves[0]);
      RunKeepsNodesOk(Next(g, moves[0]), moves[1..]);
    }
  }

  // In any run a node is claimed at most its initial number of attempts plus once
  // for every time it was reopened, and a deadline never moves.
  lemma {:induction false} ClaimsAreBounded(g: Graph, moves: seq<Move>, i: nat)
    requires Structured(g.nodes) && NodesOk(g.nodes) && CanRun(g, moves) && i < |g.nodes|
    ensures g.nodes[i].attempt + ClaimsOf(moves, i) <= g.nodes[i].maxAttempts + ReopensOf(moves, i)
    ensures i < |After(g, moves).nodes|
    ensures g.nodes[i].deadline.Some? ==> After(g, moves).nodes[i].deadline == g.nodes[i].deadline
  {
    RunKeepsNodesOk(g, moves);
    RunCounts(g, moves, i);
    hide After, CanRun, Structured;
    assert NodeOk(After(g, moves).nodes[i]) && NodeOk(g.nodes[i]);
  }

  // Attempts never pass their ceiling, and a node that is waiting or was skipped has
  // one left.
  lemma {:induction false} AttemptsAreCapped(g: Graph, moves: seq<Move>, i: nat)
    requires Structured(g.nodes) && NodesOk(g.nodes) && CanRun(g, moves) && i < |After(g, moves).nodes|
    ensures var n := After(g, moves).nodes[i];
      n.attempt <= n.maxAttempts && (Movable(n.status) || n.status.Skipped? ==> n.attempt < n.maxAttempts)
  {
    RunKeepsNodesOk(g, moves);
    hide After, CanRun, Structured;
    assert NodeOk(After(g, moves).nodes[i]);
  }

  // ---- Expansion ----------------------------------------------------------

  // Growing a graph leaves every node it had exactly as it was, if and only if there
  // was nothing left to propagate in it.
  lemma {:induction false} ExpandKeepsExisting(g: Graph, m: Move)
    requires Structured(g.nodes) && m.Expand? && Enabled(g, m)
    ensures |Next(g, m).nodes| == |g.nodes| + |m.requests|
    ensures (forall i | 0 <= i < |g.nodes| :: Next(g, m).nodes[i] == g.nodes[i]) <==> Stable(g.nodes)
  {
    hide Settle, Acyclic, AcceptableShape, Stable;
    UnionStructured(g.nodes, m.requests, m.firstId);
    ExpandedNodes(g, m);
    NextLength(g, m);
    if Stable(g.nodes) {
      forall i | 0 <= i < |g.nodes| ensures Next(g, m).nodes[i] == g.nodes[i] {
        OldNodeStays(g.nodes, m.requests, m.firstId, i);
      }
    } else if forall i | 0 <= i < |g.nodes| :: Next(g, m).nodes[i] == g.nodes[i] {
      SettleIsStable(Union(g.nodes, m.requests, m.firstId));
      OldPartIsStable(g.nodes, m.requests, m.firstId, Next(g, m).nodes);
    }
  }

  lemma ExpandedNodes(g: Graph, m: Move)
    requires Structured(g.nodes) && m.Expand? && Enabled(g, m)
    requires WellShaped(Defs(Union(g.nodes, m.requests, m.firstId)))
    ensures Written(g, m) == Union(g.nodes, m.requests, m.firstId) && KnownDeps(Defs(g.nodes))
    ensures Next(g, m).nodes == Settle(Union(g.nodes, m.requests, m.firstId))
  {
    hide Acyclic, AcceptableShape, Settle;
  }

  // What holds a node of the union back, or dooms it, is there without the new nodes.
  lemma OldPartIsStable(ns: seq<Node>, rs: seq<Request>, id: nat, after: seq<Node>)
    requires KnownDeps(Defs(ns)) && DistinctKeys(Defs(Union(ns, rs, id)))
    requires Stable(after) && |after| == |ns| + |rs|
    requires forall i | 0 <= i < |after| :: after[i].def == Union(ns, rs, id)[i].def
    requires forall i | 0 <= i < |ns| :: after[i] == ns[i]
    ensures Stable(ns)
  {
    forall i | 0 <= i < |ns| && Movable(ns[i].status)
      ensures !DoomedAt(ns, i) && (ns[i].status.Pending? ==> !UnblockedAt(ns, i))
    {
      assert !DoomedAt(after, i) && (ns[i].status.Pending? ==> !UnblockedAt(after, i));
      forall j | Lists(ns, i, j) ensures Lists(after, i, j) {}
      forall j | Lists(after, i, j) ensures Lists(ns, i, j) {
        assert Lists(Union(ns, rs, id), i, j);
        OldListsOld(ns, rs, id, i, j);
      }
    }
  }

  lemma {:induction false} OldNodeStays(ns: seq<Node>, rs: seq<Request>, id: nat, i: int)
    requires Stable(ns) && KnownDeps(Defs(ns)) && WellShaped(Defs(Union(ns, rs, id))) && 0 <= i < |ns|
    ensures Settle(Union(ns, rs, id))[i] == ns[i]
  {
    var all := Union(ns, rs, id);
    SettleMeaning(all);
    assert SettledNode(all, Settle(all), i);
    if WillSkip(all, i) {
      var p :| DoomChain(all, p) && p[|p| - 1] == i;
      OldChainIsOld(ns, rs, id, p);
      StableHasNoChain(ns);
    }
    if UnblockedAt(all, i) { OldUnblocked(ns, all, i); }
  }

  lemma OldUnblocked(ns: seq<Node>, all: seq<Node>, i: int)
    requires |ns| <= |all| && (forall x | 0 <= x < |ns| :: all[x] == ns[x])
    requires 0 <= i < |ns| && UnblockedAt(all, i)
    ensures UnblockedAt(ns, i)
  {
    forall j | Lists(ns, i, j)
      ensures Meets(ns[i].def.mode, ns[j].status) && !Dooms(ns[i].def.mode, ns[j].status)
    {
      assert Lists(all, i, j);
    }
  }

  lemma {:induction false} OldChainIsOld(ns: seq<Node>, rs: seq<Request>, id: nat, p: seq<nat>)
    requires KnownDeps(Defs(ns)) && DistinctKeys(Defs(Union(ns, rs, id)))
    requires DoomChain(Union(ns, rs, id), p) && p[|p| - 1] < |ns|
    ensures DoomChain(ns, p)
  {
    var all := Union(ns, rs, id);
    if |p| == 1 {
      var j :| Lists(all, p[0], j) && Dooms(all[p[0]].def.mode, all[j].status);
      OldListsOld(ns, rs, id, p[0], j);
      assert DoomedAt(ns, p[0]);
    } else {
      var q := p[..|p| - 1];
      assert Lists(all, p[|p| - 2 + 1], p[|p| - 2]);
      OldListsOld(ns, rs, id, p[|p| - 1], p[|p| - 2]);
      assert DoomChain(all, q) by {
        forall t | 0 <= t < |q| - 1 ensures Lists(all, q[t + 1], q[t]) { assert Lists(all, p[t + 1], p[t]); }
      }
      OldChainIsOld(ns, rs, id, q);
      LongerChain(ns, q, p);
    }
  }

  lemma LongerChain(ns: seq<Node>, q: seq<nat>, p: seq<nat>)
    requires DoomChain(ns, q) && |p| == |q| + 1 && q == p[..|q|]
    requires p[|q|] < |ns| && Movable(ns[p[|q|]].status) && Lists(ns, p[|q|], p[|q| - 1])
    ensures DoomChain(ns, p)
  {
    forall t | 0 <= t < |p| - 1 ensures Lists(ns, p[t + 1], p[t]) {
      if t < |q| - 1 { assert Lists(ns, q[t + 1], q[t]); }
    }
    assert q[0] == p[0];
  }

  // ---- The sweep ----------------------------------------------------------

  // What a sweep makes of a node: no running node is past its lease or its deadline,
  // and one that was not stalled is as it was. A stalled node times out or fails
  // exactly as its deadline and its attempts say; otherwise it is handed back, unless
  // it is doomed.
  predicate SweptTo(n: Node, n': Node, now: int, doomed: bool) {
    && !Stalled(n', now)
    && (n.status.Running? && !Stalled(n, now) ==> n' == n)
    && (Stalled(n, now) ==>
          && n'.lease.None?
          && (PastDeadline(n, now) <==> n'.status.TimedOut?)
          && (!PastDeadline(n, now) && n.attempt >= n.maxAttempts <==> n'.status.Failed?)
          && (!PastDeadline(n, now) && n.attempt < n.maxAttempts <==> n'.status.Ready? || n'.status.Skipped?)
          && (n'.status.Skipped? <==> doomed && SweptNode(n, now).status.Ready?))
  }

  lemma {:induction false} SweepClearsStalled(g: Graph, now: int)
    requires Structured(g.nodes)
    ensures Enabled(g, Sweep(now)) && |Next(g, Sweep(now)).nodes| == |Written(g, Sweep(now))| == |g.nodes|
    ensures forall i | 0 <= i < |g.nodes| ::
      SweptTo(g.nodes[i], Next(g, Sweep(now)).nodes[i], now, WillSkip(Written(g, Sweep(now)), i))
  {
    NextLength(g, Sweep(now));
    forall i: nat | i < |g.nodes|
      ensures SweptTo(g.nodes[i], Next(g, Sweep(now)).nodes[i], now, WillSkip(Written(g, Sweep(now)), i))
    {
      SweptOne(g, now, i);
    }
  }

  lemma {:induction false} SweptOne(g: Graph, now: int, i: nat)
    requires Structured(g.nodes) && i < |g.nodes| == |Next(g, Sweep(now)).nodes|
    ensures |Written(g, Sweep(now))| == |g.nodes|
    ensures SweptTo(g.nodes[i], Next(g, Sweep(now)).nodes[i], now, WillSkip(Written(g, Sweep(now)), i))
  {
    hide Settle, Structured, WillSkip, Written, Next, WellShaped, SweptTo, SweptNode, Acyclic;
    SweepWrites(g, now);
    if exists x :: 0 <= x < |g.nodes| && Stalled(g.nodes[x], now) {
      SettledIsSwept(Written(g, Sweep(now)), i, g.nodes[i], now);
    } else {
      UnstalledIsSwept(g.nodes[i], now, WillSkip(Written(g, Sweep(now)), i));
    }
  }

  lemma {:induction false} SweepWrites(g: Graph, now: int)
    requires Structured(g.nodes)
    ensures var ms := Written(g, Sweep(now));
      && |ms| == |g.nodes| && WellShaped(Defs(ms))
      && (forall i | 0 <= i < |ms| :: ms[i] == SweptNode(g.nodes[i], now))
      && Next(g, Sweep(now)).nodes
         == if exists x :: 0 <= x < |g.nodes| && Stalled(g.nodes[x], now) then Settle(ms) else ms
  {
    MoveKeepsStructure(g, Sweep(now));
  }

  lemma {:induction false} SettledIsSwept(ms: seq<Node>, i: nat, n: Node, now: int)
    requires WellShaped(Defs(ms)) && i < |ms| && ms[i] == SweptNode(n, now)
    ensures SweptTo(n, Settle(ms)[i], now, WillSkip(ms, i))
  {
    SettleMeaning(ms);
    assert SettledNode(ms, Settle(ms), i);
    hide Settle, WillSkip, WellShaped, SettledNode;
    SweptAndSettled(n, Settle(ms)[i], now, WillSkip(ms, i));
  }

  lemma UnstalledIsSwept(n: Node, now: int, doomed: bool)
    requires !Stalled(n, now)
    ensures SweptNode(n, now) == n && SweptTo(n, n, now, doomed)
  {
  }

  lemma SweptAndSettled(n: Node, n': Node, now: int, doomed: bool)
    requires var m := SweptNode(n, now);
      if !Movable(m.status) then n' == m
      else if doomed then n' == m.(status := Skipped, skippedBecause := n'.skippedBecause)
      else n' == m || n' == m.(status := Ready)
    ensures SweptTo(n, n', now, doomed)
  {
  }

  // In a live graph a stalled node with attempts left is always handed back.
  lemma {:induction false} SweptAreHandedBack(g: Graph, h: History, now: int, i: nat)
    requires Live(g, h) && i < |g.nodes| && Stalled(g.nodes[i], now)
    ensures Enabled(g, Sweep(now)) && Live(Next(g, Sweep(now)), h) && i < |Next(g, Sweep(now)).nodes|
    ensures !Next(g, Sweep(now)).nodes[i].status.Skipped?
  {
    var m := Sweep(now);
    MoveKeepsLive(g, h, m);
    MoveCounts(g, m, i);
    assert NodeOk(g.nodes[i]);
    hide Settle, WillSkip;
    assert Next(g, m).nodes[i].attempt > 0 && RanNotSkipped(Next(g, m).nodes);
  }

  // ---- Cancelling and reopening -------------------------------------------

  // Cancelling ends every unsettled node. The graph's status becomes cancelled
  // exactly when that leaves a cancelled node and no succeeded producer is owed its
  // expansion; such a producer leaves it running.
  lemma {:induction false} CancelStopsIff(g: Graph)
    requires Structured(g.nodes) && g.nodes != []
    ensures Enabled(g, Cancel) && |Next(g, Cancel).nodes| == |g.nodes|
    ensures forall i | 0 <= i < |g.nodes| ::
      Next(g, Cancel).nodes[i].status == if Terminal(g.nodes[i].status) then g.nodes[i].status else Cancelled
    ensures Next(g, Cancel).status.GraphRunning? <==> exists i :: AwaitsExpansion(g.nodes, i)
    ensures Next(g, Cancel).status.GraphCancelled?
      <==> (forall i :: !AwaitsExpansion(g.nodes, i))
           && exists i :: 0 <= i < |g.nodes| && (!Terminal(g.nodes[i].status) || g.nodes[i].status.Cancelled?)
  {
    CancelWrites(g);
    CancelledDerives(g.nodes, Next(g, Cancel).nodes);
  }

  lemma {:induction false} CancelWrites(g: Graph)
    requires Structured(g.nodes)
    ensures Enabled(g, Cancel) && |Next(g, Cancel).nodes| == |g.nodes|
    ensures forall i | 0 <= i < |g.nodes| :: Next(g, Cancel).nodes[i] == CancelledNode(g.nodes[i])
    ensures Next(g, Cancel).status == Derive(Next(g, Cancel).nodes)
  {
  }

  lemma {:induction false} CancelledDerives(ns: seq<Node>, ms: seq<Node>)
    requires |ms| == |ns| > 0 && forall i | 0 <= i < |ns| :: ms[i] == CancelledNode(ns[i])
    ensures Derive(ms).GraphRunning? <==> exists i :: AwaitsExpansion(ns, i)
    ensures Derive(ms).GraphCancelled?
      <==> (forall i :: !AwaitsExpansion(ns, i))
           && exists i :: 0 <= i < |ns| && (!Terminal(ns[i].status) || ns[i].status.Cancelled?)
  {
    forall i, j ensures Lists(ms, i, j) <==> Lists(ns, i, j) {}
    forall i ensures AwaitsExpansion(ms, i) <==> AwaitsExpansion(ns, i) { AwaitsAfterCancel(ns, ms, i); }
    hide AwaitsExpansion, Lists;
    forall i | 0 <= i < |ms|
      ensures Terminal(ms[i].status)
      ensures ms[i].status.Cancelled? <==> !Terminal(ns[i].status) || ns[i].status.Cancelled?
    {
    }
  }

  lemma AwaitsAfterCancel(ns: seq<Node>, ms: seq<Node>, i: int)
    requires |ms| == |ns| && forall i | 0 <= i < |ns| :: ms[i] == CancelledNode(ns[i])
    requires forall i, j :: Lists(ms, i, j) <==> Lists(ns, i, j)
    ensures AwaitsExpansion(ms, i) <==> AwaitsExpansion(ns, i)
  {
  }

  // Reopening a node revives only what had been skipped directly because of it, and of
  // that exactly what nothing else dooms.
  lemma {:induction false} ReopenRevivesOnlyItsOwn(g: Graph, m: Move, x: nat)
    requires Structured(g.nodes) && m.Reopen? && Enabled(g, m)
    requires x < |g.nodes| && g.nodes[x].status.Skipped?
    ensures x < |Next(g, m).nodes|
    ensures var n, n' := g.nodes[x], Next(g, m).nodes[x];
      if n.skippedBecause != Some(g.nodes[m.i].def.key) then n' == n
      else if WillSkip(Written(g, m), x) then n'.status.Skipped?
      else n' == n.(status := if UnblockedAt(Written(g, m), x) then Ready else Pending, skippedBecause := None)
  {
    hide Settle, Acyclic, WillSkip, UnblockedAt;
    MoveKeepsStructure(g, m);
    SettleMeaning(Written(g, m));
    assert SettledNode(Written(g, m), Settle(Written(g, m)), x);
  }
}
