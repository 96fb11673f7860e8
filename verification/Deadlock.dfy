// When a graph can get stuck: exactly when a failed node whose dependencies doom it
// is put back for a retry, because a retry does not propagate (src/jev.js, lines
// 461-474), and nothing else is running or claimable.

module Deadlock {
  import opened Basics
  import opened Dag
  import opened GraphShape
  import opened Nodes
  import opened Readiness
  import opened Scheduler
  import opened Invariants
  import opened GraphRuns

  // A failure that is retried although a dependency has doomed the node meanwhile.
  ghost predicate RetriesDoomed(g: Graph, m: Move) {
    m.Fail? && m.i < |g.nodes| && WillRetry(g.nodes[m.i], m.retryable) && DoomedAt(g.nodes, m.i)
  }

  // Nothing runs and nothing can be claimed, though work is left.
  ghost predicate Deadlocked(ns: seq<Node>) {
    Unfinished(ns) && !CanProgress(ns)
  }

  // ---- One move -----------------------------------------------------------

  // Moves that end with propagation, and those that only touch one running node.
  lemma {:induction false} MoveKeepsStable(g: Graph, m: Move)
    requires Structured(g.nodes) && Stable(g.nodes) && Enabled(g, m)
    ensures Stable(Next(g, m).nodes) <==> !RetriesDoomed(g, m)
  {
    MoveKeepsStructure(g, m);
    if Propagates(g, m) {
      SettleIsStable(Written(g, m));
    } else {
      PlainMoveStable(g, m);
    }
  }

  lemma {:induction false} PlainMoveStable(g: Graph, m: Move)
    requires Structured(g.nodes) && Stable(g.nodes) && Enabled(g, m) && !Propagates(g, m)
    ensures Stable(Written(g, m)) <==> !RetriesDoomed(g, m)
  {
    hide Acyclic, WellShaped;
    var ns, ms := g.nodes, Written(g, m);
    match m {
      case Claim(i, _, _, _, _) => BusyIsStable(ns, ms, i);
      case Renew(i, _, _) => BusyIsStable(ns, ms, i);
      case Fail(i, _) => RetryStableIff(ns, ms, i);
      case Sweep(now) => NothingSwept(g, now);
      case Cancel => CancelledIsStable(ns, ms);
      case _ =>
    }
  }

  lemma NothingSwept(g: Graph, now: int)
    requires forall x | 0 <= x < |g.nodes| :: !Stalled(g.nodes[x], now)
    ensures Written(g, Sweep(now)) == g.nodes
  {
  }

  lemma CancelledIsStable(ns: seq<Node>, ms: seq<Node>)
    requires |ms| == |ns| && forall x | 0 <= x < |ns| :: ms[x] == CancelledNode(ns[x])
    ensures Stable(ms)
  {
  }

  lemma RetryStableIff(ns: seq<Node>, ms: seq<Node>, i: nat)
    requires Stable(ns) && |ms| == |ns| && i < |ns|
    requires forall y | 0 <= y < |ns| :: ms[y].def == ns[y].def
    requires forall y | 0 <= y < |ns| && y != i :: ms[y] == ns[y]
    requires ns[i].status.Running? && ms[i].status.Ready?
    ensures Stable(ms) <==> !DoomedAt(ns, i)
  {
    UntouchedReadiness(ns, ms, i, i);
    if !DoomedAt(ns, i) {
      forall x | 0 <= x < |ms| && Movable(ms[x].status)
        ensures !DoomedAt(ms, x) && (ms[x].status.Pending? ==> !UnblockedAt(ms, x))
      {
        UntouchedReadiness(ns, ms, i, x);
      }
    }
  }

  // The stored status is the derived one after every move, whatever was done before.
  lemma {:induction false} MoveKeepsDerived(g: Graph, m: Move)
    requires Structured(g.nodes) && g.status == Derive(g.nodes) && Enabled(g, m)
    ensures Next(g, m).status == Derive(Next(g, m).nodes)
  {
    MoveKeepsStructure(g, m);
    if m.Renew? {
      SameStandingSameVerdict(g.nodes, Written(g, m));
    } else if m.Sweep? && !Propagates(g, m) {
      NothingSwept(g, m.now);
    }
  }

  // ---- Any run ------------------------------------------------------------

  ghost predicate NoneRetriesDoomed(g: Graph, moves: seq<Move>)
    requires Structured(g.nodes) && CanRun(g, moves)
    decreases |moves|
  {
    moves != [] ==> !RetriesDoomed(g, moves[0]) && NoneRetriesDoomed(Next(g, moves[0]), moves[1..])
  }

  lemma {:induction false} MoveKeepsQuiet(g: Graph, m: Move)
    requires Quiet(g) && Enabled(g, m)
    ensures Quiet(Next(g, m)) <==> !RetriesDoomed(g, m)
  {
    MoveKeepsStable(g, m);
    MoveKeepsDerived(g, m);
  }

  lemma {:induction false} RunKeepsQuiet(g: Graph, moves: seq<Move>)
    requires Quiet(g) && CanRun(g, moves) && NoneRetriesDoomed(g, moves)
    ensures Quiet(After(g, moves))
    decreases |moves|
  {
    if moves != [] {
      MoveKeepsQuiet(g, moves[0]);
      hide Quiet, RetriesDoomed;
      RunKeepsQuiet(Next(g, moves[0]), moves[1..]);
    }
  }

  // No deadlock after any run at all, reopenings of a cancelled graph included, as
  // long as no doomed node is put back for a retry.
  lemma {:induction false} NoReachableDeadlock(
    id: nat, task: string, tenant: string, now: int, rs: seq<Request>, moves: seq<Move>)
    requires Creatable(rs)
    requires CanRun(Initial(id, task, tenant, now, rs), moves)
    requires NoneRetriesDoomed(Initial(id, task, tenant, now, rs), moves)
    ensures var g := After(Initial(id, task, tenant, now, rs), moves);
      && (Unfinished(g.nodes) <==> CanProgress(g.nodes))
      && (Unfinished(g.nodes) ==> Active(g))
  {
    RunKeepsQuiet(Initial(id, task, tenant, now, rs), moves);
    NoDeadlock(After(Initial(id, task, tenant, now, rs), moves));
  }

  // So expanding a graph after any such run leaves every node it had exactly as it was,
  // with nothing to propagate in the union.
  lemma {:induction false} ExpansionAfterRun(
    id: nat, task: string, tenant: string, now: int, rs: seq<Request>, moves: seq<Move>, m: Move)
    requires Creatable(rs) && CanRun(Initial(id, task, tenant, now, rs), moves)
    requires NoneRetriesDoomed(Initial(id, task, tenant, now, rs), moves)
    requires m.Expand? && Enabled(After(Initial(id, task, tenant, now, rs), moves), m)
    ensures var g := After(Initial(id, task, tenant, now, rs), moves);
      && Quiet(Next(g, m)) && |Next(g, m).nodes| == |g.nodes| + |m.requests|
      && forall i | 0 <= i < |g.nodes| :: Next(g, m).nodes[i] == g.nodes[i]
  {
    hide Initial, CanRun, After, Next, Creatable, NoneRetriesDoomed, Enabled, Structured, Stable;
    InitialIsQuiet(id, task, tenant, now, rs);
    var start := Initial(id, task, tenant, now, rs);
    RunKeepsQuiet(start, moves);
    ExpandKeepsExisting(After(start, moves), m);
    MoveKeepsQuiet(After(start, moves), m);
  }

  lemma InitialIsQuiet(id: nat, task: string, tenant: string, now: int, rs: seq<Request>)
    requires Creatable(rs)
    ensures Quiet(Initial(id, task, tenant, now, rs))
  {
    hide Initial, Structured, Stable, NodesOk, Grounded;
  }

  // ---- Exactly when -------------------------------------------------------

  // A retry of the running node i leaves the graph stuck exactly when nothing lets i
  // be claimed again and nobody else has, or can be given, anything to do.
  lemma {:induction false} RetryDeadlocksIff(g: Graph, m: Move)
    requires Structured(g.nodes) && m.Fail? && Enabled(g, m) && WillRetry(g.nodes[m.i], m.retryable)
    ensures Deadlocked(Next(g, m).nodes)
      <==> !UnblockedAt(g.nodes, m.i)
           && (forall x | 0 <= x < |g.nodes| && x != m.i :: !g.nodes[x].status.Running?)
           && (forall x :: !Claimable(g.nodes, x))
  {
    RetryWrites(g, m);
    hide Next, Structured, Written;
    RetryStuckIff(g.nodes, Next(g, m).nodes, m.i);
  }

  // In a quiet graph what holds the node back is that a dependency dooms it.
  lemma {:induction false} QuietRetryDeadlocksIff(g: Graph, m: Move)
    requires Quiet(g) && m.Fail? && Enabled(g, m) && WillRetry(g.nodes[m.i], m.retryable)
    ensures Deadlocked(Next(g, m).nodes)
      <==> DoomedAt(g.nodes, m.i)
           && (forall x | 0 <= x < |g.nodes| && x != m.i :: !g.nodes[x].status.Running?)
           && (forall x :: !Claimable(g.nodes, x))
  {
    hide Structured, Stable, Derive, Deadlocked, Claimable, Next;
    RetryDeadlocksIff(g, m);
    MoveKeepsQuiet(g, m);
    if DoomedAt(g.nodes, m.i) {
      DoomedIsBlocked(g.nodes, m.i);
    } else {
      NotStuckWhenQuiet(Next(g, m));
    }
  }

  lemma DoomedIsBlocked(ns: seq<Node>, i: int)
    requires DoomedAt(ns, i)
    ensures !UnblockedAt(ns, i)
  {
  }

  // What is put back that way waits for the next propagation: any operation that
  // propagates skips it, as long as a dependency still dooms it.
  lemma {:induction false} NextPropagationSkips(g: Graph, m: Move, i: nat)
    requires Structured(g.nodes) && Enabled(g, m) && Propagates(g, m) && i < |Written(g, m)|
    requires Movable(Written(g, m)[i].status) && DoomedAt(Written(g, m), i)
    ensures i < |Next(g, m).nodes| && Next(g, m).nodes[i].status.Skipped?
  {
    hide Settle, Acyclic, DoomedAt;
    MoveKeepsStructure(g, m);
    SettleMeaning(Written(g, m));
    assert DoomChain(Written(g, m), [i]);
    assert SettledNode(Written(g, m), Settle(Written(g, m)), i);
  }

  // And one that does not propagate leaves it ready, unless it is a cancel.
  lemma {:induction false} NoPropagationNoSkip(g: Graph, m: Move, i: nat)
    requires Structured(g.nodes) && Enabled(g, m) && !Propagates(g, m) && !m.Cancel?
    requires i < |g.nodes| && g.nodes[i].status.Ready? && DoomedAt(g.nodes, i)
    ensures i < |Next(g, m).nodes| && Next(g, m).nodes[i] == g.nodes[i]
  {
    hide Settle, Acyclic, WellShaped;
    if m.Claim? { DoomedIsBlocked(g.nodes, i); }
  }

  lemma NotStuckWhenQuiet(g: Graph)
    requires Quiet(g)
    ensures !Deadlocked(g.nodes)
  {
    NoDeadlock(g);
  }

  lemma {:induction false} RetryWrites(g: Graph, m: Move)
    requires Structured(g.nodes) && m.Fail? && Enabled(g, m) && WillRetry(g.nodes[m.i], m.retryable)
    ensures Next(g, m).nodes == g.nodes[m.i := FailedNode(g.nodes[m.i], true)]
    ensures FailedNode(g.nodes[m.i], true).status.Ready?
  {
  }

  lemma {:induction false} RetryStuckIff(ns: seq<Node>, ms: seq<Node>, i: nat)
    requires i < |ns| && ns[i].status.Running?
    requires ms == ns[i := FailedNode(ns[i], true)] && ms[i].status.Ready?
    ensures Deadlocked(ms)
      <==> !UnblockedAt(ns, i)
           && (forall x | 0 <= x < |ns| && x != i :: !ns[x].status.Running?) && (forall x :: !Claimable(ns, x))
  {
    assert Unfinished(ms) by { assert !Terminal(ms[i].status); }
    forall x: nat | x < |ns|
      ensures UnblockedAt(ms, x) <==> UnblockedAt(ns, x)
      ensures x != i ==> ms[x] == ns[x] && (Claimable(ms, x) <==> Claimable(ns, x))
    {
      UntouchedReadiness(ns, ms, i, x);
    }
    assert Claimable(ms, i) <==> UnblockedAt(ns, i);
  }

  // In a live graph no running node is ever doomed, so fair runs never do this.
  lemma {:induction false} LiveNeverRetriesDoomed(g: Graph, h: History, m: Move)
    requires Live(g, h) && Enabled(g, m)
    ensures !RetriesDoomed(g, m)
  {
    if m.Fail? {
      assert NodeOk(g.nodes[m.i]);
      forall j | Lists(g.nodes, m.i, j) ensures !Dooms(g.nodes[m.i].def.mode, g.nodes[j].status) {}
    }
  }

  lemma {:induction false} FairRunsRetryNoDoomed(g: Graph, h: History, moves: seq<Move>)
    requires Live(g, h) && CanRun(g, moves) && FairRun(h, moves)
    ensures NoneRetriesDoomed(g, moves)
    decreases |moves|
  {
    if moves != [] {
      LiveNeverRetriesDoomed(g, h, moves[0]);
      MoveKeepsLive(g, h, moves[0]);
      hide Live, RetriesDoomed;
      FairRunsRetryNoDoomed(Next(g, moves[0]), Remember(h, moves[0]), moves[1..]);
    }
  }
}
