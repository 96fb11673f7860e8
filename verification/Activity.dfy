// When a graph is active, and how many active graphs one task can have. Only
// createTaskGraph looks for another active graph (src/jev.js, lines 132-136).

module Activity {
  import opened Basics
  import opened Dag
  import opened GraphShape
  import opened Nodes
  import opened Readiness
  import opened Scheduler
  import opened Invariants
  import opened GraphRuns
  import opened Deadlock
  import opened Drain
  import opened Store
  import opened Fencing

  lemma InactiveIsFinished(g: Graph)
    requires g.status == Derive(g.nodes) && !Active(g)
    ensures forall i | 0 <= i < |g.nodes| :: Terminal(g.nodes[i].status)
    ensures g.status.GraphSucceeded? ==> forall i | 0 <= i < |g.nodes| :: g.nodes[i].status.Succeeded?
  {
    if Unfinished(g.nodes) { UnfinishedIsActive(g.nodes); }
  }

  lemma {:induction false} CancelOfFinished(g: Graph)
    requires Structured(g.nodes) && forall i | 0 <= i < |g.nodes| :: Terminal(g.nodes[i].status)
    ensures Next(g, Move.Cancel) == Scheduler.Refresh(g, g.nodes)
  {
    assert Written(g, Move.Cancel) == g.nodes;
  }

  // A finished graph becomes active again only by being expanded or reopened.
  lemma {:induction false} OnlyGrowthReactivates(g: Graph, m: Move)
    requires Structured(g.nodes) && g.status == Derive(g.nodes)
    requires Enabled(g, m) && !Active(g) && !m.Expand? && !m.Reopen?
    ensures !Active(Next(g, m))
  {
    hide Acyclic, WellShaped, Settle, Lists, Derive;
    InactiveIsFinished(g);
    if m.Cancel? { CancelOfFinished(g); }
    if m.Sweep? { NothingSwept(g, m.now); }
  }

  // ---- What holds in every graph that was not cancelled -------------------

  const REOPENED := History(false, true)

  // Whatever is done to a graph: as long as it holds no cancelled node, it is live.
  ghost predicate Steady(g: Graph) {
    && Structured(g.nodes) && g.status == Derive(g.nodes)
    && (NoneCancelled(g.nodes) ==> Live(g, REOPENED))
  }

  lemma LiveForgets(g: Graph)
    requires Live(g, Untouched)
    ensures Live(g, REOPENED)
  {
    hide Structured, NodesOk, Stable, Derive;
  }

  // No move takes a cancellation back, and without one every move is fair.
  lemma {:induction false} MoveKeepsSteady(g: Graph, m: Move)
    requires Steady(g) && Enabled(g, m)
    ensures Steady(Next(g, m))
  {
    hide Structured, Derive, Live, Next, Enabled;
    MoveKeepsDerived(g, m);
    if NoneCancelled(Next(g, m).nodes) {
      NothingCancelledBefore(g, m);
      if m.Cancel? { EmptyCancel(g); } else { UncancelledStaysLive(g, m); }
    }
  }

  lemma {:induction false} NothingCancelledBefore(g: Graph, m: Move)
    requires Structured(g.nodes) && Enabled(g, m) && NoneCancelled(Next(g, m).nodes)
    ensures NoneCancelled(g.nodes)
  {
    hide Structured, Next, Enabled;
    forall i: nat | i < |g.nodes| ensures !g.nodes[i].status.Cancelled? {
      if g.nodes[i].status.Cancelled? { CancellationIsFinal(g, m, i); }
    }
  }

  lemma {:induction false} EmptyCancel(g: Graph)
    requires Structured(g.nodes) && Live(g, REOPENED) && NoneCancelled(Next(g, Move.Cancel).nodes)
    ensures Live(Next(g, Move.Cancel), REOPENED)
  {
    hide Structured, NodesOk, Stable, Grounded, Derive, Next;
    CancelWrites(g);
    forall i | 0 <= i < |g.nodes| ensures Terminal(g.nodes[i].status) {
      assert !CancelledNode(g.nodes[i]).status.Cancelled?;
    }
    CancelOfFinished(g);
  }

  lemma {:induction false} UncancelledStaysLive(g: Graph, m: Move)
    requires Structured(g.nodes) && Live(g, REOPENED) && Enabled(g, m) && !m.Cancel?
    ensures Live(Next(g, m), REOPENED)
  {
    hide Structured, NodesOk, Stable, Grounded, Derive, Enabled;
    MoveKeepsLive(g, REOPENED, m);
  }

  // A finished graph always becomes active again when it is expanded or reopened.
  lemma {:induction false} GrowthReactivates(g: Graph, m: Move)
    requires Steady(g) && Enabled(g, m) && !Active(g) && (m.Expand? || m.Reopen?)
    ensures Active(Next(g, m))
  {
    hide Structured, Live, Next;
    GrowsUncancelled(g, m);
    LiveGrowthReactivates(g, REOPENED, m);
  }

  lemma GrowsUncancelled(g: Graph, m: Move)
    requires g.status == Derive(g.nodes) && Enabled(g, m) && !Active(g) && (m.Expand? || m.Reopen?)
    ensures NoneCancelled(g.nodes)
  {
    hide AwaitsExpansion, AcceptableShape;
  }

  lemma {:induction false} LiveGrowthReactivates(g: Graph, h: History, m: Move)
    requires Live(g, h) && Enabled(g, m) && Fair(h, m)
    requires (m.Expand? && !Active(g)) || m.Reopen?
    ensures Active(Next(g, m))
  {
    MoveKeepsLive(g, h, m);
    var i := if m.Expand? then |g.nodes| else m.i;
    if m.Expand? {
      InactiveIsFinished(g);
      UnionStructured(g.nodes, m.requests, m.firstId);
      NewNodeWaits(g.nodes, m.requests, m.firstId);
    } else {
      ReopenedNodeWaits(g, h, m);
    }
    WaitingIsActive(Next(g, m), Remember(h, m), i);
  }

  lemma WaitingIsActive(g: Graph, h: History, i: nat)
    requires Live(g, h) && i < |g.nodes| && Movable(g.nodes[i].status)
    ensures Active(g)
  {
    assert Unfinished(g.nodes) by { assert !Terminal(g.nodes[i].status); }
    UnfinishedIsActive(g.nodes);
  }

  lemma {:induction false} NewNodeWaits(ns: seq<Node>, rs: seq<Request>, id: nat)
    requires WellShaped(Defs(Union(ns, rs, id))) && rs != []
    requires forall i | 0 <= i < |ns| :: ns[i].status.Succeeded?
    ensures Movable(Settle(Union(ns, rs, id))[|ns|].status)
  {
    var all := Union(ns, rs, id);
    NoFailureNoSkip(all);
    SettledLeaves(all, |ns|);
  }

  lemma {:induction false} ReopenedNodeWaits(g: Graph, h: History, m: Move)
    requires Live(g, h) && m.Reopen? && Enabled(g, m) && Fair(h, m)
    ensures m.i < |Next(g, m).nodes| && Movable(Next(g, m).nodes[m.i].status)
  {
    MoveKeepsLive(g, h, m);
    NextFollows(g, m, m.i);
    assert NodeOk(g.nodes[m.i]);
    RanIsNotSkipped(Next(g, m), Remember(h, m), m.i);
  }

  lemma RanIsNotSkipped(g: Graph, h: History, i: nat)
    requires Live(g, h) && i < |g.nodes| && g.nodes[i].attempt > 0
    ensures !g.nodes[i].status.Skipped?
  {
  }

  // ---- One active graph per task ------------------------------------------

  // Graph and node ids are behind the counter and never shared.
  ghost predicate Ids(db: Db) {
    && (forall x | 0 <= x < |db.graphs| :: db.graphs[x].id < db.nextId)
    && (forall x, y | 0 <= x < y < |db.graphs| :: db.graphs[x].id != db.graphs[y].id)
    && (forall x, i | In(db, x, i) :: At(db, x, i).id < db.nextId)
    && (forall x, i, y, j | In(db, x, i) && In(db, y, j) && At(db, x, i).id == At(db, y, j).id :: x == y && i == j)
  }

  ghost predicate OneActive(db: Db) {
    forall x, y | 0 <= x < y < |db.graphs| && Active(db.graphs[x]) && Active(db.graphs[y]) ::
      db.graphs[x].task != db.graphs[y].task
  }

  // The operation grows graph x, which had finished, while its task has another
  // graph in progress.
  ghost predicate Clashes(db: Db, op: Op, x: int, y: int)
    requires Sound(db)
  {
    && 0 <= x < |db.graphs| && 0 <= y < |db.graphs| && x != y
    && db.graphs[x].task == db.graphs[y].task
    && !Active(db.graphs[x]) && Active(db.graphs[y])
    && (op.ExpandGraph? || op.ReopenNode?) && MoveFor(db, op, x).Some?
  }

  lemma MovedKeepsIdentity(db: Db, op: Op, x: nat)
    requires Sound(db) && x < |db.graphs|
    ensures Moved(db, op, x).id == db.graphs[x].id && Moved(db, op, x).task == db.graphs[x].task
  {
  }

  // Where the id of the node at (x, i) after the step comes from.
  ghost predicate IdFrom(db: Db, op: Op, x: int, i: int, id: nat)
    requires Sound(db)
  {
    || (In(db, x, i) && id == At(db, x, i).id)
    || (&& op.ExpandGraph? && 0 <= x < |db.graphs| && MoveFor(db, op, x).Some?
        && i >= |db.graphs[x].nodes| && id == db.nextId + i - |db.graphs[x].nodes|
        && id < Step(db, op).nextId)
    || (op.CreateGraph? && x == |db.graphs| && i >= 0 && id == db.nextId + 1 + i && id < Step(db, op).nextId)
  }

  lemma {:induction false} StepId(db: Db, op: Op, x: nat, i: nat)
    requires Sound(db) && In(Step(db, op), x, i)
    ensures IdFrom(db, op, x, i, At(Step(db, op), x, i).id)
  {
    if x < |db.graphs| {
      var m := MoveFor(db, op, x);
      if m.Some? {
        assert SomeMove(db, op);
        if i < |db.graphs[x].nodes| { MoveKeepsId(db.graphs[x], m.value, i); } else { GrownId(db, op, x, i); }
      }
    } else {
      NewestGraph(db, op);
      NewGraphIds(db, op, i);
    }
  }

  lemma {:induction false} GrownId(db: Db, op: Op, x: nat, i: nat)
    requires Sound(db) && x < |db.graphs| && MoveFor(db, op, x).Some?
    requires |db.graphs[x].nodes| <= i < |Next(db.graphs[x], MoveFor(db, op, x).value).nodes|
    ensures op.ExpandGraph? && i < |db.graphs[x].nodes| + |op.requests|
    ensures Next(db.graphs[x], MoveFor(db, op, x).value).nodes[i].id == db.nextId + i - |db.graphs[x].nodes|
  {
    var g, m := db.graphs[x], MoveFor(db, op, x).value;
    MoveKind(db, op, x);
    NextLength(g, m);
    NextFollows(g, m, i);
    GrownBy(g, m, i);
  }

  lemma GrownBy(g: Graph, m: Move, i: nat)
    requires Enabled(g, m) && |g.nodes| <= i < |Written(g, m)|
    ensures m.Expand? && i < |g.nodes| + |m.requests|
    ensures Written(g, m)[i].id == m.firstId + i - |g.nodes|
  {
  }

  lemma {:induction false} NewGraphIds(db: Db, op: Op, i: nat)
    requires op.CreateGraph? && CanCreate(db, op) && i < |NewGraph(db, op).nodes|
    ensures |NewGraph(db, op).nodes| == |op.requests| && NewGraph(db, op).nodes[i].id == db.nextId + 1 + i
  {
    hide AcceptableShape;
    UnionStructured([], op.requests, db.nextId + 1);
    SettledLeaves(Union([], op.requests, db.nextId + 1), i);
  }

  lemma IdIsBehindCounter(db: Db, op: Op, x: int, i: int, id: nat)
    requires Sound(db) && Ids(db) && IdFrom(db, op, x, i, id)
    ensures id < Step(db, op).nextId
  {
  }

  lemma {:induction false} StepKeepsGraphIds(db: Db, op: Op)
    requires Sound(db) && Ids(db)
    ensures forall x | 0 <= x < |Step(db, op).graphs| :: Step(db, op).graphs[x].id < Step(db, op).nextId
    ensures forall x, y | 0 <= x < y < |Step(db, op).graphs| :: Step(db, op).graphs[x].id != Step(db, op).graphs[y].id
  {
    hide Moved, Next, MoveFor, Structured, Creatable;
    var db' := Step(db, op);
    forall x: nat | x < |db.graphs| ensures db'.graphs[x].id == db.graphs[x].id { MovedKeepsIdentity(db, op, x); }
    if op.CreateGraph? && CanCreate(db, op) { NewestGraph(db, op); }
  }

  lemma {:induction false} StepKeepsIds(db: Db, op: Op)
    requires Sound(db) && Ids(db)
    ensures Ids(Step(db, op))
  {
    var db' := Step(db, op);
    StepKeepsGraphIds(db, op);
    hide IdFrom, Next, NewGraph, MoveFor;
    forall x: nat, i: nat | In(db', x, i) ensures At(db', x, i).id < db'.nextId {
      StepId(db, op, x, i);
      IdIsBehindCounter(db, op, x, i, At(db', x, i).id);
    }
    forall x: nat, i: nat, y: nat, j: nat | In(db', x, i) && In(db', y, j) && At(db', x, i).id == At(db', y, j).id
      ensures x == y && i == j
    {
      StepId(db, op, x, i);
      StepId(db, op, y, j);
      IdsApart(db, op, x, i, y, j, At(db', x, i).id);
    }
  }

  lemma IdsApart(db: Db, op: Op, x: int, i: int, y: int, j: int, id: nat)
    requires Sound(db) && Ids(db) && IdFrom(db, op, x, i, id) && IdFrom(db, op, y, j, id)
    ensures x == y && i == j
  {
    if op.ExpandGraph? { assert 0 <= x < |db.graphs| && 0 <= y < |db.graphs|; }
  }

  ghost predicate AllSteady(db: Db) {
    forall x | 0 <= x < |db.graphs| :: Steady(db.graphs[x])
  }

  lemma {:induction false} StepKeepsSteady(db: Db, op: Op)
    requires Sound(db) && AllSteady(db)
    ensures AllSteady(Step(db, op))
  {
    hide Steady, Structured, MoveFor, CanCreate, Next;
    var db' := Step(db, op);
    forall x: nat | x < |db'.graphs| ensures Steady(db'.graphs[x]) {
      if x < |db.graphs| {
        MovedIsSteady(db, op, x);
      } else {
        NewestGraph(db, op);
        NewGraphIsSteady(db, op);
      }
    }
  }

  lemma {:induction false} MovedIsSteady(db: Db, op: Op, x: nat)
    requires Sound(db) && x < |db.graphs| && Steady(db.graphs[x])
    ensures Steady(Moved(db, op, x))
  {
    hide Steady, Structured, MoveFor, Next, Enabled;
    var m := MoveFor(db, op, x);
    if m.Some? { MoveKeepsSteady(db.graphs[x], m.value); }
  }

  lemma NewGraphIsSteady(db: Db, op: Op)
    requires op.CreateGraph? && CanCreate(db, op)
    ensures Steady(NewGraph(db, op))
  {
    hide NewGraph, CanCreate, Structured, NodesOk, Stable, Grounded, Derive;
    LiveForgets(NewGraph(db, op));
  }

  lemma {:induction false} ActiveAfter(db: Db, op: Op, x: nat)
    requires Sound(db) && AllSteady(db) && x < |db.graphs|
    requires Active(Moved(db, op, x)) && !Active(db.graphs[x])
    ensures (op.ExpandGraph? || op.ReopenNode?) && MoveFor(db, op, x).Some?
  {
    hide Structured, Live, Next, Active;
    var m := MoveFor(db, op, x);
    if m.Some? {
      MoveKind(db, op, x);
      if !m.value.Expand? && !m.value.Reopen? { OnlyGrowthReactivates(db.graphs[x], m.value); }
    }
  }

  // The operation keeps a task to one active graph exactly when it does not grow a
  // finished graph of a task that has another one in progress.
  lemma {:induction false} OneActiveUnlessClash(db: Db, op: Op)
    requires Sound(db) && AllSteady(db) && Ids(db) && OneActive(db)
    ensures OneActive(Step(db, op)) <==> forall x, y :: !Clashes(db, op, x, y)
  {
    hide Ids, Steady, Step, Structured, Clashes, OneActive;
    if forall x, y :: !Clashes(db, op, x, y) { NoClashKeepsOneActive(db, op); }
    if x, y :| Clashes(db, op, x, y) { ClashMakesTwo(db, op, x, y); }
  }

  lemma {:induction false} NoClashKeepsOneActive(db: Db, op: Op)
    requires Sound(db) && AllSteady(db) && Ids(db) && OneActive(db)
    requires forall x, y :: !Clashes(db, op, x, y)
    ensures OneActive(Step(db, op))
  {
    hide AllSteady, Ids, Next, Structured;
    var db' := Step(db, op);
    forall x: nat, y: nat | x < y < |db'.graphs| && Active(db'.graphs[x]) && Active(db'.graphs[y])
      ensures db'.graphs[x].task != db'.graphs[y].task
    {
      MovedKeepsIdentity(db, op, x);
      if !Active(db.graphs[x]) { ActiveAfter(db, op, x); }
      if y < |db.graphs| {
        MovedKeepsIdentity(db, op, y);
        if !Active(db.graphs[y]) { ActiveAfter(db, op, y); }
        assert !Clashes(db, op, x, y) && !Clashes(db, op, y, x);
        if !Active(db.graphs[x]) && !Active(db.graphs[y]) { OnlyOneGrows(db, op, x, y); }
      } else {
        NewestGraph(db, op);
      }
    }
  }

  // Only one graph holds the node or has the id the operation names.
  lemma OnlyOneGrows(db: Db, op: Op, x: int, y: int)
    requires Sound(db) && Ids(db) && 0 <= x < |db.graphs| && 0 <= y < |db.graphs|
    requires (op.ExpandGraph? || op.ReopenNode?) && MoveFor(db, op, x).Some? && MoveFor(db, op, y).Some?
    ensures x == y
  {
    if op.ReopenNode? {
      var i, j := NodeIn(db.graphs[x].nodes, op.node).value, NodeIn(db.graphs[y].nodes, op.node).value;
      assert In(db, x, i) && In(db, y, j) && At(db, x, i).id == At(db, y, j).id;
    }
  }

  lemma {:induction false} ClashMakesTwo(db: Db, op: Op, x: int, y: int)
    requires Sound(db) && AllSteady(db) && Ids(db) && Clashes(db, op, x, y)
    ensures !OneActive(Step(db, op))
  {
    hide Ids, Structured, Live, Next, Active;
    var db' := Step(db, op);
    MovedKeepsIdentity(db, op, x);
    MovedKeepsIdentity(db, op, y);
    MoveKind(db, op, x);
    GrowthReactivates(db.graphs[x], MoveFor(db, op, x).value);
    if MoveFor(db, op, y).Some? { OnlyOneGrows(db, op, x, y); }
    assert Active(db'.graphs[x]) && Active(db'.graphs[y]) && db'.graphs[x].task == db'.graphs[y].task;
  }

  // ---- From nothing -------------------------------------------------------

  const EMPTY_STORE: Db := Db([], 0)

  ghost predicate Healthy(db: Db) {
    Sound(db) && Fenced(db) && Ids(db) && AllSteady(db)
  }

  lemma {:induction false} StepKeepsHealthy(db: Db, op: Op)
    requires Healthy(db)
    ensures Healthy(Step(db, op))
  {
    hide Fenced, Ids, Step, AllSteady, Sound;
    StepKeepsFenced(db, op);
    StepKeepsIds(db, op);
    StepKeepsSteady(db, op);
  }

  lemma {:induction false} RunKeepsHealthy(db: Db, ops: seq<Op>)
    requires Healthy(db)
    ensures Healthy(AfterOps(db, ops))
    decreases |ops|
  {
    hide Fenced, Ids, Step, AllSteady;
    if ops != [] {
      StepKeepsHealthy(db, ops[0]);
      RunKeepsHealthy(Step(db, ops[0]), ops[1..]);
    }
  }

  // No operation grows a finished graph beside one in progress.
  ghost predicate NeverClashes(db: Db, ops: seq<Op>)
    requires Sound(db)
    decreases |ops|
  {
    ops != [] ==> (forall x, y :: !Clashes(db, ops[0], x, y)) && NeverClashes(Step(db, ops[0]), ops[1..])
  }

  lemma {:induction false} RunKeepsOneActive(db: Db, ops: seq<Op>)
    requires Healthy(db) && OneActive(db) && NeverClashes(db, ops)
    ensures OneActive(AfterOps(db, ops))
    decreases |ops|
  {
    hide Fenced, Ids, Step, AllSteady, OneActive, Clashes;
    if ops != [] {
      StepKeepsHealthy(db, ops[0]);
      OneActiveUnlessClash(db, ops[0]);
      RunKeepsOneActive(Step(db, ops[0]), ops[1..]);
    }
  }

  // Whatever operations are carried out from an empty store on, ids and leases stay
  // apart, a lease has one outcome at most, a task has one active graph unless an
  // operation clashed, and, unless a doomed node is put back for a retry, no graph ever
  // deadlocks.
  lemma {:induction false} FromEmptyStore(ops: seq<Op>, lease: nat)
    ensures Sound(EMPTY_STORE) && Healthy(AfterOps(EMPTY_STORE, ops))
    ensures Settlements(EMPTY_STORE, ops, lease) <= 1
    ensures NeverClashes(EMPTY_STORE, ops) ==> OneActive(AfterOps(EMPTY_STORE, ops))
    ensures NoDoomedRetries(EMPTY_STORE, ops) ==>
      forall g | g in AfterOps(EMPTY_STORE, ops).graphs && Unfinished(g.nodes) :: Active(g) && CanProgress(g.nodes)
  {
    RunKeepsHealthy(EMPTY_STORE, ops);
    AtMostOneOutcome(EMPTY_STORE, ops, lease);
    if NeverClashes(EMPTY_STORE, ops) { RunKeepsOneActive(EMPTY_STORE, ops); }
    if NoDoomedRetries(EMPTY_STORE, ops) { StoreNeverDeadlocks(EMPTY_STORE, ops); }
  }
}
