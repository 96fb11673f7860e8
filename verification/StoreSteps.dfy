// What one operation comes to when it concerns one graph: the lemmas that connect
// the tables of JevStore to Store.

module StoreSteps {
  import opened Basics
  import opened Dag
  import opened GraphShape
  import opened Nodes
  import opened Readiness
  import opened Scheduler
  import opened Invariants
  import opened GraphRuns
  import opened Drain
  import opened Store
  import opened Fencing
  import opened Activity

  predicate NodeOp(op: Op) {
    op.RenewLease? || op.CompleteNode? || op.FailNode? || op.ReopenNode?
  }

  // At most graph x moves, and it becomes g'.
  lemma {:induction false} OneMoves(db: Db, op: Op, x: nat)
    requires Sound(db) && !op.CreateGraph? && x < |db.graphs|
    requires forall y | 0 <= y < |db.graphs| && y != x :: MoveFor(db, op, y).None?
    ensures Step(db, op).graphs == db.graphs[x := Moved(db, op, x)]
    ensures SomeMove(db, op) <==> MoveFor(db, op, x).Some?
  {
    hide Next, MoveFor, Structured;
    assert |Step(db, op).graphs| == |db.graphs|;
  }

  lemma {:induction false} NodeIsHere(db: Db, op: Op, x: nat, i: nat, y: nat)
    requires Sound(db) && Ids(db) && NodeOp(op) && x < |db.graphs| && y < |db.graphs| && y != x
    requires NodeIn(db.graphs[x].nodes, op.node) == Some(i)
    ensures NodeIn(db.graphs[y].nodes, op.node).None? && MoveFor(db, op, y).None?
  {
    var j := NodeIn(db.graphs[y].nodes, op.node);
    if j.Some? { IdsDiffer(db, x, i, y, j.value); }
  }

  lemma IdsDiffer(db: Db, x: int, i: int, y: int, j: int)
    requires Ids(db) && In(db, x, i) && In(db, y, j) && x != y
    ensures At(db, x, i).id != At(db, y, j).id
  {
  }

  lemma {:induction false} FoundById(db: Db, x: nat, i: nat)
    requires Ids(db) && In(db, x, i)
    ensures NodeIn(db.graphs[x].nodes, At(db, x, i).id) == Some(i)
  {
    var j := NodeIn(db.graphs[x].nodes, At(db, x, i).id);
    assert In(db, x, j.value) && At(db, x, j.value).id == At(db, x, i).id;
  }

  // An operation on the node at (x, i).
  lemma {:induction false} NodeOpMeaning(db: Db, op: Op, x: nat, i: nat)
    requires Sound(db) && Ids(db) && NodeOp(op) && x < |db.graphs|
    requires NodeIn(db.graphs[x].nodes, op.node) == Some(i)
    ensures MoveFor(db, op, x) == NodeMove(db.graphs[x], op)
    ensures Step(db, op) == Db(db.graphs[x := Moved(db, op, x)], db.nextId)
    ensures KnownNode(db, op.node) && (SomeMove(db, op) <==> NodeMove(db.graphs[x], op).Some?)
    ensures op.CompleteNode? ==>
      (AlreadyCompleted(db, op.node, op.lease)
       <==> db.graphs[x].nodes[i].status.Succeeded? && db.graphs[x].nodes[i].lease == Some(op.lease))
  {
    hide Structured, Next;
    forall y: nat | y < |db.graphs| && y != x
      ensures NodeIn(db.graphs[y].nodes, op.node).None? && MoveFor(db, op, y).None?
    {
      NodeIsHere(db, op, x, i, y);
    }
    OneMoves(db, op, x);
  }

  lemma {:induction false} UnknownNodeMeaning(db: Db, op: Op)
    requires Sound(db) && NodeOp(op) && forall x | 0 <= x < |db.graphs| :: NodeIn(db.graphs[x].nodes, op.node).None?
    ensures Step(db, op) == db && Told(db, op) == Threw
  {
    NoMovesNoChange(db, op);
  }

  // What the caller of an operation on the node at (x, i) is told.
  lemma {:induction false} NodeOpTold(db: Db, op: Op, x: nat, i: nat)
    requires Sound(db) && Ids(db) && NodeOp(op) && x < |db.graphs|
    requires NodeIn(db.graphs[x].nodes, op.node) == Some(i)
    ensures var n := db.graphs[x].nodes[i];
      Told(db, op)
      == if op.CompleteNode? && n.status.Succeeded? && n.lease == Some(op.lease) then Repeated
         else if NodeMove(db.graphs[x], op).Some? then Did
         else Declined
  {
    NodeOpMeaning(db, op, x, i);
  }

  // An operation on the node at (x, i) either makes its one move on graph x or
  // leaves the store as it is.
  lemma {:induction false} NodeOpEffect(db: Db, op: Op, x: nat, i: nat)
    requires Healthy(db) && NodeOp(op) && x < |db.graphs|
    requires NodeIn(db.graphs[x].nodes, op.node) == Some(i)
    ensures Healthy(Step(db, op)) && Structured(db.graphs[x].nodes)
    ensures var m := NodeMove(db.graphs[x], op);
      Step(db, op) == if m.Some? then Db(db.graphs[x := Next(db.graphs[x], m.value)], db.nextId) else db
  {
    hide Next, Step, NodeIn, Structured, Fenced;
    StepKeepsHealthy(db, op);
    NodeOpMeaning(db, op, x, i);
    hide Next;
    assert NodeMove(db.graphs[x], op).None? ==> db.graphs[x := db.graphs[x]] == db.graphs;
  }

  // ---- Operations on a graph ----------------------------------------------

  lemma {:induction false} GraphOpMeaning(db: Db, op: Op, x: nat)
    requires Sound(db) && Ids(db) && (op.ExpandGraph? || op.CancelGraph?) && x < |db.graphs|
    requires db.graphs[x].id == op.graph
    ensures Step(db, op).graphs == db.graphs[x := Moved(db, op, x)]
    ensures Step(db, op).nextId
      == db.nextId + (if op.ExpandGraph? && MoveFor(db, op, x).Some? then |op.requests| else 0)
    ensures Told(db, op) == if MoveFor(db, op, x).Some? then Did else Threw
  {
    OneMoves(db, op, x);
    assert KnownGraph(db, op.graph);
  }

  lemma {:induction false} UnknownGraphMeaning(db: Db, op: Op)
    requires Sound(db) && (op.ExpandGraph? || op.CancelGraph?)
    requires forall x | 0 <= x < |db.graphs| :: db.graphs[x].id != op.graph
    ensures Step(db, op) == db && Told(db, op) == Threw
  {
    NoMovesNoChange(db, op);
  }

  lemma {:induction false} GraphOpEffect(db: Db, op: Op, x: nat)
    requires Healthy(db) && (op.ExpandGraph? || op.CancelGraph?) && x < |db.graphs|
    requires db.graphs[x].id == op.graph
    ensures Healthy(Step(db, op)) && Structured(db.graphs[x].nodes)
    ensures var m := MoveFor(db, op, x);
      && Step(db, op) == (if m.Some?
                          then Db(db.graphs[x := Next(db.graphs[x], m.value)],
                                  db.nextId + (if op.ExpandGraph? then |op.requests| else 0))
                          else db)
      && Told(db, op) == if m.Some? then Did else Threw
  {
    StepKeepsHealthy(db, op);
    GraphOpMeaning(db, op, x);
    hide Next;
    assert MoveFor(db, op, x).None? ==> db.graphs[x := db.graphs[x]] == db.graphs;
  }

  // ---- Claiming -----------------------------------------------------------

  lemma {:induction false} ClaimMeaning(db: Db, op: Op, x: nat)
    requires Sound(db) && op.ClaimNext? && Serves(db, op, x)
    ensures MoveFor(db, op, x) == Some(Claim(NodeToClaim(db.graphs[x], op), db.nextId, op.worker, op.leaseMs, op.now))
    ensures Step(db, op) == Db(db.graphs[x := Moved(db, op, x)], db.nextId + 1)
    ensures Told(db, op) == Did
  {
    forall y | 0 <= y < |db.graphs| && y != x ensures MoveFor(db, op, y).None? {
      if Serves(db, op, y) { ServesOne(db, op, x, y); }
    }
    OneMoves(db, op, x);
  }

  // `n` is graph x's next node as its new holder is shown it.
  ghost predicate HandsOut(db: Db, op: Op, x: int, n: Node)
    requires Sound(db) && op.ClaimNext?
  {
    && Serves(db, op, x)
    && n == ClaimedNode(db.graphs[x].nodes[NodeToClaim(db.graphs[x], op)], db.nextId, op.worker, op.leaseMs, op.now)
  }

  lemma {:induction false} ClaimHandsOut(db: Db, op: Op, x: nat)
    requires Sound(db) && op.ClaimNext? && Serves(db, op, x)
    ensures var i := NodeToClaim(db.graphs[x], op);
      In(Step(db, op), x, i) && HandsOut(db, op, x, At(Step(db, op), x, i))
  {
    ClaimMeaning(db, op, x);
    ClaimWrites(db.graphs[x], MoveFor(db, op, x).value);
  }

  lemma {:induction false} ClaimWrites(g: Graph, m: Move)
    requires Structured(g.nodes) && m.Claim? && Enabled(g, m)
    ensures m.i < |g.nodes|
      && Next(g, m).nodes == g.nodes[m.i := ClaimedNode(g.nodes[m.i], m.lease, m.owner, m.leaseMs, m.now)]
  {
  }

  lemma {:induction false} NoClaimMeaning(db: Db, op: Op)
    requires Sound(db) && op.ClaimNext? && forall x :: !Serves(db, op, x)
    ensures Step(db, op) == db
    ensures Told(db, op) == if Trim(op.worker) == "" then Threw else Nothing
  {
    NoMovesNoChange(db, op);
  }

  // ---- Sweeping -----------------------------------------------------------

  ghost function SweptGraph(g: Graph, now: int, tenant: Option<string>): Graph
    requires Structured(g.nodes)
  {
    if Matches(tenant, g.tenant) then Next(g, Move.Sweep(now)) else g
  }

  lemma {:induction false} SweepMeaning(db: Db, op: Op, gs: seq<Graph>)
    requires Sound(db) && op.SweepStalled? && |gs| == |db.graphs|
    requires forall x | 0 <= x < |gs| :: gs[x] == SweptGraph(db.graphs[x], op.now, op.forTenant)
    ensures Step(db, op) == Db(gs, db.nextId) && Told(db, op) == Did
  {
    hide Next, Structured;
    forall x: nat | x < |gs| ensures Step(db, op).graphs[x] == gs[x] {}
    assert Step(db, op).graphs == gs;
  }

  // ---- Creating -----------------------------------------------------------

  lemma {:induction false} CreateMeaning(db: Db, op: Op)
    requires Sound(db) && op.CreateGraph? && CanCreate(db, op)
    ensures Step(db, op).graphs == db.graphs + [NewGraph(db, op)]
    ensures Step(db, op).nextId == db.nextId + 1 + |op.requests|
  {
    hide Next, NewGraph, Creatable, Structured;
    forall x: nat | x < |db.graphs| ensures Step(db, op).graphs[x] == db.graphs[x] {}
    NewestGraph(db, op);
    SameButLast(Step(db, op).graphs, db.graphs, NewGraph(db, op));
  }

  lemma SameButLast<T>(all: seq<T>, some: seq<T>, last: T)
    requires |all| == |some| + 1 && (forall x | 0 <= x < |some| :: all[x] == some[x]) && all[|some|] == last
    ensures all == some + [last]
  {
  }

  lemma {:induction false} CreateEffect(db: Db, op: Op)
    requires Healthy(db) && op.CreateGraph? && CanCreate(db, op)
    ensures var g := Created(db.nextId, op.task, op.tenant, op.now, op.requests);
      Step(db, op) == Db(db.graphs + [g], db.nextId + 1 + |op.requests|)
    ensures Healthy(Step(db, op)) && Told(db, op) == Did
  {
    StepKeepsHealthy(db, op);
    CreateMeaning(db, op);
  }

  // The nodes createTaskGraph stores, before the first propagation.
  lemma {:induction false} CreatedFrom(id: nat, task: string, tenant: string, now: int, rs: seq<Request>)
    requires Creatable(rs)
    ensures var ns := [] + NewNodes(rs, 0, id + 1);
      && WellShaped(Defs(ns))
      && Created(id, task, tenant, now, rs)
         == Scheduler.Refresh(Graph(id, task, tenant, now, GraphPending, []), Settle(ns))
  {
    UnionShape([], rs, id + 1, 0);
  }

  lemma {:induction false} NoCreateMeaning(db: Db, op: Op)
    requires Sound(db) && op.CreateGraph? && !CanCreate(db, op)
    ensures Step(db, op) == db && Told(db, op) == Threw
  {
    forall x: nat | x < |db.graphs| ensures Step(db, op).graphs[x] == db.graphs[x] {}
    assert Step(db, op).graphs == db.graphs;
  }
}
