// The whole store: every execution graph, and the operations src/jev.js offers on
// it, each one transaction. A step of the store makes one move on some of the
// graphs and leaves the others alone.

module Store {
  import opened Basics
  import opened Dag
  import opened GraphShape
  import opened Nodes
  import opened Readiness
  import opened Scheduler
  import opened Invariants
  import opened GraphRuns
  import opened Deadlock
  import opened Drain

  // `nextId` feeds graph, node and lease ids; ids below it have been handed out.
  datatype Db = Db(graphs: seq<Graph>, nextId: nat)

  datatype Op =
    | CreateGraph(task: string, tenant: string, requests: seq<Request>, now: int)
    | ExpandGraph(graph: nat, requests: seq<Request>)
    | ClaimNext(forTask: Option<string>, forTenant: Option<string>, worker: string,
                filter: Option<string>, leaseMs: int, now: int)
    | RenewLease(node: nat, lease: nat, leaseMs: int, now: int)
    | CompleteNode(node: nat, lease: nat, output: Output)
    | FailNode(node: nat, lease: nat, retryable: bool)
    | ReopenNode(node: nat)
    | SweepStalled(now: int, forTenant: Option<string>)
    | CancelGraph(graph: nat)

  // What the caller is told: `Threw` for an error, `Declined` for accepted/renewed
  // false, `Repeated` for a completion presented again, `Nothing` for no claim.
  datatype Reply = Threw | Declined | Repeated | Nothing | Did

  ghost predicate Sound(db: Db) {
    forall x | 0 <= x < |db.graphs| :: Structured(db.graphs[x].nodes)
  }

  // ---- Looking things up --------------------------------------------------

  function NodeIn(ns: seq<Node>, id: nat): (r: Option<nat>)
    ensures r.Some? ==> r.value < |ns| && ns[r.value].id == id
    ensures r.None? ==> forall i | 0 <= i < |ns| :: ns[i].id != id
  {
    if ns == [] then None
    else if ns[0].id == id then Some(0)
    else match NodeIn(ns[1..], id)
      case None => None
      case Some(i) => Some(i + 1)
  }

  ghost predicate KnownNode(db: Db, id: nat) {
    exists x :: 0 <= x < |db.graphs| && NodeIn(db.graphs[x].nodes, id).Some?
  }

  ghost predicate KnownGraph(db: Db, id: nat) {
    exists x :: 0 <= x < |db.graphs| && db.graphs[x].id == id
  }

  predicate Holder(n: Node, lease: nat) {
    n.status.Running? && n.lease == Some(lease)
  }

  predicate Reopenable(g: Graph, i: nat)
    requires i < |g.nodes|
  {
    (g.nodes[i].status.Failed? || g.nodes[i].status.TimedOut?) && !g.status.GraphCancelled?
  }

  // ---- Claiming across graphs ---------------------------------------------

  predicate Matches(wanted: Option<string>, actual: string) {
    wanted.None? || wanted.value == "" || wanted.value == actual
  }

  ghost predicate Offers(g: Graph, op: Op)
    requires op.ClaimNext?
  {
    && Active(g) && Matches(op.forTask, g.task) && Matches(op.forTenant, g.tenant)
    && exists i :: Claimable(g.nodes, i) && ClassFits(g.nodes[i], op.filter)
  }

  // Oldest first; graphs as old as each other in the order they were stored.
  predicate OlderGraph(db: Db, x: int, y: int)
    requires 0 <= x < |db.graphs| && 0 <= y < |db.graphs|
  {
    db.graphs[x].createdAt < db.graphs[y].createdAt
    || (db.graphs[x].createdAt == db.graphs[y].createdAt && x < y)
  }

  ghost predicate Serves(db: Db, op: Op, x: int)
    requires op.ClaimNext?
  {
    && 0 <= x < |db.graphs| && Trim(op.worker) != "" && Offers(db.graphs[x], op)
    && forall y | 0 <= y < |db.graphs| && y != x && Offers(db.graphs[y], op) :: OlderGraph(db, x, y)
  }

  ghost function NodeToClaim(g: Graph, op: Op): (i: nat)
    requires op.ClaimNext? && Structured(g.nodes) && Offers(g, op)
    ensures FirstClaimable(g.nodes, op.filter, i)
  {
    var w :| Claimable(g.nodes, w) && ClassFits(g.nodes[w], op.filter);
    FirstExists(g.nodes, op.filter, w);
    var i: nat :| FirstClaimable(g.nodes, op.filter, i);
    i
  }

  // ---- Steps --------------------------------------------------------------

  // The move an operation on one node asks of the graph, when the graph has the
  // node and the caller may make it.
  function NodeMove(g: Graph, op: Op): (m: Option<Move>)
    ensures m.Some? ==> Enabled(g, m.value)
    ensures m.Some? ==> !m.value.Claim? && !m.value.Expand? && (m.value.Reopen? <==> op.ReopenNode?)
  {
    if !(op.RenewLease? || op.CompleteNode? || op.FailNode? || op.ReopenNode?) then None
    else match NodeIn(g.nodes, op.node)
      case None => None
      case Some(i) =>
        if op.ReopenNode? then (if Reopenable(g, i) then Some(Reopen(i)) else None)
        else if !Holder(g.nodes[i], op.lease) then None
        else if op.RenewLease? then Some(Renew(i, op.leaseMs, op.now))
        else if op.CompleteNode? then Some(Complete(i, op.output))
        else Some(Fail(i, op.retryable))
  }

  ghost function ExpansionFor(db: Db, op: Op, x: int): (m: Option<Move>)
    requires 0 <= x < |db.graphs| && op.ExpandGraph?
    ensures m.Some? ==> Enabled(db.graphs[x], m.value)
  {
    if db.graphs[x].id == op.graph && Expandable(db.graphs[x], op.requests)
    then Some(Expand(op.requests, db.nextId))
    else None
  }

  ghost function ClaimFor(db: Db, op: Op, x: int): (m: Option<Move>)
    requires Sound(db) && 0 <= x < |db.graphs| && op.ClaimNext?
    ensures m.Some? ==> Enabled(db.graphs[x], m.value)
  {
    if Serves(db, op, x)
    then Some(Claim(NodeToClaim(db.graphs[x], op), db.nextId, op.worker, op.leaseMs, op.now))
    else None
  }

  // The move graph x makes when `op` is carried out, if it makes one.
  ghost function MoveFor(db: Db, op: Op, x: int): (m: Option<Move>)
    requires Sound(db) && 0 <= x < |db.graphs|
    ensures m.Some? ==> Enabled(db.graphs[x], m.value)
  {
    var g := db.graphs[x];
    if op.ExpandGraph? then ExpansionFor(db, op, x)
    else if op.ClaimNext? then ClaimFor(db, op, x)
    else if op.SweepStalled? then
      if Matches(op.forTenant, g.tenant) then Some(Sweep(op.now)) else None
    else if op.CancelGraph? then
      if g.id == op.graph then Some(Cancel) else None
    else NodeMove(g, op)
  }

  // Which operation each kind of move comes from.
  lemma MoveKind(db: Db, op: Op, x: int)
    requires Sound(db) && 0 <= x < |db.graphs| && MoveFor(db, op, x).Some?
    ensures var m := MoveFor(db, op, x).value;
      && (m.Claim? <==> op.ClaimNext?)
      && (m.Expand? <==> op.ExpandGraph?)
      && (m.Reopen? <==> op.ReopenNode?)
      && (m.Claim? ==>
            Serves(db, op, x) && m.i == NodeToClaim(db.graphs[x], op) && m.lease == db.nextId)
      && (m.Expand? ==> m.requests == op.requests && m.firstId == db.nextId)
  {
  }

  ghost function Moved(db: Db, op: Op, x: int): (g: Graph)
    requires Sound(db) && 0 <= x < |db.graphs|
    ensures Structured(g.nodes)
  {
    var m := MoveFor(db, op, x);
    if m.Some? then Next(db.graphs[x], m.value) else db.graphs[x]
  }

  ghost predicate CanCreate(db: Db, op: Op)
    requires op.CreateGraph?
  {
    && op.task != "" && Creatable(op.requests)
    && forall x | 0 <= x < |db.graphs| :: !(db.graphs[x].task == op.task && Active(db.graphs[x]))
  }

  ghost function NewGraph(db: Db, op: Op): (g: Graph)
    requires op.CreateGraph? && CanCreate(db, op)
    ensures Structured(g.nodes) && Live(g, Untouched)
  {
    CreatedIsLive(db.nextId, op.task, op.tenant, op.now, op.requests);
    Created(db.nextId, op.task, op.tenant, op.now, op.requests)
  }

  // Whether the operation gets as far as changing a stored graph.
  ghost predicate SomeMove(db: Db, op: Op)
    requires Sound(db)
  {
    exists x :: 0 <= x < |db.graphs| && MoveFor(db, op, x).Some?
  }

  ghost function IdsUsed(db: Db, op: Op): nat
    requires Sound(db)
  {
    if op.CreateGraph? then (if CanCreate(db, op) then 1 + |op.requests| else 0)
    else if op.ExpandGraph? then
      (if SomeMove(db, op) then |op.requests| else 0)
    else if op.ClaimNext? then (if SomeMove(db, op) then 1 else 0)
    else 0
  }

  ghost function MovedAll(db: Db, op: Op): (gs: seq<Graph>)
    requires Sound(db)
    ensures |gs| == |db.graphs| && forall x | 0 <= x < |gs| :: gs[x] == Moved(db, op, x)
  {
    seq(|db.graphs|, x requires 0 <= x < |db.graphs| => Moved(db, op, x))
  }

  ghost function Step(db: Db, op: Op): (db': Db)
    requires Sound(db)
    ensures Sound(db')
    ensures |db'.graphs| == |db.graphs| + (if op.CreateGraph? && CanCreate(db, op) then 1 else 0)
    ensures forall x | 0 <= x < |db.graphs| :: db'.graphs[x] == Moved(db, op, x)
  {
    Db(MovedAll(db, op) + (if op.CreateGraph? && CanCreate(db, op) then [NewGraph(db, op)] else []),
       db.nextId + IdsUsed(db, op))
  }

  lemma NewestGraph(db: Db, op: Op)
    requires Sound(db) && op.CreateGraph? && CanCreate(db, op)
    ensures |Step(db, op).graphs| == |db.graphs| + 1 && Step(db, op).graphs[|db.graphs|] == NewGraph(db, op)
  {
  }

  ghost function Told(db: Db, op: Op): Reply
    requires Sound(db)
  {
    var moves := SomeMove(db, op);
    match op
    case CreateGraph(_, _, _, _) => if CanCreate(db, op) then Did else Threw
    case ExpandGraph(_, _) => if moves then Did else Threw
    case ClaimNext(_, _, worker, _, _, _) => if Trim(worker) == "" then Threw else if moves then Did else Nothing
    case RenewLease(id, _, _, _) => if !KnownNode(db, id) then Threw else if moves then Did else Declined
    case CompleteNode(id, lease, _) =>
      if !KnownNode(db, id) then Threw
      else if AlreadyCompleted(db, id, lease) then Repeated
      else if moves then Did else Declined
    case FailNode(id, _, _) => if !KnownNode(db, id) then Threw else if moves then Did else Declined
    case ReopenNode(id) => if !KnownNode(db, id) then Threw else if moves then Did else Declined
    case SweepStalled(_, _) => Did
    case CancelGraph(id) => if KnownGraph(db, id) then Did else Threw
  }

  ghost predicate AlreadyCompleted(db: Db, id: nat, lease: nat) {
    exists x :: 0 <= x < |db.graphs| && NodeIn(db.graphs[x].nodes, id).Some?
      && var n := db.graphs[x].nodes[NodeIn(db.graphs[x].nodes, id).value];
         n.status.Succeeded? && n.lease == Some(lease)
  }

  // ---- Runs ---------------------------------------------------------------

  ghost function AfterOps(db: Db, ops: seq<Op>): (db': Db)
    requires Sound(db)
    ensures Sound(db')
    decreases |ops|
  {
    if ops == [] then db else AfterOps(Step(db, ops[0]), ops[1..])
  }

  ghost predicate StoreLive(db: Db, hs: seq<History>) {
    |hs| == |db.graphs| && forall x | 0 <= x < |hs| :: Live(db.graphs[x], hs[x])
  }

  ghost function Recall(db: Db, hs: seq<History>, op: Op): (r: seq<History>)
    requires Sound(db) && |hs| == |db.graphs|
    ensures |r| == |Step(db, op).graphs|
  {
    seq(|Step(db, op).graphs|, x requires 0 <= x < |Step(db, op).graphs| =>
      if x == |hs| then Untouched
      else if MoveFor(db, op, x).Some? then Remember(hs[x], MoveFor(db, op, x).value)
      else hs[x])
  }

  // No graph that was cancelled has a node reopened.
  ghost predicate FairOp(db: Db, hs: seq<History>, op: Op)
    requires Sound(db) && |hs| == |db.graphs|
  {
    forall x | 0 <= x < |hs| :: MoveFor(db, op, x).Some? ==> Fair(hs[x], MoveFor(db, op, x).value)
  }

  ghost predicate FairOps(db: Db, hs: seq<History>, ops: seq<Op>)
    requires Sound(db) && |hs| == |db.graphs|
    decreases |ops|
  {
    ops != [] ==> FairOp(db, hs, ops[0]) && FairOps(Step(db, ops[0]), Recall(db, hs, ops[0]), ops[1..])
  }

  lemma {:induction false} StepKeepsStoreLive(db: Db, hs: seq<History>, op: Op)
    requires Sound(db) && StoreLive(db, hs) && FairOp(db, hs, op)
    ensures StoreLive(Step(db, op), Recall(db, hs, op))
  {
    hide Live, FairOp, Structured, Fair, Remember, CanCreate;
    var db', hs' := Step(db, op), Recall(db, hs, op);
    forall x | 0 <= x < |hs'| ensures Live(db'.graphs[x], hs'[x]) {
      if x < |hs| { MovedIsLive(db, hs, op, x); }
    }
  }

  lemma {:induction false} MovedIsLive(db: Db, hs: seq<History>, op: Op, x: nat)
    requires Sound(db) && StoreLive(db, hs) && FairOp(db, hs, op) && x < |hs|
    ensures Live(Moved(db, op, x), Recall(db, hs, op)[x])
  {
    var m := MoveFor(db, op, x);
    if m.Some? { MoveKeepsLive(db.graphs[x], hs[x], m.value); }
  }

  // ---- No deadlock --------------------------------------------------------

  ghost predicate AllQuiet(db: Db) {
    Sound(db) && forall x | 0 <= x < |db.graphs| :: Quiet(db.graphs[x])
  }

  ghost predicate RetriesDoomedAt(db: Db, op: Op, x: int)
    requires Sound(db)
  {
    && 0 <= x < |db.graphs| && MoveFor(db, op, x).Some?
    && RetriesDoomed(db.graphs[x], MoveFor(db, op, x).value)
  }

  // The operation puts a failed node back for a retry although a dependency dooms it.
  ghost predicate RetriesDoomedNode(db: Db, op: Op)
    requires Sound(db)
  {
    exists x :: RetriesDoomedAt(db, op, x)
  }

  ghost predicate NoDoomedRetries(db: Db, ops: seq<Op>)
    requires Sound(db)
    decreases |ops|
  {
    ops != [] ==> !RetriesDoomedNode(db, ops[0]) && NoDoomedRetries(Step(db, ops[0]), ops[1..])
  }

  // One operation leaves every graph with nothing to propagate exactly when it does
  // not do that.
  lemma {:induction false} StepKeepsQuiet(db: Db, op: Op)
    requires AllQuiet(db)
    ensures AllQuiet(Step(db, op)) <==> !RetriesDoomedNode(db, op)
  {
    hide Quiet, Moved, CanCreate, Structured;
    var db' := Step(db, op);
    forall x: nat | x < |db.graphs| ensures Quiet(db'.graphs[x]) <==> !RetriesDoomedAt(db, op, x) {
      MovedIsQuietIff(db, op, x);
    }
    if op.CreateGraph? && CanCreate(db, op) {
      NewestGraph(db, op);
      NewGraphIsQuiet(db, op);
    }
    forall x | 0 <= x < |db'.graphs| && x >= |db.graphs| ensures Quiet(db'.graphs[x]) {}
  }

  lemma {:induction false} MovedIsQuietIff(db: Db, op: Op, x: nat)
    requires AllQuiet(db) && x < |db.graphs|
    ensures Quiet(Moved(db, op, x)) <==> !RetriesDoomedAt(db, op, x)
  {
    var m := MoveFor(db, op, x);
    hide Quiet, RetriesDoomed, Next, MoveFor, Structured;
    assert Quiet(db.graphs[x]);
    if m.Some? { MoveKeepsQuiet(db.graphs[x], m.value); }
  }

  lemma NewGraphIsQuiet(db: Db, op: Op)
    requires op.CreateGraph? && CanCreate(db, op)
    ensures Quiet(NewGraph(db, op))
  {
  }

  // After any operations on any of its graphs, no graph of the store is deadlocked,
  // as long as no doomed node is put back for a retry.
  lemma {:induction false} StoreNeverDeadlocks(db: Db, ops: seq<Op>)
    requires AllQuiet(db) && NoDoomedRetries(db, ops)
    ensures AllQuiet(AfterOps(db, ops))
    ensures forall g | g in AfterOps(db, ops).graphs ::
      && (Unfinished(g.nodes) <==> CanProgress(g.nodes))
      && (Unfinished(g.nodes) ==> Active(g))
    decreases |ops|
  {
    if ops == [] {
      hide Quiet, Unfinished, CanProgress;
      forall g | g in db.graphs
        ensures (Unfinished(g.nodes) <==> CanProgress(g.nodes)) && (Unfinished(g.nodes) ==> Active(g))
      {
        var x :| 0 <= x < |db.graphs| && db.graphs[x] == g;
        assert Quiet(db.graphs[x]);
        NoDeadlock(g);
      }
    } else {
      StepKeepsQuiet(db, ops[0]);
      hide AllQuiet, RetriesDoomedNode, Step, Unfinished, CanProgress;
      StoreNeverDeadlocks(Step(db, ops[0]), ops[1..]);
    }
  }

  // Operations that reopen no node of a graph that was cancelled never do that.
  lemma {:induction false} FairOpsRetryNoDoomed(db: Db, hs: seq<History>, ops: seq<Op>)
    requires Sound(db) && StoreLive(db, hs) && FairOps(db, hs, ops)
    ensures NoDoomedRetries(db, ops)
    decreases |ops|
  {
    if ops != [] {
      forall x: nat | x < |db.graphs| ensures !RetriesDoomedAt(db, ops[0], x) {
        assert Live(db.graphs[x], hs[x]);
        hide Live, RetriesDoomed, MoveFor;
        if MoveFor(db, ops[0], x).Some? { LiveNeverRetriesDoomed(db.graphs[x], hs[x], MoveFor(db, ops[0], x).value); }
      }
      hide StoreLive, FairOp, RetriesDoomedAt, Step, Recall;
      StepKeepsStoreLive(db, hs, ops[0]);
      FairOpsRetryNoDoomed(Step(db, ops[0]), Recall(db, hs, ops[0]), ops[1..]);
    }
  }
}
