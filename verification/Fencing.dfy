// Lease fencing over whole runs of the store, with no assumption about clocks or
// fairness: every lease is settled at most once, and a lease that was voided is
// never honoured again.

module Fencing {
  import opened Basics
  import opened Dag
  import opened Nodes
  import opened Readiness
  import opened Scheduler
  import opened Invariants
  import opened GraphRuns
  import opened Drain
  import opened Store

  // ---- One move -----------------------------------------------------------

  // Where the lease on node i, and its being run, can come from.
  ghost predicate LeaseComesFrom(g: Graph, m: Move, i: int, n': Node) {
    && (|| n'.lease.None?
        || (0 <= i < |g.nodes| && n'.lease == g.nodes[i].lease)
        || (m.Claim? && i == m.i && n'.lease == Some(m.lease)))
    && (n'.status.Running? ==>
        || (0 <= i < |g.nodes| && g.nodes[i].status.Running? && n'.lease == g.nodes[i].lease)
        || (m.Claim? && i == m.i && n'.lease == Some(m.lease)))
  }

  // The only lease a move can issue is the one its claim carries.
  lemma {:induction false} MoveLease(g: Graph, m: Move, i: nat)
    requires Structured(g.nodes) && Enabled(g, m) && i < |Next(g, m).nodes|
    ensures LeaseComesFrom(g, m, i, Next(g, m).nodes[i])
  {
    NextLength(g, m);
    NextFollows(g, m, i);
    WrittenLease(g, m, i);
  }

  lemma WrittenLease(g: Graph, m: Move, i: nat)
    requires Enabled(g, m) && i < |Written(g, m)|
    ensures LeaseComesFrom(g, m, i, Written(g, m)[i])
  {
  }

  // The moves that take a running node from its holder.
  predicate Ends(n: Node, m: Move, i: int) {
    match m
    case Complete(j, _) => i == j
    case Fail(j, _) => i == j
    case Sweep(now) => Stalled(n, now)
    case Cancel => true
    case _ => false
  }

  // What becomes of a running node n.
  ghost predicate HolderAfter(n: Node, m: Move, i: int, n': Node) {
    if Ends(n, m, i) then
      && (Terminal(n'.status) || n'.status.Ready?)
      && (if m.Complete? then n'.status.Succeeded? && n'.lease == n.lease && n'.output == m.output
          else n'.lease.None?)
    else n'.status.Running? && n'.lease == n.lease
  }

  lemma {:induction false} MoveHolder(g: Graph, m: Move, i: nat)
    requires Structured(g.nodes) && Enabled(g, m) && i < |g.nodes| && g.nodes[i].status.Running?
    ensures i < |Next(g, m).nodes|
    ensures HolderAfter(g.nodes[i], m, i, Next(g, m).nodes[i])
  {
    NextLength(g, m);
    NextFollows(g, m, i);
    WrittenHolder(g, m, i);
  }

  lemma WrittenHolder(g: Graph, m: Move, i: nat)
    requires Enabled(g, m) && i < |g.nodes| && g.nodes[i].status.Running?
    ensures i < |Written(g, m)| && HolderAfter(g.nodes[i], m, i, Written(g, m)[i])
  {
  }

  // ---- Leases across the store --------------------------------------------

  predicate In(db: Db, x: int, i: int) {
    0 <= x < |db.graphs| && 0 <= i < |db.graphs[x].nodes|
  }

  function At(db: Db, x: int, i: int): Node
    requires In(db, x, i)
  {
    db.graphs[x].nodes[i]
  }

  ghost predicate Carries(db: Db, lease: nat) {
    exists x, i :: In(db, x, i) && At(db, x, i).lease == Some(lease)
  }

  ghost predicate Holds(db: Db, lease: nat) {
    exists x, i :: In(db, x, i) && Holder(At(db, x, i), lease)
  }

  // Issued leases are behind the counter and no two nodes carry the same one.
  ghost predicate Fenced(db: Db) {
    && (forall x, i | In(db, x, i) && At(db, x, i).lease.Some? :: At(db, x, i).lease.value < db.nextId)
    && (forall x, i, y, j | In(db, x, i) && In(db, y, j) && At(db, x, i).lease.Some?
                            && At(db, x, i).lease == At(db, y, j).lease :: x == y && i == j)
  }

  ghost predicate StepLeaseFrom(db: Db, op: Op, x: int, i: int, n': Node)
    requires Sound(db)
  {
    && (|| n'.lease.None?
        || (In(db, x, i) && n'.lease == At(db, x, i).lease)
        || ClaimedHere(db, op, x, i, n'))
    && (n'.status.Running? ==>
        || (In(db, x, i) && At(db, x, i).status.Running? && n'.lease == At(db, x, i).lease)
        || ClaimedHere(db, op, x, i, n'))
  }

  ghost predicate ClaimedHere(db: Db, op: Op, x: int, i: int, n': Node)
    requires Sound(db)
  {
    op.ClaimNext? && Serves(db, op, x) && i == NodeToClaim(db.graphs[x], op) && n'.lease == Some(db.nextId)
  }

  lemma {:induction false} StepLease(db: Db, op: Op, x: nat, i: nat)
    requires Sound(db) && In(Step(db, op), x, i)
    ensures StepLeaseFrom(db, op, x, i, At(Step(db, op), x, i))
  {
    if x < |db.graphs| {
      var m := MoveFor(db, op, x);
      if m.Some? {
        MoveLease(db.graphs[x], m.value, i);
        MoveKind(db, op, x);
        LeaseLifts(db, op, x, i, m.value, At(Step(db, op), x, i));
      }
    } else {
      NewestGraph(db, op);
      NewGraphUnleased(db, op, i);
    }
  }

  lemma LeaseLifts(db: Db, op: Op, x: int, i: int, m: Move, n': Node)
    requires Sound(db) && 0 <= x < |db.graphs| && LeaseComesFrom(db.graphs[x], m, i, n')
    requires m.Claim? ==>
      op.ClaimNext? && Serves(db, op, x) && m.i == NodeToClaim(db.graphs[x], op) && m.lease == db.nextId
    ensures StepLeaseFrom(db, op, x, i, n')
  {
  }

  lemma {:induction false} NewGraphUnleased(db: Db, op: Op, i: nat)
    requires op.CreateGraph? && CanCreate(db, op) && i < |NewGraph(db, op).nodes|
    ensures NewGraph(db, op).nodes[i].lease.None? && !NewGraph(db, op).nodes[i].status.Running?
  {
    UnionStructured([], op.requests, db.nextId + 1);
    SettledLeaves(Union([], op.requests, db.nextId + 1), i);
  }

  lemma ServesOne(db: Db, op: Op, x: int, y: int)
    requires op.ClaimNext? && Serves(db, op, x) && Serves(db, op, y)
    ensures x == y
  {
  }

  lemma {:induction false} ClaimedBehindCounter(db: Db, op: Op, x: int, i: int, n': Node)
    requires Sound(db) && ClaimedHere(db, op, x, i, n')
    ensures Step(db, op).nextId == db.nextId + 1
  {
    assert MoveFor(db, op, x).Some?;
  }

  lemma {:induction false} StepKeepsFenced(db: Db, op: Op)
    requires Sound(db) && Fenced(db)
    ensures Fenced(Step(db, op))
  {
    var db' := Step(db, op);
    forall x: nat, i: nat | In(db', x, i) && At(db', x, i).lease.Some? ensures At(db', x, i).lease.value < db'.nextId {
      StepLease(db, op, x, i);
      if ClaimedHere(db, op, x, i, At(db', x, i)) { ClaimedBehindCounter(db, op, x, i, At(db', x, i)); }
    }
    forall x: nat, i: nat, y: nat, j: nat | In(db', x, i) && In(db', y, j) && At(db', x, i).lease.Some?
                                        && At(db', x, i).lease == At(db', y, j).lease
      ensures x == y && i == j
    {
      StepLease(db, op, x, i);
      StepLease(db, op, y, j);
      StillDistinct(db, op, x, i, y, j, At(db', x, i), At(db', y, j));
    }
  }

  lemma StillDistinct(db: Db, op: Op, x: int, i: int, y: int, j: int, n: Node, m: Node)
    requires Sound(db) && Fenced(db) && n.lease.Some? && n.lease == m.lease
    requires StepLeaseFrom(db, op, x, i, n) && StepLeaseFrom(db, op, y, j, m)
    ensures x == y && i == j
  {
    if op.ClaimNext? && Serves(db, op, x) && Serves(db, op, y) { ServesOne(db, op, x, y); }
  }

  lemma FencedLease(db: Db, lease: nat, x: int, i: int, y: int, j: int)
    requires Fenced(db) && In(db, x, i) && In(db, y, j)
    requires At(db, x, i).lease == At(db, y, j).lease == Some(lease)
    ensures x == y && i == j
  {
  }

  // ---- Settling a lease ---------------------------------------------------

  // The four ways the store accepts an outcome for the work done under a lease.
  ghost predicate SettlesAt(db: Db, op: Op, lease: nat, x: int, i: int) {
    && In(db, x, i) && Holder(At(db, x, i), lease)
    && match op
       case CompleteNode(id, l, _) => l == lease && NodeIn(db.graphs[x].nodes, id) == Some(i)
       case FailNode(id, l, _) => l == lease && NodeIn(db.graphs[x].nodes, id) == Some(i)
       case SweepStalled(now, tenant) => Matches(tenant, db.graphs[x].tenant) && Stalled(At(db, x, i), now)
       case CancelGraph(id) => db.graphs[x].id == id
       case _ => false
  }

  ghost predicate SettlesLease(db: Db, op: Op, lease: nat) {
    exists x, i :: SettlesAt(db, op, lease, x, i)
  }

  lemma SettlesMeansEnds(db: Db, op: Op, lease: nat, x: int, i: int)
    requires Sound(db) && In(db, x, i) && Holder(At(db, x, i), lease)
    ensures SettlesAt(db, op, lease, x, i)
      <==> MoveFor(db, op, x).Some? && Ends(At(db, x, i), MoveFor(db, op, x).value, i)
  {
    hide Serves, Expandable, Structured;
    if op.CompleteNode? || op.FailNode? || op.RenewLease? || op.ReopenNode? {
      NodeMoveEnds(db, op, lease, x, i);
    }
  }

  lemma NodeMoveEnds(db: Db, op: Op, lease: nat, x: int, i: int)
    requires op.CompleteNode? || op.FailNode? || op.RenewLease? || op.ReopenNode?
    requires In(db, x, i) && Holder(At(db, x, i), lease)
    ensures var m := NodeMove(db.graphs[x], op);
      SettlesAt(db, op, lease, x, i) <==> m.Some? && Ends(At(db, x, i), m.value, i)
  {
  }

  lemma {:induction false} HeldAfter(db: Db, op: Op, lease: nat, x: int, i: int)
    requires Sound(db) && In(db, x, i) && Holder(At(db, x, i), lease)
    ensures In(Step(db, op), x, i)
    ensures SettlesAt(db, op, lease, x, i) <==> !Holder(At(Step(db, op), x, i), lease)
    ensures SettlesAt(db, op, lease, x, i) ==> var n' := At(Step(db, op), x, i);
      if op.CompleteNode? then n'.status.Succeeded? && n'.lease == Some(lease) && n'.output == op.output
      else n'.lease.None?
  {
    hide Structured, Step, SettlesAt, NodeIn, Enabled;
    SettlesMeansEnds(db, op, lease, x, i);
    if MoveFor(db, op, x).Some? { MoveHolder(db.graphs[x], MoveFor(db, op, x).value, i); }
  }

  // An operation settles a lease exactly when the lease was held before and is not
  // held after.
  lemma {:induction false} SettledIffLost(db: Db, op: Op, lease: nat)
    requires Sound(db) && Fenced(db)
    ensures SettlesLease(db, op, lease) <==> Holds(db, lease) && !Holds(Step(db, op), lease)
  {
    hide Structured;
    var db' := Step(db, op);
    if x, i :| SettlesAt(db, op, lease, x, i) {
      HeldAfter(db, op, lease, x, i);
      forall y: nat, j: nat | In(db', y, j) ensures !Holder(At(db', y, j), lease) {
        StepLease(db, op, y, j);
        if In(db, y, j) && At(db, y, j).lease == Some(lease) { FencedLease(db, lease, x, i, y, j); }
      }
    }
    if x, i :| In(db, x, i) && Holder(At(db, x, i), lease) {
      HeldAfter(db, op, lease, x, i);
    }
  }

  // A lease that is no longer held is never held again.
  lemma {:induction false} LostStaysLost(db: Db, op: Op, lease: nat)
    requires Sound(db) && lease < db.nextId && !Holds(db, lease)
    ensures !Holds(Step(db, op), lease) && lease < Step(db, op).nextId
  {
    var db' := Step(db, op);
    forall x: nat, i: nat | In(db', x, i) ensures !Holder(At(db', x, i), lease) { StepLease(db, op, x, i); }
  }

  ghost function Settlements(db: Db, ops: seq<Op>, lease: nat): nat
    requires Sound(db)
    decreases |ops|
  {
    if ops == [] then 0
    else (if SettlesLease(db, ops[0], lease) then 1 else 0) + Settlements(Step(db, ops[0]), ops[1..], lease)
  }

  lemma {:induction false} NoSettlementWithoutHolder(db: Db, ops: seq<Op>, lease: nat)
    requires Sound(db) && lease < db.nextId && !Holds(db, lease)
    ensures Settlements(db, ops, lease) == 0
    decreases |ops|
  {
    if ops != [] {
      LostStaysLost(db, ops[0], lease);
      NoSettlementWithoutHolder(Step(db, ops[0]), ops[1..], lease);
    }
  }

  lemma {:induction false} HeldIsIssued(db: Db, lease: nat)
    requires Fenced(db) && Holds(db, lease)
    ensures lease < db.nextId
  {
  }

  // Over any run at all, each lease has at most one accepted outcome among
  // completion, failure, sweep and cancellation.
  lemma {:induction false} AtMostOneOutcome(db: Db, ops: seq<Op>, lease: nat)
    requires Sound(db) && Fenced(db)
    ensures Settlements(db, ops, lease) <= 1
    ensures Fenced(AfterOps(db, ops))
    decreases |ops|
  {
    if ops != [] {
      StepKeepsFenced(db, ops[0]);
      SettledIffLost(db, ops[0], lease);
      AtMostOneOutcome(Step(db, ops[0]), ops[1..], lease);
      if SettlesLease(db, ops[0], lease) {
        HeldIsIssued(db, lease);
        NoSettlementWithoutHolder(Step(db, ops[0]), ops[1..], lease);
      }
    }
  }

  // ---- What the callers are told ------------------------------------------

  // An accepted completion or failure is exactly one that settles the lease it
  // presents.
  lemma {:induction false} ToldDidMeansSettled(db: Db, op: Op)
    requires Sound(db) && Fenced(db) && (op.CompleteNode? || op.FailNode?)
    ensures Told(db, op) == Did <==> SettlesLease(db, op, op.lease)
  {
    MovesMeansSettles(db, op);
    if x, i :| SettlesAt(db, op, op.lease, x, i) {
      assert KnownNode(db, op.node);
      NotCompletedYet(db, op.node, op.lease, x, i);
    }
  }

  lemma {:induction false} MovesMeansSettles(db: Db, op: Op)
    requires Sound(db) && (op.CompleteNode? || op.FailNode?)
    ensures SomeMove(db, op) <==> SettlesLease(db, op, op.lease)
    ensures SomeMove(db, op) ==> KnownNode(db, op.node)
  {
    hide Next, Structured;
    if x, i :| SettlesAt(db, op, op.lease, x, i) { assert MoveFor(db, op, x).Some?; }
    if x :| 0 <= x < |db.graphs| && MoveFor(db, op, x).Some? {
      assert SettlesAt(db, op, op.lease, x, NodeIn(db.graphs[x].nodes, op.node).value);
    }
  }

  lemma {:induction false} NotCompletedYet(db: Db, id: nat, lease: nat, x: int, i: int)
    requires Fenced(db) && In(db, x, i) && Holder(At(db, x, i), lease)
    ensures !AlreadyCompleted(db, id, lease)
  {
    forall y | 0 <= y < |db.graphs| && NodeIn(db.graphs[y].nodes, id).Some?
      ensures var n := db.graphs[y].nodes[NodeIn(db.graphs[y].nodes, id).value];
        !(n.status.Succeeded? && n.lease == Some(lease))
    {
      var j := NodeIn(db.graphs[y].nodes, id).value;
      if At(db, y, j).lease == Some(lease) { FencedLease(db, lease, x, i, y, j); }
    }
  }

  // Anything but an acceptance changes nothing at all.
  lemma {:induction false} UnacceptedChangesNothing(db: Db, op: Op)
    requires Sound(db) && Fenced(db) && (op.CompleteNode? || op.FailNode? || op.RenewLease? || op.ReopenNode?)
    requires Told(db, op) != Did
    ensures Step(db, op) == db
  {
    if op.CompleteNode? || op.FailNode? {
      ToldDidMeansSettled(db, op);
      MovesMeansSettles(db, op);
    } else {
      MovesAreTold(db, op);
    }
    NoMovesNoChange(db, op);
  }

  lemma {:induction false} MovesAreTold(db: Db, op: Op)
    requires Sound(db) && (op.RenewLease? || op.ReopenNode?) && Told(db, op) != Did
    ensures !SomeMove(db, op)
  {
    forall x | 0 <= x < |db.graphs| ensures MoveFor(db, op, x).None? {
      if MoveFor(db, op, x).Some? {
        MovedNodeIsKnown(db, op, x);
        assert SomeMove(db, op);
      }
    }
  }

  lemma MovedNodeIsKnown(db: Db, op: Op, x: nat)
    requires Sound(db) && (op.RenewLease? || op.ReopenNode?) && x < |db.graphs| && MoveFor(db, op, x).Some?
    ensures KnownNode(db, op.node)
  {
  }

  lemma {:induction false} NoMovesNoChange(db: Db, op: Op)
    requires Sound(db) && !op.CreateGraph? && !SomeMove(db, op)
    ensures Step(db, op) == db
  {
    assert Step(db, op).graphs == db.graphs;
  }

  ghost predicate Voided(db: Db, lease: nat) {
    lease < db.nextId && !Carries(db, lease)
  }

  // Failing, sweeping and cancelling void the lease.
  lemma {:induction false} SettledOtherwiseIsVoid(db: Db, op: Op, lease: nat)
    requires Sound(db) && Fenced(db) && SettlesLease(db, op, lease) && !op.CompleteNode?
    ensures Voided(Step(db, op), lease)
  {
    var db' := Step(db, op);
    hide Next, Structured, MoveFor;
    var x, i :| SettlesAt(db, op, lease, x, i);
    HeldIsIssued(db, lease);
    HeldAfter(db, op, lease, x, i);
    forall y: nat, j: nat | In(db', y, j) ensures At(db', y, j).lease != Some(lease) {
      StepLease(db, op, y, j);
      if In(db, y, j) && At(db, y, j).lease == Some(lease) { FencedLease(db, lease, x, i, y, j); }
    }
  }

  predicate Presents(op: Op, lease: nat) {
    (op.RenewLease? || op.CompleteNode? || op.FailNode?) && op.lease == lease
  }

  // However long the run, whoever presents a voided lease is turned away.
  lemma {:induction false} VoidedNeverHonoured(db: Db, ops: seq<Op>, lease: nat, op: Op)
    requires Sound(db) && Voided(db, lease) && Presents(op, lease)
    ensures Told(AfterOps(db, ops), op) == Declined || Told(AfterOps(db, ops), op) == Threw
    decreases |ops|
  {
    hide Step, Sound, Told, Presents;
    if ops == [] {
      NotCarriedTurnedAway(db, lease, op);
    } else {
      hide Voided;
      StepKeepsVoided(db, ops[0], lease);
      VoidedNeverHonoured(Step(db, ops[0]), ops[1..], lease, op);
    }
  }

  lemma {:induction false} StepKeepsVoided(db: Db, op: Op, lease: nat)
    requires Sound(db) && Voided(db, lease)
    ensures Voided(Step(db, op), lease)
  {
    var db' := Step(db, op);
    forall x: nat, i: nat | In(db', x, i) ensures At(db', x, i).lease != Some(lease) {
      StepLease(db, op, x, i);
      assert In(db, x, i) ==> At(db, x, i).lease != Some(lease);
    }
  }

  lemma {:induction false} NotCarriedTurnedAway(db: Db, lease: nat, op: Op)
    requires Sound(db) && !Carries(db, lease) && Presents(op, lease)
    ensures Told(db, op) == Declined || Told(db, op) == Threw
  {
    forall x, i | In(db, x, i) ensures At(db, x, i).lease != Some(lease) {}
    forall x | 0 <= x < |db.graphs| && NodeIn(db.graphs[x].nodes, op.node).Some?
      ensures var n := db.graphs[x].nodes[NodeIn(db.graphs[x].nodes, op.node).value]; n.lease != Some(lease)
    {
      assert In(db, x, NodeIn(db.graphs[x].nodes, op.node).value);
    }
    forall x | 0 <= x < |db.graphs| ensures MoveFor(db, op, x).None? {}
  }

  // A node that succeeded keeps its status, its output and its lease for good, so
  // the worker that completed it is told so again however often it asks.
  lemma {:induction false} SuccessIsForGood(db: Db, ops: seq<Op>, x: nat, i: nat)
    requires Sound(db) && In(db, x, i) && At(db, x, i).status.Succeeded?
    ensures In(AfterOps(db, ops), x, i) && At(AfterOps(db, ops), x, i) == At(db, x, i)
    decreases |ops|
  {
    if ops != [] {
      var m := MoveFor(db, ops[0], x);
      if m.Some? { SuccessIsFinal(db.graphs[x], m.value, i); }
      SuccessIsForGood(Step(db, ops[0]), ops[1..], x, i);
    }
  }

  // A cancelled node stays as it is, whatever is done to the store: no sweep ever takes
  // it, so what is still reserved for it is not given back by one.
  lemma {:induction false} CancelledIsForGood(db: Db, ops: seq<Op>, x: nat, i: nat)
    requires Sound(db) && In(db, x, i) && At(db, x, i).status.Cancelled?
    ensures In(AfterOps(db, ops), x, i) && At(AfterOps(db, ops), x, i) == At(db, x, i)
    ensures forall now :: !Stalled(At(AfterOps(db, ops), x, i), now)
    decreases |ops|
  {
    if ops != [] {
      var m := MoveFor(db, ops[0], x);
      if m.Some? { CancellationIsFinal(db.graphs[x], m.value, i); }
      CancelledIsForGood(Step(db, ops[0]), ops[1..], x, i);
    }
  }

  lemma {:induction false} CompletedAgainIsRepeated(db: Db, ops: seq<Op>, op: Op, again: Output)
    requires Sound(db) && Fenced(db) && op.CompleteNode? && Told(db, op) == Did
    ensures Told(AfterOps(Step(db, op), ops), op.(output := again)) == Repeated
  {
    ToldDidMeansSettled(db, op);
    var x, i :| SettlesAt(db, op, op.lease, x, i);
    HeldAfter(db, op, op.lease, x, i);
    SuccessIsForGood(Step(db, op), ops, x, i);
    FoundAfterStep(db, op, x, op.node);
    FoundAgain(Step(db, op), ops, x, op.node);
    CompletedHereIsRepeated(AfterOps(Step(db, op), ops), op.(output := again), x, i);
  }

  lemma CompletedHereIsRepeated(db: Db, op: Op, x: int, i: int)
    requires Sound(db) && op.CompleteNode? && In(db, x, i) && NodeIn(db.graphs[x].nodes, op.node) == Some(i)
    requires At(db, x, i).status.Succeeded? && At(db, x, i).lease == Some(op.lease)
    ensures Told(db, op) == Repeated
  {
    assert AlreadyCompleted(db, op.node, op.lease);
    assert KnownNode(db, op.node);
  }

  // A node stays where it is, under the id it was given.
  lemma {:induction false} FoundAgain(db: Db, ops: seq<Op>, x: nat, id: nat)
    requires Sound(db) && x < |db.graphs| && NodeIn(db.graphs[x].nodes, id).Some?
    ensures x < |AfterOps(db, ops).graphs|
    ensures NodeIn(AfterOps(db, ops).graphs[x].nodes, id) == NodeIn(db.graphs[x].nodes, id)
    decreases |ops|
  {
    if ops != [] {
      FoundAfterStep(db, ops[0], x, id);
      FoundAgain(Step(db, ops[0]), ops[1..], x, id);
    }
  }

  lemma {:induction false} FoundAfterStep(db: Db, op: Op, x: nat, id: nat)
    requires Sound(db) && x < |db.graphs| && NodeIn(db.graphs[x].nodes, id).Some?
    ensures NodeIn(Step(db, op).graphs[x].nodes, id) == NodeIn(db.graphs[x].nodes, id)
  {
    var m := MoveFor(db, op, x);
    if m.Some? {
      forall i: nat | i < |db.graphs[x].nodes|
        ensures |db.graphs[x].nodes| <= |Next(db.graphs[x], m.value).nodes|
        ensures Next(db.graphs[x], m.value).nodes[i].id == db.graphs[x].nodes[i].id
      {
        MoveKeepsId(db.graphs[x], m.value, i);
      }
      SameIdsSameIndex(db.graphs[x].nodes, Next(db.graphs[x], m.value).nodes, id);
    }
  }

  lemma {:induction false} MoveKeepsId(g: Graph, m: Move, i: nat)
    requires Structured(g.nodes) && Enabled(g, m) && i < |g.nodes|
    ensures |g.nodes| <= |Next(g, m).nodes| && Next(g, m).nodes[i].id == g.nodes[i].id
  {
    NextFollows(g, m, i);
    WrittenId(g, m, i);
  }

  lemma WrittenId(g: Graph, m: Move, i: nat)
    requires Enabled(g, m) && i < |g.nodes|
    ensures Written(g, m)[i].id == g.nodes[i].id
  {
  }

  lemma {:induction false} SameIdsSameIndex(ns: seq<Node>, ms: seq<Node>, id: nat)
    requires |ns| <= |ms| && (forall i | 0 <= i < |ns| :: ms[i].id == ns[i].id) && NodeIn(ns, id).Some?
    ensures NodeIn(ms, id) == NodeIn(ns, id)
  {
    if ns[0].id != id {
      SameIdsSameIndex(ns[1..], ms[1..], id);
    }
  }
}
