// A worker against the store: what it is handed, and when its report is accepted
// (executeNextNode, src/jev-executor.js, lines 130-319).

module Worker {
  import opened Basics
  import opened Dag
  import opened GraphShape
  import opened Nodes
  import opened Scheduler
  import opened Invariants
  import opened GraphRuns
  import opened Drain
  import opened Store
  import opened Fencing
  import opened Activity
  import opened StoreSteps
  import opened Books
  import opened Billing
  import opened BillingStore
  import opened JevStore

  predicate Reports(op: Op, node: nat, lease: nat) {
    (op.CompleteNode? || op.FailNode?) && op.node == node && op.lease == lease
  }

  // A lease is carried only by the node it was issued for.
  lemma {:induction false} LeaseStaysPut(db: Db, ops: seq<Op>, lease: nat, x: nat, i: nat)
    requires Sound(db) && lease < db.nextId
    requires In(AfterOps(db, ops), x, i) && At(AfterOps(db, ops), x, i).lease == Some(lease)
    ensures In(db, x, i) && At(db, x, i).lease == Some(lease)
    decreases |ops|
  {
    hide Next, MoveFor, Structured, Serves;
    if ops != [] {
      LeaseStaysPut(Step(db, ops[0]), ops[1..], lease, x, i);
      StepLease(db, ops[0], x, i);
    }
  }

  // However much later, and whatever else happens in between, the report of the
  // worker a lease was issued to is accepted exactly when the lease is still held.
  lemma {:induction false} AcceptedIffStillHeld(db: Db, ops: seq<Op>, lease: nat, x: nat, i: nat, op: Op)
    requires Healthy(db) && In(db, x, i) && At(db, x, i).lease == Some(lease)
    requires Reports(op, At(db, x, i).id, lease)
    ensures Sound(AfterOps(db, ops))
    ensures Told(AfterOps(db, ops), op) == Did <==> Fencing.Holds(AfterOps(db, ops), lease)
  {
    var later := AfterOps(db, ops);
    RunKeepsHealthy(db, ops);
    ToldDidMeansSettled(later, op);
    if y, j :| In(later, y, j) && Holder(At(later, y, j), lease) {
      LeaseStaysPut(db, ops, lease, y, j);
      FencedLease(db, lease, x, i, y, j);
      FoundById(db, x, i);
      FoundAgain(db, ops, x, op.node);
      assert SettlesAt(later, op, lease, x, i);
    }
  }

  // What the work inside a node comes to: an output with what it cost, if that was
  // measured, or a failure.
  datatype Work = Finishes(result: Output, measured: Option<nat>) | Breaks(retryable: bool)

  function ClaimOp(task: string, tenant: string, worker: string, leaseMs: int, now: int): Op {
    Op.ClaimNext(Some(task), Some(tenant), worker, None, leaseMs, now)
  }

  // What is reported of node n once its budget was held or refused.
  function ReportOf(n: Node, lease: nat, held: bool, work: Work): Op {
    if !held then Op.FailNode(n.id, lease, false)
    else match work
      case Finishes(result, _) => Op.CompleteNode(n.id, lease, result)
      case Breaks(retryable) => Op.FailNode(n.id, lease, retryable)
  }

  function BooksAfter(b: Books, agent: string, n: Node, admitted: bool, work: Work): Books {
    var (c, hold) := HoldNode(b, agent, n.id, n.attempt, n.def.budgetMinor, admitted);
    if hold.Err? then c
    else CloseHold(c, hold.value, n.def.budgetMinor, work.Finishes?, if work.Finishes? then work.measured else None)
  }

  function Held(b: Books, agent: string, n: Node, admitted: bool): bool {
    HoldNode(b, agent, n.id, n.attempt, n.def.budgetMinor, admitted).1.Ok?
  }

  lemma {:induction false} ReportIsAccepted(db: Db, claim: Op, x: int, n: Node, op: Op)
    requires Healthy(db) && claim.ClaimNext? && HandsOut(db, claim, x, n)
    requires Reports(op, n.id, db.nextId)
    ensures Healthy(Step(db, claim)) && Told(Step(db, claim), op) == Did
  {
    var db', i := Step(db, claim), NodeToClaim(db.graphs[x], claim);
    StepKeepsHealthy(db, claim);
    ClaimHandsOut(db, claim, x);
    hide Step, Told, Serves, Ids, Fenced, Structured;
    assert At(db', x, i) == n && Holder(n, db.nextId);
    AcceptedIffStillHeld(db', [], db.nextId, x, i, op);
    assert AfterOps(db', []) == db';
  }

  lemma HealthyWhenValid(jev: Jev)
    requires jev.Valid()
    ensures Healthy(jev.db) && Sound(jev.db)
  {
  }

  // On books no direct charge has upset, running a node leaves no new hold open and
  // spends exactly what the finished work is charged, within what was held.
  lemma {:induction false} RunLeavesNoHold(b: Books, agent: string, n: Node, admitted: bool, work: Work)
    requires Sane(b) && Covered(b) && agent in b.accounts
    requires Existing(b.reservations, agent, AttemptKey(n.id, n.attempt)).None?
    ensures var d := BooksAfter(b, agent, n, admitted, work);
      && Covered(d) && agent in d.accounts
      && (forall i | 0 <= i < |d.reservations| && d.reservations[i].hold.Held? ::
            i < |b.reservations| && d.reservations[i] == b.reservations[i])
      && d.accounts[agent].used - b.accounts[agent].used
         == if !Held(b, agent, n, admitted) || work.Breaks? || n.def.budgetMinor <= 0 then 0
            else if work.measured.None? then n.def.budgetMinor
            else Least(work.measured.value, n.def.budgetMinor)
  {
    var (c, hold) := HoldNode(b, agent, n.id, n.attempt, n.def.budgetMinor, admitted);
    HoldIsBacked(b, agent, n.id, n.attempt, n.def.budgetMinor, admitted);
    if hold.Ok? && hold.value.HeldAs? {
      PostKeepsSane(b, ToReserve(agent, n.def.budgetMinor, AttemptKey(n.id, n.attempt), admitted));
      NewHold(b, agent, n.id, n.attempt, n.def.budgetMinor, admitted);
      hide HoldNode, CloseHold;
      CloseHoldEffect(c, hold.value.reservation, n.def.budgetMinor, work.Finishes?,
                      if work.Finishes? then work.measured else None);
    }
  }

  lemma HandedUnder(db: Db, claim: Op, x: int, n: Node)
    requires Sound(db) && claim.ClaimNext? && HandsOut(db, claim, x, n)
    ensures 0 <= x < |db.graphs| && n.lease == Some(db.nextId) && n.status.Running? && n.attempt > 0
    ensures n.leaseExpires == Some(claim.now + Max(1000, claim.leaseMs))
    ensures db.graphs[x].nodes[NodeToClaim(db.graphs[x], claim)].deadline.None? ==>
      n.deadline == if n.def.timeoutMs > 0 then Some(claim.now + n.def.timeoutMs) else None
  {
    hide Offers, Sound;
  }

  lemma HandedLease(db: Db, claim: Op, x: int, n: Node)
    requires Sound(db) && claim.ClaimNext? && HandsOut(db, claim, x, n)
    ensures n.lease == Some(db.nextId)
  {
  }

  // How long a claim lasts: a sweep takes the node back exactly when its lease, of a
  // second at least, has run out, or its deadline has come. The first claim sets the
  // deadline.
  lemma {:induction false} SweepTakesWhenDue(db: Db, claim: Op, x: int, n: Node, t: int)
    requires Healthy(db) && claim.ClaimNext? && HandsOut(db, claim, x, n)
    ensures var due := claim.now + Max(1000, claim.leaseMs);
      SettlesLease(Step(db, claim), Op.SweepStalled(t, None), db.nextId)
      <==> t >= due || (n.deadline.Some? && t >= n.deadline.value)
    ensures db.graphs[x].nodes[NodeToClaim(db.graphs[x], claim)].deadline.None? ==>
      n.deadline == if n.def.timeoutMs > 0 then Some(claim.now + n.def.timeoutMs) else None
  {
    var db', i := Step(db, claim), NodeToClaim(db.graphs[x], claim);
    HandedUnder(db, claim, x, n);
    StepKeepsHealthy(db, claim);
    ClaimHandsOut(db, claim, x);
    assert At(db', x, i) == n;
    hide HandsOut, Step, Serves, Ids, Structured, SettlesLease, Fenced, Next;
    SweepTakesStalled(db', x, i, db.nextId, t);
  }

  lemma {:induction false} SweepTakesStalled(db: Db, x: int, i: int, lease: nat, t: int)
    requires Fenced(db) && In(db, x, i) && Holder(At(db, x, i), lease)
    ensures SettlesLease(db, Op.SweepStalled(t, None), lease) <==> Stalled(At(db, x, i), t)
  {
    var op := Op.SweepStalled(t, None);
    assert SettlesAt(db, op, lease, x, i) <==> Stalled(At(db, x, i), t);
    if y, j :| SettlesAt(db, op, lease, y, j) { FencedLease(db, lease, x, i, y, j); }
  }

  // An accepted renewal moves the end of the lease, and nothing else, to the same
  // distance from its own time.
  lemma {:induction false} RenewalExtends(db: Db, op: Op, x: nat, i: nat, t: int)
    requires Healthy(db) && op.RenewLease? && Told(db, op) == Did
    requires x < |db.graphs| && NodeIn(db.graphs[x].nodes, op.node) == Some(i)
    ensures In(Step(db, op), x, i) && Holder(At(Step(db, op), x, i), op.lease)
    ensures At(Step(db, op), x, i) == At(db, x, i).(leaseExpires := Some(op.now + Max(1000, op.leaseMs)))
    ensures SettlesLease(Step(db, op), Op.SweepStalled(t, None), op.lease)
      <==> t >= op.now + Max(1000, op.leaseMs) || PastDeadline(At(db, x, i), t)
  {
    hide Step, Told, Ids, Structured, SettlesLease, Fenced, Next, Enabled;
    StepKeepsHealthy(db, op);
    NodeOpEffect(db, op, x, i);
    NodeOpTold(db, op, x, i);
    RenewalWrites(db.graphs[x], NodeMove(db.graphs[x], op).value);
    SweepTakesStalled(Step(db, op), x, i, op.lease, t);
  }

  lemma {:induction false} RenewalWrites(g: Graph, m: Move)
    requires Structured(g.nodes) && m.Renew? && Enabled(g, m)
    ensures Next(g, m).nodes == g.nodes[m.i := RenewedNode(g.nodes[m.i], m.leaseMs, m.now)]
  {
  }

  // Claim, hold, work, settle, report. With nobody in between, the report is accepted.
  method ExecuteNextNode(
    jev: Jev, billing: BillingTables, agent: string, task: string, tenant: string, worker: string,
    leaseMs: int, now: int, admitted: bool, work: Work)
      returns (handed: Option<Node>, reply: Reply)
    requires jev.Valid()
    modifies jev, jev.Footprint(), billing
    ensures jev.Valid()
    ensures handed.None? ==>
      && jev.db == Step(old(jev.db), ClaimOp(task, tenant, worker, leaseMs, now))
      && billing.Value() == old(billing.Value())
      && reply == Told(old(jev.db), ClaimOp(task, tenant, worker, leaseMs, now)) != Did
    ensures handed.Some? ==>
      var n, lease := handed.value, old(jev.db).nextId;
      var held := Held(old(billing.Value()), agent, n, admitted);
      && (exists x :: HandsOut(old(jev.db), ClaimOp(task, tenant, worker, leaseMs, now), x, n))
      && jev.db == Step(Step(old(jev.db), ClaimOp(task, tenant, worker, leaseMs, now)), ReportOf(n, lease, held, work))
      && billing.Value() == BooksAfter(old(billing.Value()), agent, n, admitted, work)
      && reply == Did
  {
    hide Step, Told, HandsOut, HoldNode, CloseHold, Healthy;
    ghost var db, claim := jev.db, ClaimOp(task, tenant, worker, leaseMs, now);
    HealthyWhenValid(jev);
    reply, handed := jev.ClaimNextNode(Some(task), Some(tenant), worker, None, leaseMs, now);
    if handed.None? { return; }
    var n := handed.value;
    ghost var x :| HandsOut(db, claim, x, n);
    var hold := billing.ReserveNodeBudget(agent, n.id, n.attempt, n.def.budgetMinor, admitted);
    HandedLease(db, claim, x, n);
    var lease := n.lease.value;
    ReportIsAccepted(db, claim, x, n, ReportOf(n, lease, hold.Ok?, work));
    if hold.Err? {
      reply := jev.FailNode(n.id, lease, false);
      return;
    }
    match work {
      case Finishes(result, measured) =>
        billing.CloseNodeHold(hold.value, n.def.budgetMinor, true, measured);
        reply := jev.CompleteNode(n.id, lease, result);
      case Breaks(retryable) =>
        billing.CloseNodeHold(hold.value, n.def.budgetMinor, false, None);
        reply := jev.FailNode(n.id, lease, retryable);
    }
  }
}
