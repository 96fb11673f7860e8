// What running a node comes to: its outcome, its attempts and its cost
// (src/jev-executor.js, lines 130-319; src/jev-planner.js, lines 178-201;
// src/jev-budget.js, lines 53-122).

module NodeRuns {
  import opened Basics
  import opened Dag
  import opened Nodes
  import opened Scheduler
  import opened Books
  import opened Billing
  import opened BillingOutcomes
  import opened Planner
  import opened PlanKinds
  import opened Requests
  import opened Store
  import opened Fencing
  import opened Activity
  import opened StoreSteps
  import opened StatusRules
  import opened Answers
  import Engine
  import opened Worker

  // The books that hold a node's price for this attempt.
  function Holding(b: Books, agent: string, n: Node, price: int): Books {
    WithHold(b, agent, price, "jev:" + Dec(n.id) + ":attempt:" + Dec(n.attempt))
  }

  lemma HeldIff(b: Books, agent: string, n: Node, price: int, admitted: bool)
    requires agent in b.accounts && price > 0 && n.def.budgetMinor == price
    requires Unused(b, agent, "jev:" + Dec(n.id) + ":attempt:" + Dec(n.attempt))
    ensures Worker.Held(b, agent, n, admitted)
      <==> admitted && Committed(Holding(b, agent, n, price), agent) <= b.accounts[agent].limit
  {
    hide Dec, Open;
    HoldRefusedIff(b, agent, n.id, n.attempt, price);
    ReserveTurnsAway(b, agent, price, AttemptKey(n.id, n.attempt), admitted);
  }

  // Running a node holds exactly the price the request named, and is refused exactly where
  // that does not fit; a finished node spends what was measured, but never more than that
  // price, and the price itself if nothing was measured.
  lemma {:induction false} CostsAsAsked(
    b: Books, agent: string, n: Node, r: Request, admitted: bool, work: Work)
    requires Sane(b) && Covered(b) && agent in b.accounts && n.def.budgetMinor == AtLeast(0, r.budgetMinor)
    requires Unused(b, agent, "jev:" + Dec(n.id) + ":attempt:" + Dec(n.attempt))
    ensures var fits := Committed(Holding(b, agent, n, r.budgetMinor), agent) <= b.accounts[agent].limit;
      HoldNode(b, agent, n.id, n.attempt, n.def.budgetMinor, true).0
      == if r.budgetMinor > 0 && fits then Holding(b, agent, n, r.budgetMinor) else b
    ensures var d := BooksAfter(b, agent, n, admitted, work);
      var fits := Committed(Holding(b, agent, n, r.budgetMinor), agent) <= b.accounts[agent].limit;
      && agent in d.accounts
      && d.accounts[agent].used - b.accounts[agent].used
         == if r.budgetMinor <= 0 || work.Breaks? || !admitted || !fits then 0
            else if work.measured.None? || work.measured.value >= r.budgetMinor then r.budgetMinor
            else work.measured.value
  {
    hide HoldNode, BooksAfter, Worker.Held, Sane, Covered, Dec, Open;
    HoldRefusedIff(b, agent, n.id, n.attempt, n.def.budgetMinor);
    if r.budgetMinor > 0 { HeldIff(b, agent, n, r.budgetMinor, admitted); }
    assert "jev:" + Dec(n.id) + ":attempt:" + Dec(n.attempt) == AttemptKey(n.id, n.attempt);
    RunLeavesNoHold(b, agent, n, admitted, work);
  }

  // ---- From a plan's step ---------------------------------------------------

  // The node of a step: its kind, whether it grows the graph, its class, its time, its
  // price, and as many attempts as the sequential engine would make.
  lemma StepAsPlanned(t: TaskType, steps: seq<PlanStep>, n: nat, x: Node)
    requires n < |steps| && AsAsked(x, Compiled(t, steps)[n])
    ensures var step := steps[n];
      && x.def.key == Trim(Name(steps, n)) && x.def.kind == KindName(step.kind) && x.def.mode.WhenSucceeded?
      && x.def.payload == Payload(step.expandsGraph, None)
      && x.def.resourceClass == (if step.resourceClass == "" then "cpu" else step.resourceClass)
      && x.def.timeoutMs == AtLeast(0, step.timeoutMs) && x.def.budgetMinor == AtLeast(0, step.budgetMinor)
      && x.maxAttempts == Engine.Attempts(step) == 1 + AtLeast(0, step.retries)
  {
    hide DependsOn, Trim, Dec;
  }

  // ---- One run of one node --------------------------------------------------

  // What becomes of the node that was handed out: it fails for good if its price could
  // not be held, succeeds with the output the work finished with, and otherwise is put
  // back or fails as the work says and its attempts allow.
  predicate RanTo(n: Node, held: bool, work: Work, n': Node) {
    && n'.id == n.id && n'.attempt == n.attempt
    && (if !held then n'.status == Failed
        else match work
          case Finishes(result, _) => n'.status == Succeeded && n'.output == result
          case Breaks(retryable) => n'.status == if retryable && n.attempt < n.maxAttempts then Ready else Failed)
  }

  // A worker's run of the next node of its task, in its tenant, undisturbed: the node it is
  // handed, one attempt more, ends as the work did, and no other graph is touched.
  lemma {:induction false} RunsTo(
    db: Db, task: string, tenant: string, worker: string, leaseMs: int, now: int, x: int, n: Node,
    held: bool, work: Work) returns (i: nat)
    requires Healthy(db) && HandsOut(db, ClaimOp(task, tenant, worker, leaseMs, now), x, n)
    ensures In(db, x, i) && n.id == At(db, x, i).id && n.attempt == At(db, x, i).attempt + 1
    ensures task != "" ==> db.graphs[x].task == task
    ensures tenant != "" ==> db.graphs[x].tenant == tenant
    ensures var claimed := Step(db, ClaimOp(task, tenant, worker, leaseMs, now));
      var db' := Step(claimed, ReportOf(n, db.nextId, held, work));
      && In(db', x, i) && RanTo(n, held, work, At(db', x, i)) && |db'.graphs| == |db.graphs|
      && forall y | 0 <= y < |db.graphs| && y != x :: db'.graphs[y] == db.graphs[y]
  {
    hide Step, Told, HandsOut, Healthy, MayRun;
    var claim := ClaimOp(task, tenant, worker, leaseMs, now);
    SoundWhenHealthy(db);
    i := HandedWasFirst(db, claim, x, n);
    assert OnOffer(db, claim, x, i) && RunsUnder(n, db.nextId);
    StepKeepsHealthy(db, claim);
    OthersUnclaimed(db, claim, x, n);
    hide ClaimOp, ReportOf, RanTo, Suits, OnOffer, GoesBefore;
    ReportLands(Step(db, claim), x, i, n, db.nextId, held, work);
  }

  lemma {:induction false} ReportLands(
    db: Db, x: nat, i: nat, n: Node, lease: nat, held: bool, work: Work)
    requires Healthy(db) && In(db, x, i) && At(db, x, i) == n && RunsUnder(n, lease)
    ensures var op := ReportOf(n, lease, held, work);
      && Sound(db) && In(Step(db, op), x, i) && RanTo(n, held, work, At(Step(db, op), x, i))
      && |Step(db, op).graphs| == |db.graphs|
      && forall y | 0 <= y < |db.graphs| && y != x :: Step(db, op).graphs[y] == db.graphs[y]
  {
    hide Step, Told, Healthy, Sound, Becomes, RanTo, AnswerFor, RunsUnder, ReportOf;
    var op := ReportOf(n, lease, held, work);
    SoundWhenHealthy(db);
    ReportIsFor(db.graphs[x], n, lease, held, work);
    NodeOpAnswered(db, op, x, i);
    ReportMakes(n, lease, held, work, At(Step(db, op), x, i));
  }

  lemma ReportIsFor(g: Graph, n: Node, lease: nat, held: bool, work: Work)
    requires RunsUnder(n, lease)
    ensures var op := ReportOf(n, lease, held, work); NodeOp(op) && op.node == n.id && AnswerFor(g, n, op) == Did
  {
  }

  lemma ReportMakes(n: Node, lease: nat, held: bool, work: Work, n': Node)
    requires NodeOp(ReportOf(n, lease, held, work)) && Becomes(n, ReportOf(n, lease, held, work), n')
    ensures RanTo(n, held, work, n')
  {
  }

  lemma SoundWhenHealthy(db: Db)
    requires Healthy(db)
    ensures Sound(db)
  {
  }

  lemma {:induction false} OthersUnclaimed(db: Db, claim: Op, x: int, n: Node)
    requires Sound(db) && claim.ClaimNext? && HandsOut(db, claim, x, n)
    ensures |Step(db, claim).graphs| == |db.graphs|
    ensures forall y | 0 <= y < |db.graphs| && y != x :: Step(db, claim).graphs[y] == db.graphs[y]
  {
    hide Offers, Step;
    ClaimMeaning(db, claim, x);
  }
}
