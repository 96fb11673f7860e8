// What each operation does and tells its caller, from the caller's side: in terms of
// what it asked for and of the stored records alone (src/jev.js, lines 101-739).

module Answers {
  import opened Basics
  import opened Dag
  import opened Nodes
  import opened Readiness
  import opened Scheduler
  import opened Invariants
  import opened GraphRuns
  import opened Deadlock
  import opened Drain
  import opened Store
  import opened Fencing
  import opened Activity
  import opened StoreSteps
  import opened StoreRows
  import opened StatusRules
  import opened Requests

  // ---- Claiming -----------------------------------------------------------

  // Asking for nothing in particular, or for exactly this.
  predicate Suits(asked: Option<string>, actual: string) {
    asked.Some? && asked.value != "" ==> actual == asked.value
  }

  predicate InScope(g: Graph, op: Op)
    requires op.ClaimNext?
  {
    && (g.status == GraphPending || g.status == GraphRunning)
    && Suits(op.forTask, g.task) && Suits(op.forTenant, g.tenant)
  }

  // A node the caller may be given.
  ghost predicate OnOffer(db: Db, op: Op, x: int, i: int)
    requires op.ClaimNext?
  {
    && In(db, x, i) && InScope(db.graphs[x], op) && MayRun(db.graphs[x].nodes, i)
    && Suits(op.filter, if At(db, x, i).def.resourceClass == "" then "cpu" else At(db, x, i).def.resourceClass)
  }

  // The node at (x, i) goes before the one at (y, j): the older graph first, then the
  // graph stored earlier; within a graph by position, then by key.
  predicate GoesBefore(db: Db, x: int, i: int, y: int, j: int) {
    && In(db, x, i) && In(db, y, j)
    && (if x == y then
          || At(db, x, i).def.order < At(db, y, j).def.order
          || (At(db, x, i).def.order == At(db, y, j).def.order && TextLess(At(db, x, i).def.key, At(db, y, j).def.key))
        else
          || db.graphs[x].createdAt < db.graphs[y].createdAt
          || (db.graphs[x].createdAt == db.graphs[y].createdAt && x < y))
  }

  // The deadline a claim at `now` leaves: none for a node without a time limit, else the
  // one it has, or the limit counted from this claim.
  function DeadlineFrom(n: Node, now: int): Option<int> {
    if n.def.timeoutMs == 0 then None
    else if n.deadline.Some? then n.deadline
    else Some(now + n.def.timeoutMs)
  }

  lemma InScopeIs(g: Graph, op: Op)
    requires op.ClaimNext?
    ensures InScope(g, op) <==> Active(g) && Matches(op.forTask, g.task) && Matches(op.forTenant, g.tenant)
  {
  }

  lemma OnOfferIs(db: Db, op: Op, x: int, i: int)
    requires op.ClaimNext? && 0 <= x < |db.graphs|
    ensures OnOffer(db, op, x, i)
      <==> InScope(db.graphs[x], op) && Claimable(db.graphs[x].nodes, i) && ClassFits(db.graphs[x].nodes[i], op.filter)
  {
    hide InScope;
    MayRunIsClaimable(db.graphs[x].nodes, i);
    hide MayRun, UnblockedAt;
  }

  lemma OffersIs(db: Db, op: Op, x: int)
    requires op.ClaimNext? && 0 <= x < |db.graphs|
    ensures Offers(db.graphs[x], op) <==> exists i :: OnOffer(db, op, x, i)
  {
    hide OnOffer, InScope, UnblockedAt, ClassFits, Matches;
    InScopeIs(db.graphs[x], op);
    forall i ensures OnOffer(db, op, x, i)
      <==> InScope(db.graphs[x], op) && Claimable(db.graphs[x].nodes, i) && ClassFits(db.graphs[x].nodes[i], op.filter)
    {
      OnOfferIs(db, op, x, i);
    }
  }

  // What a claim hands out was on offer, goes before everything else on offer, and is
  // shown as it was but running under a new lease, of a second at least, and counted as
  // one attempt more.
  lemma {:induction false} HandedWasFirst(db: Db, op: Op, x: int, n: Node) returns (i: nat)
    requires Sound(db) && op.ClaimNext? && HandsOut(db, op, x, n)
    ensures OnOffer(db, op, x, i) && !Blank(op.worker)
    ensures forall y, j | OnOffer(db, op, y, j) && (y != x || j != i) :: GoesBefore(db, x, i, y, j)
    ensures n == At(db, x, i).(
      status := Running, attempt := At(db, x, i).attempt + 1,
      lease := Some(db.nextId), leaseOwner := Some(op.worker),
      leaseExpires := Some(op.now + AtLeast(1000, op.leaseMs)), deadline := DeadlineFrom(At(db, x, i), op.now))
    ensures In(Step(db, op), x, i) && At(Step(db, op), x, i) == n && |Step(db, op).graphs| == |db.graphs|
    ensures forall y, j | In(db, y, j) && (y != x || j != i) ::
      In(Step(db, op), y, j) && At(Step(db, op), y, j) == At(db, y, j)
  {
    hide Claimable, ClassFits, Matches, OnOffer, Structured, TextLess, Step, Trim;
    i := NodeToClaim(db.graphs[x], op);
    InScopeIs(db.graphs[x], op);
    OnOfferIs(db, op, x, i);
    TrimIsBlank(op.worker);
    ClaimHandsOut(db, op, x);
    ClaimKeepsOthers(db, op, x);
    forall y, j | OnOffer(db, op, y, j) && (y != x || j != i) ensures GoesBefore(db, x, i, y, j) {
      OfferedIsIn(db, op, y, j);
      GoesFirst(db, op, x, i, y, j);
    }
  }

  lemma {:induction false} ClaimKeepsOthers(db: Db, op: Op, x: int)
    requires Sound(db) && op.ClaimNext? && Serves(db, op, x)
    ensures |Step(db, op).graphs| == |db.graphs|
    ensures forall y, j | In(db, y, j) && (y != x || j != NodeToClaim(db.graphs[x], op)) ::
      In(Step(db, op), y, j) && At(Step(db, op), y, j) == At(db, y, j)
  {
    hide Offers, Structured, Next;
    ClaimMeaning(db, op, x);
    ClaimWrites(db.graphs[x], MoveFor(db, op, x).value);
    hide Step;
  }

  lemma GoesFirst(db: Db, op: Op, x: int, i: nat, y: int, j: int)
    requires op.ClaimNext? && Serves(db, op, x) && FirstClaimable(db.graphs[x].nodes, op.filter, i)
    requires OnOffer(db, op, y, j) && In(db, y, j) && (y != x || j != i)
    ensures GoesBefore(db, x, i, y, j)
  {
    hide OnOffer, InScope, UnblockedAt, ClassFits, Offers, TextLess;
    OnOfferIs(db, op, y, j);
    OffersIs(db, op, y);
  }

  // The caller is told it gets a node exactly when one is on offer and it says who it is,
  // and the store stays as it is exactly otherwise.
  lemma {:induction false} ClaimAnswered(db: Db, op: Op)
    requires Sound(db) && op.ClaimNext?
    ensures Told(db, op) == Threw <==> Blank(op.worker)
    ensures Told(db, op) == Did <==> !Blank(op.worker) && exists x, i :: OnOffer(db, op, x, i)
    ensures Told(db, op) == Nothing <==> !Blank(op.worker) && forall x, i :: !OnOffer(db, op, x, i)
    ensures Told(db, op) != Did ==> Step(db, op) == db
  {
    hide OnOffer, Structured, Step, Offers, Trim, Next;
    TrimIsBlank(op.worker);
    if exists x :: Serves(db, op, x) {
      var x :| Serves(db, op, x);
      OffersIs(db, op, x);
      ClaimMeaning(db, op, x);
    } else {
      NoClaimMeaning(db, op);
      if !Blank(op.worker) {
        forall x, i ensures !OnOffer(db, op, x, i) {
          if OnOffer(db, op, x, i) {
            OfferedIsIn(db, op, x, i);
            OffersIs(db, op, x);
            var y := OldestOffer(db, op, x);
          }
        }
      }
    }
  }

  // Among the graphs that offer something, one goes first.
  lemma OldestOffer(db: Db, op: Op, x: nat) returns (y: nat)
    requires op.ClaimNext? && Trim(op.worker) != "" && x < |db.graphs| && Offers(db.graphs[x], op)
    ensures Serves(db, op, y)
  {
    hide Offers, Trim;
    y := x;
    for z := 0 to |db.graphs|
      invariant y < |db.graphs| && Offers(db.graphs[y], op)
      invariant forall w | 0 <= w < z && w != y && Offers(db.graphs[w], op) :: OlderGraph(db, y, w)
    {
      if z != y && Offers(db.graphs[z], op) && OlderGraph(db, z, y) { y := z; }
    }
  }

  lemma OfferedIsIn(db: Db, op: Op, x: int, i: int)
    requires op.ClaimNext? && OnOffer(db, op, x, i)
    ensures In(db, x, i)
  {
  }

  // ---- Operations on one node ---------------------------------------------

  predicate RunsUnder(n: Node, lease: nat) {
    n.status == Running && n.lease == Some(lease)
  }

  // What an operation on this node is answered with.
  function AnswerFor(g: Graph, n: Node, op: Op): Reply
    requires NodeOp(op)
  {
    if op.ReopenNode? then
      if n.status in {Failed, TimedOut} && g.status != GraphCancelled then Did else Declined
    else if RunsUnder(n, op.lease) then Did
    else if op.CompleteNode? && n.status == Succeeded && n.lease == Some(op.lease) then Repeated
    else Declined
  }

  // What becomes of the node when the operation is accepted.
  predicate Becomes(n: Node, op: Op, n': Node)
    requires NodeOp(op)
  {
    match op
    case RenewLease(_, _, leaseMs, now) => n' == n.(leaseExpires := Some(now + AtLeast(1000, leaseMs)))
    case CompleteNode(_, _, output) => n' == n.(status := Succeeded, output := output, leaseExpires := None)
    case FailNode(_, _, retryable) =>
      n' == n.(status := if retryable && n.attempt < n.maxAttempts then Ready else Failed,
               lease := None, leaseOwner := None, leaseExpires := None)
    case ReopenNode(_) =>
      && n'.status in {Pending, Ready, Skipped}
      && n' == n.(status := n'.status, skippedBecause := n'.skippedBecause, maxAttempts := n.maxAttempts + 1,
                  lease := None, leaseOwner := None, leaseExpires := None)
  }

  // The answer to an operation on a stored node, and what it does to that node and to
  // the other graphs; declined, it does nothing.
  lemma {:induction false} NodeOpAnswered(db: Db, op: Op, x: nat, i: nat)
    requires Healthy(db) && NodeOp(op) && In(db, x, i) && At(db, x, i).id == op.node
    ensures Told(db, op) == AnswerFor(db.graphs[x], At(db, x, i), op)
    ensures |Step(db, op).graphs| == |db.graphs| && In(Step(db, op), x, i)
    ensures forall y | 0 <= y < |db.graphs| && y != x :: Step(db, op).graphs[y] == db.graphs[y]
    ensures if Told(db, op) == Did then Becomes(At(db, x, i), op, At(Step(db, op), x, i)) else Step(db, op) == db
  {
    hide Structured, Step, Told, Next, Fenced, Enabled;
    FoundById(db, x, i);
    NodeOpTold(db, op, x, i);
    NodeOpEffect(db, op, x, i);
    var m := NodeMove(db.graphs[x], op);
    if m.Some? { NodeOpBecomes(db.graphs[x], op, i); }
  }

  lemma {:induction false} NodeOpBecomes(g: Graph, op: Op, i: nat)
    requires Structured(g.nodes) && NodeOp(op) && NodeIn(g.nodes, op.node) == Some(i) && NodeMove(g, op).Some?
    ensures i < |Next(g, NodeMove(g, op).value).nodes|
    ensures Becomes(g.nodes[i], op, Next(g, NodeMove(g, op).value).nodes[i])
  {
    hide Structured;
    var m := NodeMove(g, op).value;
    NextFollows(g, m, i);
  }

  // An operation on a node nobody knows.
  lemma {:induction false} UnknownNodeAnswered(db: Db, op: Op)
    requires Sound(db) && NodeOp(op) && forall x, i | In(db, x, i) :: At(db, x, i).id != op.node
    ensures Told(db, op) == Threw && Step(db, op) == db
  {
    hide Step, Told, Structured;
    forall x | 0 <= x < |db.graphs| ensures NodeIn(db.graphs[x].nodes, op.node).None? {
      FoundIsIn(db, x, op.node);
    }
    UnknownNodeMeaning(db, op);
  }

  lemma FoundIsIn(db: Db, x: nat, id: nat)
    requires x < |db.graphs|
    ensures NodeIn(db.graphs[x].nodes, id).Some? ==> exists i :: In(db, x, i) && At(db, x, i).id == id
  {
    var r := NodeIn(db.graphs[x].nodes, id);
    assert r.Some? ==> In(db, x, r.value);
  }

  // ---- Operations on graphs -----------------------------------------------

  // A task gets a graph exactly when it is named, has no other in progress, and the
  // requests fit among themselves.
  lemma {:induction false} CreateAnswered(db: Db, op: Op)
    requires Healthy(db) && op.CreateGraph?
    ensures Told(db, op) == (if && op.task != "" && Fitting([], op.requests)
                                && (forall g | g in db.graphs && g.task == op.task ::
                                      g.status in {GraphSucceeded, GraphFailed, GraphCancelled})
                             then Did else Threw)
    ensures Told(db, op) == Threw ==> Step(db, op) == db
    ensures Told(db, op) == Did ==>
      && |Step(db, op).graphs| == |db.graphs| + 1
      && (forall y | 0 <= y < |db.graphs| :: Step(db, op).graphs[y] == db.graphs[y])
      && var g := Step(db, op).graphs[|db.graphs|];
         && g.id == db.nextId && g.task == op.task && g.tenant == op.tenant && g.createdAt == op.now
         && |g.nodes| == |op.requests|
         && forall t | 0 <= t < |op.requests| ::
              AsAsked(g.nodes[t], op.requests[t]) && g.nodes[t].def.order == t && g.nodes[t].id == db.nextId + 1 + t
  {
    hide Structured, Fenced, Ids, Step, Fitting, Creatable, AsAsked, Created;
    CreatableIff(op.requests);
    if CanCreate(db, op) {
      CreateEffect(db, op);
      CreatedAsAsked(db.nextId, op.task, op.tenant, op.now, op.requests);
    } else {
      NoCreateMeaning(db, op);
    }
    ActiveIs(db);
  }

  lemma ActiveIs(db: Db)
    ensures forall g | g in db.graphs :: Active(g) <==> g.status !in {GraphSucceeded, GraphFailed, GraphCancelled}
  {
  }

  // A stored graph grows exactly when it has neither failed nor been cancelled and the
  // requests fit what it holds; each then is a node of its own, as it was asked for.
  lemma {:induction false} ExpandAnswered(db: Db, op: Op, x: nat)
    requires Healthy(db) && op.ExpandGraph? && x < |db.graphs| && db.graphs[x].id == op.graph
    ensures var g := db.graphs[x];
      Told(db, op)
      == if g.status !in {GraphFailed, GraphCancelled} && Fitting(g.nodes, op.requests) then Did else Threw
    ensures Told(db, op) == Threw ==> Step(db, op) == db
    ensures Told(db, op) == Did ==>
      && |Step(db, op).graphs| == |db.graphs|
      && (forall y | 0 <= y < |db.graphs| && y != x :: Step(db, op).graphs[y] == db.graphs[y])
      && var ns, ns' := db.graphs[x].nodes, Step(db, op).graphs[x].nodes;
         && |ns'| == |ns| + |op.requests|
         && forall t | 0 <= t < |op.requests| ::
              AsAsked(ns'[|ns| + t], op.requests[t]) && ns'[|ns| + t].id == db.nextId + t
  {
    hide Structured, Fenced, Ids, Step, Told, Fitting, Expandable, AsAsked, Next, MoveFor;
    ExpansionIs(db, op, x);
    GraphOpEffect(db, op, x);
    ExpandableIff(db.graphs[x], op.requests);
    if Expandable(db.graphs[x], op.requests) {
      var m := Expand(op.requests, db.nextId);
      ExpandedAsAsked(db.graphs[x], m);
      var ns := db.graphs[x].nodes;
      assert Step(db, op).graphs[x] == Next(db.graphs[x], m);
      forall t: nat | t < |op.requests|
        ensures AsAsked(Step(db, op).graphs[x].nodes[|ns| + t], op.requests[t])
        ensures Step(db, op).graphs[x].nodes[|ns| + t].id == db.nextId + t
      {
        assert m.requests[t] == op.requests[t];
      }
    }
  }

  lemma ExpansionIs(db: Db, op: Op, x: nat)
    requires Sound(db) && op.ExpandGraph? && x < |db.graphs| && db.graphs[x].id == op.graph
    ensures MoveFor(db, op, x)
      == if Expandable(db.graphs[x], op.requests) then Some(Expand(op.requests, db.nextId)) else None
  {
    hide Structured, Expandable;
  }

  // Cancelling a stored graph is always accepted, and concerns that graph alone.
  lemma {:induction false} CancelAnswered(db: Db, op: Op, x: nat)
    requires Healthy(db) && op.CancelGraph? && x < |db.graphs| && db.graphs[x].id == op.graph
    ensures Told(db, op) == Did && |Step(db, op).graphs| == |db.graphs|
    ensures forall y | 0 <= y < |db.graphs| && y != x :: Step(db, op).graphs[y] == db.graphs[y]
    ensures |Step(db, op).graphs[x].nodes| == |db.graphs[x].nodes|
    ensures forall i | 0 <= i < |db.graphs[x].nodes| ::
      var n, n' := db.graphs[x].nodes[i], Step(db, op).graphs[x].nodes[i];
      n' == if Unsettled(n.status)
            then n.(status := Cancelled, lease := None, leaseOwner := None, leaseExpires := None) else n
  {
    hide Structured, Fenced, Ids, Step, Told;
    GraphOpEffect(db, op, x);
  }

  // An operation on a graph nobody knows.
  lemma {:induction false} UnknownGraphAnswered(db: Db, op: Op)
    requires Sound(db) && (op.ExpandGraph? || op.CancelGraph?)
    requires forall x | 0 <= x < |db.graphs| :: db.graphs[x].id != op.graph
    ensures Told(db, op) == Threw && Step(db, op) == db
  {
    UnknownGraphMeaning(db, op);
  }

  // ---- Sweeping -----------------------------------------------------------

  // The node is running and its time, or its lease, is over.
  predicate Overdue(n: Node, now: int) {
    && n.status == Running
    && ((n.deadline.Some? && n.deadline.value <= now) || (n.leaseExpires.Some? && n.leaseExpires.value <= now))
  }

  // What becomes of an overdue node: it times out, or fails, or is handed back unless its
  // dependencies bar it, as its deadline and its attempts say.
  predicate TakenBack(n: Node, now: int, n': Node) {
    && n'.lease.None? && n'.def == n.def && n'.attempt == n.attempt
    && (if n.deadline.Some? && n.deadline.value <= now then n'.status == TimedOut
        else if n.attempt >= n.maxAttempts then n'.status == Failed
        else n'.status in {Ready, Skipped})
  }

  predicate SweptAs(n: Node, now: int, n': Node) {
    && (Overdue(n, now) ==> TakenBack(n, now, n'))
    && (n.status == Running && !Overdue(n, now) ==> n' == n)
  }

  // A sweep for one tenant, or for all: graphs it is not for, and graphs without an
  // overdue node, stay as they are; in the others every overdue node is taken back, and
  // no other running node is touched.
  lemma {:induction false} SweepAnswered(db: Db, op: Op, x: nat)
    requires Sound(db) && op.SweepStalled? && x < |db.graphs|
    ensures Told(db, op) == Did && |Step(db, op).graphs| == |db.graphs|
    ensures var g, g' := db.graphs[x], Step(db, op).graphs[x];
      if Suits(op.forTenant, g.tenant) && exists n :: n in g.nodes && Overdue(n, op.now)
      then |g'.nodes| == |g.nodes| && forall i | 0 <= i < |g.nodes| :: SweptAs(g.nodes[i], op.now, g'.nodes[i])
      else g' == g
  {
    hide Structured, Enabled, Next, Settle, Overdue, SweptAs;
    var g := db.graphs[x];
    if Suits(op.forTenant, g.tenant) {
      if exists n :: n in g.nodes && Overdue(n, op.now) {
        SweptGraph(g, op.now);
      } else {
        UnsweptGraph(g, op.now);
      }
    }
  }

  lemma {:induction false} SweptGraph(g: Graph, now: int)
    requires Structured(g.nodes)
    ensures Enabled(g, Sweep(now)) && |Next(g, Sweep(now)).nodes| == |g.nodes|
    ensures forall i | 0 <= i < |g.nodes| :: SweptAs(g.nodes[i], now, Next(g, Sweep(now)).nodes[i])
  {
    hide Structured, Next, WillSkip;
    SweepClearsStalled(g, now);
    forall i: nat | i < |g.nodes| ensures SweptAs(g.nodes[i], now, Next(g, Sweep(now)).nodes[i]) {
      MoveCounts(g, Sweep(now), i);
    }
  }

  lemma {:induction false} UnsweptGraph(g: Graph, now: int)
    requires Structured(g.nodes) && !exists n :: n in g.nodes && Overdue(n, now)
    ensures Enabled(g, Sweep(now)) && Next(g, Sweep(now)) == g
  {
    forall i | 0 <= i < |g.nodes| ensures !Stalled(g.nodes[i], now) {
      assert g.nodes[i] in g.nodes;
      assert !Overdue(g.nodes[i], now);
    }
    hide Structured;
    NothingSwept(g, now);
  }

  // The nodes a sweep reports, whose reservations it gives back: exactly the overdue ones
  // of the graphs it is for.
  lemma SweptAre(vs: seq<Graph>, now: int, tenant: Option<string>, ids: seq<nat>)
    requires SweptBefore(vs, |vs|, now, tenant, ids)
    ensures forall id :: id in ids <==>
      exists x, i :: 0 <= x < |vs| && 0 <= i < |vs[x].nodes| && Suits(tenant, vs[x].tenant)
                     && Overdue(vs[x].nodes[i], now) && vs[x].nodes[i].id == id
  {
    forall id ensures id in ids <==>
      exists x, i :: 0 <= x < |vs| && 0 <= i < |vs[x].nodes| && Suits(tenant, vs[x].tenant)
                     && Overdue(vs[x].nodes[i], now) && vs[x].nodes[i].id == id
    {
      if x, i :| 0 <= x < |vs| && 0 <= i < |vs[x].nodes| && Suits(tenant, vs[x].tenant)
                 && Overdue(vs[x].nodes[i], now) && vs[x].nodes[i].id == id
      {
        assert StalledIn(vs[x], now, id);
      }
    }
  }
}
