// The store and the ledger together, over whole runs with any number of workers: whose
// every open hold of a node is (src/jev-executor.js, lines 130-319; src/jev-budget.js,
// lines 53-122; src/jev.js, lines 602-739).

module Holdings {
  import opened Basics
  import opened Nodes
  import opened Readiness
  import opened Scheduler
  import opened Invariants
  import opened GraphRuns
  import opened Store
  import opened Fencing
  import opened Activity
  import opened StoreSteps
  import opened StoreRows
  import opened Books

  // The node and the attempt a lease was issued for.
  datatype Claimed = Claimed(node: nat, attempt: nat)

  // `working` are the leases of workers that have neither settled nor stopped;
  // `stranded` those no one is left to settle for, because the node was cancelled after
  // its worker stopped or the worker stopped after its lease was lost.
  datatype Shop = Shop(
    db: Db, reservations: seq<Reservation>, claims: map<nat, Claimed>, working: set<nat>, stranded: set<nat>)

  datatype Event =
    | Operates(op: Op)
    | TakesHold(lease: nat, hold: Reservation)
    | Settles(lease: nat, outcome: Hold)
    | Stops(lease: nat)
    | Elsewhere(reservations: seq<Reservation>)

  ghost predicate ForNode(r: Reservation, c: Claimed) {
    r.key == AttemptKey(c.node, c.attempt)
  }

  ghost predicate ForSome(r: Reservation) {
    exists c :: ForNode(r, c)
  }

  ghost predicate HoldsBudget(s: Shop, lease: nat) {
    exists i :: 0 <= i < |s.reservations| && s.reservations[i].hold.Held?
      && lease in s.claims && ForNode(s.reservations[i], s.claims[lease])
  }

  // A completion or failure is reported by the worker the lease was issued to, which
  // still works or has settled what it held; a worker holds and settles for its own
  // attempt; and it can stop at any time.
  ghost predicate Possible(s: Shop, e: Event)
    requires Sound(s.db)
  {
    match e
    case Operates(op) =>
      (op.CompleteNode? || op.FailNode?) && Fencing.Holds(s.db, op.lease) ==>
        op.lease in s.working || !HoldsBudget(s, op.lease)
    case TakesHold(lease, hold) => lease in s.working && lease in s.claims && ForNode(hold, s.claims[lease])
    case Settles(lease, outcome) => lease in s.working && lease in s.claims && !outcome.Held?
    case Stops(lease) => lease in s.working
    case Elsewhere(rs) =>
      && (forall i | 0 <= i < |s.reservations| && ForSome(s.reservations[i]) :: i < |rs| && rs[i] == s.reservations[i])
      && (forall i | 0 <= i < |rs| && ForSome(rs[i]) :: i < |s.reservations| && rs[i] == s.reservations[i])
  }

  // ---- What the events do -------------------------------------------------

  ghost predicate SweptFor(db: Db, op: Op, r: Reservation)
    requires op.SweepStalled?
  {
    exists x, i :: In(db, x, i) && Matches(op.forTenant, db.graphs[x].tenant)
      && Stalled(At(db, x, i), op.now) && HeldFor(r, At(db, x, i).id)
  }

  ghost function AfterSweep(db: Db, op: Op, rs: seq<Reservation>): (qs: seq<Reservation>)
    requires op.SweepStalled?
    ensures |qs| == |rs|
    ensures forall i | 0 <= i < |rs| :: qs[i] == if SweptFor(db, op, rs[i]) then rs[i].(hold := Released) else rs[i]
  {
    seq(|rs|, i requires 0 <= i < |rs| => if SweptFor(db, op, rs[i]) then rs[i].(hold := Released) else rs[i])
  }

  // What the sweep of the stored tables leaves of the reservations is this.
  lemma SweepLeaves(db: Db, op: Op, before: seq<Reservation>, after: seq<Reservation>, swept: seq<nat>)
    requires op.SweepStalled? && SweptBefore(db.graphs, |db.graphs|, op.now, op.forTenant, swept)
    requires ReleasedFor(before, after, swept)
    ensures after == AfterSweep(db, op, before)
  {
    hide HeldFor, Matches, Stalled;
    forall i | 0 <= i < |before| ensures SomeHolds(before[i], swept) <==> SweptFor(db, op, before[i]) {
      if SweptFor(db, op, before[i]) {
        var x, n :| In(db, x, n) && Matches(op.forTenant, db.graphs[x].tenant)
          && Stalled(At(db, x, n), op.now) && HeldFor(before[i], At(db, x, n).id);
        assert StalledIn(db.graphs[x], op.now, At(db, x, n).id);
      }
      if SomeHolds(before[i], swept) {
        var node :| node in swept && HeldFor(before[i], node);
        var x :| 0 <= x < |db.graphs| && Matches(op.forTenant, db.graphs[x].tenant)
          && StalledIn(db.graphs[x], op.now, node);
        var n :| 0 <= n < |db.graphs[x].nodes| && Stalled(db.graphs[x].nodes[n], op.now)
          && db.graphs[x].nodes[n].id == node;
        assert In(db, x, n) && At(db, x, n).id == node;
      }
    }
  }

  ghost function AfterSettling(rs: seq<Reservation>, c: Claimed, hold: Hold): (qs: seq<Reservation>)
    ensures |qs| == |rs|
    ensures forall i | 0 <= i < |rs| ::
      qs[i] == if rs[i].hold.Held? && ForNode(rs[i], c) then rs[i].(hold := hold) else rs[i]
  {
    seq(|rs|, i requires 0 <= i < |rs| =>
      if rs[i].hold.Held? && ForNode(rs[i], c) then rs[i].(hold := hold) else rs[i])
  }

  ghost predicate HandsSome(db: Db, op: Op)
    requires Sound(db)
  {
    op.ClaimNext? && exists x :: Serves(db, op, x)
  }

  // The node a claim hands out, under the lease db.nextId.
  ghost function Handed(db: Db, op: Op): (n: Node)
    requires Sound(db) && HandsSome(db, op)
    ensures exists x :: Serves(db, op, x) && HandsOut(db, op, x, n)
  {
    var x :| Serves(db, op, x);
    ClaimedNode(db.graphs[x].nodes[NodeToClaim(db.graphs[x], op)], db.nextId, op.worker, op.leaseMs, op.now)
  }

  // The leases a cancel takes from workers that have stopped.
  ghost function Cancelled(s: Shop, op: Op): set<nat>
    requires Sound(s.db)
  {
    if !op.CancelGraph? then {}
    else set lease | lease in s.claims && lease !in s.working
                     && Fencing.Holds(s.db, lease) && !Fencing.Holds(Step(s.db, op), lease)
  }

  ghost function HeldAfterwards(s: Shop, op: Op): (qs: seq<Reservation>)
    ensures |qs| == |s.reservations|
    ensures forall i | 0 <= i < |qs| :: qs[i] == s.reservations[i].(hold := qs[i].hold)
    ensures forall i | 0 <= i < |qs| && qs[i].hold.Held? ::
      s.reservations[i].hold.Held? && !(op.SweepStalled? && SweptFor(s.db, op, s.reservations[i]))
  {
    if op.SweepStalled? then AfterSweep(s.db, op, s.reservations) else s.reservations
  }

  ghost function Operated(s: Shop, op: Op): Shop
    requires Sound(s.db)
  {
    Shop(Step(s.db, op),
         HeldAfterwards(s, op),
         if HandsSome(s.db, op)
         then s.claims[s.db.nextId := Claimed(Handed(s.db, op).id, Handed(s.db, op).attempt)] else s.claims,
         if HandsSome(s.db, op) then s.working + {s.db.nextId} else s.working,
         s.stranded + Cancelled(s, op))
  }

  ghost function Happen(s: Shop, e: Event): (s': Shop)
    requires Sound(s.db) && Possible(s, e)
    ensures Sound(s'.db)
  {
    match e
    case Operates(op) => Operated(s, op)
    case TakesHold(_, hold) => s.(reservations := s.reservations + [hold])
    case Settles(lease, hold) =>
      s.(reservations := AfterSettling(s.reservations, s.claims[lease], hold), working := s.working - {lease})
    case Stops(lease) =>
      s.(working := s.working - {lease},
         stranded := if Fencing.Holds(s.db, lease) then s.stranded else s.stranded + {lease})
    case Elsewhere(rs) => s.(reservations := rs)
  }

  // ---- The invariant ------------------------------------------------------

  // Every running node runs under a lease issued for it at this attempt.
  ghost predicate Linked(db: Db, claims: map<nat, Claimed>) {
    && (forall lease | lease in claims :: lease < db.nextId)
    && (forall x, i | In(db, x, i) && At(db, x, i).status.Running? :: Under(At(db, x, i), claims))
  }

  ghost predicate Under(n: Node, claims: map<nat, Claimed>) {
    n.lease.Some? && n.lease.value in claims && claims[n.lease.value] == Claimed(n.id, n.attempt)
  }

  // Someone will settle it, or a sweep can take it back, or it is stranded.
  ghost predicate Answered(s: Shop, lease: nat) {
    lease in s.claims && (lease in s.working || Fencing.Holds(s.db, lease) || lease in s.stranded)
  }

  ghost predicate AnsweredFor(s: Shop, r: Reservation) {
    exists lease :: Answered(s, lease) && ForNode(r, s.claims[lease])
  }

  ghost predicate Accounted(s: Shop) {
    && Healthy(s.db) && Linked(s.db, s.claims) && (forall lease | lease in s.working :: lease in s.claims)
    && forall i | 0 <= i < |s.reservations| && s.reservations[i].hold.Held? && ForSome(s.reservations[i]) ::
         AnsweredFor(s, s.reservations[i])
  }

  // ---- Operations of the store --------------------------------------------

  lemma {:induction false} HandedIsThere(db: Db, op: Op, x: int, i: int)
    requires Sound(db) && In(Step(db, op), x, i) && ClaimedHere(db, op, x, i, At(Step(db, op), x, i))
    ensures HandsSome(db, op) && At(Step(db, op), x, i) == Handed(db, op)
  {
    hide Step, Serves, Structured, Next, Handed;
    assert HandsSome(db, op);
    var y :| Serves(db, op, y) && HandsOut(db, op, y, Handed(db, op));
    ServesOne(db, op, x, y);
    ClaimHandsOut(db, op, x);
    assert HandsOut(db, op, x, At(Step(db, op), x, i));
  }

  lemma {:induction false} RunsOnUnder(db: Db, op: Op, x: nat, i: nat)
    requires Sound(db) && In(db, x, i) && At(db, x, i).status.Running?
    ensures In(Step(db, op), x, i)
    ensures At(Step(db, op), x, i).id == At(db, x, i).id && At(Step(db, op), x, i).attempt == At(db, x, i).attempt
  {
    var m := MoveFor(db, op, x);
    if m.Some? {
      MoveKeepsId(db.graphs[x], m.value, i);
      MoveCounts(db.graphs[x], m.value, i);
    }
  }

  lemma {:induction false} StepKeepsLinked(s: Shop, op: Op)
    requires Sound(s.db) && Linked(s.db, s.claims)
    ensures Linked(Step(s.db, op), Operated(s, op).claims)
  {
    hide Structured, Serves, HandsSome, Handed, Step, HeldAfterwards, Cancelled;
    var db, db', claims := s.db, Step(s.db, op), Operated(s, op).claims;
    CounterGrows(db, op);
    forall x: nat, i: nat | In(db', x, i) && At(db', x, i).status.Running? ensures Under(At(db', x, i), claims) {
      StepLease(db, op, x, i);
      if ClaimedHere(db, op, x, i, At(db', x, i)) {
        HandedIsThere(db, op, x, i);
      } else {
        RunsOnUnder(db, op, x, i);
      }
    }
  }

  lemma {:induction false} CounterGrows(db: Db, op: Op)
    requires Sound(db)
    ensures Step(db, op).nextId >= db.nextId && (HandsSome(db, op) ==> Step(db, op).nextId > db.nextId)
  {
    hide Structured, Creatable, Next, Offers;
    if HandsSome(db, op) {
      var x :| Serves(db, op, x);
      assert MoveFor(db, op, x).Some?;
    }
  }

  // Whoever answered for a lease still does, unless a sweep took the node back.
  lemma {:induction false} StillAnswered(s: Shop, op: Op, lease: nat)
    requires Accounted(s) && Possible(s, Operates(op)) && Answered(s, lease) && HoldsBudget(s, lease)
    ensures Answered(Operated(s, op), lease) || (op.SweepStalled? && SettlesLease(s.db, op, lease))
    ensures Operated(s, op).claims[lease] == s.claims[lease]
  {
    hide Step, Structured, Fencing.Holds, Serves, HandsSome, Handed, Ids, Fenced, HoldsBudget;
    SettledIffLost(s.db, op, lease);
    if SettlesLease(s.db, op, lease) { SettledHow(s.db, op, lease); }
  }

  lemma SettledHow(db: Db, op: Op, lease: nat)
    requires SettlesLease(db, op, lease)
    ensures Fencing.Holds(db, lease)
    ensures ((op.CompleteNode? || op.FailNode?) && op.lease == lease) || op.SweepStalled? || op.CancelGraph?
  {
  }

  // A sweep that takes a node back releases what was held for its attempt.
  lemma {:induction false} SweptIsReleased(s: Shop, op: Op, lease: nat, r: Reservation)
    requires Accounted(s) && op.SweepStalled? && SettlesLease(s.db, op, lease)
    requires lease in s.claims && ForNode(r, s.claims[lease]) && r.hold.Held?
    ensures SweptFor(s.db, op, r)
  {
    hide AttemptPrefix, Structured, Healthy;
    var x, i :| SettlesAt(s.db, op, lease, x, i);
    assert Under(At(s.db, x, i), s.claims);
    PrefixIsOwn(At(s.db, x, i).id, s.claims[lease].node, s.claims[lease].attempt);
  }

  lemma WhoAnswers(s: Shop, r: Reservation) returns (lease: nat)
    requires AnsweredFor(s, r)
    ensures Answered(s, lease) && lease in s.claims && ForNode(r, s.claims[lease])
  {
    lease :| Answered(s, lease) && ForNode(r, s.claims[lease]);
  }

  lemma {:induction false} OperationKeepsAnswers(s: Shop, op: Op, i: nat)
    requires Accounted(s) && Possible(s, Operates(op)) && i < |s.reservations|
    requires Operated(s, op).reservations[i].hold.Held? && ForSome(s.reservations[i])
    ensures AnsweredFor(Operated(s, op), Operated(s, op).reservations[i])
  {
    hide Step, Structured, Fencing.Holds, Ids, Fenced, Linked, HandsSome, Handed, SweptFor, ForNode, ForSome, Possible;
    hide Cancelled, HeldAfterwards, SettlesLease, Answered;
    var r := s.reservations[i];
    assert AnsweredFor(s, r);
    var lease := WhoAnswers(s, r);
    assert HoldsBudget(s, lease);
    StillAnswered(s, op, lease);
    if !Answered(Operated(s, op), lease) {
      SweptIsReleased(s, op, lease, r);
    } else {
      SameKey(s, op, i, s.claims[lease]);
    }
  }

  lemma {:induction false} OperationKeepsAccounted(s: Shop, op: Op)
    requires Accounted(s) && Possible(s, Operates(op))
    ensures Accounted(Operated(s, op))
  {
    hide Step, Structured, Ids, Fenced, Linked, HandsSome, Handed, AnsweredFor;
    hide ForSome, Possible, Cancelled, HeldAfterwards;
    StepKeepsHealthy(s.db, op);
    StepKeepsLinked(s, op);
    var s' := Operated(s, op);
    forall i: nat | i < |s'.reservations| && s'.reservations[i].hold.Held? && ForSome(s'.reservations[i])
      ensures AnsweredFor(s', s'.reservations[i])
    {
      SameKeys(s, op, i);
      OperationKeepsAnswers(s, op, i);
    }
  }

  lemma SameKey(s: Shop, op: Op, i: nat, c: Claimed)
    requires i < |s.reservations|
    ensures ForNode(HeldAfterwards(s, op)[i], c) <==> ForNode(s.reservations[i], c)
  {
    hide HeldAfterwards, AttemptKey;
  }

  lemma SameKeys(s: Shop, op: Op, i: nat)
    requires i < |s.reservations|
    ensures ForSome(HeldAfterwards(s, op)[i]) <==> ForSome(s.reservations[i])
  {
    hide HeldAfterwards, AttemptKey;
    var r, q := s.reservations[i], HeldAfterwards(s, op)[i];
    forall c ensures ForNode(q, c) <==> ForNode(r, c) { SameKey(s, op, i, c); }
  }

  // ---- The other events ---------------------------------------------------

  lemma {:induction false} HoldKeepsAccounted(s: Shop, lease: nat, hold: Reservation)
    requires Accounted(s) && Possible(s, TakesHold(lease, hold))
    ensures Accounted(Happen(s, TakesHold(lease, hold)))
  {
    hide Ids, Fenced, Structured, Linked, ForNode, Fencing.Holds, Operated;
    var s' := Happen(s, TakesHold(lease, hold));
    forall i | 0 <= i < |s'.reservations| && s'.reservations[i].hold.Held? && ForSome(s'.reservations[i])
      ensures AnsweredFor(s', s'.reservations[i])
    {
      if i < |s.reservations| {
        assert AnsweredFor(s, s.reservations[i]);
        SameAnswers(s, s', s.reservations[i]);
      } else {
        assert Answered(s', lease);
      }
    }
  }

  lemma SameAnswers(s: Shop, s': Shop, r: Reservation)
    requires AnsweredFor(s, r) && s'.db == s.db && s'.claims == s.claims
    requires s.working <= s'.working && s.stranded <= s'.stranded
    ensures AnsweredFor(s', r)
  {
    var lease :| Answered(s, lease) && ForNode(r, s.claims[lease]);
    assert Answered(s', lease);
  }

  lemma {:induction false} SettlingKeepsAccounted(s: Shop, lease: nat, hold: Hold)
    requires Accounted(s) && Possible(s, Settles(lease, hold))
    ensures Accounted(Happen(s, Settles(lease, hold)))
  {
    hide Ids, Fenced, Structured, Linked, ForNode, Fencing.Holds, Operated;
    var s' := Happen(s, Settles(lease, hold));
    forall i | 0 <= i < |s'.reservations| && s'.reservations[i].hold.Held? && ForSome(s'.reservations[i])
      ensures AnsweredFor(s', s'.reservations[i])
    {
      var r := s.reservations[i];
      assert AnsweredFor(s, r);
      var l :| Answered(s, l) && ForNode(r, s.claims[l]);
      assert l != lease;
      assert Answered(s', l);
    }
  }

  lemma {:induction false} StopKeepsAccounted(s: Shop, lease: nat)
    requires Accounted(s) && Possible(s, Stops(lease))
    ensures Accounted(Happen(s, Stops(lease)))
  {
    hide Ids, Fenced, Structured, Linked, ForNode, Fencing.Holds, Operated;
    var s' := Happen(s, Stops(lease));
    forall i | 0 <= i < |s'.reservations| && s'.reservations[i].hold.Held? && ForSome(s'.reservations[i])
      ensures AnsweredFor(s', s'.reservations[i])
    {
      assert AnsweredFor(s, s.reservations[i]);
      var l :| Answered(s, l) && ForNode(s.reservations[i], s.claims[l]);
      assert Answered(s', l);
    }
  }

  lemma {:induction false} ElsewhereKeepsAccounted(s: Shop, rs: seq<Reservation>)
    requires Accounted(s) && Possible(s, Elsewhere(rs))
    ensures Accounted(Happen(s, Elsewhere(rs)))
  {
    hide Ids, Fenced, Structured, Linked, ForSome, Fencing.Holds, Operated;
    var s' := Happen(s, Elsewhere(rs));
    forall i | 0 <= i < |rs| && rs[i].hold.Held? && ForSome(rs[i]) ensures AnsweredFor(s', rs[i]) {
      SameAnswers(s, s', s.reservations[i]);
    }
  }

  // ---- Whole runs ---------------------------------------------------------

  ghost predicate CanHappen(s: Shop, es: seq<Event>)
    requires Sound(s.db)
    decreases |es|
  {
    es != [] ==> Possible(s, es[0]) && CanHappen(Happen(s, es[0]), es[1..])
  }

  ghost function AfterEvents(s: Shop, es: seq<Event>): (s': Shop)
    requires Sound(s.db) && CanHappen(s, es)
    ensures Sound(s'.db)
    decreases |es|
  {
    if es == [] then s else AfterEvents(Happen(s, es[0]), es[1..])
  }

  lemma {:induction false} EventKeepsAccounted(s: Shop, e: Event)
    requires Accounted(s) && Possible(s, e)
    ensures Accounted(Happen(s, e))
  {
    hide Accounted, Possible, Operated, AfterSettling;
    match e
    case Operates(op) => OperationKeepsAccounted(s, op);
    case TakesHold(lease, hold) => HoldKeepsAccounted(s, lease, hold);
    case Settles(lease, hold) => SettlingKeepsAccounted(s, lease, hold);
    case Stops(lease) => StopKeepsAccounted(s, lease);
    case Elsewhere(rs) => ElsewhereKeepsAccounted(s, rs);
  }

  // Whatever workers, the operator and other spenders do, in any order: every open hold of
  // a node's attempt belongs to a worker that has not settled, or to an attempt that still
  // runs and a sweep can take back, or to a stranded one.
  lemma {:induction false} RunKeepsAccounted(s: Shop, es: seq<Event>)
    requires Accounted(s) && CanHappen(s, es)
    ensures Accounted(AfterEvents(s, es))
    decreases |es|
  {
    hide Possible, Happen;
    if es != [] {
      EventKeepsAccounted(s, es[0]);
      RunKeepsAccounted(Happen(s, es[0]), es[1..]);
    }
  }

  lemma {:induction false} NothingYet()
    ensures Accounted(Shop(EMPTY_STORE, [], map[], {}, {}))
  {
    var s := Shop(EMPTY_STORE, [], map[], {}, {});
    assert forall x, i :: !In(s.db, x, i);
  }

  // No cancel, and no worker stops after losing its lease.
  ghost predicate Uncancelled(s: Shop, es: seq<Event>)
    requires Sound(s.db) && CanHappen(s, es)
    decreases |es|
  {
    es != [] ==>
      && !(es[0].Operates? && es[0].op.CancelGraph?)
      && (es[0].Stops? ==> Fencing.Holds(s.db, es[0].lease))
      && Uncancelled(Happen(s, es[0]), es[1..])
  }

  lemma {:induction false} NoneStranded(s: Shop, es: seq<Event>)
    requires Sound(s.db) && CanHappen(s, es) && Uncancelled(s, es)
    ensures AfterEvents(s, es).stranded == s.stranded
    decreases |es|
  {
    hide Sound, Possible, HeldAfterwards, HandsSome, Handed, Step, Fencing.Holds;
    if es != [] {
      NoneStranded(Happen(s, es[0]), es[1..]);
    }
  }

  // Such a run leaves no open hold of any node once every worker has settled or stopped
  // and the sweeps have taken back what the stopped ones held.
  lemma {:induction false} NothingLeftHeld(s: Shop, es: seq<Event>)
    requires Accounted(s) && s.stranded == {} && CanHappen(s, es) && Uncancelled(s, es)
    requires AfterEvents(s, es).working == {} && forall lease :: !Fencing.Holds(AfterEvents(s, es).db, lease)
    ensures forall r | r in AfterEvents(s, es).reservations && r.hold.Held? :: !ForSome(r)
  {
    hide Healthy, Linked, Uncancelled, CanHappen, AfterEvents, Fencing.Holds, ForSome, ForNode, AnsweredFor;
    HealthyIsSound(s.db);
    RunKeepsAccounted(s, es);
    NoneStranded(s, es);
    var s' := AfterEvents(s, es);
    forall r | r in s'.reservations && r.hold.Held? ensures !ForSome(r) {
      NobodyAnswers(s', r);
    }
  }

  lemma NobodyAnswers(s: Shop, r: Reservation)
    requires s.working == {} && s.stranded == {} && forall lease :: !Fencing.Holds(s.db, lease)
    ensures !AnsweredFor(s, r)
  {
    hide Fencing.Holds;
  }

  lemma HealthyIsSound(db: Db)
    requires Healthy(db)
    ensures Sound(db)
  {
  }

  // ---- What a cancel strands ----------------------------------------------

  // Node (x, i) was cancelled, reservation j is still held for an attempt at it, and no
  // worker is left that would settle it.
  ghost predicate Beyond(s: Shop, x: int, i: int, attempt: nat, j: int) {
    && Healthy(s.db) && In(s.db, x, i) && At(s.db, x, i).status.Cancelled?
    && 0 <= j < |s.reservations| && s.reservations[j].hold.Held?
    && ForNode(s.reservations[j], Claimed(At(s.db, x, i).id, attempt))
    && forall lease | lease in s.working ::
         lease in s.claims && s.claims[lease] != Claimed(At(s.db, x, i).id, attempt)
  }

  lemma OneKeyEach(c: Claimed, d: Claimed)
    requires AttemptKey(c.node, c.attempt) == AttemptKey(d.node, d.attempt)
    ensures c == d
  {
    hide Dec;
    PrefixIsOwn(c.node, d.node, d.attempt);
    assert AttemptPrefix(c.node) <= AttemptKey(c.node, c.attempt);
    var n := |AttemptPrefix(c.node)|;
    assert AttemptKey(c.node, c.attempt)[n..] == Dec(c.attempt);
    assert AttemptKey(d.node, d.attempt)[n..] == Dec(d.attempt);
    DecInjective(c.attempt, d.attempt);
  }

  lemma {:induction false} NotSwept(s: Shop, op: Op, x: int, i: int, attempt: nat, j: int)
    requires Beyond(s, x, i, attempt, j) && op.SweepStalled?
    ensures !SweptFor(s.db, op, s.reservations[j])
  {
    hide AttemptPrefix, AttemptKey, Fenced, Structured;
    var db, r, id := s.db, s.reservations[j], At(s.db, x, i).id;
    forall y, z | In(db, y, z) && Stalled(At(db, y, z), op.now) ensures !HeldFor(r, At(db, y, z).id) {
      PrefixIsOwn(At(db, y, z).id, id, attempt);
    }
  }

  lemma {:induction false} NotHandedOut(db: Db, op: Op, x: nat, i: nat)
    requires Healthy(db) && In(db, x, i) && At(db, x, i).status.Cancelled? && HandsSome(db, op)
    ensures Handed(db, op).id != At(db, x, i).id
  {
    hide Fenced, Structured, Handed, Serves, UnblockedAt;
    var n := Handed(db, op);
    var y :| Serves(db, op, y) && HandsOut(db, op, y, n);
    var z := ReadyToClaim(db, op, y, n);
    assert At(db, y, z).id == n.id;
  }

  lemma ReadyToClaim(db: Db, op: Op, y: int, n: Node) returns (z: nat)
    requires Sound(db) && op.ClaimNext? && HandsOut(db, op, y, n)
    ensures In(db, y, z) && At(db, y, z).status.Ready? && At(db, y, z).id == n.id
  {
    hide Structured, UnblockedAt;
    z := NodeToClaim(db.graphs[y], op);
  }

  lemma {:induction false} OperationLeavesBeyond(s: Shop, op: Op, x: nat, i: nat, attempt: nat, j: nat)
    requires Beyond(s, x, i, attempt, j)
    ensures Beyond(Operated(s, op), x, i, attempt, j)
  {
    hide Step, Structured, Ids, Fenced, HandsSome, Handed, SweptFor, Cancelled, AttemptKey;
    StepKeepsHealthy(s.db, op);
    StaysCancelled(s.db, op, x, i);
    if op.SweepStalled? { NotSwept(s, op, x, i, attempt, j); }
    if HandsSome(s.db, op) { NotHandedOut(s.db, op, x, i); }
  }

  lemma {:induction false} StaysCancelled(db: Db, op: Op, x: nat, i: nat)
    requires Sound(db) && In(db, x, i) && At(db, x, i).status.Cancelled?
    ensures In(Step(db, op), x, i) && At(Step(db, op), x, i) == At(db, x, i)
  {
    CancelledIsForGood(db, [op], x, i);
    assert AfterOps(db, [op]) == AfterOps(Step(db, op), [op][1..]) == Step(db, op);
  }

  lemma {:induction false} EventLeavesBeyond(s: Shop, e: Event, x: nat, i: nat, attempt: nat, j: nat)
    requires Beyond(s, x, i, attempt, j) && Sound(s.db) && Possible(s, e)
    ensures Beyond(Happen(s, e), x, i, attempt, j)
  {
    hide Ids, Fenced, Structured, Operated, AttemptKey, Fencing.Holds;
    match e
    case Operates(op) => OperationLeavesBeyond(s, op, x, i, attempt, j);
    case TakesHold(_, _) =>
    case Settles(lease, _) =>
      if ForNode(s.reservations[j], s.claims[lease]) {
        OneKeyEach(s.claims[lease], Claimed(At(s.db, x, i).id, attempt));
      }
    case Stops(_) =>
    case Elsewhere(rs) => assert ForSome(s.reservations[j]);
  }

  // Whatever happens later, nobody gives the hold back.
  lemma {:induction false} NobodyGivesBack(s: Shop, es: seq<Event>, x: nat, i: nat, attempt: nat, j: nat)
    requires Beyond(s, x, i, attempt, j) && Sound(s.db) && CanHappen(s, es)
    ensures Beyond(AfterEvents(s, es), x, i, attempt, j)
    decreases |es|
  {
    hide Beyond, Possible, Happen;
    if es != [] {
      EventLeavesBeyond(s, es[0], x, i, attempt, j);
      NobodyGivesBack(Happen(s, es[0]), es[1..], x, i, attempt, j);
    }
  }

  // And cancelling a graph with such a node running is how it comes about.
  lemma {:induction false} CancelStrands(s: Shop, op: Op, x: nat, i: nat, j: nat)
    requires Accounted(s) && op.CancelGraph? && In(s.db, x, i) && s.db.graphs[x].id == op.graph
    requires At(s.db, x, i).status.Running? && j < |s.reservations| && s.reservations[j].hold.Held?
    requires ForNode(s.reservations[j], Claimed(At(s.db, x, i).id, At(s.db, x, i).attempt))
    requires forall lease | lease in s.working :: s.claims[lease] != Claimed(At(s.db, x, i).id, At(s.db, x, i).attempt)
    ensures Possible(s, Operates(op)) && Beyond(Happen(s, Operates(op)), x, i, At(s.db, x, i).attempt, j)
  {
    hide Ids, Fenced, Structured, AttemptKey, Fencing.Holds, Step;
    StepKeepsHealthy(s.db, op);
    RunningIsCancelled(s.db, op, x, i);
  }

  lemma {:induction false} RunningIsCancelled(db: Db, op: Op, x: nat, i: nat)
    requires Sound(db) && op.CancelGraph? && In(db, x, i) && db.graphs[x].id == op.graph
    requires At(db, x, i).status.Running?
    ensures In(Step(db, op), x, i) && At(Step(db, op), x, i).status.Cancelled?
    ensures At(Step(db, op), x, i).id == At(db, x, i).id
  {
    hide Structured, Next;
    CancelWrites(db.graphs[x]);
  }
}
