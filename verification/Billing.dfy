// The ledger's transactions, and the settlement of a node that spans several of
// them (src/billing.js, lines 52-230; src/jev-budget.js, lines 53-184).

module Billing {
  import opened Basics
  import opened Books

  // ---- Holding and settling a node's budget -------------------------------

  datatype NodeHold = NothingToHold | HeldAs(reservation: nat)

  // reserveNodeBudget. A node priced at zero still needs headroom.
  function HoldNode(b: Books, agent: string, node: nat, attempt: nat, minor: int, admitted: bool)
    : (Books, Result<NodeHold, Refusal>)
  {
    if minor <= 0 then
      if agent !in b.accounts then (b, Err(NoAgent))
      else if b.accounts[agent].limit - b.accounts[agent].used <= 0 then (b, Err(HardLimit))
      else (b, Ok(NothingToHold))
    else
      var (c, r) := Reserve(b, agent, minor, AttemptKey(node, attempt), admitted);
      match r
      case Ok(id) => (c, Ok(HeldAs(id)))
      case Err(e) => (c, Err(e))
  }

  datatype Settlement = Settlement(captured: int, reserved: int, overrun: int, unrecorded: int)

  function Least(a: int, b: int): int { if a < b then a else b }

  function Most(a: int, b: int): int { if a < b then b else a }

  // What the settlement captures from the reservation, before any overrun.
  function FromReservation(b: Books, reservation: Option<nat>, measured: Option<int>): int {
    if reservation.None? || reservation.value >= |b.reservations| then 0
    else if measured.None? then b.reservations[reservation.value].amount
    else Least(Most(0, measured.value), b.reservations[reservation.value].amount)
  }

  function ReservedMinor(b: Books, reservation: Option<nat>): int {
    if reservation.None? || reservation.value >= |b.reservations| then 0
    else b.reservations[reservation.value].amount
  }

  function Overrun(b: Books, reservation: Option<nat>, measured: Option<int>): int {
    if measured.None? then 0 else Most(0, Most(0, measured.value) - ReservedMinor(b, reservation))
  }

  // The first transaction of a settlement.
  function CaptureFirst(b: Books, reservation: Option<nat>, measured: Option<int>): (Books, Result<nat, Refusal>) {
    if reservation.None? then (b, Ok(0))
    else Capture(b, reservation.value, Some(FromReservation(b, reservation, measured)))
  }

  function Affordable(b: Books, agent: string, overrun: int): int
    requires agent in b.accounts
  {
    Least(overrun, Most(0, b.accounts[agent].limit - b.accounts[agent].used))
  }

  // settleNodeSpend. Between its three transactions (capture, look at the
  // headroom, charge) other callers do `first` and `second`.
  function SettleNode(
    b: Books, reservation: Option<nat>, agent: string, measured: Option<int>, admitted: bool,
    first: seq<BillingOp>, second: seq<BillingOp>): (Books, Result<Settlement, Refusal>)
  {
    var (b1, captured) := CaptureFirst(b, reservation, measured);
    if captured.Err? then (b1, Err(captured.error))
    else
      var c, reserved, overrun :=
        FromReservation(b, reservation, measured), ReservedMinor(b, reservation), Overrun(b, reservation, measured);
      if overrun == 0 then (b1, Ok(Settlement(c, reserved, 0, 0)))
      else
        var b2 := PostAll(b1, first);
        if agent !in b2.accounts then (b2, Err(NoAgent))
        else
          var affordable := Affordable(b2, agent, overrun);
          if affordable <= 0 then (b2, Ok(Settlement(c, reserved, overrun, overrun - affordable)))
          else
            var (b4, charged) := Record(PostAll(b2, second), agent, affordable, admitted);
            if charged.Err? then (b4, Ok(Settlement(c, reserved, overrun, overrun)))
            else (b4, Ok(Settlement(c + affordable, reserved, overrun, overrun - affordable)))
  }

  // ---- What a settlement conserves ----------------------------------------

  // What other callers spent on the agent's account between the settlement's own
  // transactions.
  function Others(
    b: Books, reservation: Option<nat>, agent: string, measured: Option<int>,
    first: seq<BillingOp>, second: seq<BillingOp>): int
    requires agent in b.accounts
  {
    var b1 := CaptureFirst(b, reservation, measured).0;
    var b2 := PostAll(b1, first);
    LedgerKeepsAccounts(b1, first);
    LedgerKeepsAccounts(b2, second);
    CaptureKeepsAccounts(b, reservation, measured);
    if Overrun(b, reservation, measured) == 0 then 0
    else
      (b2.accounts[agent].used - b1.accounts[agent].used)
      + (if Affordable(b2, agent, Overrun(b, reservation, measured)) <= 0 then 0
         else PostAll(b2, second).accounts[agent].used - b2.accounts[agent].used)
  }

  lemma {:induction false} LedgerKeepsAccounts(b: Books, ops: seq<BillingOp>)
    ensures PostAll(b, ops).accounts.Keys == b.accounts.Keys
    decreases |ops|
  {
    if ops != [] {
      PostKeepsAgreement(b, ops[0]);
      LedgerKeepsAccounts(Post(b, ops[0]), ops[1..]);
    }
  }

  lemma CaptureKeepsAccounts(b: Books, reservation: Option<nat>, measured: Option<int>)
    ensures CaptureFirst(b, reservation, measured).0.accounts.Keys == b.accounts.Keys
  {
  }

  // Everything measured is either captured or reported as unrecorded, whatever
  // others do meanwhile.
  lemma {:induction false} SettlementAccountsForAll(
    b: Books, reservation: Option<nat>, agent: string, measured: int, admitted: bool,
    first: seq<BillingOp>, second: seq<BillingOp>)
    requires Sane(b)
    ensures var r := SettleNode(b, reservation, agent, Some(measured), admitted, first, second).1;
      r.Ok? ==> && r.value.captured + r.value.unrecorded == Most(0, measured)
                && r.value.captured >= 0 && r.value.unrecorded >= 0
                && r.value.overrun == Most(0, Most(0, measured) - r.value.reserved)
  {
  }

  ghost predicate OwnReservation(b: Books, reservation: Option<nat>, agent: string) {
    reservation.Some? ==> reservation.value < |b.reservations| && b.reservations[reservation.value].agent == agent
  }

  predicate StillHeld(b: Books, reservation: Option<nat>) {
    reservation.Some? ==> reservation.value < |b.reservations| && b.reservations[reservation.value].hold.Held?
  }

  // The agent's spend rises by exactly what is reported captured, on top of what
  // others spent, precisely when the reservation was still open (or there was
  // nothing to capture from it).
  lemma {:induction false} SettlementSpendsWhatItReports(
    b: Books, reservation: Option<nat>, agent: string, measured: Option<int>, admitted: bool,
    first: seq<BillingOp>, second: seq<BillingOp>)
    requires Sane(b) && agent in b.accounts && OwnReservation(b, reservation, agent)
    requires SettleNode(b, reservation, agent, measured, admitted, first, second).1.Ok?
    ensures var (c, r) := SettleNode(b, reservation, agent, measured, admitted, first, second);
      agent in c.accounts
      && (c.accounts[agent].used
            == b.accounts[agent].used + r.value.captured + Others(b, reservation, agent, measured, first, second)
          <==> StillHeld(b, reservation) || FromReservation(b, reservation, measured) == 0)
  {
    var b1 := CaptureFirst(b, reservation, measured).0;
    var b2 := PostAll(b1, first);
    CaptureKeepsAccounts(b, reservation, measured);
    LedgerKeepsAccounts(b1, first);
    LedgerKeepsAccounts(b2, second);
    assert b1.accounts[agent].used
      == b.accounts[agent].used
         + (if reservation.Some? && b.reservations[reservation.value].hold.Held?
            then FromReservation(b, reservation, measured) else 0);
  }

  // And the hard limit still holds.
  lemma {:induction false} SettlementKeepsWithinLimit(
    b: Books, reservation: Option<nat>, agent: string, measured: Option<int>, admitted: bool,
    first: seq<BillingOp>, second: seq<BillingOp>)
    requires Sane(b) && WithinLimit(b)
    ensures WithinLimit(SettleNode(b, reservation, agent, measured, admitted, first, second).0)
  {
    var b1 := CaptureFirst(b, reservation, measured).0;
    if reservation.Some? {
      var capture := ToCapture(reservation.value, Some(FromReservation(b, reservation, measured)));
      assert b1 == Post(b, capture);
      PostKeepsSane(b, capture);
      PostKeepsWithinLimit(b, capture);
    }
    var b2 := PostAll(b1, first);
    RunKeepsBoth(b1, first);
    RunKeepsBoth(b2, second);
    if agent in b2.accounts {
      var affordable := Affordable(b2, agent, Overrun(b, reservation, measured));
      PostKeepsWithinLimit(PostAll(b2, second), ToRecord(agent, affordable, admitted));
    }
  }

  lemma {:induction false} RunKeepsBoth(b: Books, ops: seq<BillingOp>)
    requires Sane(b) && WithinLimit(b)
    ensures Sane(PostAll(b, ops)) && WithinLimit(PostAll(b, ops))
    decreases |ops|
  {
    if ops != [] {
      PostKeepsSane(b, ops[0]);
      PostKeepsWithinLimit(b, ops[0]);
      RunKeepsBoth(Post(b, ops[0]), ops[1..]);
    }
  }

  // While others only reserve, capture, release and sweep, an admitted overrun is
  // recorded as far as the limit allows: nothing is left unrecorded while there is
  // headroom.
  lemma {:induction false} AloneRecordsAllItCan(
    b: Books, reservation: Option<nat>, agent: string, measured: int)
    requires Sane(b) && agent in b.accounts && WithinLimit(b) && OwnReservation(b, reservation, agent)
    ensures var (c, r) := SettleNode(b, reservation, agent, Some(measured), true, [], []);
      r.Ok? && r.value.unrecorded > 0 ==> agent in c.accounts && c.accounts[agent].used == c.accounts[agent].limit
  {
    var b1 := CaptureFirst(b, reservation, Some(measured)).0;
    if reservation.Some? {
      var capture := ToCapture(reservation.value, Some(FromReservation(b, reservation, Some(measured))));
      assert b1 == Post(b, capture);
      PostKeepsWithinLimit(b, capture);
    }
  }

  // A node is let run only with headroom or with a reservation under its own
  // attempt's key, and a new reservation leaves every promise covered.
  lemma {:induction false} HoldIsBacked(
    b: Books, agent: string, node: nat, attempt: nat, minor: int, admitted: bool)
    requires Sane(b) && Covered(b)
    ensures var (c, r) := HoldNode(b, agent, node, attempt, minor, admitted);
      && Covered(c)
      && (r.Ok? && r.value.NothingToHold? ==> c == b && b.accounts[agent].used < b.accounts[agent].limit)
      && (r.Ok? && r.value.HeldAs? ==>
            && r.value.reservation < |c.reservations|
            && c.reservations[r.value.reservation].agent == agent
            && c.reservations[r.value.reservation].key == AttemptKey(node, attempt)
            && (Existing(b.reservations, agent, AttemptKey(node, attempt)).None? ==>
                  c.reservations[r.value.reservation]
                    == Reservation(agent, minor, AttemptKey(node, attempt), Held, 0, 0)))
      && (r.Err? ==> c == b)
  {
    PostKeepsCovered(b, ToReserve(agent, minor, AttemptKey(node, attempt), admitted));
  }

  // ---- The hold of a node that ran ----------------------------------------

  // What a finished node is charged: what was measured, or else what was held, and
  // never more than that.
  function Charge(b: Books, id: nat, minor: int, measured: Option<int>): int
    requires id < |b.reservations|
  {
    Least(if measured.None? then minor else Least(measured.value, minor), b.reservations[id].amount)
  }

  // captureNodeBudget or releaseNodeBudget; a refusal is swallowed.
  function CloseHold(b: Books, hold: NodeHold, minor: int, finished: bool, measured: Option<int>): Books {
    if hold.NothingToHold? || hold.reservation >= |b.reservations| then b
    else if !finished then Release(b, hold.reservation).0
    else Capture(b, hold.reservation, Some(Charge(b, hold.reservation, minor, measured))).0
  }

  // A hold outlives its node exactly when the node finished and direct charges have
  // meanwhile used up the headroom it was promised.
  lemma {:induction false} HoldSurvivesIff(b: Books, id: nat, minor: int, finished: bool, measured: Option<int>)
    requires Sane(b) && minor > 0 && (measured.Some? ==> measured.value >= 0)
    requires id < |b.reservations| && b.reservations[id].hold.Held? && b.reservations[id].agent in b.accounts
    ensures var account := b.accounts[b.reservations[id].agent];
      CloseHold(b, HeldAs(id), minor, finished, measured).reservations[id].hold.Held?
      <==> finished && account.used + Charge(b, id, minor, measured) + Competing(b, id) > account.limit
  {
  }

  lemma {:induction false} ClosedWhenCovered(
    c: Books, id: nat, others: seq<BillingOp>, minor: int, finished: bool, measured: Option<int>)
    requires Sane(c) && Covered(c) && minor > 0 && (measured.Some? ==> measured.value >= 0)
    requires id < |c.reservations| && c.reservations[id].agent in c.accounts
    requires forall o | o in others :: !o.ToRecord?
    ensures var d := CloseHold(PostAll(c, others), HeldAs(id), minor, finished, measured);
      Covered(d) && id < |d.reservations| && !d.reservations[id].hold.Held?
  {
    var b := PostAll(c, others);
    RunKeepsCovered(c, others);
    RunKeepsReservation(c, others, id);
    LedgerKeepsAccounts(c, others);
    var op := if finished then ToCapture(id, Some(Charge(b, id, minor, measured))) else ToRelease(id);
    assert CloseHold(b, HeldAs(id), minor, finished, measured) == Post(b, op);
    PostKeepsCovered(b, op);
    if b.reservations[id].hold.Held? {
      CaptureNeverHitsLimit(c, others, id, Some(Charge(b, id, minor, measured)));
    }
  }

  lemma {:induction false} CloseHoldEffect(b: Books, id: nat, minor: int, finished: bool, measured: Option<int>)
    requires Sane(b) && Covered(b) && minor > 0 && (measured.Some? ==> measured.value >= 0)
    requires id < |b.reservations| && b.reservations[id].hold.Held? && b.reservations[id].agent in b.accounts
    ensures var d, agent := CloseHold(b, HeldAs(id), minor, finished, measured), b.reservations[id].agent;
      && Covered(d) && |d.reservations| == |b.reservations| && !d.reservations[id].hold.Held?
      && (forall i | 0 <= i < |b.reservations| && i != id :: d.reservations[i] == b.reservations[i])
      && agent in d.accounts
      && d.accounts[agent].used == b.accounts[agent].used + if finished then Charge(b, id, minor, measured) else 0
  {
    ClosedWhenCovered(b, id, [], minor, finished, measured);
  }

  // A reservation under a new key is appended as it was asked for.
  lemma NewHold(b: Books, agent: string, node: nat, attempt: nat, minor: int, admitted: bool)
    requires Existing(b.reservations, agent, AttemptKey(node, attempt)).None?
    ensures var (c, r) := HoldNode(b, agent, node, attempt, minor, admitted);
      && c.accounts == b.accounts
      && (r.Ok? && r.value.HeldAs? ==>
            && minor > 0 && r.value.reservation == |b.reservations|
            && c.reservations
                 == b.reservations + [Reservation(agent, minor, AttemptKey(node, attempt), Hold.Held, 0, 0)])
      && (r.Err? || r.value.NothingToHold? ==> c == b)
      && (r.Ok? && r.value.NothingToHold? ==> minor <= 0)
  {
  }

  // As long as others only reserve, capture, release and sweep, it never does.
  lemma {:induction false} HoldNeverSurvives(
    b: Books, agent: string, node: nat, attempt: nat, minor: int, admitted: bool,
    others: seq<BillingOp>, finished: bool, measured: Option<int>)
    requires Sane(b) && Covered(b) && (measured.Some? ==> measured.value >= 0)
    requires forall o | o in others :: !o.ToRecord?
    ensures var (c, hold) := HoldNode(b, agent, node, attempt, minor, admitted);
      hold.Ok? && hold.value.HeldAs? ==>
        var d := CloseHold(PostAll(c, others), hold.value, minor, finished, measured);
        && Covered(d)
        && hold.value.reservation < |d.reservations|
        && !d.reservations[hold.value.reservation].hold.Held?
  {
    var (c, hold) := HoldNode(b, agent, node, attempt, minor, admitted);
    if hold.Ok? && hold.value.HeldAs? {
      HoldIsBacked(b, agent, node, attempt, minor, admitted);
      PostKeepsSane(b, ToReserve(agent, minor, AttemptKey(node, attempt), admitted));
      ClosedWhenCovered(c, hold.value.reservation, others, minor, finished, measured);
    }
  }
}
