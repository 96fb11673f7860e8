// The budget ledger as a value: accounts, reservations and ledger rows, and what
// each transaction of src/billing.js and recordSpend (src/agent-manager.js, lines
// 335-404) makes of them. Money is in integer minor units.

module Books {
  import opened Basics

  datatype Account = Account(limit: int, used: int)

  datatype Hold = Held | Captured | Released

  datatype Reservation = Reservation(
    agent: string, amount: int, key: string, hold: Hold, captured: int, released: int)

  datatype Row = Row(agent: string, reservation: Option<nat>, amount: int)

  // A reservation's id is its position.
  datatype Books = Books(accounts: map<string, Account>, reservations: seq<Reservation>, rows: seq<Row>)

  datatype Refusal =
    | BadAmount | NoKey | NoAgent | HourlyLimit | HardLimit
    | NoReservation | NotCapturable | OverReservation | NotReleasable

  // The sum of an agent's open reservations.
  function Open(rs: seq<Reservation>, agent: string): int {
    if rs == [] then 0
    else
      var last := rs[|rs| - 1];
      Open(rs[..|rs| - 1], agent) + (if last.agent == agent && last.hold.Held? then last.amount else 0)
  }

  function Existing(rs: seq<Reservation>, agent: string, key: string): (r: Option<nat>)
    ensures r.Some? ==> r.value < |rs| && rs[r.value].agent == agent && rs[r.value].key == key
    ensures r.None? ==> forall i | 0 <= i < |rs| :: !(rs[i].agent == agent && rs[i].key == key)
  {
    if rs == [] then None
    else if rs[0].agent == agent && rs[0].key == key then Some(0)
    else match Existing(rs[1..], agent, key)
      case None => None
      case Some(i) => Some(i + 1)
  }

  // ---- The transactions ---------------------------------------------------

  // `admitted` is the tenant's hourly ceiling, read before the transaction.
  function Reserve(b: Books, agent: string, amount: int, key: string, admitted: bool): (Books, Result<nat, Refusal>) {
    if amount < 0 then (b, Err(BadAmount))
    else if Trim(key) == "" then (b, Err(NoKey))
    else if agent !in b.accounts then (b, Err(NoAgent))
    else if !admitted then (b, Err(HourlyLimit))
    else match Existing(b.reservations, agent, key)
      case Some(id) => (b, Ok(id))
      case None =>
        if b.accounts[agent].used + Open(b.reservations, agent) + amount > b.accounts[agent].limit
        then (b, Err(HardLimit))
        else (b.(reservations := b.reservations + [Reservation(agent, amount, key, Held, 0, 0)]),
              Ok(|b.reservations|))
  }

  function Competing(b: Books, id: nat): int
    requires id < |b.reservations|
  {
    Open(b.reservations, b.reservations[id].agent)
    - (if b.reservations[id].hold.Held? then b.reservations[id].amount else 0)
  }

  // Without an actual amount the whole reservation is captured.
  function Capture(b: Books, id: nat, actual: Option<int>): (Books, Result<nat, Refusal>) {
    if id >= |b.reservations| then (b, Err(NoReservation))
    else
      var r := b.reservations[id];
      if r.hold.Captured? then (b, Ok(id))
      else if !r.hold.Held? then (b, Err(NotCapturable))
      else if r.agent !in b.accounts then (b, Err(NoAgent))
      else if actual.Some? && actual.value < 0 then (b, Err(BadAmount))
      else if actual.Some? && actual.value > r.amount then (b, Err(OverReservation))
      else
        var captured := if actual.Some? then actual.value else r.amount;
        var account := b.accounts[r.agent];
        if account.used + captured + Competing(b, id) > account.limit then (b, Err(HardLimit))
        else (Books(b.accounts[r.agent := account.(used := account.used + captured)],
                    b.reservations[id := r.(hold := Captured, captured := captured, released := r.amount - captured)],
                    b.rows + [Row(r.agent, Some(id), captured)]),
              Ok(id))
  }

  function Release(b: Books, id: nat): (Books, Result<nat, Refusal>) {
    if id >= |b.reservations| then (b, Err(NoReservation))
    else if b.reservations[id].hold.Released? then (b, Ok(id))
    else if !b.reservations[id].hold.Held? then (b, Err(NotReleasable))
    else (b.(reservations := b.reservations[id := b.reservations[id].(hold := Released)]), Ok(id))
  }

  // A direct charge; open reservations are not looked at.
  function Record(b: Books, agent: string, amount: int, admitted: bool): (Books, Result<nat, Refusal>) {
    if amount < 0 then (b, Err(BadAmount))
    else if agent !in b.accounts then (b, Err(NoAgent))
    else if !admitted then (b, Err(HourlyLimit))
    else
      var account := b.accounts[agent];
      if account.used + amount > account.limit then (b, Err(HardLimit))
      else (b.(accounts := b.accounts[agent := account.(used := account.used + amount)],
               rows := b.rows + [Row(agent, None, amount)]),
            Ok(|b.rows|))
  }

  // The sweep's release of everything held for a node, whichever attempt held it.
  function AttemptPrefix(node: nat): string {
    "jev:" + Dec(node) + ":attempt:"
  }

  function AttemptKey(node: nat, attempt: nat): string {
    AttemptPrefix(node) + Dec(attempt)
  }

  predicate HeldFor(r: Reservation, node: nat) {
    r.hold.Held? && AttemptPrefix(node) <= r.key
  }

  function ReleaseNode(b: Books, node: nat): (c: Books)
    ensures c.accounts == b.accounts && c.rows == b.rows && |c.reservations| == |b.reservations|
    ensures forall i | 0 <= i < |b.reservations| ::
      var r := b.reservations[i];
      c.reservations[i] == if HeldFor(r, node) then r.(hold := Released) else r
  {
    b.(reservations := seq(|b.reservations|, i requires 0 <= i < |b.reservations| =>
      if HeldFor(b.reservations[i], node) then b.reservations[i].(hold := Released) else b.reservations[i]))
  }

  // The open reservations of these nodes are released; nothing else differs.
  ghost predicate ReleasedFor(before: seq<Reservation>, after: seq<Reservation>, nodes: seq<nat>) {
    |after| == |before| && forall i | 0 <= i < |before| ::
      after[i] == if SomeHolds(before[i], nodes) then before[i].(hold := Released) else before[i]
  }

  ghost predicate SomeHolds(r: Reservation, nodes: seq<nat>) {
    exists node :: node in nodes && HeldFor(r, node)
  }

  lemma ReleasedThen(a: seq<Reservation>, b: seq<Reservation>, c: seq<Reservation>, first: seq<nat>, more: seq<nat>)
    requires ReleasedFor(a, b, first) && ReleasedFor(b, c, more)
    ensures ReleasedFor(a, c, first + more)
  {
    forall i | 0 <= i < |a|
      ensures c[i] == if SomeHolds(a[i], first + more) then a[i].(hold := Released) else a[i]
    {
      assert SomeHolds(a[i], first + more) <==> SomeHolds(a[i], first) || SomeHolds(a[i], more) by {
        assert forall n :: n in first + more <==> n in first || n in more;
      }
    }
  }

  // A node's prefix matches its own keys and no other node's.
  lemma {:induction false} PrefixIsOwn(node: nat, other: nat, attempt: nat)
    ensures AttemptPrefix(node) <= AttemptKey(other, attempt) <==> node == other
  {
    hide Dec, AllDigits;
    if AttemptPrefix(node) <= AttemptKey(other, attempt) {
      WithoutHead("jev:", Dec(node), ":attempt:", Dec(other), Dec(attempt));
      ColonFirst(Dec(attempt));
      hide AttemptPrefix, AttemptKey;
      DigitsEndAtColon(Dec(node), ":attempt:", Dec(other), ":attempt:" + Dec(attempt));
      DecInjective(node, other);
    }
  }

  lemma ColonFirst(rest: string)
    ensures ":attempt:" != "" && ":attempt:"[0] == (":attempt:" + rest)[0] == ':'
  {
  }

  lemma WithoutHead(head: string, x: string, tail: string, y: string, rest: string)
    requires head + x + tail <= head + y + tail + rest
    ensures x + tail <= y + (tail + rest)
  {
    var n := |head|;
    assert (head + x + tail)[n..] == x + tail;
    assert (head + y + tail + rest)[n..] == y + (tail + rest);
  }

  lemma {:induction false} DigitsEndAtColon(x: string, s: string, y: string, t: string)
    requires AllDigits(x) && AllDigits(y) && s != "" && t != "" && s[0] == t[0] == ':'
    requires x + s <= y + t
    ensures x == y
  {
    assert (x + s)[0] == if x == [] then ':' else x[0];
    assert (y + t)[0] == if y == [] then ':' else y[0];
    assert x != [] ==> IsDigit(x[0]);
    assert y != [] ==> IsDigit(y[0]);
    if x != [] {
      assert (x + s)[1..] == x[1..] + s && (y + t)[1..] == y[1..] + t;
      DigitsEndAtColon(x[1..], s, y[1..], t);
    }
  }

  // ---- Any interleaving ---------------------------------------------------

  datatype BillingOp =
    | ToReserve(agent: string, amount: int, key: string, admitted: bool)
    | ToCapture(id: nat, actual: Option<int>)
    | ToRelease(id: nat)
    | ToRecord(agent: string, amount: int, admitted: bool)
    | ToSweep(node: nat)

  function Post(b: Books, op: BillingOp): Books {
    match op
    case ToReserve(agent, amount, key, admitted) => Reserve(b, agent, amount, key, admitted).0
    case ToCapture(id, actual) => Capture(b, id, actual).0
    case ToRelease(id) => Release(b, id).0
    case ToRecord(agent, amount, admitted) => Record(b, agent, amount, admitted).0
    case ToSweep(node) => ReleaseNode(b, node)
  }

  function PostAll(b: Books, ops: seq<BillingOp>): Books
    decreases |ops|
  {
    if ops == [] then b else PostAll(Post(b, ops[0]), ops[1..])
  }

  // ---- Sums ---------------------------------------------------------------

  lemma {:induction false} OpenAfterUpdate(rs: seq<Reservation>, i: nat, r: Reservation, agent: string)
    requires i < |rs|
    ensures Open(rs[i := r], agent)
      == Open(rs, agent)
         - (if rs[i].agent == agent && rs[i].hold.Held? then rs[i].amount else 0)
         + (if r.agent == agent && r.hold.Held? then r.amount else 0)
  {
    var n := |rs| - 1;
    if i == n {
      assert rs[i := r][..n] == rs[..n];
    } else {
      OpenAfterUpdate(rs[..n], i, r, agent);
      assert rs[i := r][..n] == rs[..n][i := r];
    }
  }

  lemma OpenAfterPush(rs: seq<Reservation>, r: Reservation, agent: string)
    ensures Open(rs + [r], agent) == Open(rs, agent) + (if r.agent == agent && r.hold.Held? then r.amount else 0)
  {
    assert (rs + [r])[..|rs|] == rs;
  }

  lemma {:induction false} OpenAfterFewer(rs: seq<Reservation>, qs: seq<Reservation>, agent: string)
    requires |qs| == |rs|
    requires forall i | 0 <= i < |rs| :: rs[i].amount >= 0 && (qs[i] == rs[i] || qs[i] == rs[i].(hold := Released))
    ensures 0 <= Open(qs, agent) <= Open(rs, agent)
  {
    if rs != [] { OpenAfterFewer(rs[..|rs| - 1], qs[..|qs| - 1], agent); }
  }

  // ---- The hard limit -----------------------------------------------------

  ghost predicate Sane(b: Books) {
    forall i | 0 <= i < |b.reservations| :: b.reservations[i].amount >= 0
  }

  // Everything spent and everything promised fits the limit.
  ghost predicate Covered(b: Books) {
    forall a | a in b.accounts :: b.accounts[a].used + Open(b.reservations, a) <= b.accounts[a].limit
  }

  ghost predicate WithinLimit(b: Books) {
    forall a | a in b.accounts :: b.accounts[a].used <= b.accounts[a].limit
  }

  lemma {:induction false} PostKeepsSane(b: Books, op: BillingOp)
    requires Sane(b)
    ensures Sane(Post(b, op))
  {
  }

  lemma {:induction false} CoveredIsWithinLimit(b: Books)
    requires Sane(b) && Covered(b)
    ensures WithinLimit(b)
  {
    forall a | a in b.accounts ensures b.accounts[a].used <= b.accounts[a].limit {
      OpenAfterFewer(b.reservations, b.reservations, a);
    }
  }

  // Reserving, capturing, releasing and sweeping, in any order, never promise more
  // than there is.
  lemma {:induction false} PostKeepsCovered(b: Books, op: BillingOp)
    requires Sane(b) && Covered(b) && !op.ToRecord?
    ensures Covered(Post(b, op))
  {
    var c := Post(b, op);
    forall a | a in c.accounts ensures c.accounts[a].used + Open(c.reservations, a) <= c.accounts[a].limit {
      match op
      case ToReserve(agent, amount, key, admitted) =>
        OpenAfterPush(b.reservations, Reservation(agent, amount, key, Held, 0, 0), a);
      case ToCapture(id, _) =>
        if c != b { OpenAfterUpdate(b.reservations, id, c.reservations[id], a); }
      case ToRelease(id) =>
        if c != b { OpenAfterUpdate(b.reservations, id, c.reservations[id], a); }
      case ToSweep(_) => OpenAfterFewer(b.reservations, c.reservations, a);
      case ToRecord(_, _, _) =>
    }
  }

  lemma {:induction false} RunKeepsCovered(b: Books, ops: seq<BillingOp>)
    requires Sane(b) && Covered(b) && forall op | op in ops :: !op.ToRecord?
    ensures Sane(PostAll(b, ops)) && Covered(PostAll(b, ops))
    decreases |ops|
  {
    if ops != [] {
      PostKeepsSane(b, ops[0]);
      PostKeepsCovered(b, ops[0]);
      RunKeepsCovered(Post(b, ops[0]), ops[1..]);
    }
  }

  // So the limit check inside a capture never fires.
  lemma {:induction false} CaptureNeverHitsLimit(b: Books, ops: seq<BillingOp>, id: nat, actual: Option<int>)
    requires Sane(b) && Covered(b) && forall op | op in ops :: !op.ToRecord?
    ensures Capture(PostAll(b, ops), id, actual).1 != Err(HardLimit)
  {
    RunKeepsCovered(b, ops);
  }

  // A direct charge leaves the promises covered exactly when it is refused or
  // there was room for it beside every open reservation.
  lemma {:induction false} RecordKeepsCoveredIff(b: Books, agent: string, amount: int, admitted: bool)
    requires Sane(b) && Covered(b)
    ensures Covered(Record(b, agent, amount, admitted).0)
      <==> Record(b, agent, amount, admitted).1.Err?
           || b.accounts[agent].used + Open(b.reservations, agent) + amount <= b.accounts[agent].limit
  {
  }

  // With direct charges in between, what is spent still never passes the limit.
  lemma {:induction false} PostKeepsWithinLimit(b: Books, op: BillingOp)
    requires Sane(b) && WithinLimit(b)
    ensures WithinLimit(Post(b, op))
  {
    if op.ToCapture? && op.id < |b.reservations| {
      var r := b.reservations[op.id];
      var freed := b.reservations[op.id := r.(hold := Released)];
      OpenAfterUpdate(b.reservations, op.id, r.(hold := Released), r.agent);
      OpenAfterFewer(freed, freed, r.agent);
    }
  }

  lemma {:induction false} RunKeepsWithinLimit(b: Books, ops: seq<BillingOp>)
    requires Sane(b) && WithinLimit(b)
    ensures WithinLimit(PostAll(b, ops))
    decreases |ops|
  {
    if ops != [] {
      PostKeepsSane(b, ops[0]);
      PostKeepsWithinLimit(b, ops[0]);
      RunKeepsWithinLimit(Post(b, ops[0]), ops[1..]);
    }
  }

  // ---- The ledger agrees --------------------------------------------------

  function Spent(rows: seq<Row>, agent: string): int {
    if rows == [] then 0
    else Spent(rows[..|rows| - 1], agent) + (if rows[|rows| - 1].agent == agent then rows[|rows| - 1].amount else 0)
  }

  function RowsFor(rows: seq<Row>, id: nat): nat {
    if rows == [] then 0
    else RowsFor(rows[..|rows| - 1], id) + (if rows[|rows| - 1].reservation == Some(id) then 1 else 0)
  }

  lemma SpentAfterRow(rows: seq<Row>, row: Row, agent: string)
    ensures Spent(rows + [row], agent) == Spent(rows, agent) + (if row.agent == agent then row.amount else 0)
  {
    assert (rows + [row])[..|rows|] == rows;
  }

  lemma RowsAfterRow(rows: seq<Row>, row: Row, id: nat)
    ensures RowsFor(rows + [row], id) == RowsFor(rows, id) + (if row.reservation == Some(id) then 1 else 0)
  {
    assert (rows + [row])[..|rows|] == rows;
  }

  // What an agent has spent outside the ledger's rows.
  function Outside(b: Books, agent: string): int
    requires agent in b.accounts
  {
    b.accounts[agent].used - Spent(b.rows, agent)
  }

  // One row for a captured reservation, of the captured amount; none for any other.
  ghost predicate Filed(b: Books) {
    && (forall i | 0 <= i < |b.reservations| ::
          var r := b.reservations[i];
          && RowsFor(b.rows, i) == (if r.hold.Captured? then 1 else 0)
          && (r.hold.Captured? ==> 0 <= r.captured <= r.amount && r.captured + r.released == r.amount))
    && (forall i: nat | i >= |b.reservations| :: RowsFor(b.rows, i) == 0)
    && (forall x, id: nat | 0 <= x < |b.rows| && b.rows[x].reservation == Some(id) ::
          && id < |b.reservations| && b.reservations[id].hold.Captured?
          && b.rows[x].amount == b.reservations[id].captured && b.rows[x].agent == b.reservations[id].agent)
  }

  lemma {:induction false} PostKeepsAgreement(b: Books, op: BillingOp)
    ensures Post(b, op).accounts.Keys == b.accounts.Keys
    ensures forall a | a in b.accounts ::
      Outside(Post(b, op), a) == Outside(b, a) && Post(b, op).accounts[a].limit == b.accounts[a].limit
  {
    forall a | a in b.accounts ensures Outside(Post(b, op), a) == Outside(b, a) {
      match op
      case ToCapture(id, _) =>
        if Post(b, op) != b { SpentAfterRow(b.rows, Post(b, op).rows[|b.rows|], a); }
      case ToRecord(agent, amount, _) => SpentAfterRow(b.rows, Row(agent, None, amount), a);
      case _ =>
    }
  }

  lemma {:induction false} PostKeepsFiled(b: Books, op: BillingOp)
    requires Sane(b) && Filed(b)
    ensures Filed(Post(b, op))
  {
    match op
    case ToCapture(id, _) => if Post(b, op) != b { CaptureIsFiled(b, id, op.actual); }
    case ToRecord(agent, amount, _) =>
      forall i ensures RowsFor(b.rows + [Row(agent, None, amount)], i) == RowsFor(b.rows, i) {
        RowsAfterRow(b.rows, Row(agent, None, amount), i);
      }
    case _ =>
  }

  lemma {:induction false} CaptureIsFiled(b: Books, id: nat, actual: Option<int>)
    requires Sane(b) && Filed(b) && Capture(b, id, actual).0 != b
    ensures Filed(Capture(b, id, actual).0)
  {
    var c := Capture(b, id, actual).0;
    forall i: nat ensures RowsFor(c.rows, i) == RowsFor(b.rows, i) + (if i == id then 1 else 0) {
      RowsAfterRow(b.rows, c.rows[|b.rows|], i);
    }
  }

  // Over any run: an agent's spend is what it was plus the rows added since; a
  // captured reservation has exactly one row, of the captured amount, and any other
  // reservation none; and what was captured and released adds up to what was held.
  lemma {:induction false} LedgerAgrees(b: Books, ops: seq<BillingOp>)
    requires Sane(b) && Filed(b)
    ensures Filed(PostAll(b, ops)) && PostAll(b, ops).accounts.Keys == b.accounts.Keys
    ensures forall a | a in b.accounts :: Outside(PostAll(b, ops), a) == Outside(b, a)
    decreases |ops|
  {
    if ops != [] {
      PostKeepsSane(b, ops[0]);
      PostKeepsFiled(b, ops[0]);
      PostKeepsAgreement(b, ops[0]);
      LedgerAgrees(Post(b, ops[0]), ops[1..]);
    }
  }

  // A reservation once made stays at its place under its key, so presenting the key
  // again at any later time finds it and adds nothing.
  lemma {:induction false} PostKeepsReservation(b: Books, op: BillingOp, id: nat)
    requires id < |b.reservations|
    ensures id < |Post(b, op).reservations|
    ensures var r, r' := b.reservations[id], Post(b, op).reservations[id];
      r'.agent == r.agent && r'.key == r.key && r'.amount == r.amount && (!r.hold.Held? ==> r' == r)
  {
  }

  lemma {:induction false} RunKeepsReservation(b: Books, ops: seq<BillingOp>, id: nat)
    requires id < |b.reservations|
    ensures id < |PostAll(b, ops).reservations|
    ensures var r, r' := b.reservations[id], PostAll(b, ops).reservations[id];
      r'.agent == r.agent && r'.key == r.key && r'.amount == r.amount && (!r.hold.Held? ==> r' == r)
    decreases |ops|
  {
    if ops != [] {
      PostKeepsReservation(b, ops[0], id);
      RunKeepsReservation(Post(b, ops[0]), ops[1..], id);
    }
  }

  lemma {:induction false} ReplayAddsNothing(
    b: Books, agent: string, amount: int, key: string, ops: seq<BillingOp>, amount': int, admitted: bool)
    requires Reserve(b, agent, amount, key, true).1.Ok?
    ensures Reserve(PostAll(Reserve(b, agent, amount, key, true).0, ops), agent, amount', key, admitted).0
      == PostAll(Reserve(b, agent, amount, key, true).0, ops)
  {
    var c := Reserve(b, agent, amount, key, true).0;
    RunKeepsReservation(c, ops, Reserve(b, agent, amount, key, true).1.value);
  }

  // ---- The sweep ----------------------------------------------------------

  // Nothing spent, nothing recorded; everything held for the node is given back and
  // nothing else is touched.
  lemma {:induction false} SweepGivesBack(b: Books, node: nat)
    requires Sane(b)
    ensures ReleaseNode(b, node).accounts == b.accounts && ReleaseNode(b, node).rows == b.rows
    ensures forall i, n, attempt | 0 <= i < |b.reservations| && b.reservations[i].key == AttemptKey(n, attempt) ::
      ReleaseNode(b, node).reservations[i]
      == (if n == node && b.reservations[i].hold.Held? then b.reservations[i].(hold := Released) else b.reservations[i])
    ensures forall a :: Open(ReleaseNode(b, node).reservations, a) <= Open(b.reservations, a)
  {
    forall i, n, attempt | 0 <= i < |b.reservations| && b.reservations[i].key == AttemptKey(n, attempt)
      ensures ReleaseNode(b, node).reservations[i]
        == (if n == node && b.reservations[i].hold.Held?
            then b.reservations[i].(hold := Released) else b.reservations[i])
    {
      PrefixIsOwn(node, n, attempt);
    }
    forall a ensures Open(ReleaseNode(b, node).reservations, a) <= Open(b.reservations, a) {
      OpenAfterFewer(b.reservations, ReleaseNode(b, node).reservations, a);
    }
  }
}
