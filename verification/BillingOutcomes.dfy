// What each transaction of the ledger grants, and exactly when it refuses, said in
// amounts (src/billing.js, lines 52-230; src/agent-manager.js, lines 335-404;
// src/jev-budget.js, lines 53-184).

module BillingOutcomes {
  import opened Basics
  import opened Books
  import opened Billing

  // The books with this reservation taken on.
  function WithHold(b: Books, agent: string, amount: int, key: string): Books {
    b.(reservations := b.reservations + [Reservation(agent, amount, key, Held, 0, 0)])
  }

  // What an agent has spent and has promised.
  function Committed(b: Books, agent: string): int
    requires agent in b.accounts
  {
    b.accounts[agent].used + Open(b.reservations, agent)
  }

  predicate Unused(b: Books, agent: string, key: string) {
    forall i | 0 <= i < |b.reservations| :: b.reservations[i].agent != agent || b.reservations[i].key != key
  }

  // A reservation asked for under a fresh key is refused exactly when taking it on
  // would commit the agent beyond its limit, and is otherwise taken on as it was asked.
  lemma ReserveRefusedIff(b: Books, agent: string, amount: int, key: string)
    requires agent in b.accounts && amount >= 0 && !Blank(key) && Unused(b, agent, key)
    ensures var (c, r) := Reserve(b, agent, amount, key, true);
      if Committed(WithHold(b, agent, amount, key), agent) > b.accounts[agent].limit
      then r == Err(HardLimit) && c == b
      else r == Ok(|b.reservations|) && c == WithHold(b, agent, amount, key)
  {
    hide Trim, Open, Blank;
    TrimIsBlank(key);
    OpenAfterPush(b.reservations, Reservation(agent, amount, key, Held, 0, 0), agent);
  }

  // Everything else that can be wrong with the request, in the order it is looked at;
  // and a key presented before is answered with what it was given then.
  lemma ReserveTurnsAway(b: Books, agent: string, amount: int, key: string, admitted: bool)
    ensures var (c, r) := Reserve(b, agent, amount, key, admitted);
      && (r == Err(BadAmount) <==> amount < 0)
      && (r == Err(NoKey) <==> amount >= 0 && Blank(key))
      && (r == Err(NoAgent) <==> amount >= 0 && !Blank(key) && agent !in b.accounts)
      && (r == Err(HourlyLimit) <==> amount >= 0 && !Blank(key) && agent in b.accounts && !admitted)
      && (r == Err(HardLimit) ==> Unused(b, agent, key))
      && (amount >= 0 && !Blank(key) && agent in b.accounts && admitted && !Unused(b, agent, key) ==>
            && c == b && r.Ok? && r.value < |b.reservations|
            && b.reservations[r.value].agent == agent && b.reservations[r.value].key == key)
      && (r.Err? ==> c == b)
  {
    TrimIsBlank(key);
  }

  // The books with reservation `id` settled for this amount.
  function WithCapture(b: Books, id: nat, amount: int): Books
    requires id < |b.reservations| && b.reservations[id].agent in b.accounts
  {
    var r := b.reservations[id];
    Books(b.accounts[r.agent := b.accounts[r.agent].(used := b.accounts[r.agent].used + amount)],
          b.reservations[id := Reservation(r.agent, r.amount, r.key, Hold.Captured, amount, r.amount - amount)],
          b.rows + [Row(r.agent, Some(id), amount)])
  }

  // An open reservation is captured for the amount given, or whole: refused exactly for
  // a negative amount, for more than was reserved, and where the books would then commit
  // the agent beyond its limit.
  lemma CaptureRefusedIff(b: Books, id: nat, actual: Option<int>)
    requires id < |b.reservations| && b.reservations[id].hold.Held? && b.reservations[id].agent in b.accounts
    ensures var (c, r) := Capture(b, id, actual);
      var amount := if actual.None? then b.reservations[id].amount else actual.value;
      var agent := b.reservations[id].agent;
      && (r == Err(BadAmount) <==> actual.Some? && amount < 0)
      && (r == Err(OverReservation) <==> amount >= 0 && amount > b.reservations[id].amount)
      && (r == Err(HardLimit) <==>
            && (actual.Some? ==> 0 <= amount <= b.reservations[id].amount)
            && Committed(WithCapture(b, id, amount), agent) > b.accounts[agent].limit)
      && (r.Err? ==> c == b && (r.error.BadAmount? || r.error.OverReservation? || r.error.HardLimit?))
      && (r.Ok? ==> r.value == id && c == WithCapture(b, id, amount))
  {
    var amount := if actual.None? then b.reservations[id].amount else actual.value;
    OpenAfterUpdate(b.reservations, id, WithCapture(b, id, amount).reservations[id], b.reservations[id].agent);
  }

  // Capturing again, or what was given back, changes nothing.
  lemma CaptureOnlyOpen(b: Books, id: nat, actual: Option<int>)
    requires id < |b.reservations| ==> !b.reservations[id].hold.Held?
    ensures Capture(b, id, actual)
      == (b, if id >= |b.reservations| then Err(NoReservation)
             else if b.reservations[id].hold.Captured? then Ok(id) else Err(NotCapturable))
  {
  }

  lemma ReleaseOnlyOpen(b: Books, id: nat)
    ensures var (c, r) := Release(b, id);
      && (r == Err(NoReservation) <==> id >= |b.reservations|)
      && (r == Err(NotReleasable) <==> id < |b.reservations| && b.reservations[id].hold.Captured?)
      && (r.Err? <==> id >= |b.reservations| || b.reservations[id].hold.Captured?)
      && (r.Ok? ==> r.value == id)
      && c.accounts == b.accounts && c.rows == b.rows && |c.reservations| == |b.reservations|
      && (forall i | 0 <= i < |b.reservations| ::
            c.reservations[i] == if i == id && b.reservations[i].hold.Held?
                                 then b.reservations[i].(hold := Released) else b.reservations[i])
  {
  }

  // A direct charge is refused exactly when what is spent would pass the limit; open
  // reservations are not looked at.
  lemma RecordRefusedIff(b: Books, agent: string, amount: int, admitted: bool)
    ensures var (c, r) := Record(b, agent, amount, admitted);
      && (r == Err(BadAmount) <==> amount < 0)
      && (r == Err(NoAgent) <==> amount >= 0 && agent !in b.accounts)
      && (r == Err(HourlyLimit) <==> amount >= 0 && agent in b.accounts && !admitted)
      && (r == Err(HardLimit) <==>
            amount >= 0 && agent in b.accounts && admitted && b.accounts[agent].used + amount > b.accounts[agent].limit)
      && (r.Err? ==> c == b && (r.error.BadAmount? || r.error.NoAgent? || r.error.HourlyLimit? || r.error.HardLimit?))
      && (r.Ok? ==>
            && c.reservations == b.reservations && c.rows == b.rows + [Row(agent, None, amount)]
            && c.accounts == b.accounts[agent := Account(b.accounts[agent].limit, b.accounts[agent].used + amount)])
  {
  }

  // ---- A node ---------------------------------------------------------------

  // A node without a price may run exactly while there is headroom; one with a price
  // exactly when that price still fits beside everything promised, and it is then held
  // under the key of this attempt.
  lemma HoldRefusedIff(b: Books, agent: string, node: nat, attempt: nat, minor: int)
    requires agent in b.accounts && Unused(b, agent, "jev:" + Dec(node) + ":attempt:" + Dec(attempt))
    ensures var (c, r) := HoldNode(b, agent, node, attempt, minor, true);
      var held := WithHold(b, agent, minor, "jev:" + Dec(node) + ":attempt:" + Dec(attempt));
      if minor <= 0 then
        c == b && r == if b.accounts[agent].used < b.accounts[agent].limit then Ok(NothingToHold) else Err(HardLimit)
      else if Committed(held, agent) > b.accounts[agent].limit then c == b && r == Err(HardLimit)
      else c == held && r == Ok(HeldAs(|b.reservations|))
  {
    var key := "jev:" + Dec(node) + ":attempt:" + Dec(attempt);
    assert key[0] == 'j' && key == AttemptKey(node, attempt);
    if minor > 0 { ReserveRefusedIff(b, agent, minor, key); }
  }

  // Undisturbed, on books that cover every promise: settling an open reservation for
  // what was measured spends exactly that, or all that the limit leaves, and what is
  // not recorded is reported; without a measurement the whole reservation is spent.
  lemma SettledAlone(b: Books, id: nat, measured: Option<int>)
    requires Sane(b) && Covered(b)
    requires id < |b.reservations| && b.reservations[id].hold.Held? && b.reservations[id].agent in b.accounts
    ensures var agent := b.reservations[id].agent;
      var (c, r) := SettleNode(b, Some(id), agent, measured, true, [], []);
      var due := if measured.None? then b.reservations[id].amount else Most(0, measured.value);
      var spent := Least(due, b.accounts[agent].limit - b.accounts[agent].used);
      && agent in c.accounts && c.accounts[agent].used == b.accounts[agent].used + spent
      && r == Ok(Settlement(spent, b.reservations[id].amount, Most(0, due - b.reservations[id].amount), due - spent))
  {
    var agent, own := b.reservations[id].agent, b.reservations[id];
    var rest := b.reservations[id := own.(hold := Released)];
    OpenAfterUpdate(b.reservations, id, own.(hold := Released), agent);
    OpenAfterFewer(rest, rest, agent);
  }

  // Without a reservation all that was measured is charged directly, as far as the limit
  // leaves room, unless the hourly ceiling refuses it; the rest is reported.
  lemma SettledUnheld(b: Books, agent: string, measured: Option<int>, admitted: bool)
    requires agent in b.accounts && b.accounts[agent].used <= b.accounts[agent].limit
    ensures var (c, r) := SettleNode(b, None, agent, measured, admitted, [], []);
      var due := if measured.None? then 0 else Most(0, measured.value);
      var spent := if admitted then Least(due, b.accounts[agent].limit - b.accounts[agent].used) else 0;
      && agent in c.accounts && c.accounts[agent].used == b.accounts[agent].used + spent
      && c.reservations == b.reservations && r == Ok(Settlement(spent, 0, due, due - spent))
  {
  }

  // Releasing what was held for some nodes gives back exactly the open reservations of
  // their attempts.
  lemma ReleasedAre(before: seq<Reservation>, after: seq<Reservation>, nodes: seq<nat>)
    requires ReleasedFor(before, after, nodes)
    ensures |after| == |before|
    ensures forall i, node, attempt |
      && 0 <= i < |before| && before[i].key == "jev:" + Dec(node) + ":attempt:" + Dec(attempt) ::
      after[i] == if node in nodes && before[i].hold.Held? then before[i].(hold := Released) else before[i]
  {
    hide Dec;
    forall i, node, attempt |
      && 0 <= i < |before| && before[i].key == "jev:" + Dec(node) + ":attempt:" + Dec(attempt)
      ensures after[i] == if node in nodes && before[i].hold.Held? then before[i].(hold := Released) else before[i]
    {
      assert before[i].key == AttemptKey(node, attempt);
      forall other: nat ensures HeldFor(before[i], other) <==> before[i].hold.Held? && other == node {
        PrefixIsOwn(other, node, attempt);
      }
    }
  }
}
