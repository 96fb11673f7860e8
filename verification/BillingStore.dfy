// The ledger as the program keeps it: tables updated in place, one method per
// transaction, each doing exactly what the specification in Books and Billing says.

module BillingStore {
  import opened Basics
  import opened Books
  import opened Billing

  class BillingTables {
    var accounts: map<string, Account>
    var reservations: seq<Reservation>
    var rows: seq<Row>

    constructor (accounts: map<string, Account>)
      ensures Value() == Books(accounts, [], [])
    {
      this.accounts, this.reservations, this.rows := accounts, [], [];
    }

    function Value(): Books
      reads this
    {
      Books(accounts, reservations, rows)
    }

    // `db.billingReservations.find(...)`
    method FindByKey(agent: string, key: string) returns (r: Option<nat>)
      ensures r == Existing(reservations, agent, key)
    {
      for i := 0 to |reservations|
        invariant Existing(reservations, agent, key)
          == match Existing(reservations[i..], agent, key) case None => None case Some(j) => Some(i + j)
      {
        if reservations[i].agent == agent && reservations[i].key == key { return Some(i); }
        assert reservations[i..][1..] == reservations[i + 1..];
      }
      return None;
    }

    // `.filter(open, of this agent, not this one).reduce(sum)`
    method SumOpen(agent: string, but: Option<nat>) returns (sum: int)
      requires but.Some? ==> but.value < |reservations| && reservations[but.value].agent == agent
      ensures sum == Open(reservations, agent)
        - (if but.Some? && reservations[but.value].hold.Held? then reservations[but.value].amount else 0)
    {
      sum := 0;
      for i := 0 to |reservations|
        invariant sum == Open(reservations[..i], agent)
          - (if but.Some? && but.value < i && reservations[but.value].hold.Held?
             then reservations[but.value].amount else 0)
      {
        assert reservations[..i + 1][..i] == reservations[..i];
        var r := reservations[i];
        if r.agent == agent && r.hold.Held? && but != Some(i) { sum := sum + r.amount; }
      }
      assert reservations[..|reservations|] == reservations;
    }

    method ReserveSpend(agent: string, amount: int, key: string, admitted: bool) returns (r: Result<nat, Refusal>)
      modifies this`reservations
      ensures (Value(), r) == Reserve(old(Value()), agent, amount, key, admitted)
    {
      if amount < 0 { return Err(BadAmount); }
      if Trim(key) == "" { return Err(NoKey); }
      if agent !in accounts { return Err(NoAgent); }
      if !admitted { return Err(HourlyLimit); }
      var existing := FindByKey(agent, key);
      if existing.Some? { return Ok(existing.value); }
      var reserved := SumOpen(agent, None);
      if accounts[agent].used + reserved + amount > accounts[agent].limit { return Err(HardLimit); }
      reservations := reservations + [Reservation(agent, amount, key, Held, 0, 0)];
      return Ok(|reservations| - 1);
    }

    method CaptureSpend(id: nat, actual: Option<int>) returns (r: Result<nat, Refusal>)
      modifies this
      ensures (Value(), r) == Capture(old(Value()), id, actual)
    {
      if id >= |reservations| { return Err(NoReservation); }
      var reservation := reservations[id];
      if reservation.hold.Captured? { return Ok(id); }
      if !reservation.hold.Held? { return Err(NotCapturable); }
      if reservation.agent !in accounts { return Err(NoAgent); }
      var captured := reservation.amount;
      if actual.Some? {
        if actual.value < 0 { return Err(BadAmount); }
        if actual.value > reservation.amount { return Err(OverReservation); }
        captured := actual.value;
      }
      var competing := SumOpen(reservation.agent, Some(id));
      var account := accounts[reservation.agent];
      var nextSpend := account.used + captured;
      if nextSpend + competing > account.limit { return Err(HardLimit); }
      accounts := accounts[reservation.agent := account.(used := nextSpend)];
      reservations := reservations[id :=
        reservation.(hold := Captured, captured := captured, released := reservation.amount - captured)];
      rows := rows + [Row(reservation.agent, Some(id), captured)];
      return Ok(id);
    }

    method ReleaseSpend(id: nat) returns (r: Result<nat, Refusal>)
      modifies this`reservations
      ensures (Value(), r) == Release(old(Value()), id)
    {
      if id >= |reservations| { return Err(NoReservation); }
      if reservations[id].hold.Released? { return Ok(id); }
      if !reservations[id].hold.Held? { return Err(NotReleasable); }
      reservations := reservations[id := reservations[id].(hold := Released)];
      return Ok(id);
    }

    method RecordSpend(agent: string, amount: int, admitted: bool) returns (r: Result<nat, Refusal>)
      modifies this`accounts, this`rows
      ensures (Value(), r) == Record(old(Value()), agent, amount, admitted)
    {
      if amount < 0 { return Err(BadAmount); }
      if agent !in accounts { return Err(NoAgent); }
      if !admitted { return Err(HourlyLimit); }
      var nextSpend := accounts[agent].used + amount;
      if nextSpend > accounts[agent].limit { return Err(HardLimit); }
      accounts := accounts[agent := accounts[agent].(used := nextSpend)];
      rows := rows + [Row(agent, None, amount)];
      return Ok(|rows| - 1);
    }

    // `for (const reservation of db.billingReservations)` inside the sweep.
    method ReleaseNodeReservations(node: nat) returns (released: seq<nat>)
      modifies this`reservations
      ensures Value() == ReleaseNode(old(Value()), node)
      ensures forall i :: i in released <==> 0 <= i < |old(reservations)| && HeldFor(old(reservations)[i], node)
    {
      var prefix := AttemptPrefix(node);
      released := [];
      for i := 0 to |reservations|
        invariant |reservations| == |old(reservations)|
        invariant forall j | 0 <= j < i :: var r := old(reservations)[j];
          reservations[j] == if HeldFor(r, node) then r.(hold := Released) else r
        invariant forall j | i <= j < |reservations| :: reservations[j] == old(reservations)[j]
        invariant forall j :: j in released <==> 0 <= j < i && HeldFor(old(reservations)[j], node)
      {
        if reservations[i].hold.Held? && prefix <= reservations[i].key {
          reservations := reservations[i := reservations[i].(hold := Released)];
          released := released + [i];
        }
      }
      assert reservations == ReleaseNode(old(Value()), node).reservations;
    }

    // The sweep's releases, node by node.
    method ReleaseSwept(nodes: seq<nat>)
      modifies this`reservations
      ensures ReleasedFor(old(reservations), reservations, nodes)
    {
      for n := 0 to |nodes|
        invariant ReleasedFor(old(reservations), reservations, nodes[..n])
      {
        ghost var before := reservations;
        var _ := ReleaseNodeReservations(nodes[n]);
        assert ReleasedFor(before, reservations, [nodes[n]]);
        ReleasedThen(old(reservations), before, reservations, nodes[..n], [nodes[n]]);
        assert nodes[..n + 1] == nodes[..n] + [nodes[n]];
      }
      assert nodes[..|nodes|] == nodes;
    }

    // Other callers' transactions, in between one's own.
    method Interleave(ops: seq<BillingOp>)
      modifies this
      ensures Value() == PostAll(old(Value()), ops)
    {
      for i := 0 to |ops|
        invariant PostAll(old(Value()), ops) == PostAll(Value(), ops[i..])
      {
        assert ops[i..][1..] == ops[i + 1..];
        match ops[i] {
          case ToReserve(agent, amount, key, admitted) => var _ := ReserveSpend(agent, amount, key, admitted);
          case ToCapture(id, actual) => var _ := CaptureSpend(id, actual);
          case ToRelease(id) => var _ := ReleaseSpend(id);
          case ToRecord(agent, amount, admitted) => var _ := RecordSpend(agent, amount, admitted);
          case ToSweep(node) => var _ := ReleaseNodeReservations(node);
        }
      }
    }

    method ReserveNodeBudget(agent: string, node: nat, attempt: nat, minor: int, admitted: bool)
      returns (r: Result<NodeHold, Refusal>)
      modifies this`reservations
      ensures (Value(), r) == HoldNode(old(Value()), agent, node, attempt, minor, admitted)
    {
      if minor <= 0 {
        if agent !in accounts { return Err(NoAgent); }
        var remaining := accounts[agent].limit - accounts[agent].used;
        if remaining <= 0 { return Err(HardLimit); }
        return Ok(NothingToHold);
      }
      var reservation := ReserveSpend(agent, minor, AttemptKey(node, attempt), admitted);
      match reservation {
        case Ok(id) => return Ok(HeldAs(id));
        case Err(e) => return Err(e);
      }
    }

    // captureNodeBudget after work that finished, releaseNodeBudget after work that
    // failed; their refusals are not passed on.
    method CloseNodeHold(hold: NodeHold, minor: int, finished: bool, measured: Option<int>)
      modifies this
      ensures Value() == CloseHold(old(Value()), hold, minor, finished, measured)
    {
      if hold.NothingToHold? || hold.reservation >= |reservations| { return; }
      if finished {
        var _ := CaptureSpend(hold.reservation, Some(Charge(Value(), hold.reservation, minor, measured)));
      } else {
        var _ := ReleaseSpend(hold.reservation);
      }
    }

    method SettleNodeSpend(
      reservation: Option<nat>, agent: string, measured: Option<int>, admitted: bool,
      first: seq<BillingOp>, second: seq<BillingOp>)
      returns (r: Result<Settlement, Refusal>)
      modifies this
      ensures (Value(), r) == SettleNode(old(Value()), reservation, agent, measured, admitted, first, second)
    {
      var reserved := ReservedMinor(Value(), reservation);
      var captured := FromReservation(Value(), reservation, measured);
      if reservation.Some? {
        var done := CaptureSpend(reservation.value, Some(captured));
        if done.Err? { return Err(done.error); }
      }
      var overrun := if measured.None? then 0 else Most(0, Most(0, measured.value) - reserved);
      var unrecorded := 0;
      if overrun > 0 {
        Interleave(first);
        if agent !in accounts { return Err(NoAgent); }
        var affordable := Least(overrun, Most(0, accounts[agent].limit - accounts[agent].used));
        if affordable > 0 {
          Interleave(second);
          var charged := RecordSpend(agent, affordable, admitted);
          if charged.Err? { return Ok(Settlement(captured, reserved, overrun, overrun)); }
          captured := captured + affordable;
        }
        unrecorded := overrun - affordable;
      }
      return Ok(Settlement(captured, reserved, overrun, unrecorded));
    }
  }
}
