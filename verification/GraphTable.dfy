// One stored graph and its node records, with what each operation of src/jev.js
// writes to them (lines 101-739). Each method of GraphRow makes exactly one move of
// Scheduler.

module GraphTable {
  import opened Basics
  import opened Dag
  import opened GraphShape
  import opened Nodes
  import opened Readiness
  import opened Scheduler
  import opened Invariants
  import opened GraphRuns
  import opened Rows

  // ---- Writes to the records ----------------------------------------------

  method WriteClaim(rows: seq<NodeRow>, i: nat, lease: nat, owner: string, leaseMs: int, now: int)
    requires Apart(rows) && i < |rows|
    modifies rows[i]
    ensures Values(rows) == old(Values(rows))[i := ClaimedNode(old(Values(rows))[i], lease, owner, leaseMs, now)]
  {
    var node := rows[i];
    node.status, node.attempt := Running, node.attempt + 1;
    node.lease, node.leaseOwner, node.leaseExpires := Some(lease), Some(owner), Some(now + Max(1000, leaseMs));
    node.deadline :=
      if node.def.timeoutMs > 0
      then Some(if node.deadline.Some? then node.deadline.value else now + node.def.timeoutMs)
      else None;
    assert Values(rows) == old(Values(rows))[i := node.Value()];
  }

  method WriteRenewal(rows: seq<NodeRow>, i: nat, leaseMs: int, now: int)
    requires Apart(rows) && i < |rows|
    modifies rows[i]
    ensures Values(rows) == old(Values(rows))[i := RenewedNode(old(Values(rows))[i], leaseMs, now)]
  {
    rows[i].leaseExpires := Some(now + Max(1000, leaseMs));
    assert Values(rows) == old(Values(rows))[i := rows[i].Value()];
  }

  method WriteCompletion(rows: seq<NodeRow>, i: nat, output: Output)
    requires Apart(rows) && i < |rows|
    modifies rows[i]
    ensures Values(rows) == old(Values(rows))[i := CompletedNode(old(Values(rows))[i], output)]
  {
    var node := rows[i];
    node.status, node.output, node.leaseExpires := Succeeded, output, None;
    assert Values(rows) == old(Values(rows))[i := node.Value()];
  }

  method WriteFailure(rows: seq<NodeRow>, i: nat, retryable: bool) returns (willRetry: bool)
    requires Apart(rows) && i < |rows|
    modifies rows[i]
    ensures willRetry == WillRetry(old(Values(rows))[i], retryable)
    ensures Values(rows) == old(Values(rows))[i := FailedNode(old(Values(rows))[i], retryable)]
  {
    var node := rows[i];
    willRetry := retryable && node.attempt < node.maxAttempts;
    node.lease, node.leaseOwner, node.leaseExpires := None, None, None;
    node.status := if willRetry then Ready else Failed;
    assert Values(rows) == old(Values(rows))[i := node.Value()];
  }

  method WriteReopening(rows: seq<NodeRow>, i: nat)
    requires Apart(rows) && i < |rows|
    modifies rows
    ensures Values(rows) == AfterReopen(old(Values(rows)), i)
  {
    ghost var ns := Values(rows);
    var node := rows[i];
    node.status, node.maxAttempts := Pending, node.maxAttempts + 1;
    node.lease, node.leaseOwner, node.leaseExpires := None, None, None;
    for x := 0 to |rows|
      invariant rows[i].Value() == ReopenedNode(ns[i])
      invariant forall y | 0 <= y < x && y != i :: rows[y].Value() == RevivedNode(ns[y], ns[i].def.key)
      invariant forall y | x <= y < |rows| && y != i :: rows[y].Value() == ns[y]
    {
      var item := rows[x];
      if item.status.Skipped? && item.skippedBecause == Some(node.def.key) {
        item.status, item.skippedBecause := Pending, None;
      }
    }
  }

  method WriteCancellation(rows: seq<NodeRow>)
    requires Apart(rows)
    modifies rows
    ensures |Values(rows)| == |old(Values(rows))|
    ensures forall y | 0 <= y < |rows| :: Values(rows)[y] == CancelledNode(old(Values(rows))[y])
  {
    ghost var ns := Values(rows);
    for x := 0 to |rows|
      invariant forall y | 0 <= y < x :: rows[y].Value() == CancelledNode(ns[y])
      invariant forall y | x <= y < |rows| :: rows[y].Value() == ns[y]
    {
      var node := rows[x];
      if !Terminal(node.status) {
        node.status := Cancelled;
        node.lease, node.leaseOwner, node.leaseExpires := None, None, None;
      }
    }
  }

  // The positions written to are returned.
  method WriteSweep(rows: seq<NodeRow>, now: int) returns (swept: seq<nat>)
    requires Apart(rows)
    modifies rows
    ensures |Values(rows)| == |old(Values(rows))|
    ensures forall y | 0 <= y < |rows| :: Values(rows)[y] == SweptNode(old(Values(rows))[y], now)
    ensures forall y :: y in swept <==> 0 <= y < |rows| && Stalled(old(Values(rows))[y], now)
  {
    ghost var ns := Values(rows);
    swept := [];
    for x := 0 to |rows|
      invariant forall y | 0 <= y < x :: rows[y].Value() == SweptNode(ns[y], now)
      invariant forall y | x <= y < |rows| :: rows[y].Value() == ns[y]
      invariant forall y :: y in swept <==> 0 <= y < x && Stalled(ns[y], now)
    {
      var node := rows[x];
      var pastDeadline := node.deadline.Some? && node.deadline.value <= now;
      var lostWorker := node.leaseExpires.Some? && node.leaseExpires.value <= now;
      if node.status.Running? && (pastDeadline || lostWorker) {
        node.lease, node.leaseOwner, node.leaseExpires := None, None, None;
        node.status :=
          if pastDeadline then TimedOut else if node.attempt < node.maxAttempts then Ready else Failed;
        swept := swept + [x];
      }
    }
  }

  // `nodes.map(...)` followed by the pushes: new records, in request order.
  method NewRows(rs: seq<Request>, order: int, id: nat) returns (more: seq<NodeRow>)
    ensures |more| == |rs| && Apart(more) && (forall r | r in more :: fresh(r))
    ensures Values(more) == NewNodes(rs, order, id)
  {
    more := [];
    for t := 0 to |rs|
      invariant |more| == t && Apart(more) && (forall r | r in more :: fresh(r))
      invariant forall s | 0 <= s < t :: more[s].Value() == NewNode(rs[s], order + s, id + s)
    {
      var row := new NodeRow(NewNode(rs[t], order + t, id + t));
      more := more + [row];
    }
  }

  lemma ApartAppend(a: seq<NodeRow>, b: seq<NodeRow>)
    requires Apart(a) && Apart(b) && forall r | r in b :: r !in a
    ensures Apart(a + b)
  {
    forall i, j | 0 <= i < j < |a + b| ensures (a + b)[i] != (a + b)[j] {
      if i < |a| <= j { assert (a + b)[j] in b; }
    }
  }

  lemma {:induction false} ValuesAppend(a: seq<NodeRow>, b: seq<NodeRow>)
    ensures Values(a + b) == Values(a) + Values(b)
  {
    assert forall i | 0 <= i < |a + b| :: (a + b)[i] == if i < |a| then a[i] else b[i - |a|];
  }

  // ---- What a move comes to -----------------------------------------------

  lemma {:induction false} PropagatedMove(g: Graph, m: Move, ns: seq<Node>)
    requires Structured(g.nodes) && Enabled(g, m) && Propagates(g, m) && !m.Renew? && ns == Written(g, m)
    ensures WellShaped(Defs(ns)) && Structured(Settle(ns)) && Next(g, m) == Scheduler.Refresh(g, Settle(ns))
  {
    MoveKeepsStructure(g, m);
  }

  lemma {:induction false} PlainMove(g: Graph, m: Move, ns: seq<Node>)
    requires Structured(g.nodes) && Enabled(g, m) && !Propagates(g, m) && !m.Renew? && !m.Sweep? && ns == Written(g, m)
    ensures Structured(ns) && Next(g, m) == Scheduler.Refresh(g, ns)
  {
    MoveKeepsStructure(g, m);
  }

  lemma {:induction false} UnderivedMove(g: Graph, m: Move, ns: seq<Node>)
    requires Structured(g.nodes) && Enabled(g, m) && ns == Written(g, m)
    requires m.Renew? || (m.Sweep? && !Propagates(g, m))
    ensures Structured(ns) && Next(g, m) == g.(nodes := ns)
  {
    MoveKeepsStructure(g, m);
  }

  lemma WrittenByCancel(g: Graph, ns: seq<Node>)
    requires |ns| == |g.nodes| && forall y | 0 <= y < |ns| :: ns[y] == CancelledNode(g.nodes[y])
    ensures ns == Written(g, Move.Cancel)
  {
  }

  lemma {:induction false} CancelMove(g: Graph, ns: seq<Node>)
    requires Structured(g.nodes)
    requires |ns| == |g.nodes| && forall y | 0 <= y < |ns| :: ns[y] == CancelledNode(g.nodes[y])
    ensures Structured(ns) && Next(g, Move.Cancel) == Scheduler.Refresh(g, ns)
  {
    WrittenByCancel(g, ns);
    PlainMove(g, Move.Cancel, ns);
  }

  lemma {:induction false} UnionIs(ns: seq<Node>, rs: seq<Request>, order: int, id: nat)
    requires order == HighestOrder(ns) + 1
    ensures Union(ns, rs, id) == ns + NewNodes(rs, order, id)
  {
  }

  // What the pushes and the propagation of an expansion come to.
  lemma {:induction false} GrowthIsProper(g: Graph, rs: seq<Request>, id: nat)
    requires Structured(g.nodes) && Enabled(g, Move.Expand(rs, id))
    ensures var ns := Union(g.nodes, rs, id);
      && WellShaped(Defs(ns)) && Structured(Settle(ns))
      && Next(g, Move.Expand(rs, id)) == Scheduler.Refresh(g, Settle(ns))
  {
    ExpandWrites(g, rs, id);
    PropagatedMove(g, Move.Expand(rs, id), Written(g, Move.Expand(rs, id)));
  }

  lemma {:induction false} ExpandWrites(g: Graph, rs: seq<Request>, id: nat)
    requires Enabled(g, Move.Expand(rs, id))
    ensures Written(g, Move.Expand(rs, id)) == Union(g.nodes, rs, id) && Propagates(g, Move.Expand(rs, id))
  {
  }

  lemma WrittenBySweep(g: Graph, now: int, ns: seq<Node>)
    requires |ns| == |g.nodes| && forall y | 0 <= y < |ns| :: ns[y] == SweptNode(g.nodes[y], now)
    ensures ns == Written(g, Move.Sweep(now))
  {
  }

  class GraphRow {
    const id: nat
    const task: string
    const tenant: string
    const createdAt: int
    var status: GraphStatus
    var rows: seq<NodeRow>

    constructor (id: nat, task: string, tenant: string, createdAt: int)
      ensures Value() == Graph(id, task, tenant, createdAt, GraphPending, []) && rows == []
    {
      this.id, this.task, this.tenant, this.createdAt := id, task, tenant, createdAt;
      status, rows := GraphPending, [];
    }

    function Value(): Graph
      reads this, rows
    {
      Graph(id, task, tenant, createdAt, status, Values(rows))
    }

    ghost predicate Sturdy()
      reads this, rows
    {
      Apart(rows) && Structured(Values(rows))
    }

    // refreshGraph
    method Refresh()
      modifies this`status
      ensures Value() == Scheduler.Refresh(old(Value()), old(Values(rows)))
    {
      status := DeriveGraphStatus(Values(rows));
    }

    method SettleAndRefresh()
      requires Apart(rows) && WellShaped(Defs(Values(rows)))
      modifies this`status, rows
      ensures rows == old(rows) && Value() == Scheduler.Refresh(old(Value()), Settle(old(Values(rows))))
    {
      ApplyReadiness(rows);
      Refresh();
    }

    // applyReadiness and refreshGraph, once the operation has written `m` to what
    // was g.
    method Propagate(ghost g: Graph, ghost m: Move)
      requires Apart(rows) && Structured(g.nodes) && Enabled(g, m) && Propagates(g, m) && !m.Renew?
      requires Values(rows) == Written(g, m)
      requires g.id == id && g.task == task && g.tenant == tenant && g.createdAt == createdAt
      modifies this`status, rows
      ensures rows == old(rows) && Sturdy() && Value() == Next(g, m)
    {
      PropagatedMove(g, m, Values(rows));
      SettleAndRefresh();
    }

    method Claim(i: nat, lease: nat, owner: string, leaseMs: int, now: int)
      requires Sturdy() && Enabled(Value(), Move.Claim(i, lease, owner, leaseMs, now))
      modifies this`status, rows
      ensures rows == old(rows) && Sturdy() && Value() == Next(old(Value()), Move.Claim(i, lease, owner, leaseMs, now))
    {
      WriteClaim(rows, i, lease, owner, leaseMs, now);
      PlainMove(old(Value()), Move.Claim(i, lease, owner, leaseMs, now), Values(rows));
      Refresh();
    }

    method Renew(i: nat, leaseMs: int, now: int)
      requires Sturdy() && Enabled(Value(), Move.Renew(i, leaseMs, now))
      modifies rows
      ensures Sturdy() && Value() == Next(old(Value()), Move.Renew(i, leaseMs, now))
    {
      WriteRenewal(rows, i, leaseMs, now);
      UnderivedMove(old(Value()), Move.Renew(i, leaseMs, now), Values(rows));
    }

    method Complete(i: nat, output: Output)
      requires Sturdy() && Enabled(Value(), Move.Complete(i, output))
      modifies this`status, rows
      ensures rows == old(rows) && Sturdy() && Value() == Next(old(Value()), Move.Complete(i, output))
    {
      WriteCompletion(rows, i, output);
      Propagate(old(Value()), Move.Complete(i, output));
    }

    method Fail(i: nat, retryable: bool)
      requires Sturdy() && Enabled(Value(), Move.Fail(i, retryable))
      modifies this`status, rows
      ensures rows == old(rows) && Sturdy() && Value() == Next(old(Value()), Move.Fail(i, retryable))
    {
      var willRetry := WriteFailure(rows, i, retryable);
      if willRetry {
        PlainMove(old(Value()), Move.Fail(i, retryable), Values(rows));
        Refresh();
      } else {
        Propagate(old(Value()), Move.Fail(i, retryable));
      }
    }

    method Reopen(i: nat)
      requires Sturdy() && Enabled(Value(), Move.Reopen(i))
      modifies this`status, rows
      ensures rows == old(rows) && Sturdy() && Value() == Next(old(Value()), Move.Reopen(i))
    {
      WriteReopening(rows, i);
      Propagate(old(Value()), Move.Reopen(i));
    }

    method Cancel()
      requires Sturdy()
      modifies this`status, rows
      ensures rows == old(rows) && Sturdy() && Value() == Next(old(Value()), Move.Cancel)
    {
      ghost var g := Value();
      WriteCancellation(rows);
      CancelMove(g, Values(rows));
      Refresh();
    }

    // The sweep's part in this graph; `swept` are the positions it recovered or ended.
    method Sweep(now: int) returns (swept: seq<nat>)
      requires Sturdy()
      modifies this`status, rows
      ensures rows == old(rows) && Sturdy() && Value() == Next(old(Value()), Move.Sweep(now))
      ensures forall y :: y in swept <==> 0 <= y < |rows| && Stalled(old(Values(rows))[y], now)
    {
      swept := WriteSweep(rows, now);
      WrittenBySweep(old(Value()), now, Values(rows));
      if swept == [] {
        UnderivedMove(old(Value()), Move.Sweep(now), Values(rows));
      } else {
        assert swept[0] in swept;
        Propagate(old(Value()), Move.Sweep(now));
      }
    }

    // The pushes of expandGraph.
    method Append(requests: seq<Request>, order: int, firstId: nat)
      requires Apart(rows)
      modifies this`rows
      ensures Apart(rows) && (forall r | r in rows :: r in old(rows) || fresh(r))
      ensures Values(rows) == old(Values(rows)) + NewNodes(requests, order, firstId)
    {
      var more := NewRows(requests, order, firstId);
      ValuesAppend(rows, more);
      ApartAppend(rows, more);
      rows := rows + more;
    }

    method AppendAndSettle(requests: seq<Request>, order: int, firstId: nat)
      requires Apart(rows) && WellShaped(Defs(Values(rows) + NewNodes(requests, order, firstId)))
      modifies this, rows
      ensures Apart(rows) && (forall r | r in rows :: r in old(rows) || fresh(r))
      ensures Value()
        == Scheduler.Refresh(old(Value()), Settle(old(Values(rows)) + NewNodes(requests, order, firstId)))
    {
      Append(requests, order, firstId);
      assert forall i | 0 <= i < |rows| :: rows[i] in old(rows) || fresh(rows[i]);
      SettleAndRefresh();
    }

    method Grow(requests: seq<Request>, firstId: nat)
      requires Sturdy() && Enabled(Value(), Move.Expand(requests, firstId))
      modifies this, rows
      ensures Sturdy() && Value() == Next(old(Value()), Move.Expand(requests, firstId))
      ensures forall r | r in rows :: r in old(rows) || fresh(r)
    {
      ghost var g := Value();
      var order := HighestOrder(Values(rows)) + 1;
      UnionIs(g.nodes, requests, order, firstId);
      GrowthIsProper(g, requests, firstId);
      AppendAndSettle(requests, order, firstId);
    }

    // Any one move, by the operation it belongs to.
    method Make(m: Move)
      requires Sturdy() && Enabled(Value(), m)
      modifies this, rows
      ensures Sturdy() && Value() == Next(old(Value()), m)
      ensures forall r | r in rows :: r in old(rows) || fresh(r)
    {
      match m {
        case Claim(i, lease, owner, leaseMs, now) => Claim(i, lease, owner, leaseMs, now);
        case Renew(i, leaseMs, now) => Renew(i, leaseMs, now);
        case Complete(i, output) => Complete(i, output);
        case Fail(i, retryable) => Fail(i, retryable);
        case Reopen(i) => Reopen(i);
        case Sweep(now) => var _ := Sweep(now);
        case Cancel => Cancel();
        case Expand(requests, firstId) => Grow(requests, firstId);
      }
    }
  }
}
