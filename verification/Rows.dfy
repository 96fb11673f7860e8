// Node records as src/jev-domain.js finds them: objects whose fields are updated in
// place (applyReadiness, claimableNodes, deriveGraphStatus; lines 236-352).

module Rows {
  import opened Basics
  import opened Dag
  import opened Nodes
  import opened Readiness
  import opened Scheduler
  import opened Drain

  class NodeRow {
    const id: nat
    const def: Def
    var maxAttempts: nat
    var status: Status
    var attempt: nat
    var lease: Option<nat>
    var leaseOwner: Option<string>
    var leaseExpires: Option<int>
    var deadline: Option<int>
    var output: Output
    var skippedBecause: Option<string>

    constructor (n: Node)
      ensures Value() == n
    {
      id, def, maxAttempts, status, attempt := n.id, n.def, n.maxAttempts, n.status, n.attempt;
      lease, leaseOwner, leaseExpires, deadline := n.lease, n.leaseOwner, n.leaseExpires, n.deadline;
      output, skippedBecause := n.output, n.skippedBecause;
    }

    function Value(): Node
      reads this
    {
      Node(id, def, maxAttempts, status, attempt, lease, leaseOwner, leaseExpires, deadline, output, skippedBecause)
    }
  }

  function Values(rows: seq<NodeRow>): (ns: seq<Node>)
    reads rows
    ensures |ns| == |rows| && forall i | 0 <= i < |rows| :: ns[i] == rows[i].Value()
  {
    seq(|rows|, i requires 0 <= i < |rows| reads rows => rows[i].Value())
  }

  // No record appears twice.
  ghost predicate Apart(rows: seq<NodeRow>) {
    forall i, j | 0 <= i < j < |rows| :: rows[i] != rows[j]
  }

  // ---- applyReadiness -----------------------------------------------------

  // The body of the inner loop.
  method VisitRow(rows: seq<NodeRow>, i: nat) returns (moved: bool)
    requires Apart(rows) && i < |rows| && WellShaped(Defs(Values(rows)))
    modifies rows[i]
    ensures Values(rows) == Visit(old(Values(rows)), i)
    ensures moved <==> Values(rows) != old(Values(rows))
  {
    var ns := Values(rows);
    var n := rows[i];
    assert ns[i].def == n.def && ns[i].status == n.status;
    assert forall k | k in Defs(ns)[i].deps :: HasKey(Defs(ns), k);
    if !Movable(n.status) { return false; }
    var doomed := FirstDoom(ns, n.def.mode, n.def.deps);
    if doomed.Some? {
      n.status, n.skippedBecause := Skipped, doomed;
      assert Values(rows) == ns[i := n.Value()];
      return true;
    }
    var satisfied := AllMeet(ns, n.def.mode, n.def.deps);
    if satisfied && n.status.Pending? {
      n.status := Ready;
      assert Values(rows) == ns[i := n.Value()];
      return true;
    }
    return false;
  }

  method ApplyReadiness(rows: seq<NodeRow>)
    requires Apart(rows) && WellShaped(Defs(Values(rows)))
    modifies rows
    ensures Values(rows) == Settle(old(Values(rows)))
  {
    var moved := true;
    while moved
      invariant WellShaped(Defs(Values(rows)))
      invariant Settle(Values(rows)) == Settle(old(Values(rows)))
      invariant !moved ==> Settle(Values(rows)) == Values(rows)
      decreases Rank(Values(rows)), moved
    {
      moved := OnePass(rows);
    }
  }

  // `for (const node of nodes)`, once.
  method OnePass(rows: seq<NodeRow>) returns (moved: bool)
    requires Apart(rows) && WellShaped(Defs(Values(rows)))
    modifies rows
    ensures Values(rows) == PassFrom(old(Values(rows)), 0)
    ensures WellShaped(Defs(Values(rows)))
    ensures Settle(Values(rows)) == Settle(old(Values(rows)))
    ensures moved ==> Rank(Values(rows)) < Rank(old(Values(rows)))
    ensures !moved ==> Values(rows) == old(Values(rows)) && Settle(Values(rows)) == Values(rows)
  {
    ghost var start := Values(rows);
    moved := false;
    for i := 0 to |rows|
      invariant WellShaped(Defs(Values(rows)))
      invariant PassFrom(start, 0) == PassFrom(Values(rows), i)
      invariant if moved then Rank(Values(rows)) < Rank(start) else Values(rows) == start
    {
      ghost var before := Values(rows);
      VisitRank(before, i);
      SameDefs(before, Visit(before, i));
      var visited := VisitRow(rows, i);
      moved := moved || visited;
    }
    SameDefs(start, PassFrom(start, 0));
  }

  // ---- deriveGraphStatus --------------------------------------------------

  method SomeRunningOrStarted(ns: seq<Node>) returns (started: bool)
    ensures started <==>
      exists i :: 0 <= i < |ns| && (ns[i].status.Running? || Terminal(ns[i].status) || ns[i].attempt > 0)
  {
    for i := 0 to |ns|
      invariant forall j | 0 <= j < i :: !(ns[j].status.Running? || Terminal(ns[j].status) || ns[j].attempt > 0)
    {
      if ns[i].status.Running? || Terminal(ns[i].status) || ns[i].attempt > 0 { return true; }
    }
    return false;
  }

  // `!nodes.some(other => other.dependsOn.includes(node.key))`, for an owing node.
  method Awaits(ns: seq<Node>, i: nat) returns (awaits: bool)
    requires i < |ns|
    ensures awaits <==> AwaitsExpansion(ns, i)
  {
    if !ns[i].def.payload.expandsGraph || !ns[i].status.Succeeded? { return false; }
    for j := 0 to |ns|
      invariant forall x | 0 <= x < j :: !Lists(ns, x, i)
    {
      if ns[i].def.key in ns[j].def.deps {
        assert Lists(ns, j, i);
        return false;
      }
    }
    return true;
  }

  method SomeAwaits(ns: seq<Node>) returns (some: bool)
    ensures some <==> exists i :: AwaitsExpansion(ns, i)
  {
    for i := 0 to |ns|
      invariant forall j | 0 <= j < i :: !AwaitsExpansion(ns, j)
    {
      var awaits := Awaits(ns, i);
      if awaits { return true; }
    }
    return false;
  }

  method DeriveGraphStatus(ns: seq<Node>) returns (s: GraphStatus)
    ensures s == Derive(ns)
  {
    if ns == [] { return GraphPending; }
    var awaits := SomeAwaits(ns);
    if awaits { return GraphRunning; }
    if forall i | 0 <= i < |ns| :: ns[i].status.Succeeded? { return GraphSucceeded; }
    if forall i | 0 <= i < |ns| :: Terminal(ns[i].status) {
      return if exists i | 0 <= i < |ns| :: ns[i].status.Cancelled? then GraphCancelled else GraphFailed;
    }
    var started := SomeRunningOrStarted(ns);
    return if started then GraphRunning else GraphPending;
  }

  // ---- claimableNodes -----------------------------------------------------

  // `deps.every(...)`, re-derived rather than trusted from the stored status.
  method MayClaim(ns: seq<Node>, i: nat) returns (may: bool)
    requires i < |ns| && WellShaped(Defs(ns))
    ensures may <==> Claimable(ns, i)
  {
    if !ns[i].status.Ready? { return false; }
    var deps := ns[i].def.deps;
    assert forall k | k in Defs(ns)[i].deps :: HasKey(Defs(ns), k);
    for d := 0 to |deps|
      invariant forall c | 0 <= c < d ::
        var s := StatusOf(ns, deps[c]); Meets(ns[i].def.mode, s) && !Dooms(ns[i].def.mode, s)
    {
      var s := StatusOf(ns, deps[d]);
      if !Meets(ns[i].def.mode, s) || Dooms(ns[i].def.mode, s) {
        assert Lists(ns, i, IndexOf(Defs(ns), deps[d]));
        return false;
      }
    }
    forall j | Lists(ns, i, j)
      ensures Meets(ns[i].def.mode, ns[j].status) && !Dooms(ns[i].def.mode, ns[j].status)
    {
      LookupByIndex(ns, j);
      var c :| 0 <= c < |deps| && deps[c] == ns[j].def.key;
    }
    return true;
  }

  // The first of the claimable nodes in (order, key): what the sort puts first.
  method FirstToClaim(ns: seq<Node>, filter: Option<string>) returns (first: Option<nat>)
    requires WellShaped(Defs(ns))
    ensures first.Some? ==> FirstClaimable(ns, filter, first.value)
    ensures first.None? ==> forall i :: !(Claimable(ns, i) && ClassFits(ns[i], filter))
  {
    first := None;
    for i := 0 to |ns|
      invariant first.Some? ==> first.value < i && Claimable(ns, first.value) && ClassFits(ns[first.value], filter)
      invariant first.Some? ==>
        forall j | 0 <= j < i && Claimable(ns, j) && ClassFits(ns[j], filter) && j != first.value ::
        Earlier(ns[first.value].def, ns[j].def)
      invariant first.None? ==> forall j | 0 <= j < i :: !(Claimable(ns, j) && ClassFits(ns[j], filter))
    {
      var may := MayClaim(ns, i);
      if may && ClassFits(ns[i], filter) {
        if first.None? {
          first := Some(i);
        } else {
          EarlierIsTotal(ns, first.value, i);
          if Earlier(ns[i].def, ns[first.value].def) {
            forall j | 0 <= j < i && Claimable(ns, j) && ClassFits(ns[j], filter)
              ensures Earlier(ns[i].def, ns[j].def)
            {
              if j != first.value { EarlierIsTransitive(ns[i].def, ns[first.value].def, ns[j].def); }
            }
            first := Some(i);
          }
        }
      }
    }
  }
}
