// What every move keeps. `Live(g, h)` is the invariant of a graph whose history so
// far is `h`; `MoveKeepsLive` is the one inductive step everything else rests on.

module Invariants {
  import opened Basics
  import opened Dag
  import opened GraphShape
  import opened Nodes
  import opened Readiness
  import opened Scheduler

  // ---- Structure ----------------------------------------------------------

  ghost predicate Structured(ns: seq<Node>) {
    && ns != []
    && WellShaped(Defs(ns))
    && Acyclic(Defs(ns))
    && (forall i | 0 <= i < |ns| :: Trim(ns[i].def.key) == ns[i].def.key != "")
    && (forall i, j | 0 <= i < j < |ns| :: ns[i].def.order < ns[j].def.order)
  }

  // ---- One node -----------------------------------------------------------

  predicate NodeOk(n: Node) {
    && n.maxAttempts >= 1
    && n.attempt <= n.maxAttempts
    && (n.status.Pending? || n.status.Ready? || n.status.Skipped? ==> n.attempt < n.maxAttempts)
    && (n.status.Running? || n.status.Succeeded? || n.status.Failed? || n.status.TimedOut? ==> n.attempt >= 1)
    && (n.status.Running? ==> n.lease.Some? && n.leaseExpires.Some?)
    && (n.lease.Some? ==> n.status.Running? || n.status.Succeeded?)
    && (n.deadline.Some? ==> n.def.timeoutMs > 0 && n.attempt >= 1)
  }

  ghost predicate NodesOk(ns: seq<Node>) {
    forall i | 0 <= i < |ns| :: NodeOk(ns[i])
  }

  // ---- Nodes that have run, and what they ran on --------------------------

  // Whether the graph was ever cancelled, or ever had a node reopened.
  datatype History = History(cancelled: bool, reopened: bool)

  const Untouched := History(false, false)

  function Remember(h: History, m: Move): History {
    match m
    case Cancel => h.(cancelled := true)
    case Reopen(_) => h.(reopened := true)
    case _ => h
  }

  // A dependency of a node that has run has itself run and was not written off.
  ghost predicate RanDepsRan(ns: seq<Node>) {
    forall i, j | Lists(ns, i, j) && ns[i].attempt > 0 ::
      && ns[j].attempt > 0 && !ns[j].status.Skipped? && !ns[j].status.Cancelled?
      && (ns[i].def.mode.WhenSucceeded? ==> ns[j].status.Succeeded?)
  }

  // The same, and the dependency is still settled.
  ghost predicate RanDepsSettled(ns: seq<Node>) {
    forall i, j | Lists(ns, i, j) && ns[i].attempt > 0 ::
      && ns[j].attempt > 0 && Terminal(ns[j].status)
      && !ns[j].status.Skipped? && !ns[j].status.Cancelled?
      && (ns[i].def.mode.WhenSucceeded? ==> ns[j].status.Succeeded?)
  }

  // A node that has run and is not settled has only settled, harmless dependencies.
  ghost predicate BusyDepsSettled(ns: seq<Node>) {
    forall i, j | Lists(ns, i, j) && ns[i].attempt > 0 && !Terminal(ns[i].status) ::
      Terminal(ns[j].status) && !Dooms(ns[i].def.mode, ns[j].status)
  }

  ghost predicate RanNotSkipped(ns: seq<Node>) {
    forall i | 0 <= i < |ns| && ns[i].attempt > 0 :: !ns[i].status.Skipped?
  }

  ghost predicate NoneCancelled(ns: seq<Node>) {
    forall i | 0 <= i < |ns| :: !ns[i].status.Cancelled?
  }

  ghost predicate Grounded(ns: seq<Node>, h: History) {
    && RanNotSkipped(ns)
    && (!h.cancelled ==> NoneCancelled(ns) && RanDepsRan(ns))
    && (h.cancelled ==> BusyDepsSettled(ns))
    && (!h.reopened ==> RanDepsSettled(ns))
  }

  ghost predicate Live(g: Graph, h: History) {
    && Structured(g.nodes)
    && NodesOk(g.nodes)
    && Stable(g.nodes)
    && Grounded(g.nodes, h)
    && g.status == Derive(g.nodes)
  }

  // A run is fair when no node is reopened after its graph was cancelled.
  predicate Fair(h: History, m: Move) {
    !(h.cancelled && m.Reopen?)
  }

  // ---- Settling keeps everything -----------------------------------------

  // All the members of a doom chain that ends at a node that has run have run.
  lemma {:induction false} NoChainReachesRan(ns: seq<Node>, h: History, p: seq<nat>)
    requires Grounded(ns, h) && DoomChain(ns, p)
    ensures ns[p[|p| - 1]].attempt == 0
  {
    var i := p[|p| - 1];
    if |p| == 1 {
      var j :| Lists(ns, i, j) && Dooms(ns[i].def.mode, ns[j].status);
    } else {
      var q := p[..|p| - 1];
      var j := p[|p| - 2];
      assert Lists(ns, p[|p| - 2 + 1], p[|p| - 2]);
      assert DoomChain(ns, q) by {
        forall t | 0 <= t < |q| - 1 ensures Lists(ns, q[t + 1], q[t]) { assert Lists(ns, p[t + 1], p[t]); }
      }
      NoChainReachesRan(ns, h, q);
      assert Movable(ns[j].status) && ns[j].attempt == 0;
    }
  }

  // What propagation may do to a node: skip it, if it never ran, or make it ready.
  predicate Propagated(n: Node, n': Node) {
    || n' == n
    || (&& Movable(n.status) && n.attempt == 0
        && n' == n.(status := Skipped, skippedBecause := n'.skippedBecause))
    || (n.status.Pending? && n' == n.(status := Ready))
  }

  lemma {:induction false} SettlePropagates(ns: seq<Node>, h: History)
    requires WellShaped(Defs(ns)) && Grounded(ns, h)
    ensures forall i | 0 <= i < |ns| :: Propagated(ns[i], Settle(ns)[i])
  {
    SettleMeaning(ns);
    forall i | 0 <= i < |ns| ensures Propagated(ns[i], Settle(ns)[i]) {
      assert SettledNode(ns, Settle(ns), i);
      if WillSkip(ns, i) {
        var p :| DoomChain(ns, p) && p[|p| - 1] == i;
        NoChainReachesRan(ns, h, p);
      }
    }
  }

  lemma PropagatedKeepsGrounded(ns: seq<Node>, ms: seq<Node>, h: History)
    requires Grounded(ns, h) && |ms| == |ns|
    requires forall i | 0 <= i < |ns| :: Propagated(ns[i], ms[i])
    ensures Grounded(ms, h)
  {
    assert RanNotSkipped(ms);
    forall i, j | Lists(ms, i, j)
      ensures Lists(ns, i, j) && ms[i].def == ns[i].def && ms[i].attempt == ns[i].attempt
      ensures ns[i].attempt > 0 ==> ms[i].status == ns[i].status || (ns[i].status.Pending? && ms[i].status.Ready?)
      ensures ns[j].attempt > 0 ==> ms[j].status == ns[j].status || (ns[j].status.Pending? && ms[j].status.Ready?)
      ensures ms[j].attempt == ns[j].attempt && (Terminal(ns[j].status) ==> ms[j].status == ns[j].status)
    {
      assert Propagated(ns[i], ms[i]) && Propagated(ns[j], ms[j]);
    }
    if !h.cancelled {
      assert NoneCancelled(ms);
      assert RanDepsRan(ms);
    } else {
      assert BusyDepsSettled(ms);
    }
    if !h.reopened { assert RanDepsSettled(ms); }
  }

  lemma {:induction false} SettleKeepsGrounded(ns: seq<Node>, h: History)
    requires WellShaped(Defs(ns)) && Grounded(ns, h)
    ensures Grounded(Settle(ns), h)
  {
    SettlePropagates(ns, h);
    PropagatedKeepsGrounded(ns, Settle(ns), h);
  }

  lemma SettleKeepsNodesOk(ns: seq<Node>)
    requires WellShaped(Defs(ns)) && NodesOk(ns)
    ensures NodesOk(Settle(ns))
  {
    SettleMeaning(ns);
    forall i | 0 <= i < |ns| ensures NodeOk(Settle(ns)[i]) {
      assert SettledNode(ns, Settle(ns), i) && NodeOk(ns[i]);
    }
  }

  lemma SameDefsStructured(ns: seq<Node>, ms: seq<Node>)
    requires Structured(ns) && |ms| == |ns| && forall i | 0 <= i < |ns| :: ms[i].def == ns[i].def
    ensures Structured(ms) && Defs(ms) == Defs(ns)
    ensures forall i, j :: Lists(ms, i, j) <==> Lists(ns, i, j)
  {
    assert Defs(ms) == Defs(ns);
    assert ms != [];
  }

  // Once an operation's own writes respect the invariant, propagation restores all of it.
  lemma SettledIsLive(g: Graph, ns: seq<Node>, h: History)
    requires Structured(ns) && NodesOk(ns) && Grounded(ns, h)
    ensures Live(Refresh(g, Settle(ns)), h)
  {
    SettleMeaning(ns);
    SameDefsStructured(ns, Settle(ns));
    SettleKeepsGrounded(ns, h);
    SettleKeepsNodesOk(ns);
  }

  // ---- The moves, one at a time -------------------------------------------

  lemma ClaimKeepsLive(g: Graph, h: History, m: Move)
    requires Live(g, h) && m.Claim? && Enabled(g, m)
    ensures WellShaped(Defs(Written(g, m))) && Live(Apply(g, m), h)
  {
    var ns, i := g.nodes, m.i;
    var ms := Written(g, m);
    SameDefsStructured(ns, ms);
    assert NodeOk(ns[i]);
    forall x | 0 <= x < |ms| ensures NodeOk(ms[x]) { assert NodeOk(ns[x]); }
    forall x, j | Lists(ms, x, j) && ms[x].attempt > 0 && x == i
      ensures ms[j] == ns[j] && ns[j].attempt > 0 && Terminal(ns[j].status)
      ensures !Dooms(ns[i].def.mode, ns[j].status) && Meets(ns[i].def.mode, ns[j].status)
    {
      assert Lists(ns, i, j) && NodeOk(ns[j]);
    }
    ClaimGrounded(ns, ms, i, h);
    BusyIsStable(ns, ms, i);
  }

  // Whatever happens to a node that is not settled, before or after, the others
  // are no nearer to moving.
  lemma BusyIsStable(ns: seq<Node>, ms: seq<Node>, i: int)
    requires Stable(ns) && |ms| == |ns| && 0 <= i < |ns|
    requires forall y | 0 <= y < |ns| && y != i :: ms[y] == ns[y]
    requires ms[i].def == ns[i].def && !Terminal(ns[i].status) && ms[i].status.Running?
    ensures Stable(ms)
  {
    forall x | 0 <= x < |ms| && Movable(ms[x].status)
      ensures !DoomedAt(ms, x) && (ms[x].status.Pending? ==> !UnblockedAt(ms, x))
    {
      assert !DoomedAt(ns, x) && (ns[x].status.Pending? ==> !UnblockedAt(ns, x));
      UntouchedReadiness(ns, ms, i, x);
    }
  }

  lemma ClaimGrounded(ns: seq<Node>, ms: seq<Node>, i: int, h: History)
    requires Grounded(ns, h) && |ms| == |ns| && 0 <= i < |ns|
    requires forall x | 0 <= x < |ns| && x != i :: ms[x] == ns[x]
    requires ms[i].status.Running? && ms[i].def == ns[i].def && ms[i].attempt > 0
    requires ns[i].status.Ready?
    requires forall j | Lists(ns, i, j) ::
      ns[j].attempt > 0 && Terminal(ns[j].status) && !Dooms(ns[i].def.mode, ns[j].status)
      && Meets(ns[i].def.mode, ns[j].status)
    ensures Grounded(ms, h)
  {
    forall x, j | Lists(ms, x, j) ensures Lists(ns, x, j) {}
  }

  // A node whose dependencies kept their standing is no more doomed or unblocked
  // than it was.
  lemma UntouchedReadiness(ns: seq<Node>, ms: seq<Node>, i: int, x: int)
    requires |ms| == |ns| && 0 <= i < |ns| && 0 <= x < |ns|
    requires forall y | 0 <= y < |ns| :: ms[y].def == ns[y].def
    requires forall y | 0 <= y < |ns| && y != i :: ms[y] == ns[y]
    requires !Terminal(ns[i].status) && !Terminal(ms[i].status)
    ensures DoomedAt(ms, x) <==> DoomedAt(ns, x)
    ensures UnblockedAt(ms, x) <==> UnblockedAt(ns, x)
  {
    forall j ensures Lists(ms, x, j) <==> Lists(ns, x, j) {}
    if DoomedAt(ms, x) {
      var j :| Lists(ms, x, j) && Dooms(ms[x].def.mode, ms[j].status);
      assert Lists(ns, x, j) && Dooms(ns[x].def.mode, ns[j].status);
    }
    if DoomedAt(ns, x) {
      var j :| Lists(ns, x, j) && Dooms(ns[x].def.mode, ns[j].status);
      assert Lists(ms, x, j) && Dooms(ms[x].def.mode, ms[j].status);
    }
    if UnblockedAt(ns, x) {
      forall j | Lists(ms, x, j)
        ensures Meets(ms[x].def.mode, ms[j].status) && !Dooms(ms[x].def.mode, ms[j].status)
      {
        assert Lists(ns, x, j);
      }
    }
    if UnblockedAt(ms, x) {
      forall j | Lists(ns, x, j)
        ensures Meets(ns[x].def.mode, ns[j].status) && !Dooms(ns[x].def.mode, ns[j].status)
      {
        assert Lists(ms, x, j);
      }
    }
  }

  lemma RenewKeepsLive(g: Graph, h: History, m: Move)
    requires Live(g, h) && m.Renew? && Enabled(g, m)
    ensures WellShaped(Defs(Written(g, m))) && Live(Apply(g, m), h)
  {
    var ns, ms := g.nodes, Written(g, m);
    SameDefsStructured(ns, ms);
    forall x | 0 <= x < |ms| ensures NodeOk(ms[x]) { assert NodeOk(ns[x]); }
    SameStandingSameVerdict(ns, ms);
    SameStandingGrounded(ns, ms, h);
    BusyIsStable(ns, ms, m.i);
  }

  lemma SameStandingGrounded(ns: seq<Node>, ms: seq<Node>, h: History)
    requires Grounded(ns, h) && |ms| == |ns|
    requires forall x | 0 <= x < |ns| ::
      ms[x].def == ns[x].def && ms[x].status == ns[x].status && ms[x].attempt == ns[x].attempt
    ensures Grounded(ms, h)
  {
    forall x, j | Lists(ms, x, j) ensures Lists(ns, x, j) {}
    assert RanNotSkipped(ms);
    if !h.cancelled { assert NoneCancelled(ms) && RanDepsRan(ms); } else { assert BusyDepsSettled(ms); }
    if !h.reopened { assert RanDepsSettled(ms); }
  }

  // The derived status reads nothing but definitions, statuses and attempts.
  lemma SameStandingSameVerdict(ns: seq<Node>, ms: seq<Node>)
    requires |ms| == |ns|
    requires forall x | 0 <= x < |ns| ::
      ms[x].def == ns[x].def && ms[x].status == ns[x].status && ms[x].attempt == ns[x].attempt
    ensures Derive(ms) == Derive(ns)
  {
    forall i, j ensures Lists(ms, i, j) <==> Lists(ns, i, j) {}
    forall i ensures AwaitsExpansion(ms, i) <==> AwaitsExpansion(ns, i) {
      if AwaitsExpansion(ns, i) { forall j ensures !Lists(ms, j, i) { assert !Lists(ns, j, i); } }
      if AwaitsExpansion(ms, i) { forall j ensures !Lists(ns, j, i) { assert !Lists(ms, j, i); } }
    }
    assert (forall i | 0 <= i < |ns| :: ns[i].status.Succeeded?)
      <==> (forall i | 0 <= i < |ms| :: ms[i].status.Succeeded?) by {
      if forall i | 0 <= i < |ns| :: ns[i].status.Succeeded? {
        forall i | 0 <= i < |ms| ensures ms[i].status.Succeeded? { assert ns[i].status.Succeeded?; }
      }
      if forall i | 0 <= i < |ms| :: ms[i].status.Succeeded? {
        forall i | 0 <= i < |ns| ensures ns[i].status.Succeeded? { assert ms[i].status.Succeeded?; }
      }
    }
    assert (forall i | 0 <= i < |ns| :: Terminal(ns[i].status))
      <==> (forall i | 0 <= i < |ms| :: Terminal(ms[i].status)) by {
      if forall i | 0 <= i < |ns| :: Terminal(ns[i].status) {
        forall i | 0 <= i < |ms| ensures Terminal(ms[i].status) { assert Terminal(ns[i].status); }
      }
      if forall i | 0 <= i < |ms| :: Terminal(ms[i].status) {
        forall i | 0 <= i < |ns| ensures Terminal(ns[i].status) { assert Terminal(ms[i].status); }
      }
    }
  }

  // A running node that gives its lease up, whatever becomes of it, leaves the
  // invariant to propagation: completion, failure and every case of the sweep.
  ghost predicate Handed(n: Node, n': Node) {
    || n' == n
    || (&& n.status.Running? && n'.def == n.def && n'.attempt == n.attempt
        && (n'.status.Ready? || n'.status.Succeeded? || n'.status.Failed? || n'.status.TimedOut?)
        && NodeOk(n'))
  }

  lemma HandedKeepsGrounded(ns: seq<Node>, ms: seq<Node>, h: History)
    requires NodesOk(ns) && Grounded(ns, h) && |ms| == |ns|
    requires forall x | 0 <= x < |ns| :: Handed(ns[x], ms[x])
    ensures Grounded(ms, h) && NodesOk(ms)
  {
    forall x | 0 <= x < |ns| ensures NodeOk(ns[x]) && Handed(ns[x], ms[x]) && NodeOk(ms[x]) {}
    assert RanNotSkipped(ms);
    forall x, j | Lists(ms, x, j)
      ensures Lists(ns, x, j) && ms[x].def == ns[x].def && ms[x].attempt == ns[x].attempt
      ensures ms[j].attempt == ns[j].attempt && (ms[j] == ns[j] || ns[j].status.Running?)
    {
      assert Handed(ns[x], ms[x]) && Handed(ns[j], ms[j]);
    }
    if !h.cancelled { assert NoneCancelled(ms) && RanDepsRan(ms); } else { assert BusyDepsSettled(ms); }
    if !h.reopened { assert RanDepsSettled(ms); }
  }

  lemma ResolveKeepsLive(g: Graph, h: History, m: Move)
    requires Live(g, h) && Enabled(g, m)
    requires m.Complete? || m.Fail? || m.Sweep?
    ensures WellShaped(Defs(Written(g, m))) && Live(Apply(g, m), h)
  {
    var ns, ms := g.nodes, Written(g, m);
    ResolvedAreHanded(g, m);
    SameDefsStructured(ns, ms);
    HandedKeepsGrounded(ns, ms, h);
    if Propagates(g, m) {
      SettledIsLive(g, ms, h);
    } else if m.Sweep? {
      assert ms == ns by { forall x | 0 <= x < |ns| ensures ms[x] == ns[x] { assert !Stalled(ns[x], m.now); } }
    } else {
      RetryIsStable(ns, ms, m.i, h);
    }
  }

  lemma ResolvedAreHanded(g: Graph, m: Move)
    requires NodesOk(g.nodes) && Enabled(g, m)
    requires m.Complete? || m.Fail? || m.Sweep?
    ensures |Written(g, m)| == |g.nodes|
    ensures forall x | 0 <= x < |g.nodes| ::
      Handed(g.nodes[x], Written(g, m)[x]) && Written(g, m)[x].def == g.nodes[x].def
  {
    forall x | 0 <= x < |g.nodes|
      ensures Handed(g.nodes[x], Written(g, m)[x]) && Written(g, m)[x].def == g.nodes[x].def
    {
      assert NodeOk(g.nodes[x]);
    }
  }

  // A retry puts the node back without propagating; its dependencies still allow it.
  lemma RetryIsStable(ns: seq<Node>, ms: seq<Node>, i: int, h: History)
    requires NodesOk(ns) && Stable(ns) && Grounded(ns, h) && |ms| == |ns| && 0 <= i < |ns|
    requires forall y | 0 <= y < |ns| :: ms[y].def == ns[y].def
    requires forall y | 0 <= y < |ns| && y != i :: ms[y] == ns[y]
    requires ns[i].status.Running? && ms[i].status.Ready?
    ensures Stable(ms)
  {
    assert NodeOk(ns[i]);
    forall x | 0 <= x < |ms| && Movable(ms[x].status)
      ensures !DoomedAt(ms, x) && (ms[x].status.Pending? ==> !UnblockedAt(ms, x))
    {
      UntouchedReadiness(ns, ms, i, x);
      if x == i {
        forall j | Lists(ns, i, j) ensures !Dooms(ns[i].def.mode, ns[j].status) {}
      } else {
        assert !DoomedAt(ns, x);
      }
    }
  }

  lemma ReopenKeepsLive(g: Graph, h: History, m: Move)
    requires Live(g, h) && m.Reopen? && Enabled(g, m) && !h.cancelled
    ensures WellShaped(Defs(Written(g, m))) && Live(Apply(g, m), Remember(h, m))
  {
    hide Acyclic, Settle;
    var ns, i, ms := g.nodes, m.i, Written(g, m);
    SameDefsStructured(ns, ms);
    forall x | 0 <= x < |ms| ensures NodeOk(ms[x]) { assert NodeOk(ns[x]); }
    assert NodeOk(ns[i]);
    ReopenGrounded(ns, ms, i, h);
    SettledIsLive(g, ms, Remember(h, m));
  }

  lemma ReopenGrounded(ns: seq<Node>, ms: seq<Node>, i: int, h: History)
    requires Grounded(ns, h) && !h.cancelled && |ms| == |ns| && 0 <= i < |ns|
    requires ns[i].attempt > 0 && (ns[i].status.Failed? || ns[i].status.TimedOut?)
    requires ms[i].def == ns[i].def && ms[i].attempt == ns[i].attempt && ms[i].status.Pending?
    requires forall x | 0 <= x < |ns| && x != i ::
      ms[x] == ns[x] || (ns[x].status.Skipped? && ms[x] == ns[x].(status := Pending, skippedBecause := None))
    ensures Grounded(ms, History(false, true))
  {
    forall x, j | Lists(ms, x, j)
      ensures Lists(ns, x, j) && ms[x].def == ns[x].def && ms[x].attempt == ns[x].attempt
      ensures ms[j].attempt == ns[j].attempt
    {
    }
    assert RanNotSkipped(ms);
    assert NoneCancelled(ms);
    assert RanDepsRan(ms);
  }

  lemma CancelKeepsLive(g: Graph, h: History, m: Move)
    requires Live(g, h) && m.Cancel?
    ensures WellShaped(Defs(Written(g, m))) && Live(Apply(g, m), Remember(h, m))
  {
    var ns, ms := g.nodes, Written(g, m);
    SameDefsStructured(ns, ms);
    forall x | 0 <= x < |ms| ensures NodeOk(ms[x]) && Terminal(ms[x].status) { assert NodeOk(ns[x]); }
    CancelGrounded(ns, ms, h);
  }

  lemma CancelGrounded(ns: seq<Node>, ms: seq<Node>, h: History)
    requires Grounded(ns, h) && |ms| == |ns|
    requires forall x | 0 <= x < |ns| :: ms[x] == CancelledNode(ns[x])
    ensures Grounded(ms, h.(cancelled := true))
  {
    forall x, j | Lists(ms, x, j)
      ensures Lists(ns, x, j) && Terminal(ms[x].status) && (Terminal(ns[j].status) ==> ms[j] == ns[j])
    {
    }
  }

  lemma UnionStructured(ns: seq<Node>, rs: seq<Request>, id: nat)
    requires ns == [] || Structured(ns)
    requires AcceptableShape(Defs(Union(ns, rs, 0)))
    ensures Structured(Union(ns, rs, id))
  {
    hide WellShaped, Acyclic;
    UnionShape(ns, rs, id, 0);
    UnionKeysAreTrimmed(ns, rs, id);
    UnionAscends(ns, rs, id);
  }

  lemma UnionKeysAreTrimmed(ns: seq<Node>, rs: seq<Request>, id: nat)
    requires forall i | 0 <= i < |ns| :: Trim(ns[i].def.key) == ns[i].def.key
    requires forall i | 0 <= i < |Union(ns, rs, id)| :: Trim(Defs(Union(ns, rs, id))[i].key) != ""
    ensures forall i | 0 <= i < |Union(ns, rs, id)| ::
      Trim(Union(ns, rs, id)[i].def.key) == Union(ns, rs, id)[i].def.key != ""
  {
    var all := Union(ns, rs, id);
    forall i | 0 <= i < |all| ensures Trim(all[i].def.key) == all[i].def.key != "" {
      assert Defs(all)[i].key == all[i].def.key;
      if i >= |ns| { TrimTwice(rs[i - |ns|].key); }
    }
  }

  lemma UnionAscends(ns: seq<Node>, rs: seq<Request>, id: nat)
    requires forall i, j | 0 <= i < j < |ns| :: ns[i].def.order < ns[j].def.order
    ensures forall i, j | 0 <= i < j < |Union(ns, rs, id)| ::
      Union(ns, rs, id)[i].def.order < Union(ns, rs, id)[j].def.order
  {
    var all := Union(ns, rs, id);
    forall i, j | 0 <= i < j < |all| ensures all[i].def.order < all[j].def.order {
      if i < |ns| <= j { assert all[i] == ns[i]; }
    }
  }

  lemma TrimTwice(s: string)
    ensures Trim(Trim(s)) == Trim(s)
  {
    var t := TrimStart(s);
    assert TrimEnd(t) == [] || TrimEnd(t)[0] == t[0];
  }

  lemma FreshGrounded(ns: seq<Node>, rs: seq<Request>, id: nat, h: History)
    requires Grounded(ns, h) && NodesOk(ns) && KnownDeps(Defs(ns)) && DistinctKeys(Defs(Union(ns, rs, id)))
    ensures Grounded(Union(ns, rs, id), h) && NodesOk(Union(ns, rs, id))
  {
    var all := Union(ns, rs, id);
    forall i | 0 <= i < |all| ensures if i < |ns| then all[i] == ns[i] else all[i].attempt == 0 && NodeOk(all[i]) {}
    forall i, j | Lists(all, i, j) && i < |ns| ensures j < |ns| && Lists(ns, i, j) {
      OldListsOld(ns, rs, id, i, j);
    }
  }

  // Existing nodes list only existing nodes.
  lemma OldListsOld(ns: seq<Node>, rs: seq<Request>, id: nat, i: int, j: int)
    requires KnownDeps(Defs(ns)) && DistinctKeys(Defs(Union(ns, rs, id)))
    requires 0 <= i < |ns| && Lists(Union(ns, rs, id), i, j)
    ensures j < |ns| && Lists(ns, i, j)
  {
    var all := Union(ns, rs, id);
    var k := all[j].def.key;
    assert k in Defs(ns)[i].deps;
    assert HasKey(Defs(ns), k);
    var x :| 0 <= x < |Defs(ns)| && Defs(ns)[x].key == k;
    assert Defs(all)[x].key == Defs(all)[j].key;
  }

  lemma ExpandKeepsLive(g: Graph, h: History, m: Move)
    requires Live(g, h) && m.Expand? && Enabled(g, m)
    ensures WellShaped(Defs(Written(g, m))) && Live(Apply(g, m), h)
  {
    UnionStructured(g.nodes, m.requests, m.firstId);
    FreshGrounded(g.nodes, m.requests, m.firstId, h);
    SettledIsLive(g, Written(g, m), h);
  }

  lemma CreatedIsLive(id: nat, task: string, tenant: string, now: int, rs: seq<Request>)
    requires Creatable(rs)
    ensures Live(Created(id, task, tenant, now, rs), Untouched)
  {
    UnionStructured([], rs, id + 1);
    FreshGrounded([], rs, id + 1, Untouched);
    SettledIsLive(Graph(id, task, tenant, now, GraphPending, []), Union([], rs, id + 1), Untouched);
  }

  // The graph createTaskGraph stores.
  ghost function Initial(id: nat, task: string, tenant: string, now: int, rs: seq<Request>): (g: Graph)
    requires Creatable(rs)
    ensures Structured(g.nodes) && Live(g, Untouched)
  {
    CreatedIsLive(id, task, tenant, now, rs);
    Created(id, task, tenant, now, rs)
  }

  // Every move keeps the invariant, except reopening a node of a cancelled graph.
  lemma MoveKeepsLive(g: Graph, h: History, m: Move)
    requires Live(g, h) && Enabled(g, m) && Fair(h, m)
    ensures WellShaped(Defs(Written(g, m))) && Live(Apply(g, m), Remember(h, m))
  {
    match m
    case Claim(_, _, _, _, _) => ClaimKeepsLive(g, h, m);
    case Renew(_, _, _) => RenewKeepsLive(g, h, m);
    case Complete(_, _) => ResolveKeepsLive(g, h, m);
    case Fail(_, _) => ResolveKeepsLive(g, h, m);
    case Reopen(_) => ReopenKeepsLive(g, h, m);
    case Sweep(_) => ResolveKeepsLive(g, h, m);
    case Cancel => CancelKeepsLive(g, h, m);
    case Expand(_, _) => ExpandKeepsLive(g, h, m);
  }
}
