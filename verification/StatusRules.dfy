// What the statuses of a stored graph say, node by node and of the whole, in terms of
// the statuses alone (src/jev-domain.js, lines 213-352).

module StatusRules {
  import opened Basics
  import opened Dag
  import opened Nodes
  import opened Readiness
  import opened Scheduler
  import opened Invariants
  import opened GraphRuns
  import opened Deadlock

  // A dependency with this outcome lets a node run: success, or, for a node that waits
  // for its dependencies only to settle, any outcome of an attempt.
  predicate Lets(mode: Mode, s: Status) {
    s == Succeeded || (mode == WhenSettled && s in {Failed, TimedOut})
  }

  // With this one it can never run.
  predicate Bars(mode: Mode, s: Status) {
    s in {Skipped, Cancelled} || (mode == WhenSucceeded && s in {Failed, TimedOut})
  }

  predicate Unsettled(s: Status) {
    s in {Pending, Ready, Running}
  }

  // Node i is ready, and everything it lists lets it run.
  ghost predicate MayRun(ns: seq<Node>, i: int) {
    && 0 <= i < |ns| && ns[i].status == Ready
    && (forall j | 0 <= j < |ns| && ns[j].def.key in ns[i].def.deps :: Lets(ns[i].def.mode, ns[j].status))
  }

  lemma RulesAre(mode: Mode, s: Status)
    ensures Bars(mode, s) <==> Dooms(mode, s)
    ensures Lets(mode, s) <==> Meets(mode, s) && !Dooms(mode, s)
    ensures Lets(mode, s) || Bars(mode, s) || Unsettled(s)
    ensures Unsettled(s) <==> !Terminal(s)
  {
  }

  lemma MayRunIsClaimable(ns: seq<Node>, i: int)
    ensures MayRun(ns, i) <==> Claimable(ns, i)
  {
    hide Meets, Dooms, Lets;
    forall mode, s ensures Lets(mode, s) <==> Meets(mode, s) && !Dooms(mode, s) { RulesAre(mode, s); }
    forall j ensures 0 <= i < |ns| ==> (Lists(ns, i, j) <==> 0 <= j < |ns| && ns[j].def.key in ns[i].def.deps) {}
  }

  // At a readiness fixpoint, nothing a waiting node lists bars it, and a pending one
  // lists something unsettled; so a node never waits behind what has failed.
  lemma QuietStanding(g: Graph, i: nat)
    requires Quiet(g) && i < |g.nodes| && g.nodes[i].status in {Pending, Ready}
    ensures forall j | Lists(g.nodes, i, j) :: !Bars(g.nodes[i].def.mode, g.nodes[j].status)
    ensures g.nodes[i].status == Pending ==> exists j :: Lists(g.nodes, i, j) && Unsettled(g.nodes[j].status)
  {
    hide Dooms, Meets, Bars, Structured, Derive, Terminal;
    forall j | Lists(g.nodes, i, j) ensures !Bars(g.nodes[i].def.mode, g.nodes[j].status) {
      RulesAre(g.nodes[i].def.mode, g.nodes[j].status);
    }
    if g.nodes[i].status == Pending {
      assert !UnblockedAt(g.nodes, i);
      var j :| Lists(g.nodes, i, j)
        && !(Meets(g.nodes[i].def.mode, g.nodes[j].status) && !Dooms(g.nodes[i].def.mode, g.nodes[j].status));
      RulesAre(g.nodes[i].def.mode, g.nodes[j].status);
    }
  }

  // What every run from creation leaves, unless it retried a doomed node.
  lemma {:induction false} WaitsOnlyForWork(
    id: nat, task: string, tenant: string, now: int, rs: seq<Request>, moves: seq<Move>, i: nat)
    requires Creatable(rs) && CanRun(Initial(id, task, tenant, now, rs), moves)
    requires NoneRetriesDoomed(Initial(id, task, tenant, now, rs), moves)
    requires var ns := After(Initial(id, task, tenant, now, rs), moves).nodes;
      i < |ns| && ns[i].status in {Pending, Ready}
    ensures var ns := After(Initial(id, task, tenant, now, rs), moves).nodes;
      && (forall j | Lists(ns, i, j) :: !Bars(ns[i].def.mode, ns[j].status))
      && (ns[i].status == Pending ==> exists j :: Lists(ns, i, j) && Unsettled(ns[j].status))
  {
    hide Quiet, Initial, CanRun, After, NoneRetriesDoomed, Creatable, Bars, Lists;
    CreatedIsQuiet(id, task, tenant, now, rs);
    RunKeepsQuiet(Initial(id, task, tenant, now, rs), moves);
    QuietStanding(After(Initial(id, task, tenant, now, rs), moves), i);
  }

  lemma CreatedIsQuiet(id: nat, task: string, tenant: string, now: int, rs: seq<Request>)
    requires Creatable(rs)
    ensures Quiet(Initial(id, task, tenant, now, rs))
  {
  }

  // ---- The status of the whole --------------------------------------------

  // A success that owes the graph more work, which nothing waits for yet.
  ghost predicate Owes(ns: seq<Node>, i: int) {
    && 0 <= i < |ns| && ns[i].status == Succeeded && ns[i].def.payload.expandsGraph
    && (forall j | 0 <= j < |ns| :: ns[i].def.key !in ns[j].def.deps)
  }

  ghost predicate OwesSome(ns: seq<Node>) {
    exists i :: Owes(ns, i)
  }

  predicate AllIn(ns: seq<Node>, s: set<Status>) {
    forall i | 0 <= i < |ns| :: ns[i].status in s
  }

  // What each status of a stored graph means: pending, nothing was ever claimed or
  // settled; succeeded, everything has and nothing is owed; cancelled and failed,
  // everything is settled, not all of it well, nothing is owed, and some or none of it
  // was cancelled; running, anything else.
  lemma {:induction false} StatusSays(g: Graph)
    requires g.nodes != [] && g.status == Derive(g.nodes)
    ensures g.status == GraphPending
      <==> AllIn(g.nodes, {Pending, Ready}) && forall i | 0 <= i < |g.nodes| :: g.nodes[i].attempt == 0
    ensures g.status == GraphSucceeded <==> AllIn(g.nodes, {Succeeded}) && !OwesSome(g.nodes)
    ensures g.status == GraphCancelled
      <==> && AllIn(g.nodes, {Succeeded, Failed, Skipped, Cancelled, TimedOut}) && !OwesSome(g.nodes)
           && exists i :: 0 <= i < |g.nodes| && g.nodes[i].status == Cancelled
    ensures g.status == GraphFailed
      <==> && AllIn(g.nodes, {Succeeded, Failed, Skipped, TimedOut}) && !OwesSome(g.nodes)
           && !AllIn(g.nodes, {Succeeded})
  {
    hide AwaitsExpansion, Owes;
    OwesIsAwaits(g.nodes);
    forall i | 0 <= i < |g.nodes|
      ensures Terminal(g.nodes[i].status) <==> g.nodes[i].status in {Succeeded, Failed, Skipped, Cancelled, TimedOut} {}
    if OwesSome(g.nodes) { OwedSucceeded(g.nodes); }
    assert g.nodes[0] in g.nodes;
  }

  lemma OwesIsAwaits(ns: seq<Node>)
    ensures forall i :: Owes(ns, i) <==> AwaitsExpansion(ns, i)
  {
    forall i | 0 <= i < |ns| ensures Owes(ns, i) <==> AwaitsExpansion(ns, i) {
      forall j | 0 <= j < |ns| ensures Lists(ns, j, i) <==> ns[i].def.key in ns[j].def.deps {}
    }
  }

  lemma OwedSucceeded(ns: seq<Node>)
    requires OwesSome(ns)
    ensures !AllIn(ns, {Pending, Ready})
  {
  }
}
