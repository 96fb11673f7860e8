// Whole runs of the model loop: one driver, any workers, whatever the models answer,
// with no replanning, reopening or cancelling.

module ModelRuns {
  import opened Basics
  import opened Dag
  import opened GraphShape
  import opened Nodes
  import opened Readiness
  import opened Scheduler
  import opened Invariants
  import opened GraphRuns
  import opened Planner
  import opened ModelKeys
  import opened ModelGraph
  import opened ModelShape
  import opened ModelGrowth
  import opened ModelAccept
  import opened ModelWires
  import opened ModelLoop
  import opened Frontier

  // ---- A chosen growth finds the graph open -------------------------------

  // A succeeded producer or review that nothing follows keeps the graph open.
  lemma {:induction false} OpenAtFront(g: Graph, roles: seq<Role>, k: nat, r: nat, i: nat)
    requires Structured(g.nodes) && g.status == Derive(g.nodes) && Grown(g.nodes, roles, k, r)
    requires i < |g.nodes| && g.nodes[i].status.Succeeded?
    requires roles[i].Implement? || roles[i].Repair? || roles[i].Review?
    requires forall a | a in roles :: !MayList(a, roles[i])
    ensures Open(g)
  {
    NobodyFollows(Links(g.nodes), roles, k, r, i);
    assert RightPayload(roles[i], g.nodes[i].def);
    WaitingProducerKeepsOpen(g, i);
  }

  lemma {:induction false} ProducerFindsOpen(g: Graph, roles: seq<Role>, k: nat)
    requires Structured(g.nodes) && g.status == Derive(g.nodes) && Grown(g.nodes, roles, k, k)
    requires Done(g.nodes, KeyOfRole(ProducerRole(k + 1)))
    ensures Open(g) && ProducerRole(k + 1) in roles
  {
    var role := ProducerRole(k + 1);
    FindByRole(g.nodes, roles, role);
    var i := Find(g.nodes, KeyOfRole(role)).value;
    NobodyMayListProducer(roles, k);
    OpenAtFront(g, roles, k, k, i);
  }

  lemma NobodyMayListProducer(roles: seq<Role>, k: nat)
    requires forall role | role in roles :: InRange(role, k, k)
    ensures forall a | a in roles :: !MayList(a, ProducerRole(k + 1))
  {
  }

  lemma NobodyMayList(roles: seq<Role>, k: nat, r: nat)
    requires forall role | role in roles :: InRange(role, k, r)
    requires k == r + 1 && Verify(k) !in roles
    ensures forall a | a in roles :: !MayList(a, Review(k))
  {
  }

  lemma {:induction false} ReviewFindsOpen(g: Graph, roles: seq<Role>, k: nat, r: nat, d: Decision)
    requires Structured(g.nodes) && g.status == Derive(g.nodes) && Grown(g.nodes, roles, k, r)
    requires k == r + 1 && Verdict(g.nodes, roles, k, d) && Verify(k) !in roles
    ensures Open(g) && Review(k) in roles
  {
    NobodyMayList(roles, k, r);
    var i := GivingVerdict(g.nodes, roles, k, d);
    OpenAtFront(g, roles, k, r, i);
  }

  lemma GivingVerdict(ns: seq<Node>, roles: seq<Role>, n: nat, d: Decision) returns (i: nat)
    requires |roles| == |ns| && Verdict(ns, roles, n, d)
    ensures i < |ns| && roles[i] == Review(n) && ns[i].status.Succeeded?
  {
    i :| i < |ns| && roles[i] == Review(n) && ns[i].status.Succeeded? && DecisionOf(ns[i]) == Some(d);
  }

  lemma RevisedIsNotVerified(ns: seq<Node>, roles: seq<Role>, n: nat)
    requires Roled(ns, roles) && DistinctKeys(Defs(ns)) && Justified(ns, roles) && Verdict(ns, roles, n, Revise)
    ensures Verify(n) !in roles
  {
    if Verify(n) in roles {
      var i :| 0 <= i < |roles| && roles[i] == Verify(n);
      OneVerdict(ns, roles, n, Pass, Revise);
    }
  }

  // ---- Acceptance ---------------------------------------------------------

  // A compiled plan is as the cycle needs it, but for the step ids.
  lemma {:induction false} CompiledFits(t: TaskType, steps: seq<PlanStep>)
    requires Compilable(t, steps)
    ensures AcceptableShape(RawDefs(Compiled(t, steps))) && Compiled(t, steps) != []
    ensures Tidy(Compiled(t, steps)) ==> FitPlan(Compiled(t, steps))
  {
  }

  // The plan the producer of the next cycle answered with.
  ghost predicate Answered(t: TaskType, ns: seq<Node>, producer: string, steps: seq<PlanStep>) {
    && Has(ns, producer)
    && var output := ns[Find(ns, producer).value].output;
       output.Output? && output.plan == Some(steps) && Compilable(t, steps)
  }

  // An expansion chosen for a succeeded producer whose plan compiles is accepted
  // exactly when no step id ends in white space.
  lemma {:induction false} ExecutionAccepted(
    t: TaskType, g: Graph, roles: seq<Role>, k: nat, r: nat, limit: nat, a: Action, passed: bool,
    steps: seq<PlanStep>)
    requires Structured(g.nodes) && g.status == Derive(g.nodes) && Grown(g.nodes, roles, k, r)
    requires Decides(g.nodes, limit, a) && a.ExpandExecution? && Answered(t, g.nodes, a.producer, steps)
    ensures r == k && a.producer == KeyOfRole(ProducerRole(k + 1)) && ProducerRole(k + 1) in roles
    ensures Exec(k + 1) !in roles && Review(k + 1) !in roles
    ensures GrowthFor(t, g.nodes, limit, a, passed)
      == Some(ExecutionRequests(k + 1, a.producer, Compiled(t, steps)))
    ensures Expandable(g, GrowthFor(t, g.nodes, limit, a, passed).value) <==> Tidy(Compiled(t, steps))
  {
    hide Acyclic, NodesOk, Grounded, Wired, AcceptableShape;
    DecisionIsSensible(g.nodes, roles, k, r, limit, a);
    ProducerFindsOpen(g, roles, k);
    CompiledFits(t, steps);
    NextCycleIsNew(roles, k, r);
    ExecutionAcceptedIffTidy(g, roles, k + 1, ProducerRole(k + 1), Compiled(t, steps));
  }

  lemma NextCycleIsNew(roles: seq<Role>, k: nat, r: nat)
    requires forall role | role in roles :: InRange(role, k, r)
    ensures Exec(k + 1) !in roles && Review(k + 1) !in roles
    ensures k == r + 1 ==> Repair(k) !in roles
  {
  }

  // A repair or a verification chosen for a succeeded review is always accepted.
  lemma {:induction false} ReviewGrowthAccepted(
    t: TaskType, g: Graph, roles: seq<Role>, k: nat, r: nat, limit: nat, a: Action, passed: bool)
    requires Structured(g.nodes) && g.status == Derive(g.nodes) && Grown(g.nodes, roles, k, r)
    requires Decides(g.nodes, limit, a) && (a.ExpandRepair? || a.ExpandVerify?)
    ensures a.cycle == k == r + 1 && Verify(k) !in roles && Review(k) in roles
    ensures GrowthFor(t, g.nodes, limit, a, passed).Some?
    ensures Expandable(g, GrowthFor(t, g.nodes, limit, a, passed).value)
  {
    hide Decides, Acyclic, NodesOk, Grounded, AcceptableShape, Expandable, Wired;
    DecisionIsSensible(g.nodes, roles, k, r, limit, a);
    NextCycleIsNew(roles, k, r);
    if a.ExpandRepair? {
      RevisedIsNotVerified(g.nodes, roles, k);
      ReviewFindsOpen(g, roles, k, r, Revise);
      RepairAccepted(g, roles, k, Review(k));
    } else {
      ReviewFindsOpen(g, roles, k, r, Pass);
      VerifyAccepted(g, roles, k, passed);
    }
  }

  // ---- After a failed verification ----------------------------------------

  // Followed by x or by a member of s.
  ghost predicate FollowedWithin(links: set<(int, int)>, x: int, s: set<nat>, j: int) {
    exists i :: (i, j) in links && (i == x || (i >= 0 && i in s))
  }

  lemma SinksFromLinks(ns: seq<Node>, x: int, s: set<nat>)
    requires forall j | j in s :: j < |ns| && FollowedWithin(Links(ns), x, s, j)
    ensures WaitsOnSinks(ns, x, s)
  {
    forall j | j in s ensures j < |ns| && (Lists(ns, x, j) || ListedBy(ns, s, j)) {
      var i := FollowerWithin(Links(ns), x, s, j);
      assert Lists(ns, i, j);
      if i != x { assert (i as nat) in s && Lists(ns, i as nat, j); }
    }
  }

  lemma FollowerWithin(links: set<(int, int)>, x: int, s: set<nat>, j: int) returns (i: int)
    requires FollowedWithin(links, x, s, j)
    ensures (i, j) in links && (i == x || (i >= 0 && i in s))
  {
    i :| (i, j) in links && (i == x || (i >= 0 && i in s));
  }

  lemma {:induction false} AllButVerifyFollowed(
    links: set<(int, int)>, roles: seq<Role>, k: nat, r: nat, v: nat, j: nat)
    requires Wired(links, roles, k, r) && OneEach(roles) && k == r + 1
    requires v < |roles| && roles[v] == Verify(k) && j < |roles| && j != v && InRange(roles[j], k, r)
    ensures Followed(links, j)
  {
    assert roles[j] != roles[v];
    if roles[j] == Review(k) { VerifyFollowsReview(links, roles, k, r, v, j); }
  }

  lemma {:induction false} FollowedByOthers(links: set<(int, int)>, roles: seq<Role>, k: nat, r: nat, v: nat)
    requires Wired(links, roles, k, r) && OneEach(roles) && k == r + 1
    requires v < |roles| && roles[v] == Verify(k) && forall role | role in roles :: InRange(role, k, r)
    ensures forall j | j in Upto(|roles|) - {v} :: FollowedWithin(links, v, Upto(|roles|) - {v}, j)
  {
    hide MayList, OneEach, InRange;
    var s := Upto(|roles|) - {v};
    forall j | j in s ensures FollowedWithin(links, v, s, j) {
      assert roles[j] in roles;
      AllButVerifyFollowed(links, roles, k, r, v, j);
      var i :| (i, j as int) in links;
      assert 0 <= i < |roles|;
      if i != v { assert (i as nat) in s; }
    }
  }

  lemma {:induction false} VerifyWaitsOnAll(ns: seq<Node>, roles: seq<Role>, k: nat, r: nat, v: nat)
    requires Grown(ns, roles, k, r) && DistinctKeys(Defs(ns)) && k == r + 1 && v < |ns| && roles[v] == Verify(k)
    ensures WaitsOnSinks(ns, v, Upto(|ns|) - {v})
  {
    RolesAreUnique(ns, roles);
    FollowedByOthers(Links(ns), roles, k, r, v);
    SinksFromLinks(ns, v, Upto(|ns|) - {v});
  }

  lemma {:induction false} AllHaveEnded(g: Graph, h: History, v: nat)
    requires Live(g, h) && !h.reopened && v < |g.nodes| && g.nodes[v].status.Succeeded?
    requires WaitsOnSinks(g.nodes, v, Upto(|g.nodes|) - {v})
    ensures forall i | 0 <= i < |g.nodes| :: Terminal(g.nodes[i].status) && !g.nodes[i].status.Cancelled?
  {
    assert NodeOk(g.nodes[v]);
    FrontierHasRun(g, h, v, Upto(|g.nodes|) - {v});
    forall i | 0 <= i < |g.nodes| ensures Terminal(g.nodes[i].status) && !g.nodes[i].status.Cancelled? {
      if i != v { assert (i as nat) in Upto(|g.nodes|) - {v}; }
    }
  }

  lemma {:induction false} NothingAwaited(ns: seq<Node>, roles: seq<Role>, k: nat, r: nat, v: nat)
    requires Grown(ns, roles, k, r) && DistinctKeys(Defs(ns)) && k == r + 1 && v < |ns| && roles[v] == Verify(k)
    ensures forall i :: !AwaitsExpansion(ns, i)
  {
    RolesAreUnique(ns, roles);
    FollowedByOthers(Links(ns), roles, k, r, v);
    assert RightPayload(roles[v], ns[v].def);
    AllListedAwaitNothing(ns, v);
  }

  lemma AllListedAwaitNothing(ns: seq<Node>, v: nat)
    requires v < |ns| && !ns[v].def.payload.expandsGraph
    requires forall j | j in Upto(|ns|) - {v} :: FollowedWithin(Links(ns), v, Upto(|ns|) - {v}, j)
    ensures forall i :: !AwaitsExpansion(ns, i)
  {
    forall i ensures !AwaitsExpansion(ns, i) {
      if 0 <= i < |ns| && i != v {
        assert (i as nat) in Upto(|ns|) - {v};
        FollowedIsListed(ns, v, Upto(|ns|) - {v}, i);
      }
    }
  }

  lemma FollowedIsListed(ns: seq<Node>, x: int, s: set<nat>, i: int)
    requires FollowedWithin(Links(ns), x, s, i)
    ensures !AwaitsExpansion(ns, i)
  {
    var j := FollowerWithin(Links(ns), x, s, i);
    assert Lists(ns, j, i);
  }

  ghost predicate AllSucceeded(ns: seq<Node>) {
    forall i | 0 <= i < |ns| :: ns[i].status.Succeeded?
  }

  lemma OpenWhenNothingAwaited(g: Graph)
    requires g.nodes != [] && g.status == Derive(g.nodes) && forall i :: !AwaitsExpansion(g.nodes, i)
    ensures Open(g) <==> AllSucceeded(g.nodes) || Unfinished(g.nodes)
  {
    hide AwaitsExpansion;
    if Unfinished(g.nodes) { UnfinishedIsActive(g.nodes); }
  }

  // Once a verification is there, whatever is reopened: the graph is open exactly when
  // every node succeeded or some are not settled.
  lemma {:induction false} OpenIffSucceededOrUnsettled(g: Graph, roles: seq<Role>, k: nat, r: nat, v: nat)
    requires Structured(g.nodes) && g.status == Derive(g.nodes) && Grown(g.nodes, roles, k, r) && k == r + 1
    requires v < |g.nodes| && roles[v] == Verify(k)
    ensures Open(g) <==> AllSucceeded(g.nodes) || Unfinished(g.nodes)
  {
    hide Acyclic, Grown, Derive, Open, AllSucceeded, Unfinished;
    NothingAwaited(g.nodes, roles, k, r, v);
    OpenWhenNothingAwaited(g);
  }

  // Without reopening, by the time a verification has succeeded every node has run to an
  // end, and the graph is open exactly when all of them succeeded.
  lemma {:induction false} OpenIffAllSucceeded(
    g: Graph, h: History, roles: seq<Role>, k: nat, r: nat, v: nat)
    requires Live(g, h) && !h.reopened && Grown(g.nodes, roles, k, r) && k == r + 1
    requires v < |g.nodes| && roles[v] == Verify(k) && g.nodes[v].status.Succeeded?
    ensures !Unfinished(g.nodes) && (Open(g) <==> AllSucceeded(g.nodes))
  {
    hide Acyclic, NodesOk, Stable, Grounded, Derive, Grown, Open, AllSucceeded;
    VerifyWaitsOnAll(g.nodes, roles, k, r, v);
    AllHaveEnded(g, h, v);
    OpenIffSucceededOrUnsettled(g, roles, k, r, v);
  }

  // The repair a failed verification asks for is accepted exactly when every node of the
  // graph succeeded or, as only a reopening brings about, some are not settled.
  lemma {:induction false} VerifiedRepairAcceptedIff(
    t: TaskType, g: Graph, roles: seq<Role>, k: nat, r: nat, limit: nat, a: Action, passed: bool)
    requires Structured(g.nodes) && g.status == Derive(g.nodes) && Grown(g.nodes, roles, k, r)
    requires Decides(g.nodes, limit, a) && a.Verified? && GrowthFor(t, g.nodes, limit, a, passed).Some?
    ensures a.cycle == k == r + 1 && Verify(k) in roles && k < limit
    ensures GrowthFor(t, g.nodes, limit, a, passed).value == RepairRequests(k, KeyOfRole(Verify(k)))
    ensures Expandable(g, GrowthFor(t, g.nodes, limit, a, passed).value)
      <==> AllSucceeded(g.nodes) || Unfinished(g.nodes)
    ensures forall h | Live(g, h) && !h.reopened :: !Unfinished(g.nodes)
  {
    hide Acyclic, Grown, Derive, Decides, GrowthFor, Expandable, AllSucceeded, Unfinished, RepairRequests, Live;
    RepairAfterVerify(t, g.nodes, roles, k, r, limit, a, passed);
    VerifiedRepair(g, roles, k, r);
    forall h | Live(g, h) && !h.reopened ensures !Unfinished(g.nodes) { VerifiedHasEnded(g, h, roles, k, r); }
  }

  lemma {:induction false} VerifiedRepair(g: Graph, roles: seq<Role>, k: nat, r: nat)
    requires Structured(g.nodes) && g.status == Derive(g.nodes) && Grown(g.nodes, roles, k, r) && k == r + 1
    requires Verify(k) in roles
    ensures Expandable(g, RepairRequests(k, KeyOfRole(Verify(k)))) <==> AllSucceeded(g.nodes) || Unfinished(g.nodes)
  {
    hide Acyclic, Wired, AcceptableShape, AllSucceeded, Unfinished, Derive;
    FindByRole(g.nodes, roles, Verify(k));
    NextCycleIsNew(roles, k, r);
    RepairAccepted(g, roles, k, Verify(k));
    OpenIffSucceededOrUnsettled(g, roles, k, r, Find(g.nodes, VerifyKey(k)).value);
  }

  lemma {:induction false} VerifiedHasEnded(g: Graph, h: History, roles: seq<Role>, k: nat, r: nat)
    requires Live(g, h) && !h.reopened && Grown(g.nodes, roles, k, r) && k == r + 1
    requires Verify(k) in roles && Done(g.nodes, VerifyKey(k))
    ensures !Unfinished(g.nodes)
  {
    hide Structured, NodesOk, Stable, Grounded, Derive, Wired, Unfinished, VerifyKey;
    FindByRole(g.nodes, roles, Verify(k));
    OpenIffAllSucceeded(g, h, roles, k, r, Find(g.nodes, VerifyKey(k)).value);
  }

  lemma RepairGranted(t: TaskType, ns: seq<Node>, limit: nat, a: Action, passed: bool)
    requires a.Verified? && GrowthFor(t, ns, limit, a, passed).Some?
    ensures a.cycle < limit && !Has(ns, RepairKey(a.cycle))
    ensures GrowthFor(t, ns, limit, a, passed).value == RepairRequests(a.cycle, VerifyKey(a.cycle))
  {
  }

  lemma {:induction false} RepairAfterVerify(
    t: TaskType, ns: seq<Node>, roles: seq<Role>, k: nat, r: nat, limit: nat, a: Action, passed: bool)
    requires Grown(ns, roles, k, r) && DistinctKeys(Defs(ns)) && Decides(ns, limit, a)
    requires a.Verified? && GrowthFor(t, ns, limit, a, passed).Some?
    ensures a.cycle == k == r + 1 && Verify(k) in roles && Done(ns, VerifyKey(k)) && k < limit
    ensures GrowthFor(t, ns, limit, a, passed).value == RepairRequests(k, KeyOfRole(Verify(k)))
  {
    RepairGranted(t, ns, limit, a, passed);
    hide GrowthFor, Decides, DistinctKeys, Grown, Sensible, RepairRequests;
    DecisionIsSensible(ns, roles, k, r, limit, a);
    RepairOutstanding(ns, roles, k, r, limit, a);
  }

  lemma RepairOutstanding(ns: seq<Node>, roles: seq<Role>, k: nat, r: nat, limit: nat, a: Action)
    requires Grown(ns, roles, k, r) && Sensible(ns, roles, k, r, limit, a)
    requires a.Verified? && !Has(ns, RepairKey(a.cycle))
    ensures a.cycle == k == r + 1 && Verify(k) in roles && Done(ns, VerifyKey(k))
  {
    hide Done;
    FindByRole(ns, roles, Repair(a.cycle));
  }

  // ---- What a review can rely on ------------------------------------------

  // The steps of cycle n.
  ghost function StepsOf(roles: seq<Role>, n: nat): (s: set<nat>)
    ensures forall i: nat :: i in s <==> i < |roles| && roles[i] == Exec(n)
  {
    set i: nat | i in Upto(|roles|) && roles[i] == Exec(n)
  }

  lemma {:induction false} CycleFollowed(links: set<(int, int)>, roles: seq<Role>, k: nat, r: nat, n: nat, x: nat)
    requires Wired(links, roles, k, r) && OneEach(roles) && x < |roles| && roles[x] == Review(n)
    ensures forall j | j in StepsOf(roles, n) :: FollowedWithin(links, x, StepsOf(roles, n), j)
  {
    var s := StepsOf(roles, n);
    forall j | j in s ensures FollowedWithin(links, x, s, j) {
      var i :| (i, j as int) in links;
      assert MayList(roles[i], roles[j]) && 0 <= i < |roles|;
      if roles[i] == Exec(n) { assert (i as nat) in s; }
    }
  }

  lemma {:induction false} ReviewWaitsOnCycle(ns: seq<Node>, roles: seq<Role>, k: nat, r: nat, n: nat, x: nat)
    requires Grown(ns, roles, k, r) && DistinctKeys(Defs(ns)) && x < |ns| && roles[x] == Review(n)
    ensures WaitsOnSinks(ns, x, StepsOf(roles, n))
  {
    RolesAreUnique(ns, roles);
    CycleFollowed(Links(ns), roles, k, r, n, x);
    SinksFromLinks(ns, x, StepsOf(roles, n));
  }

  // When the review of cycle n is claimed, every step of that cycle has run to an
  // end; one that another step depends on has succeeded, and so has the producer of
  // the plan.
  lemma {:induction false} ReviewSeesFinishedWork(
    g: Graph, h: History, roles: seq<Role>, k: nat, r: nat, n: nat, x: nat)
    requires Live(g, h) && !h.reopened && Grown(g.nodes, roles, k, r)
    requires Started(g.nodes, x) && roles[x] == Review(n)
    ensures forall j | 0 <= j < |g.nodes| && roles[j] == Exec(n) :: RanToAnEnd(g.nodes[j])
    ensures forall i, j | Lists(g.nodes, i, j) && roles[i] == Exec(n) :: g.nodes[j].status.Succeeded?
    ensures forall j | 0 <= j < |g.nodes| && roles[j] == ProducerRole(n) :: g.nodes[j].status.Succeeded?
  {
    CycleHasRun(g, h, roles, k, r, n, x);
    ReviewInRange(g.nodes, roles, k, r, n, x);
    ProducersHaveRun(g.nodes, roles, k, r, n);
  }

  lemma ReviewInRange(ns: seq<Node>, roles: seq<Role>, k: nat, r: nat, n: nat, x: nat)
    requires Counted(ns, roles, k, r) && x < |ns| && roles[x] == Review(n)
    ensures 1 <= n <= k
  {
    assert roles[x] in roles;
  }

  lemma {:induction false} CycleHasRun(
    g: Graph, h: History, roles: seq<Role>, k: nat, r: nat, n: nat, x: nat)
    requires Live(g, h) && !h.reopened && Grown(g.nodes, roles, k, r)
    requires Started(g.nodes, x) && roles[x] == Review(n)
    ensures forall j | 0 <= j < |g.nodes| && roles[j] == Exec(n) :: RanToAnEnd(g.nodes[j])
    ensures forall i, j | Lists(g.nodes, i, j) && roles[i] == Exec(n) :: g.nodes[j].status.Succeeded?
  {
    ReviewWaitsOnCycle(g.nodes, roles, k, r, n, x);
    FrontierHasRun(g, h, x, StepsOf(roles, n));
    StepsHaveRun(g.nodes, roles, n);
  }

  lemma {:induction false} ProducersHaveRun(ns: seq<Node>, roles: seq<Role>, k: nat, r: nat, n: nat)
    requires Grown(ns, roles, k, r) && 1 <= n <= k
    requires forall i, j | Lists(ns, i, j) && roles[i] == Exec(n) :: ns[j].status.Succeeded?
    ensures forall j | 0 <= j < |ns| && roles[j] == ProducerRole(n) :: ns[j].status.Succeeded?
  {
    forall j: nat | j < |ns| && roles[j] == ProducerRole(n) ensures ns[j].status.Succeeded? {
      var i := ProducerFollower(ns, roles, k, r, n, j);
    }
  }

  lemma {:induction false} StepsHaveRun(ns: seq<Node>, roles: seq<Role>, n: nat)
    requires RightPayloads(ns, roles) && HasRun(ns, StepsOf(roles, n))
    ensures forall j | 0 <= j < |ns| && roles[j] == Exec(n) :: RanToAnEnd(ns[j])
    ensures forall i, j | Lists(ns, i, j) && roles[i] == Exec(n) :: ns[j].status.Succeeded?
  {
    forall i, j | Lists(ns, i, j) && roles[i] == Exec(n) ensures ns[j].status.Succeeded? {
      assert (i as nat) in StepsOf(roles, n) && RightPayload(roles[i], ns[i].def);
    }
    forall j | 0 <= j < |ns| && roles[j] == Exec(n) ensures RanToAnEnd(ns[j]) {
      assert (j as nat) in StepsOf(roles, n);
    }
  }

  lemma {:induction false} ProducerFollower(ns: seq<Node>, roles: seq<Role>, k: nat, r: nat, n: nat, j: nat)
    returns (i: nat)
    requires Grown(ns, roles, k, r) && 1 <= n <= k && j < |ns| && roles[j] == ProducerRole(n)
    ensures Lists(ns, i, j) && roles[i] == Exec(n)
  {
    assert roles[j] in roles;
    assert Followed(Links(ns), j);
    var x :| (x, j as int) in Links(ns);
    assert MayList(roles[x], roles[j]) && Lists(ns, x, j);
    i := x;
  }
}
