// The bounds over whole runs of the model loop.

module ModelBounds {
  import opened Basics
  import opened Dag
  import opened GraphShape
  import opened Nodes
  import opened Readiness
  import opened Scheduler
  import opened Invariants
  import opened GraphRuns
  import opened Activity
  import opened Drain
  import opened Planner
  import opened ModelKeys
  import opened ModelGraph
  import opened ModelShape
  import opened ModelGrowth
  import opened ModelAccept
  import opened ModelWires
  import opened ModelLoop
  import opened ModelRuns
  import opened Frontier

  // ---- Runs ---------------------------------------------------------------

  // Anything a worker, a sweep or an operator does, cancelling and reopening included, or
  // the driver acting on what it decided; `passed` is the verifier's record if one is made.
  datatype Event = Worked(move: Move) | Advanced(action: Action, passed: bool, firstId: nat)

  ghost predicate CanStep(limit: nat, g: Graph, e: Event) {
    match e
    case Worked(m) => !m.Expand? && Enabled(g, m)
    case Advanced(a, _, _) => Decides(g.nodes, limit, a)
  }

  // Whether the event grows the graph.
  ghost predicate Grows(t: TaskType, limit: nat, g: Graph, e: Event) {
    && e.Advanced?
    && GrowthFor(t, g.nodes, limit, e.action, e.passed).Some?
    && Expandable(g, GrowthFor(t, g.nodes, limit, e.action, e.passed).value)
  }

  ghost function Stepped(t: TaskType, limit: nat, g: Graph, e: Event): (g': Graph)
    requires Structured(g.nodes) && CanStep(limit, g, e)
    ensures Structured(g'.nodes)
  {
    if e.Worked? then Next(g, e.move)
    else if Grows(t, limit, g, e) then
      Next(g, Expand(GrowthFor(t, g.nodes, limit, e.action, e.passed).value, e.firstId))
    else g
  }

  lemma SteppedGrown(t: TaskType, limit: nat, g: Graph, e: Event, rs: seq<Request>)
    requires Structured(g.nodes) && CanStep(limit, g, e) && Grows(t, limit, g, e)
    requires GrowthFor(t, g.nodes, limit, e.action, e.passed) == Some(rs)
    ensures Expandable(g, rs) && Enabled(g, Expand(rs, e.firstId))
    ensures Stepped(t, limit, g, e) == Next(g, Expand(rs, e.firstId))
  {
  }

  ghost predicate CanLoop(t: TaskType, limit: nat, g: Graph, events: seq<Event>)
    requires Structured(g.nodes)
    decreases |events|
  {
    events != [] ==> CanStep(limit, g, events[0]) && CanLoop(t, limit, Stepped(t, limit, g, events[0]), events[1..])
  }

  ghost function AfterLoop(t: TaskType, limit: nat, g: Graph, events: seq<Event>): (g': Graph)
    requires Structured(g.nodes) && CanLoop(t, limit, g, events)
    ensures Structured(g'.nodes)
    decreases |events|
  {
    if events == [] then g else AfterLoop(t, limit, Stepped(t, limit, g, events[0]), events[1..])
  }

  // How often the driver grew the graph, and how often a node was claimed.
  ghost function Growths(t: TaskType, limit: nat, g: Graph, events: seq<Event>): nat
    requires Structured(g.nodes) && CanLoop(t, limit, g, events)
    decreases |events|
  {
    if events == [] then 0
    else (if Grows(t, limit, g, events[0]) then 1 else 0)
         + Growths(t, limit, Stepped(t, limit, g, events[0]), events[1..])
  }

  function Claims(events: seq<Event>): nat {
    if events == [] then 0
    else (if events[0].Worked? && events[0].move.Claim? then 1 else 0) + Claims(events[1..])
  }

  // ---- The size of a model graph ------------------------------------------

  ghost function Size(roles: seq<Role>, k: nat, r: nat): nat {
    k + r + |Verifications(roles)|
  }

  predicate WithinLimit(k: nat, r: nat, limit: nat) {
    k <= Max(1, limit) && r <= Max(0, limit - 1)
  }

  // Everything a run keeps.
  ghost predicate Loops(g: Graph, limit: nat, roles: seq<Role>, k: nat, r: nat) {
    Steady(g) && NodesOk(g.nodes) && Grown(g.nodes, roles, k, r) && WithinLimit(k, r, limit)
  }

  lemma {:induction false} WorkStep(g: Graph, limit: nat, roles: seq<Role>, k: nat, r: nat, m: Move)
    requires Loops(g, limit, roles, k, r) && !m.Expand? && Enabled(g, m)
    ensures Loops(Next(g, m), limit, roles, k, r)
  {
    hide Next, Enabled, Grown, Live, NodesOk;
    MoveKeepsSteady(g, m);
    MoveKeepsNodesOk(g, m);
    MoveKeepsOld(g, m);
    WorkKeepsGrown(g.nodes, Next(g, m).nodes, roles, k, r);
  }

  lemma {:induction false} GrowthKeeps(g: Graph, rs: seq<Request>, id: nat)
    requires Steady(g) && NodesOk(g.nodes) && Expandable(g, rs)
    ensures Enabled(g, Expand(rs, id)) && Added(g.nodes, Next(g, Expand(rs, id)).nodes, rs)
    ensures Steady(Next(g, Expand(rs, id))) && NodesOk(Next(g, Expand(rs, id)).nodes)
  {
    hide Next, Added, Live, NodesOk, Expandable;
    GrowthAdds(g, rs, id);
    MoveKeepsSteady(g, Expand(rs, id));
    MoveKeepsNodesOk(g, Expand(rs, id));
  }

  lemma {:induction false} CycleGrowth(
    g: Graph, limit: nat, roles: seq<Role>, k: nat, rs: seq<Request>, id: nat)
    requires Loops(g, limit, roles, k, k) && ProducerRole(k + 1) in roles && FitPlan(rs)
    requires Expandable(g, ExecutionRequests(k + 1, KeyOfRole(ProducerRole(k + 1)), rs))
    ensures Enabled(g, Expand(ExecutionRequests(k + 1, KeyOfRole(ProducerRole(k + 1)), rs), id))
    ensures Loops(Next(g, Expand(ExecutionRequests(k + 1, KeyOfRole(ProducerRole(k + 1)), rs), id)),
                  limit, roles + CycleRoles(k + 1, |rs|), k + 1, k)
  {
    var all := ExecutionRequests(k + 1, KeyOfRole(ProducerRole(k + 1)), rs);
    GrowthKeeps(g, all, id);
    CycleKeepsGrown(g.nodes, Next(g, Expand(all, id)).nodes, roles, k, rs);
  }

  lemma CycleSize(roles: seq<Role>, k: nat, m: nat)
    ensures Size(roles + CycleRoles(k + 1, m), k + 1, k) == Size(roles, k, k) + 1
  {
    VerificationsGrow(roles, CycleRoles(k + 1, m));
    assert Verifications(CycleRoles(k + 1, m)) == {};
  }

  // What the driver expands by for a producer.
  lemma {:induction false} CycleChosen(
    t: TaskType, g: Graph, limit: nat, roles: seq<Role>, k: nat, r: nat, e: Event) returns (rs: seq<Request>)
    requires Loops(g, limit, roles, k, r) && CanStep(limit, g, e) && Grows(t, limit, g, e)
    requires e.action.ExpandExecution?
    ensures r == k && ProducerRole(k + 1) in roles && FitPlan(rs)
    ensures GrowthFor(t, g.nodes, limit, e.action, e.passed)
      == Some(ExecutionRequests(k + 1, KeyOfRole(ProducerRole(k + 1)), rs))
  {
    var steps := g.nodes[Find(g.nodes, e.action.producer).value].output.plan.value;
    ExecutionAccepted(t, g, roles, k, r, limit, e.action, e.passed, steps);
    CompiledFits(t, steps);
    rs := Compiled(t, steps);
  }

  // A cycle of work is added for a producer, and the limit allows for it.
  lemma {:induction false} CycleStep(
    t: TaskType, g: Graph, limit: nat, roles: seq<Role>, k: nat, r: nat, e: Event) returns (roles': seq<Role>)
    requires Loops(g, limit, roles, k, r) && CanStep(limit, g, e) && Grows(t, limit, g, e)
    requires e.action.ExpandExecution?
    ensures Loops(Stepped(t, limit, g, e), limit, roles', k + 1, r)
    ensures Size(roles', k + 1, r) == Size(roles, k, r) + 1
  {
    var rs := CycleChosen(t, g, limit, roles, k, r, e);
    CycleGrowth(g, limit, roles, k, rs, e.firstId);
    CycleSize(roles, k, |rs|);
    roles' := roles + CycleRoles(k + 1, |rs|);
  }

  lemma {:induction false} VerifyGrowth(
    g: Graph, limit: nat, roles: seq<Role>, k: nat, r: nat, passed: bool, id: nat)
    requires Loops(g, limit, roles, k, r) && k == r + 1 && Verify(k) !in roles && Verdict(g.nodes, roles, k, Pass)
    requires Expandable(g, VerifyRequests(k, passed))
    ensures Enabled(g, Expand(VerifyRequests(k, passed), id))
    ensures Loops(Next(g, Expand(VerifyRequests(k, passed), id)), limit, roles + [Verify(k)], k, r)
  {
    GrowthKeeps(g, VerifyRequests(k, passed), id);
    VerifyKeepsGrown(g.nodes, Next(g, Expand(VerifyRequests(k, passed), id)).nodes, roles, k, r, passed);
  }

  lemma VerifySize(roles: seq<Role>, k: nat, r: nat)
    requires Verify(k) !in roles
    ensures Size(roles + [Verify(k)], k, r) == Size(roles, k, r) + 1
  {
    VerificationsGrow(roles, [Verify(k)]);
    OneVerification(roles, k);
  }

  lemma {:induction false} VerifyStep(
    t: TaskType, g: Graph, limit: nat, roles: seq<Role>, k: nat, r: nat, e: Event) returns (roles': seq<Role>)
    requires Loops(g, limit, roles, k, r) && CanStep(limit, g, e) && Grows(t, limit, g, e)
    requires e.action.ExpandVerify?
    ensures Loops(Stepped(t, limit, g, e), limit, roles', k, r)
    ensures Size(roles', k, r) == Size(roles, k, r) + 1
  {
    DecisionIsSensible(g.nodes, roles, k, r, limit, e.action);
    VerifyGrowth(g, limit, roles, k, r, e.passed, e.firstId);
    VerifySize(roles, k, r);
    roles' := roles + [Verify(k)];
  }

  lemma OneVerification(roles: seq<Role>, k: nat)
    requires Verify(k) !in roles
    ensures Verifications([Verify(k)]) == {k} && k !in Verifications(roles)
  {
    assert [Verify(k)][0] == Verify(k);
  }

  lemma {:induction false} RepairGrowth(
    g: Graph, limit: nat, roles: seq<Role>, k: nat, r: nat, after: Role, id: nat)
    requires Loops(g, limit, roles, k, r) && k == r + 1 && k < limit && after in roles
    requires (after == Review(k) && Verify(k) !in roles && Verdict(g.nodes, roles, k, Revise)) || after == Verify(k)
    requires Expandable(g, RepairRequests(k, KeyOfRole(after)))
    ensures Enabled(g, Expand(RepairRequests(k, KeyOfRole(after)), id))
    ensures Loops(Next(g, Expand(RepairRequests(k, KeyOfRole(after)), id)), limit, roles + [Repair(k)], k, k)
  {
    GrowthKeeps(g, RepairRequests(k, KeyOfRole(after)), id);
    RepairKeepsGrown(g.nodes, Next(g, Expand(RepairRequests(k, KeyOfRole(after)), id)).nodes, roles, k, r, after);
  }

  lemma RepairSize(roles: seq<Role>, k: nat, r: nat)
    ensures Size(roles + [Repair(k)], k, r + 1) == Size(roles, k, r) + 1
  {
    VerificationsGrow(roles, [Repair(k)]);
    assert Verifications([Repair(k)]) == {};
  }

  lemma {:induction false} RepairStep(
    t: TaskType, g: Graph, limit: nat, roles: seq<Role>, k: nat, r: nat, e: Event)
    requires Loops(g, limit, roles, k, r) && CanStep(limit, g, e) && Grows(t, limit, g, e)
    requires e.action.ExpandRepair? || e.action.Verified?
    ensures k == r + 1 && Loops(Stepped(t, limit, g, e), limit, roles + [Repair(k)], k, k)
  {
    var after := RepairFollows(t, g, limit, roles, k, r, e);
    RepairApplied(t, g, limit, roles, k, r, after, e);
  }

  lemma {:induction false} RepairStepped(
    t: TaskType, g: Graph, limit: nat, roles: seq<Role>, k: nat, r: nat, e: Event) returns (roles': seq<Role>)
    requires Loops(g, limit, roles, k, r) && CanStep(limit, g, e) && Grows(t, limit, g, e)
    requires e.action.ExpandRepair? || e.action.Verified?
    ensures Loops(Stepped(t, limit, g, e), limit, roles', k, r + 1)
    ensures Size(roles', k, r + 1) == Size(roles, k, r) + 1
  {
    RepairStep(t, g, limit, roles, k, r, e);
    RepairSize(roles, k, r);
    roles' := roles + [Repair(k)];
  }

  lemma {:induction false} RepairApplied(
    t: TaskType, g: Graph, limit: nat, roles: seq<Role>, k: nat, r: nat, after: Role, e: Event)
    requires Loops(g, limit, roles, k, r) && CanStep(limit, g, e) && Grows(t, limit, g, e)
    requires k == r + 1 && k < limit && after in roles
    requires (after == Review(k) && Verify(k) !in roles && Verdict(g.nodes, roles, k, Revise)) || after == Verify(k)
    requires GrowthFor(t, g.nodes, limit, e.action, e.passed) == Some(RepairRequests(k, KeyOfRole(after)))
    ensures Loops(Stepped(t, limit, g, e), limit, roles + [Repair(k)], k, k)
  {
    SteppedGrown(t, limit, g, e, RepairRequests(k, KeyOfRole(after)));
    RepairGrowth(g, limit, roles, k, r, after, e.firstId);
  }

  lemma RepairAsked(t: TaskType, ns: seq<Node>, limit: nat, a: Action, passed: bool)
    ensures a.ExpandRepair? ==> GrowthFor(t, ns, limit, a, passed) == Some(RepairRequests(a.cycle, ReviewKey(a.cycle)))
  {
  }

  lemma {:induction false} RepairFollows(
    t: TaskType, g: Graph, limit: nat, roles: seq<Role>, k: nat, r: nat, e: Event) returns (after: Role)
    requires Loops(g, limit, roles, k, r) && CanStep(limit, g, e) && Grows(t, limit, g, e)
    requires e.action.ExpandRepair? || e.action.Verified?
    ensures k == r + 1 && k < limit && after in roles
    ensures (after == Review(k) && Verify(k) !in roles && Verdict(g.nodes, roles, k, Revise)) || after == Verify(k)
    ensures GrowthFor(t, g.nodes, limit, e.action, e.passed) == Some(RepairRequests(k, KeyOfRole(after)))
  {
    if e.action.ExpandRepair? {
      after := Review(k);
      RepairFollowsReview(t, g, limit, roles, k, r, e.action, e.passed);
    } else {
      after := Verify(k);
      LoopsIsDistinct(g, limit, roles, k, r);
      hide Decides, Loops;
      RepairAfterVerify(t, g.nodes, roles, k, r, limit, e.action, e.passed);
    }
  }

  lemma LoopsIsDistinct(g: Graph, limit: nat, roles: seq<Role>, k: nat, r: nat)
    requires Loops(g, limit, roles, k, r)
    ensures Grown(g.nodes, roles, k, r) && DistinctKeys(Defs(g.nodes))
  {
  }

  lemma {:induction false} RepairFollowsReview(
    t: TaskType, g: Graph, limit: nat, roles: seq<Role>, k: nat, r: nat, a: Action, passed: bool)
    requires Loops(g, limit, roles, k, r) && Decides(g.nodes, limit, a) && a.ExpandRepair?
    ensures k == r + 1 && k < limit && Review(k) in roles && Verify(k) !in roles && Verdict(g.nodes, roles, k, Revise)
    ensures GrowthFor(t, g.nodes, limit, a, passed) == Some(RepairRequests(k, KeyOfRole(Review(k))))
  {
    RepairAsked(t, g.nodes, limit, a, passed);
    LoopsIsDistinct(g, limit, roles, k, r);
    DecisionIsSensible(g.nodes, roles, k, r, limit, a);
    hide Decides, GrowthFor, Grown;
    ReviewGrowthAccepted(t, g, roles, k, r, limit, a, passed);
  }

  lemma GrowsByAction(t: TaskType, limit: nat, g: Graph, e: Event)
    ensures Grows(t, limit, g, e) ==>
      && e.Advanced?
      && (e.action.ExpandExecution? || e.action.ExpandVerify? || e.action.ExpandRepair? || e.action.Verified?)
  {
  }

  lemma {:induction false} StepKeepsLoop(
    t: TaskType, limit: nat, g: Graph, roles: seq<Role>, k: nat, r: nat, e: Event)
    returns (roles': seq<Role>, k': nat, r': nat)
    requires Loops(g, limit, roles, k, r) && CanStep(limit, g, e)
    ensures Loops(Stepped(t, limit, g, e), limit, roles', k', r')
    ensures Size(roles', k', r') == Size(roles, k, r) + (if Grows(t, limit, g, e) then 1 else 0)
  {
    GrowsByAction(t, limit, g, e);
    hide Loops, Grows, Size, Next, GrowthFor;
    roles', k', r' := roles, k, r;
    if e.Worked? {
      WorkStep(g, limit, roles, k, r, e.move);
    } else if Grows(t, limit, g, e) {
      if e.action.ExpandExecution? {
        roles' := CycleStep(t, g, limit, roles, k, r, e);
        k' := k + 1;
      } else if e.action.ExpandVerify? {
        roles' := VerifyStep(t, g, limit, roles, k, r, e);
      } else {
        roles' := RepairStepped(t, g, limit, roles, k, r, e);
        r' := r + 1;
      }
    }
  }

  lemma {:induction false} LoopKeeps(
    t: TaskType, limit: nat, g: Graph, roles: seq<Role>, k: nat, r: nat, events: seq<Event>)
    returns (roles': seq<Role>, k': nat, r': nat)
    requires Loops(g, limit, roles, k, r) && CanLoop(t, limit, g, events)
    ensures Loops(AfterLoop(t, limit, g, events), limit, roles', k', r')
    ensures Size(roles', k', r') == Size(roles, k, r) + Growths(t, limit, g, events)
    decreases |events|
  {
    if events == [] {
      roles', k', r' := roles, k, r;
    } else {
      roles', k', r' := StepKeepsLoop(t, limit, g, roles, k, r, events[0]);
      roles', k', r' := LoopKeeps(t, limit, Stepped(t, limit, g, events[0]), roles', k', r', events[1..]);
    }
  }

  // ---- The start ----------------------------------------------------------

  const STARTING_ROLES: seq<Role> := [Plan, Implement]

  lemma StartKeys()
    ensures Trim(PLAN) == PLAN != "" && Trim(IMPLEMENT) == IMPLEMENT != "" && PLAN != IMPLEMENT
  {
    assert PLAN[0] == 'a' && IMPLEMENT[0] == 'f';
    TightIsTrimmed(PLAN);
    TightIsTrimmed(IMPLEMENT);
  }

  // The definitions the two starting nodes are stored with.
  ghost predicate StartDefs(ds: seq<Def>) {
    && |ds| == 2 && ds[0].key == PLAN && ds[0].deps == [] && ds[1].key == IMPLEMENT && ds[1].deps == [PLAN]
    && ds[0].mode.WhenSucceeded? && ds[1].mode.WhenSucceeded? && ds[1].payload.expandsGraph
  }

  lemma {:induction false} StartPrepared()
    ensures StartDefs([PreparedDef(STARTING_NODES[0], 0), PreparedDef(STARTING_NODES[1], 1)])
  {
    StartKeys();
  }

  lemma {:induction false} StartDefsStored(id: nat)
    ensures StartDefs(Defs(Union([], STARTING_NODES, id)))
  {
    UnionDefs([], STARTING_NODES, id);
    StartPrepared();
    var ds := Defs(Union([], STARTING_NODES, id));
    assert ds == [PreparedDef(STARTING_NODES[0], 0), PreparedDef(STARTING_NODES[1], 1)];
  }

  lemma {:induction false} StartIsShaped(ds: seq<Def>)
    requires StartDefs(ds)
    ensures AcceptableShape(ds)
  {
    StartKeys();
    hide Trim;
    assert HasKey(ds, ds[0].key);
    forall p | Walk(ds, p) && |p| >= 2 ensures p[0] != p[|p| - 1] { StartWalk(ds, p); }
    AcceptableShapeWhenTrimmed(ds);
  }

  lemma {:induction false} StartIsCreatable()
    ensures Creatable(STARTING_NODES)
  {
    StartDefsStored(0);
    StartIsShaped(Defs(Union([], STARTING_NODES, 0)));
  }

  // The graph createModelGraphForAgent stores.
  ghost function FirstGraph(id: nat, task: string, tenant: string, now: int): (g: Graph)
    ensures Structured(g.nodes) && Live(g, Untouched)
  {
    StartIsCreatable();
    Initial(id, task, tenant, now, STARTING_NODES)
  }

  lemma StartWalk(ds: seq<Def>, p: seq<nat>)
    requires |ds| == 2 && ds[0].deps == [] && ds[1].deps == [ds[0].key] && ds[0].key != ds[1].key
    requires Walk(ds, p) && |p| >= 2
    ensures p[0] == 1 && p[|p| - 1] == 0
  {
    assert DepOf(ds, p[0], p[0 + 1]);
    assert DepOf(ds, p[|p| - 2], p[|p| - 2 + 1]);
  }

  lemma LiveIsSteady(g: Graph)
    requires Live(g, Untouched)
    ensures Steady(g) && NodesOk(g.nodes)
  {
    hide Derive, Grounded;
    LiveForgets(g);
  }

  lemma {:induction false} StartLoops(g: Graph, limit: nat)
    requires Live(g, Untouched) && |g.nodes| == 2
    requires FreshNode(STARTING_NODES[0], 0, g.nodes[0]) && FreshNode(STARTING_NODES[1], 1, g.nodes[1])
    ensures Loops(g, limit, STARTING_ROLES, 0, 0) && Size(STARTING_ROLES, 0, 0) == 0
  {
    hide Live, Steady, NodesOk, Grown, FreshNode;
    LiveIsSteady(g);
    StartStored(g.nodes);
  }

  lemma {:induction false} StartStored(ns: seq<Node>)
    requires |ns| == 2 && FreshNode(STARTING_NODES[0], 0, ns[0]) && FreshNode(STARTING_NODES[1], 1, ns[1])
    ensures Grown(ns, STARTING_ROLES, 0, 0) && Verifications(STARTING_ROLES) == {}
  {
    StartPrepared();
    FreshDefs(ns, PreparedDef(STARTING_NODES[0], 0), PreparedDef(STARTING_NODES[1], 1));
    StartIsGrown(ns);
  }

  lemma FreshDefs(ns: seq<Node>, a: Def, b: Def)
    requires |ns| == 2 && ns[0].def == a && ns[1].def == b
    ensures Defs(ns) == [a, b]
  {
  }

  lemma {:induction false} StartIsGrown(ns: seq<Node>)
    requires StartDefs(Defs(ns))
    ensures Grown(ns, STARTING_ROLES, 0, 0) && Verifications(STARTING_ROLES) == {}
  {
    StartKeys();
    assert ns[0].def == Defs(ns)[0] && ns[1].def == Defs(ns)[1];
    assert Lists(ns, 1, 0);
    assert Links(ns) == {(1, 0)};
    assert Followed(Links(ns), 0) by { assert (1, 0) in Links(ns); }
  }

  lemma {:induction false} FirstLoops(id: nat, task: string, tenant: string, now: int, limit: nat)
    ensures Loops(FirstGraph(id, task, tenant, now), limit, STARTING_ROLES, 0, 0) && Size(STARTING_ROLES, 0, 0) == 0
  {
    StartIsCreatable();
    CreatedIsFresh(id, task, tenant, now, STARTING_NODES);
    hide Initial;
    StartLoops(FirstGraph(id, task, tenant, now), limit);
  }

  lemma LoopsSays(g: Graph, limit: nat, roles: seq<Role>, k: nat, r: nat)
    requires Loops(g, limit, roles, k, r)
    ensures Steady(g) && NodesOk(g.nodes) && Grown(g.nodes, roles, k, r) && WithinLimit(k, r, limit)
  {
  }

  // ---- The result ---------------------------------------------------------

  // Whatever the models answer and however workers, operators and driver interleave: cycles
  // are contiguous, at most max(1, limit) of them execute and at most
  // max(0, limit - 1) are repaired, and the driver grows the graph only boundedly
  // often.
  lemma {:induction false} LoopIsBounded(
    t: TaskType, limit: nat, id: nat, task: string, tenant: string, now: int, events: seq<Event>)
    returns (roles: seq<Role>, k: nat, r: nat)
    requires CanLoop(t, limit, FirstGraph(id, task, tenant, now), events)
    ensures var start := FirstGraph(id, task, tenant, now);
      && Grown(AfterLoop(t, limit, start, events).nodes, roles, k, r)
      && k <= Max(1, limit) && r <= Max(0, limit - 1)
      && Growths(t, limit, start, events) <= 2 * Max(1, limit) + Max(0, limit - 1)
  {
    var start := FirstGraph(id, task, tenant, now);
    FirstLoops(id, task, tenant, now, limit);
    hide FirstGraph, Loops;
    roles, k, r := LoopKeeps(t, limit, start, STARTING_ROLES, 0, 0, events);
    LoopsSays(AfterLoop(t, limit, start, events), limit, roles, k, r);
    hide Grown, Live;
    VerificationsBounded(roles, k, r);
  }

  // ---- Claims -------------------------------------------------------------

  function Used(ns: seq<Node>): nat {
    if ns == [] then 0 else Used(ns[..|ns| - 1]) + ns[|ns| - 1].attempt
  }

  function Granted(ns: seq<Node>): nat {
    if ns == [] then 0 else Granted(ns[..|ns| - 1]) + ns[|ns| - 1].maxAttempts
  }

  // One claim raises one counter; new nodes start at nothing.
  lemma {:induction false} UsedAfter(ns: seq<Node>, ms: seq<Node>, i: int)
    requires |ns| <= |ms| && i < |ns|
    requires forall x | 0 <= x < |ms| ::
      ms[x].attempt == (if x < |ns| then ns[x].attempt else 0) + (if x == i then 1 else 0)
    ensures Used(ms) == Used(ns) + (if i >= 0 then 1 else 0)
  {
    if ms != [] {
      var n := |ms| - 1;
      if |ns| <= n {
        UsedAfter(ns, ms[..n], i);
      } else {
        UsedAfter(ns[..n], ms[..n], if i == n then -1 else i);
      }
    }
  }

  lemma {:induction false} UsedWithinGranted(ns: seq<Node>)
    requires NodesOk(ns)
    ensures Used(ns) <= Granted(ns)
  {
    if ns != [] {
      assert NodeOk(ns[|ns| - 1]);
      UsedWithinGranted(ns[..|ns| - 1]);
    }
  }

  lemma {:induction false} MoveUses(g: Graph, m: Move)
    requires Structured(g.nodes) && Enabled(g, m)
    ensures Used(Next(g, m).nodes) == Used(g.nodes) + (if m.Claim? then 1 else 0)
  {
    MoveKeepsOld(g, m);
    forall x: nat | x < |Next(g, m).nodes|
      ensures Next(g, m).nodes[x].attempt
        == (if x < |g.nodes| then g.nodes[x].attempt else 0) + (if m.Claim? && x == m.i then 1 else 0)
    {
      if x < |g.nodes| { MoveCounts(g, m, x); } else { NewNodeUnused(g, m, x); }
    }
    UsedAfter(g.nodes, Next(g, m).nodes, if m.Claim? then m.i else -1);
  }

  lemma {:induction false} NewNodeUnused(g: Graph, m: Move, x: nat)
    requires Structured(g.nodes) && Enabled(g, m) && |g.nodes| <= x < |Next(g, m).nodes|
    ensures Next(g, m).nodes[x].attempt == 0
  {
    NextLength(g, m);
    NextFollows(g, m, x);
    WrittenUnused(g, m, x);
  }

  lemma WrittenUnused(g: Graph, m: Move, x: nat)
    requires Enabled(g, m) && |g.nodes| <= x < |Written(g, m)|
    ensures Written(g, m)[x].attempt == 0
  {
  }

  lemma {:induction false} StepUses(t: TaskType, limit: nat, g: Graph, e: Event)
    requires Structured(g.nodes) && CanStep(limit, g, e)
    ensures Used(Stepped(t, limit, g, e).nodes) == Used(g.nodes) + (if e.Worked? && e.move.Claim? then 1 else 0)
  {
    if e.Worked? {
      MoveUses(g, e.move);
    } else if Grows(t, limit, g, e) {
      GrowthUses(g, GrowthFor(t, g.nodes, limit, e.action, e.passed).value, e.firstId);
    }
  }

  lemma {:induction false} GrowthUses(g: Graph, rs: seq<Request>, id: nat)
    requires Structured(g.nodes) && Expandable(g, rs)
    ensures Enabled(g, Expand(rs, id)) && Used(Next(g, Expand(rs, id)).nodes) == Used(g.nodes)
  {
    MoveUses(g, Expand(rs, id));
  }

  lemma {:induction false} LoopUses(t: TaskType, limit: nat, g: Graph, events: seq<Event>)
    requires Structured(g.nodes) && CanLoop(t, limit, g, events)
    ensures Used(AfterLoop(t, limit, g, events).nodes) == Used(g.nodes) + Claims(events)
    decreases |events|
  {
    if events != [] {
      StepUses(t, limit, g, events[0]);
      LoopUses(t, limit, Stepped(t, limit, g, events[0]), events[1..]);
    }
  }

  // Every claim is one of the attempts the nodes were granted, so together with the
  // bounded growths the loop makes only boundedly many transitions.
  lemma {:induction false} ClaimsWithinGranted(
    t: TaskType, limit: nat, id: nat, task: string, tenant: string, now: int, events: seq<Event>)
    requires CanLoop(t, limit, FirstGraph(id, task, tenant, now), events)
    ensures var start := FirstGraph(id, task, tenant, now);
      Claims(events) <= Granted(AfterLoop(t, limit, start, events).nodes)
  {
    var start := FirstGraph(id, task, tenant, now);
    FirstLoops(id, task, tenant, now, limit);
    hide FirstGraph, Loops;
    var roles, k, r := LoopKeeps(t, limit, start, STARTING_ROLES, 0, 0, events);
    LoopsSays(AfterLoop(t, limit, start, events), limit, roles, k, r);
    LoopUses(t, limit, start, events);
    UsedWithinGranted(AfterLoop(t, limit, start, events).nodes);
  }
}
