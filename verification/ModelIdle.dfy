// When the model loop has nothing to do: it never idles silently (src/jev-model-loop.js,
// lines 216-230).

module ModelIdle {
  import opened Basics
  import opened Dag
  import opened GraphShape
  import opened Nodes
  import opened Readiness
  import opened Scheduler
  import opened Invariants
  import opened GraphRuns
  import opened Planner
  import opened ModelKeys
  import opened ModelGraph
  import opened ModelShape
  import opened Activity
  import opened ModelBounds

  ghost predicate AllSettled(ns: seq<Node>) {
    forall i | 0 <= i < |ns| :: Terminal(ns[i].status)
  }

  // All settled, and neither failed nor cancelled.
  ghost predicate AtRest(ns: seq<Node>) {
    AllSettled(ns) && !Derive(ns).GraphFailed? && !Derive(ns).GraphCancelled?
  }

  // At rest with a node that did not succeed, some success is left to grow from.
  lemma SomeAwaits(ns: seq<Node>, x: nat) returns (i: nat)
    requires AtRest(ns) && x < |ns| && !ns[x].status.Succeeded?
    ensures AwaitsExpansion(ns, i)
  {
    i :| AwaitsExpansion(ns, i);
  }

  lemma GrownFacts(ns: seq<Node>, roles: seq<Role>, k: nat, r: nat)
    requires Grown(ns, roles, k, r)
    ensures Roled(ns, roles) && |roles| == |ns| && r <= k <= r + 1
    ensures RightPayloads(ns, roles) && Wired(Links(ns), roles, k, r) && Present(roles, k, r)
    ensures forall role | role in roles :: InRange(role, k, r)
  {
  }

  // Only a producer, or a review nothing follows yet, is left to grow from.
  lemma AwaitsAtFront(ns: seq<Node>, roles: seq<Role>, k: nat, r: nat, i: nat)
    requires Grown(ns, roles, k, r) && AwaitsExpansion(ns, i)
    ensures i < |roles| == |ns| && roles[i] == if r == k then ProducerRole(k + 1) else Review(k)
  {
    hide Grown, Roled, Present;
    GrownFacts(ns, roles, k, r);
    assert !Followed(Links(ns), i);
    assert RightPayload(roles[i], ns[i].def);
    assert InRange(roles[i], k, r);
  }

  // The node with this role has succeeded, if it is what is left to grow from.
  lemma FrontDone(ns: seq<Node>, roles: seq<Role>, k: nat, r: nat, role: Role)
    requires Grown(ns, roles, k, r) && DistinctKeys(Defs(ns)) && AtRest(ns)
    requires role == if r == k then ProducerRole(k + 1) else Review(k)
    requires !role.Exec? && role in roles
    ensures Done(ns, KeyOfRole(role))
  {
    hide Grown, DistinctKeys, AtRest, Roled, AwaitsExpansion, KeyOfRole, RightPayloads, Wired, Present, InRange;
    GrownFacts(ns, roles, k, r);
    FindByRole(ns, roles, role);
    var x := Find(ns, KeyOfRole(role)).value;
    if !ns[x].status.Succeeded? {
      var i := SomeAwaits(ns, x);
      AwaitsAtFront(ns, roles, k, r, i);
      SameRoleSameNode(ns, roles, i, x);
      AwaitsSucceeded(ns, i);
    }
  }

  lemma AwaitsSucceeded(ns: seq<Node>, i: nat)
    requires AwaitsExpansion(ns, i)
    ensures i < |ns| && ns[i].status.Succeeded?
  {
  }

  // A verification once asked for follows the review: nothing is left to grow from.
  lemma VerificationDone(ns: seq<Node>, roles: seq<Role>, k: nat)
    requires k > 0 && Grown(ns, roles, k, k - 1) && DistinctKeys(Defs(ns)) && AtRest(ns)
    requires Verify(k) in roles
    ensures Done(ns, KeyOfRole(Verify(k)))
  {
    hide Grown, DistinctKeys, AtRest, Roled, AwaitsExpansion, KeyOfRole, RightPayloads, Wired, Present, InRange, Lists;
    GrownFacts(ns, roles, k, k - 1);
    FindByRole(ns, roles, Verify(k));
    var x := Find(ns, KeyOfRole(Verify(k))).value;
    if !ns[x].status.Succeeded? {
      var i := SomeAwaits(ns, x);
      AwaitsAtFront(ns, roles, k, k - 1, i);
      FollowsReview(ns, roles, k, x, i);
      NoneFollows(ns, x, i);
    }
  }

  lemma NoneFollows(ns: seq<Node>, j: int, i: nat)
    requires AwaitsExpansion(ns, i)
    ensures !Lists(ns, j, i)
  {
  }

  lemma FollowsReview(ns: seq<Node>, roles: seq<Role>, k: nat, v: nat, i: nat)
    requires k > 0 && Grown(ns, roles, k, k - 1) && DistinctKeys(Defs(ns)) && v < |ns| && i < |ns| == |roles|
    requires roles[v] == Verify(k) && roles[i] == Review(k)
    ensures Lists(ns, v, i)
  {
    hide Grown, Roled, RightPayloads, Present, DistinctKeys, Links, Lists, Wired, InRange;
    GrownFacts(ns, roles, k, k - 1);
    var j := LinkedReview(Links(ns), roles, k, k - 1, v);
    LinkLists(ns, v, j);
    SameRoleSameNode(ns, roles, i, j);
  }

  lemma LinkLists(ns: seq<Node>, i: int, j: int)
    requires (i, j) in Links(ns)
    ensures Lists(ns, i, j) && 0 <= j < |ns|
  {
  }

  lemma LinkedReview(links: set<(int, int)>, roles: seq<Role>, k: nat, r: nat, v: nat) returns (j: nat)
    requires Wired(links, roles, k, r) && v < |roles| && roles[v] == Verify(k)
    ensures (v, j) in links && j < |roles| && roles[j] == Review(k)
  {
    assert FollowsOn(links, v);
    j :| (v, j) in links;
    assert MayList(roles[(v, j).0], roles[(v, j).1]);
  }

  // ---- The decision -------------------------------------------------------

  lemma CyclesRead(ns: seq<Node>, roles: seq<Role>, k: nat, r: nat, limit: nat, a: Action) returns (c: CycleSets)
    requires Grown(ns, roles, k, r) && Decides(ns, limit, a)
    ensures k + 1 !in c.exec && HighestIn(c.exec, k) && HighestIn(c.reviews, k) && DecidedFrom(ns, limit, c, k, k, a)
  {
    hide Wired, RightPayloads, Justified, Counted, ReadsCycles, DecidedFrom;
    var exec, review;
    c, exec, review :| ReadsCycles(ns, c) && HighestIn(c.exec, exec) && HighestIn(c.reviews, review)
      && DecidedFrom(ns, limit, c, exec, review, a);
    CyclesAreContiguous(ns, roles, k, r, c);
    HighestIs(c.exec, k, exec);
    HighestIs(c.reviews, k, review);
  }

  // What is decided, with the cycles read off the roles.
  lemma {:induction false} DecidedAt(ns: seq<Node>, roles: seq<Role>, k: nat, r: nat, limit: nat, a: Action)
    requires Grown(ns, roles, k, r) && Decides(ns, limit, a)
    ensures a == if r == k && Done(ns, KeyOfRole(ProducerRole(k + 1)))
                 then ExpandExecution(k + 1, KeyOfRole(ProducerRole(k + 1))) else OnReviews(ns, limit, k)
  {
    hide Grown, Decides, Done, OnReviews, KeyOfRole, ProducerRole, HighestIn, ProducerKeyFor;
    var c := CyclesRead(ns, roles, k, r, limit, a);
    ProducerForNext(ns, roles, k, r);
  }

  lemma LatestDecides(ns: seq<Node>, k: nat, limit: nat)
    requires k > 0 && Done(ns, ReviewKey(k)) && !Has(ns, RepairKey(k))
    requires Has(ns, VerifyKey(k)) ==> Done(ns, VerifyKey(k))
    ensures OnReviews(ns, limit, k).Idle? <==> DecisionOf(ns[Find(ns, ReviewKey(k)).value]).None?
  {
    hide Find, ReviewKey, VerifyKey, RepairKey, DecisionOf;
  }

  lemma {:induction false} OnLatestReview(ns: seq<Node>, roles: seq<Role>, k: nat, limit: nat)
    requires k > 0 && Grown(ns, roles, k, k - 1) && DistinctKeys(Defs(ns)) && AtRest(ns)
    ensures Done(ns, ReviewKey(k))
    ensures OnReviews(ns, limit, k).Idle? <==> DecisionOf(ns[Find(ns, ReviewKey(k)).value]).None?
  {
    hide Grown, DistinctKeys, AtRest, Roled, RightPayloads, Wired, Has, Done, OnReviews, DecisionOf;
    hide ReviewKey, RepairKey, VerifyKey;
    GrownFacts(ns, roles, k, k - 1);
    assert Review(k) in roles && Repair(k) !in roles;
    FrontDone(ns, roles, k, k - 1, Review(k));
    FindByRole(ns, roles, Repair(k));
    FindByRole(ns, roles, Verify(k));
    if Verify(k) in roles { VerificationDone(ns, roles, k); }
    LatestDecides(ns, k, limit);
  }

  // The review of this cycle succeeded without one of the three verdicts.
  ghost predicate GaveNoVerdict(ns: seq<Node>, c: nat) {
    Done(ns, ReviewKey(c)) && DecisionOf(ns[Find(ns, ReviewKey(c)).value]).None?
  }

  // With every node settled and the graph neither failed nor cancelled, the driver has nothing to do
  // exactly when the review of the cycle in hand succeeded without a verdict.
  lemma {:induction false} IdleIffNoVerdict(
    g: Graph, limit: nat, roles: seq<Role>, k: nat, r: nat, a: Action)
    requires Loops(g, limit, roles, k, r) && Decides(g.nodes, limit, a)
    requires AllSettled(g.nodes) && !g.status.GraphFailed? && !g.status.GraphCancelled?
    ensures a.Idle? <==> k == r + 1 && GaveNoVerdict(g.nodes, k)
  {
    hide Loops, AtRest, AllSettled, Grown, Decides, Done, ProducerRole, KeyOfRole, DistinctKeys, OnReviews, DecisionOf;
    hide ReviewKey, Find;
    LoopsFacts(g, limit, roles, k, r);
    DecidedAt(g.nodes, roles, k, r, limit, a);
    if r == k {
      ProducerIsThere(g.nodes, roles, k);
      FrontDone(g.nodes, roles, k, k, ProducerRole(k + 1));
    } else {
      OnLatestReview(g.nodes, roles, k, limit);
    }
  }

  lemma ProducerIsThere(ns: seq<Node>, roles: seq<Role>, k: nat)
    requires Grown(ns, roles, k, k)
    ensures !ProducerRole(k + 1).Exec? && ProducerRole(k + 1) in roles
  {
    hide Grown, Roled, RightPayloads, Wired;
    GrownFacts(ns, roles, k, k);
  }

  lemma LoopsFacts(g: Graph, limit: nat, roles: seq<Role>, k: nat, r: nat)
    requires Loops(g, limit, roles, k, r) && AllSettled(g.nodes)
    requires !g.status.GraphFailed? && !g.status.GraphCancelled?
    ensures Grown(g.nodes, roles, k, r) && r <= k <= r + 1 && DistinctKeys(Defs(g.nodes)) && AtRest(g.nodes)
  {
    hide Derive;
  }

  // After any interleaving of workers, operators and driver: some node can be worked on, or
  // the graph has failed, or an operator cancelled some node, or the driver has something to
  // do, or a review gave no verdict.
  lemma {:induction false} NeverIdlesSilently(
    t: TaskType, limit: nat, id: nat, task: string, tenant: string, now: int, events: seq<Event>, a: Action)
    requires CanLoop(t, limit, FirstGraph(id, task, tenant, now), events)
    requires Decides(AfterLoop(t, limit, FirstGraph(id, task, tenant, now), events).nodes, limit, a)
    ensures var g := AfterLoop(t, limit, FirstGraph(id, task, tenant, now), events);
      || CanProgress(g.nodes) || g.status.GraphFailed? || !NoneCancelled(g.nodes) || !a.Idle?
      || exists c :: GaveNoVerdict(g.nodes, c)
  {
    hide FirstGraph, Loops, CanLoop, AfterLoop, Decides, GaveNoVerdict, CanProgress, Structured, NoneCancelled;
    var start := FirstGraph(id, task, tenant, now);
    FirstLoops(id, task, tenant, now, limit);
    var roles, k, r := LoopKeeps(t, limit, start, STARTING_ROLES, 0, 0, events);
    var g := AfterLoop(t, limit, start, events);
    if !CanProgress(g.nodes) && !g.status.GraphFailed? && NoneCancelled(g.nodes) {
      StoppedIsAllSettled(g, limit, roles, k, r);
      IdleIffNoVerdict(g, limit, roles, k, r, a);
    }
  }

  lemma StoppedIsAllSettled(g: Graph, limit: nat, roles: seq<Role>, k: nat, r: nat)
    requires Loops(g, limit, roles, k, r) && !CanProgress(g.nodes) && NoneCancelled(g.nodes)
    ensures AllSettled(g.nodes) && !g.status.GraphCancelled?
  {
    hide CanProgress, Structured, Stable, Grown, NodesOk, NoneCancelled, Steady, Quiet, Derive;
    LoopsSays(g, limit, roles, k, r);
    SteadyIsQuiet(g);
    NoDeadlock(g);
  }

  lemma SteadyIsQuiet(g: Graph)
    requires Steady(g) && NoneCancelled(g.nodes)
    ensures Quiet(g) && !g.status.GraphCancelled?
  {
    hide Structured, Stable, NodesOk, Grounded;
  }
}
