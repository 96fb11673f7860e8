// A compiled plan, run on the graph machine.

module PlanRuns {
  import opened Basics
  import opened Dag
  import opened GraphShape
  import opened Nodes
  import opened Scheduler
  import opened Invariants
  import opened GraphRuns
  import opened Drain
  import opened Workspaces
  import opened Planner
  import opened Commuting
  import opened PlanMeaning
  import opened Stretches
  import opened PlanTraces
  import opened Completions

  // A dependency written between keys is a dependency between stored nodes.
  lemma ListedWhenStored(rs: seq<Request>, ns: seq<Node>, i: nat, j: nat)
    requires WellShaped(Defs(ns)) && |ns| == |rs| && i < |rs| && j < |rs| && rs[j].key in rs[i].deps
    requires forall x | 0 <= x < |rs| :: ns[x].def == PreparedDef(rs[x], x)
    ensures Lists(ns, i, j)
  {
    var ds := Defs(ns);
    assert rs[j].key in ds[i].deps;
    assert HasKey(ds, rs[j].key);
    var x :| 0 <= x < |ds| && ds[x].key == rs[j].key;
    TrimTwice(rs[x].key);
    assert ds[j].key == Trim(rs[j].key) == ds[x].key;
  }

  // Every order in which a run completes all the nodes is an allowed order.
  lemma {:induction false} RunsAreAllowed(
    rs: seq<Request>, g: Graph, moves: seq<Move>)
    requires Structured(g.nodes) && RunsOnSuccess(g.nodes) && CanRun(g, moves) && |g.nodes| == |rs|
    requires forall x | 0 <= x < |rs| ::
      g.nodes[x].def == PreparedDef(rs[x], x) && rs[x].mode.WhenSucceeded? && !g.nodes[x].status.Succeeded?
    requires |After(g, moves).nodes| >= |rs|
    requires forall x | 0 <= x < |rs| :: After(g, moves).nodes[x].status.Succeeded?
    ensures Allowed(rs, Succeeding(moves, 0, |rs|))
  {
    var out, n := Succeeding(moves, 0, |rs|), |rs|;
    SuccessesAreOrderly(g, moves, 0, n);
    forall i | 0 <= i < n ensures i in out { assert Won(After(g, moves), 0, i); }
    AllWonIsPermutation(out, n);
    forall a, j | 0 <= a < |out| && 0 <= j < n && out[a] < n && rs[j].key in rs[out[a]].deps
      ensures j in out[..a]
    {
      ListedWhenStored(rs, g.nodes, out[a], j);
      assert Lists(g.nodes, 0 + out[a], 0 + j);
      assert !Won(g, 0, j);
    }
  }

  // Any run, by any workers, with anything else done to the graph on the way, that ends
  // with every node succeeded leaves the workspace running the list in order
  // leaves, each node's work taking effect when its completion is accepted.
  lemma {:induction false} RunsPreserveMeaning(
    t: TaskType, world: World, steps: seq<PlanStep>, w: Workspace,
    id: nat, task: string, tenant: string, now: int, moves: seq<Move>)
    requires Plain(t, steps) && TracesAgree(t, steps) && Creatable(Compiled(t, steps))
    requires CanRun(Initial(id, task, tenant, now, Compiled(t, steps)), moves)
    requires var g := After(Initial(id, task, tenant, now, Compiled(t, steps)), moves);
      |g.nodes| >= |steps| && forall x | 0 <= x < |steps| :: g.nodes[x].status.Succeeded?
    ensures Run(Doing(t, world, steps), Succeeding(moves, 0, |steps|), w) == InOrder(t, world, steps, w)
  {
    hide Initial, Plain, TracesAgree, Creatable, CanRun, After, Structured;
    hide CompiledNode, Allowed, Run, InOrder, Succeeding, PreparedDef;
    var rs := Compiled(t, steps);
    StoredAsCompiled(t, steps, id, task, tenant, now);
    var g := Initial(id, task, tenant, now, rs);
    RunsAreAllowed(rs, g, moves);
    TracesSuffice(t, world, steps, Succeeding(moves, 0, |steps|), w);
  }

  lemma {:induction false} StoredAsCompiled(
    t: TaskType, steps: seq<PlanStep>, id: nat, task: string, tenant: string, now: int)
    requires Creatable(Compiled(t, steps))
    ensures var rs, g := Compiled(t, steps), Initial(id, task, tenant, now, Compiled(t, steps));
      && |g.nodes| == |rs| == |steps| && RunsOnSuccess(g.nodes)
      && forall x | 0 <= x < |rs| ::
           g.nodes[x].def == PreparedDef(rs[x], x) && rs[x].mode.WhenSucceeded? && !g.nodes[x].status.Succeeded?
  {
    var rs := Compiled(t, steps);
    var g := Initial(id, task, tenant, now, rs);
    CreatedIsFresh(id, task, tenant, now, rs);
    hide Initial;
    forall x | 0 <= x < |rs|
      ensures g.nodes[x].def == PreparedDef(rs[x], x) && rs[x].mode.WhenSucceeded? && !g.nodes[x].status.Succeeded?
    {
      assert FreshNode(rs[x], x, g.nodes[x]);
    }
    assert forall x | 0 <= x < |g.nodes| :: FreshNode(rs[x], x, g.nodes[x]);
  }

  // ---- One worker, no failures --------------------------------------------

  // The keys under which the nodes are stored, in list order.
  function StoredKeys(rs: seq<Request>): (ks: seq<string>)
    ensures |ks| == |rs| && forall n | 0 <= n < |rs| :: ks[n] == Trim(rs[n].key)
  {
    seq(|rs|, n requires 0 <= n < |rs| => Trim(rs[n].key))
  }

  ghost predicate Stores(ds: seq<Def>, rs: seq<Request>) {
    |ds| == |rs| && WellShaped(ds) && forall x | 0 <= x < |rs| :: ds[x] == PreparedDef(rs[x], x)
  }

  // Each node lists only earlier ones.
  ghost predicate Forward(rs: seq<Request>) {
    forall i, k | 0 <= i < |rs| && k in rs[i].deps :: exists j :: 0 <= j < i && rs[j].key == k
  }

  lemma StoredAsListed(ds: seq<Def>, rs: seq<Request>, i: nat, k: string)
    requires Stores(ds, rs) && Forward(rs) && i < |rs| && k in rs[i].deps
    ensures k in StoredKeys(rs)[..i]
  {
    var j :| 0 <= j < i && rs[j].key == k;
    assert k in ds[i].deps && HasKey(ds, k);
    var x :| 0 <= x < |ds| && ds[x].key == k;
    TrimTwice(rs[x].key);
    assert StoredKeys(rs)[..i][j] == Trim(k) == k;
  }

  lemma {:induction false} ListOrderIsGreedy(ds: seq<Def>, rs: seq<Request>)
    requires Stores(ds, rs) && Forward(rs)
    ensures GreedyIn(ds, StoredKeys(rs)) && Finished(ds, StoredKeys(rs))
  {
    var ks := StoredKeys(rs);
    var position := PositionTable(ds);
    forall t | 0 <= t < |ks|
      ensures Free(ds, ks[..t], ks[t])
      ensures forall k | Free(ds, ks[..t], k) :: k == ks[t] || Before(position, ks[t], k)
    {
      NextInList(ds, rs, t);
      forall k | Free(ds, ks[..t], k) ensures k == ks[t] || Before(position, ks[t], k) { LaterInList(ds, rs, t, k); }
    }
    forall k ensures !Free(ds, ks, k) {
      if HasKey(ds, k) { assert ks[IndexOf(ds, k)] == k; }
    }
  }

  lemma NextInList(ds: seq<Def>, rs: seq<Request>, t: nat)
    requires Stores(ds, rs) && Forward(rs) && t < |rs|
    ensures Free(ds, StoredKeys(rs)[..t], StoredKeys(rs)[t])
  {
    var ks := StoredKeys(rs);
    IndexOfKey(ds, t);
    forall d | d in DepsOf(ds, ks[t]) ensures d in ks[..t] { StoredAsListed(ds, rs, t, d); }
    forall j | 0 <= j < t ensures ks[j] != ks[t] { assert ds[j].key != ds[t].key; }
  }

  lemma LaterInList(ds: seq<Def>, rs: seq<Request>, t: nat, k: string)
    requires Stores(ds, rs) && t < |rs| && Free(ds, StoredKeys(rs)[..t], k)
    ensures k == StoredKeys(rs)[t] || Before(PositionTable(ds), StoredKeys(rs)[t], k)
  {
    var x := IndexOf(ds, k);
    assert forall s | 0 <= s < t :: StoredKeys(rs)[..t][s] == ds[s].key;
    assert PositionTable(ds)[ds[x].key] == x && PositionTable(ds)[ds[t].key] == t;
  }

  // A graph compiled without declared dependencies, run by one worker without
  // failures, claims its nodes in exactly the plan's list order.
  lemma {:induction false} CleanRunFollowsTheList(
    t: TaskType, steps: seq<PlanStep>, id: nat, task: string, tenant: string, now: int, answers: seq<Answer>)
    requires Plain(t, steps) && NoRepeats(Keys(steps)) && Creatable(Compiled(t, steps)) && AllSucceed(answers)
    requires |answers| >= AttemptsLeft(Initial(id, task, tenant, now, Compiled(t, steps)).nodes)
    ensures Executed(Initial(id, task, tenant, now, Compiled(t, steps)), answers, now) == StoredKeys(Compiled(t, steps))
  {
    var rs := Compiled(t, steps);
    var g := Initial(id, task, tenant, now, rs);
    CreatedIsFresh(id, task, tenant, now, rs);
    forall x | 0 <= x < |rs| ensures g.nodes[x].def == PreparedDef(rs[x], x) { assert FreshNode(rs[x], x, g.nodes[x]); }
    CompiledIsForward(t, steps);
    ListOrderIsGreedy(Defs(g.nodes), rs);
    CleanRunFollowsTopologicalOrder(id, task, tenant, now, rs, answers, StoredKeys(rs));
  }

  lemma {:induction false} CompiledIsForward(t: TaskType, steps: seq<PlanStep>)
    requires Plain(t, steps) && NoRepeats(Keys(steps))
    ensures Forward(Compiled(t, steps))
  {
    var rs := Compiled(t, steps);
    forall i, k | 0 <= i < |rs| && k in rs[i].deps ensures exists j :: 0 <= j < i && rs[j].key == k {
      ListedExactly(t, steps, i, k);
      var j :| Listed(t, steps, i, j) && k == KeyOf(steps, j);
      assert rs[j].key == k;
    }
  }
}
