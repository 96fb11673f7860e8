// What a stored node takes over from the request that asked for it, and what that comes
// to when the node runs; and which requests are accepted, said of the requests alone
// (src/jev.js, lines 101-309).

module Requests {
  import opened Basics
  import opened Dag
  import opened GraphShape
  import opened Nodes
  import opened Readiness
  import opened Scheduler
  import opened Invariants
  import opened GraphRuns
  import opened ModelGrowth

  // ---- A node as it was asked for -----------------------------------------

  function AtLeast(low: int, n: int): int {
    if n < low then low else n
  }

  ghost predicate AsAsked(n: Node, r: Request) {
    && n.def.key == Trim(r.key) && n.def.kind == r.kind && n.def.deps == r.deps && n.def.mode == r.mode
    && n.def.payload == r.payload && n.def.resourceClass == r.resourceClass
    && n.def.timeoutMs == AtLeast(0, r.timeoutMs) && n.def.budgetMinor == AtLeast(0, r.budgetMinor)
    && n.maxAttempts == AtLeast(1, r.maxAttempts) && n.attempt == 0
    && n.lease.None? && n.leaseOwner.None? && n.leaseExpires.None? && n.deadline.None? && n.output.NoOutput?
    && (n.status.Pending? || n.status.Ready? || n.status.Skipped?)
  }

  // A graph holds one node for each request it was created with, as asked for and in
  // that order, under fresh ids.
  lemma {:induction false} CreatedAsAsked(id: nat, task: string, tenant: string, now: int, rs: seq<Request>)
    requires Creatable(rs)
    ensures var g := Created(id, task, tenant, now, rs);
      && g.id == id && g.task == task && g.tenant == tenant && g.createdAt == now && |g.nodes| == |rs|
      && forall t | 0 <= t < |rs| ::
           AsAsked(g.nodes[t], rs[t]) && g.nodes[t].id == id + 1 + t && g.nodes[t].def.order == t
  {
    hide Settle, AcceptableShape, Structured, WellShaped, Trim;
    UnionStructured([], rs, id + 1);
    var ns := Union([], rs, id + 1);
    ShapeOf(ns);
    forall t: nat | t < |rs| ensures AsAsked(Settle(ns)[t], rs[t]) { SettledLeaves(ns, t); }
  }

  lemma ShapeOf(ns: seq<Node>)
    requires Structured(ns)
    ensures WellShaped(Defs(ns))
  {
  }

  // An expansion adds one node for each request, as asked for, after all there were.
  lemma {:induction false} ExpandedAsAsked(g: Graph, m: Move)
    requires Structured(g.nodes) && m.Expand? && Enabled(g, m)
    ensures var g' := Next(g, m);
      && |g'.nodes| == |g.nodes| + |m.requests|
      && forall t | 0 <= t < |m.requests| ::
           var n := g'.nodes[|g.nodes| + t];
           && AsAsked(n, m.requests[t]) && n.id == m.firstId + t
           && forall i | 0 <= i < |g.nodes| :: g.nodes[i].def.order < n.def.order
  {
    hide Settle, AcceptableShape, Structured, WellShaped, AsAsked, Next, Union;
    UnionStructured(g.nodes, m.requests, m.firstId);
    var ns := Union(g.nodes, m.requests, m.firstId);
    ShapeOf(ns);
    ExpandedNodes(g, m);
    forall t: nat | t < |m.requests|
      ensures |g.nodes| + t < |ns| == |g.nodes| + |m.requests| && AsAsked(Settle(ns)[|g.nodes| + t], m.requests[t])
      ensures Settle(ns)[|g.nodes| + t].id == m.firstId + t
      ensures forall i | 0 <= i < |g.nodes| :: g.nodes[i].def.order < Settle(ns)[|g.nodes| + t].def.order
    {
      UnionAsAsked(g.nodes, m.requests, m.firstId, t);
      SettledLeaves(ns, |g.nodes| + t);
      StaysAsAsked(ns[|g.nodes| + t], Settle(ns)[|g.nodes| + t], m.requests[t]);
    }
    UnionAsAsked(g.nodes, m.requests, m.firstId, 0);
  }

  lemma UnionAsAsked(ns: seq<Node>, rs: seq<Request>, id: nat, t: nat)
    requires t < |rs|
    ensures var n := |ns| + t;
      && |Union(ns, rs, id)| == |ns| + |rs|
      && AsAsked(Union(ns, rs, id)[n], rs[t]) && Union(ns, rs, id)[n].id == id + t
      && Union(ns, rs, id)[n].status.Pending?
      && forall i | 0 <= i < |ns| :: ns[i].def.order < Union(ns, rs, id)[n].def.order
  {
    hide Trim;
  }

  lemma StaysAsAsked(n: Node, n': Node, r: Request)
    requires AsAsked(n, r) && Follows(n, n')
    ensures AsAsked(n', r) && n'.id == n.id && n'.def == n.def
  {
    hide Trim;
  }

  // ---- What that comes to when it runs ------------------------------------

  lemma {:induction false} OnlyClaimsSetDeadlines(g: Graph, m: Move, i: nat)
    requires Structured(g.nodes) && Enabled(g, m) && i < |g.nodes| && !(m.Claim? && m.i == i)
    ensures i < |Next(g, m).nodes| && Next(g, m).nodes[i].deadline == g.nodes[i].deadline
  {
    hide Structured, Follows;
    NextFollows(g, m, i);
    WrittenDeadline(g, m, i);
    FollowsDeadline(Written(g, m)[i], Next(g, m).nodes[i]);
  }

  lemma FollowsDeadline(n: Node, n': Node)
    requires Follows(n, n')
    ensures n'.deadline == n.deadline
  {
  }

  lemma WrittenDeadline(g: Graph, m: Move, i: nat)
    requires Enabled(g, m) && i < |g.nodes| && !(m.Claim? && m.i == i)
    ensures Written(g, m)[i].deadline == g.nodes[i].deadline
  {
  }

  lemma {:induction false} UnclaimedHasNoDeadline(g: Graph, moves: seq<Move>, i: nat)
    requires Structured(g.nodes) && CanRun(g, moves) && i < |g.nodes| && g.nodes[i].deadline.None?
    requires ClaimsOf(moves, i) == 0
    ensures i < |After(g, moves).nodes| && After(g, moves).nodes[i].deadline.None?
    decreases |moves|
  {
    hide Structured;
    if moves != [] {
      OnlyClaimsSetDeadlines(g, moves[0], i);
      UnclaimedHasNoDeadline(Next(g, moves[0]), moves[1..], i);
    }
  }

  // The first claim of a node, whatever else has happened in its graph, gives it the time
  // the request asked for, counted from the claim, and no limit where none was asked for.
  lemma {:induction false} FirstClaimSetsDeadline(g: Graph, r: Request, x: nat, moves: seq<Move>, m: Move)
    requires Structured(g.nodes) && x < |g.nodes| && AsAsked(g.nodes[x], r)
    requires CanRun(g, moves) && ClaimsOf(moves, x) == 0
    requires m.Claim? && m.i == x && Enabled(After(g, moves), m)
    ensures x < |Next(After(g, moves), m).nodes|
    ensures Next(After(g, moves), m).nodes[x].deadline
      == if r.timeoutMs > 0 then Some(m.now + r.timeoutMs) else None
  {
    hide Structured, CanRun, After, Trim;
    UnclaimedHasNoDeadline(g, moves, x);
    RunCounts(g, moves, x);
    ClaimWritesOne(After(g, moves), m);
  }

  lemma {:induction false} ClaimWritesOne(g: Graph, m: Move)
    requires Structured(g.nodes) && m.Claim? && Enabled(g, m)
    ensures m.i < |g.nodes|
      && Next(g, m).nodes == g.nodes[m.i := ClaimedNode(g.nodes[m.i], m.lease, m.owner, m.leaseMs, m.now)]
  {
  }

  // It may be claimed as often as the request asked for, and once at least, and once more
  // for every reopening: a failure that may be retried puts it back exactly while it has
  // been claimed less often than that, and fails it otherwise.
  lemma {:induction false} RetriedAsAsked(g: Graph, r: Request, x: nat, moves: seq<Move>, retryable: bool)
    requires Structured(g.nodes) && NodesOk(g.nodes) && x < |g.nodes| && AsAsked(g.nodes[x], r) && CanRun(g, moves)
    requires Enabled(After(g, moves), Fail(x, retryable))
    ensures ClaimsOf(moves, x) <= AtLeast(1, r.maxAttempts) + ReopensOf(moves, x)
    ensures x < |Next(After(g, moves), Fail(x, retryable)).nodes|
    ensures Next(After(g, moves), Fail(x, retryable)).nodes[x].status
      == if retryable && ClaimsOf(moves, x) < AtLeast(1, r.maxAttempts) + ReopensOf(moves, x) then Ready else Failed
  {
    hide Structured, CanRun, After, Trim, NodesOk, Settle;
    ClaimsAreBounded(g, moves, x);
    RunCounts(g, moves, x);
    var g' := After(g, moves);
    FailLeaves(g', x, retryable);
  }

  lemma {:induction false} FailLeaves(g: Graph, x: nat, retryable: bool)
    requires Structured(g.nodes) && Enabled(g, Fail(x, retryable))
    ensures x < |Next(g, Fail(x, retryable)).nodes|
    ensures Next(g, Fail(x, retryable)).nodes[x].status
      == if retryable && g.nodes[x].attempt < g.nodes[x].maxAttempts then Ready else Failed
  {
    hide Structured, Settle;
    var m := Fail(x, retryable);
    MoveKeepsStructure(g, m);
    if Propagates(g, m) { SettledLeaves(Written(g, m), x); }
  }

  // ---- Which requests are accepted ----------------------------------------

  // Where each request lists the one after it.
  ghost predicate AskedChain(rs: seq<Request>, p: seq<nat>) {
    && (forall t | 0 <= t < |p| :: p[t] < |rs|)
    && (forall t | 0 <= t < |p| - 1 :: Trim(rs[p[t + 1]].key) in rs[p[t]].deps)
  }

  // Some node, or some request, goes by this name.
  ghost predicate Named(ns: seq<Node>, rs: seq<Request>, k: string) {
    (exists x :: 0 <= x < |ns| && ns[x].def.key == k) || (exists j :: 0 <= j < |rs| && Trim(rs[j].key) == k)
  }

  // Names of their own, and lists of known names, none twice and not their own.
  ghost predicate WellNamed(ns: seq<Node>, rs: seq<Request>) {
    && (forall i | 0 <= i < |rs| :: !Blank(rs[i].key))
    && (forall i, j | 0 <= i < j < |rs| :: Trim(rs[i].key) != Trim(rs[j].key))
    && (forall i, x | 0 <= i < |rs| && 0 <= x < |ns| :: Trim(rs[i].key) != ns[x].def.key)
    && (forall i, a, b | 0 <= i < |rs| && 0 <= a < b < |rs[i].deps| :: rs[i].deps[a] != rs[i].deps[b])
    && (forall i | 0 <= i < |rs| :: Trim(rs[i].key) !in rs[i].deps)
    && (forall i, k | 0 <= i < |rs| && k in rs[i].deps :: Named(ns, rs, k))
  }

  // Requests that fit what is there: some, well named, and without a circle among them.
  ghost predicate Fitting(ns: seq<Node>, rs: seq<Request>) {
    && rs != [] && WellNamed(ns, rs)
    && (forall p | AskedChain(rs, p) && |p| >= 2 :: p[0] != p[|p| - 1])
  }

  // The stored definitions with what is asked for after them.
  ghost predicate Joined(ns: seq<Node>, rs: seq<Request>, ds: seq<Def>) {
    && |ds| == |ns| + |rs|
    && (forall i | 0 <= i < |ns| :: ds[i] == ns[i].def)
    && (forall i | |ns| <= i < |ds| :: ds[i].key == Trim(rs[i - |ns|].key) && ds[i].deps == rs[i - |ns|].deps)
  }

  lemma UnionJoins(ns: seq<Node>, rs: seq<Request>)
    ensures Joined(ns, rs, Defs(Union(ns, rs, 0)))
  {
  }

  // What holds of the nodes of a stored graph, and of no nodes.
  ghost predicate Closed(ns: seq<Node>) {
    && (forall i | 0 <= i < |ns| :: Trim(ns[i].def.key) == ns[i].def.key != "")
    && WellShaped(Defs(ns)) && Acyclic(Defs(ns))
  }

  lemma NamedIsKey(ns: seq<Node>, rs: seq<Request>, ds: seq<Def>, k: string)
    requires Joined(ns, rs, ds)
    ensures Named(ns, rs, k) <==> HasKey(ds, k)
  {
    hide Trim;
    if x :| 0 <= x < |ns| && ns[x].def.key == k { assert ds[x].key == k; }
    if j :| 0 <= j < |rs| && Trim(rs[j].key) == k { assert ds[|ns| + j].key == k; }
    if x :| 0 <= x < |ds| && ds[x].key == k {
      if x >= |ns| { assert Trim(rs[x - |ns|].key) == k; } else { assert ns[x].def.key == k; }
    }
  }

  lemma ShapedIsWellNamed(ns: seq<Node>, rs: seq<Request>, ds: seq<Def>)
    requires Joined(ns, rs, ds) && WellShaped(ds) && forall i | 0 <= i < |ds| :: ds[i].key != ""
    ensures WellNamed(ns, rs)
  {
    hide Trim, Named;
    forall i | 0 <= i < |rs| ensures !Blank(rs[i].key) {
      TrimIsBlank(rs[i].key);
      assert ds[|ns| + i].key != "";
    }
    forall i, j | 0 <= i < j < |rs| ensures Trim(rs[i].key) != Trim(rs[j].key) {
      assert ds[|ns| + i].key != ds[|ns| + j].key;
    }
    forall i, x | 0 <= i < |rs| && 0 <= x < |ns| ensures Trim(rs[i].key) != ns[x].def.key {
      assert ds[x].key != ds[|ns| + i].key;
    }
    forall i, a, b | 0 <= i < |rs| && 0 <= a < b < |rs[i].deps| ensures rs[i].deps[a] != rs[i].deps[b] {
      assert NoRepeats(ds[|ns| + i].deps);
    }
    forall i | 0 <= i < |rs| ensures Trim(rs[i].key) !in rs[i].deps {
      assert ds[|ns| + i].key !in ds[|ns| + i].deps;
    }
    forall i, k | 0 <= i < |rs| && k in rs[i].deps ensures Named(ns, rs, k) {
      assert k in ds[|ns| + i].deps;
      NamedIsKey(ns, rs, ds, k);
    }
  }

  lemma WellNamedIsShaped(ns: seq<Node>, rs: seq<Request>, ds: seq<Def>)
    requires Joined(ns, rs, ds) && Closed(ns) && WellNamed(ns, rs)
    ensures WellShaped(ds)
    ensures forall i | 0 <= i < |ds| :: Trim(ds[i].key) == ds[i].key != ""
  {
    hide Trim, Named, Blank, Acyclic;
    forall i | 0 <= i < |ds| ensures Trim(ds[i].key) == ds[i].key != "" {
      if i >= |ns| {
        TrimIsBlank(rs[i - |ns|].key);
        TrimTwice(rs[i - |ns|].key);
      }
    }
    forall i, j | 0 <= i < j < |ds| ensures ds[i].key != ds[j].key {
      if j < |ns| { assert Defs(ns)[i].key != Defs(ns)[j].key; }
    }
    forall i, k | 0 <= i < |ds| && k in ds[i].deps ensures HasKey(ds, k) {
      NamedIsKey(ns, rs, ds, k);
      if i < |ns| { OldKeyNamed(ns, rs, i, k); } else { assert k in rs[i - |ns|].deps; }
    }
    forall i | 0 <= i < |ds| ensures NoRepeats(ds[i].deps) && ds[i].key !in ds[i].deps {
      if i < |ns| {
        assert NoRepeats(Defs(ns)[i].deps) && Defs(ns)[i].key !in Defs(ns)[i].deps;
      }
    }
  }

  lemma OldKeyNamed(ns: seq<Node>, rs: seq<Request>, i: nat, k: string)
    requires Closed(ns) && i < |ns| && k in ns[i].def.deps
    ensures Named(ns, rs, k)
  {
    assert k in Defs(ns)[i].deps;
    assert HasKey(Defs(ns), k);
    var x :| 0 <= x < |Defs(ns)| && Defs(ns)[x].key == k;
    assert ns[x].def.key == k;
  }

  // The circles of the union are those among the requests.
  lemma {:induction false} AcyclicIfNoneAsked(ns: seq<Node>, rs: seq<Request>, ds: seq<Def>)
    requires Joined(ns, rs, ds) && Closed(ns) && WellShaped(ds)
    ensures Acyclic(ds) <==> forall p | AskedChain(rs, p) && |p| >= 2 :: p[0] != p[|p| - 1]
  {
    hide Trim;
    if Acyclic(ds) {
      forall p | AskedChain(rs, p) && |p| >= 2 ensures p[0] != p[|p| - 1] { ChainIsWalk(ns, rs, ds, p); }
    }
    if forall p | AskedChain(rs, p) && |p| >= 2 :: p[0] != p[|p| - 1] {
      forall p | Walk(ds, p) && |p| >= 2 && p[0] == p[|p| - 1] ensures Touches(p, |ns|) {
        if !Touches(p, |ns|) { NewWalkIsChain(ns, rs, ds, p); }
      }
      OldListOld(ns, rs, ds);
      UnionAcyclic(Defs(ns), ds);
    }
  }

  lemma ChainIsWalk(ns: seq<Node>, rs: seq<Request>, ds: seq<Def>, p: seq<nat>)
    requires Joined(ns, rs, ds) && AskedChain(rs, p) && |p| >= 2 && Acyclic(ds)
    ensures p[0] != p[|p| - 1]
  {
    hide Trim;
    var q := seq(|p|, t requires 0 <= t < |p| => |ns| + p[t]);
    forall t | 0 <= t < |q| - 1 ensures DepOf(ds, q[t], q[t + 1]) {
      assert ds[q[t + 1]].key == Trim(rs[p[t + 1]].key);
    }
    assert Walk(ds, q);
  }

  lemma NewWalkIsChain(ns: seq<Node>, rs: seq<Request>, ds: seq<Def>, p: seq<nat>)
    requires Joined(ns, rs, ds) && Walk(ds, p) && |p| >= 2 && !Touches(p, |ns|)
    requires forall q | AskedChain(rs, q) && |q| >= 2 :: q[0] != q[|q| - 1]
    ensures p[0] != p[|p| - 1]
  {
    hide AskedChain, Joined, Walk;
    assert forall t | 0 <= t < |p| :: p[t] >= |ns|;
    var q := ShiftedChain(ns, rs, ds, p);
  }

  lemma ShiftedChain(ns: seq<Node>, rs: seq<Request>, ds: seq<Def>, p: seq<nat>) returns (q: seq<nat>)
    requires Joined(ns, rs, ds) && Walk(ds, p) && forall t | 0 <= t < |p| :: p[t] >= |ns|
    ensures AskedChain(rs, q) && |q| == |p| && forall t | 0 <= t < |p| :: q[t] == p[t] - |ns|
  {
    hide Trim;
    q := seq(|p|, t requires 0 <= t < |p| => p[t] - |ns|);
    forall t | 0 <= t < |q| - 1 ensures Trim(rs[q[t + 1]].key) in rs[q[t]].deps {
      assert DepOf(ds, p[t], p[t + 1]);
    }
  }

  lemma OldListOld(ns: seq<Node>, rs: seq<Request>, ds: seq<Def>)
    requires Joined(ns, rs, ds) && Closed(ns) && WellShaped(ds)
    ensures forall i: nat, j: nat | i < |ns| && DepOf(ds, i, j) :: j < |ns|
  {
    hide Trim, Acyclic;
    forall i: nat, j: nat | i < |ns| && DepOf(ds, i, j) ensures j < |ns| { OldDepsOld(Defs(ns), ds, i, j); }
  }

  lemma BlankIsRefused(ns: seq<Node>, rs: seq<Request>, ds: seq<Def>, i: nat)
    requires Joined(ns, rs, ds) && i < |rs| && Blank(rs[i].key)
    ensures !AcceptableShape(ds) && !WellNamed(ns, rs)
  {
    TrimIsBlank(rs[i].key);
    hide WellShaped, Acyclic, Named;
    TrimTwice(rs[i].key);
    assert Trim(ds[|ns| + i].key) == "";
  }

  lemma JoinedIsTight(ns: seq<Node>, rs: seq<Request>, ds: seq<Def>)
    requires Joined(ns, rs, ds) && Closed(ns) && forall i | 0 <= i < |rs| :: !Blank(rs[i].key)
    ensures forall i | 0 <= i < |ds| :: Trim(ds[i].key) == ds[i].key != ""
  {
    hide WellShaped, Acyclic, Trim;
    forall i | 0 <= i < |ds| ensures Trim(ds[i].key) == ds[i].key != "" {
      if i >= |ns| {
        TrimIsBlank(rs[i - |ns|].key);
        TrimTwice(rs[i - |ns|].key);
      }
    }
  }

  lemma {:induction false} AcceptableIffFitting(ns: seq<Node>, rs: seq<Request>)
    requires Closed(ns)
    ensures rs != [] && AcceptableShape(Defs(Union(ns, rs, 0))) <==> Fitting(ns, rs)
  {
    hide Trim, Closed, Union, WellNamed, WellShaped, Acyclic, AskedChain, Blank, AcceptableShape;
    var ds := Defs(Union(ns, rs, 0));
    UnionJoins(ns, rs);
    if i: nat :| i < |rs| && Blank(rs[i].key) {
      BlankIsRefused(ns, rs, ds, i);
    } else {
      JoinedIsTight(ns, rs, ds);
      AcceptableShapeWhenTrimmed(ds);
      if WellShaped(ds) { ShapedIsWellNamed(ns, rs, ds); AcyclicIfNoneAsked(ns, rs, ds); }
      if WellNamed(ns, rs) { WellNamedIsShaped(ns, rs, ds); }
    }
  }

  // A graph can be created from exactly the requests that fit among themselves.
  lemma {:induction false} CreatableIff(rs: seq<Request>)
    ensures Creatable(rs) <==> Fitting([], rs)
  {
    hide Union, AcceptableShape, Fitting;
    AcceptableIffFitting([], rs);
    if rs == [] { NothingIsRefused(); }
  }

  lemma NothingIsRefused()
    ensures !Creatable([])
  {
  }

  // A graph can be grown by exactly the requests that fit what it holds, unless it has
  // failed or been cancelled.
  lemma {:induction false} ExpandableIff(g: Graph, rs: seq<Request>)
    requires Structured(g.nodes)
    ensures Expandable(g, rs)
      <==> !g.status.GraphFailed? && !g.status.GraphCancelled? && Fitting(g.nodes, rs)
  {
    hide Union, AcceptableShape, Fitting, WellShaped, Acyclic, Trim;
    AcceptableIffFitting(g.nodes, rs);
  }
}
