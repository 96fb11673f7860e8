// The driver and the workers of one model graph together (advanceModelGraph and
// settleVerification, src/jev-model-loop.js, lines 121-622): whatever the models
// answer, the graph keeps its shape and grows only so far.

module ModelLoop {
  import opened Basics
  import opened Dag
  import opened GraphShape
  import opened Nodes
  import opened Readiness
  import opened Scheduler
  import opened Invariants
  import opened GraphRuns
  import opened Planner
  import opened ModelKeys
  import opened ModelGraph
  import opened ModelShape
  import opened ModelGrowth
  import opened ModelAccept
  import opened ModelWires

  // ---- Workers keep the shape ---------------------------------------------

  // The old nodes are where they were, and those that had succeeded as they were.
  ghost predicate KeepsOld(ns: seq<Node>, ns': seq<Node>) {
    && |ns| <= |ns'|
    && (forall i | 0 <= i < |ns| :: ns'[i].def == ns[i].def)
    && (forall i | 0 <= i < |ns| && ns[i].status.Succeeded? :: ns'[i] == ns[i])
  }

  lemma {:induction false} MoveKeepsOld(g: Graph, m: Move)
    requires Structured(g.nodes) && Enabled(g, m)
    ensures KeepsOld(g.nodes, Next(g, m).nodes)
    ensures !m.Expand? ==> |Next(g, m).nodes| == |g.nodes|
  {
    NextLength(g, m);
    if !m.Expand? { WrittenNode(g, m, 0); }
    forall i: nat | i < |g.nodes|
      ensures i < |Next(g, m).nodes| && Next(g, m).nodes[i].def == g.nodes[i].def
      ensures g.nodes[i].status.Succeeded? ==> Next(g, m).nodes[i] == g.nodes[i]
    {
      MoveCounts(g, m, i);
      if g.nodes[i].status.Succeeded? { SuccessIsFinal(g, m, i); }
    }
  }

  // A verdict once given stands.
  lemma VerdictsStay(ns: seq<Node>, ns': seq<Node>, roles: seq<Role>, more: seq<Role>, n: nat, d: Decision)
    requires |roles| == |ns| && |ns'| == |roles| + |more| && KeepsOld(ns, ns')
    requires Verdict(ns, roles, n, d)
    ensures Verdict(ns', roles + more, n, d)
  {
    var j :| 0 <= j < |ns| && roles[j] == Review(n) && ns[j].status.Succeeded? && DecisionOf(ns[j]) == Some(d);
    assert (roles + more)[j] == Review(n) && ns'[j] == ns[j];
  }

  lemma {:induction false} OldStaysJustified(ns: seq<Node>, ns': seq<Node>, roles: seq<Role>, more: seq<Role>, i: nat)
    requires |roles| == |ns| && |ns'| == |roles| + |more| && KeepsOld(ns, ns')
    requires Justified(ns, roles) && i < |ns|
    ensures var all := roles + more;
      && (all[i].Verify? ==> Verdict(ns', all, all[i].cycle, Pass))
      && (all[i].Repair? ==> Verdict(ns', all, all[i].cycle, Revise) || Verify(all[i].cycle) in all)
  {
    var role := roles[i];
    if role.Verify? { VerdictsStay(ns, ns', roles, more, role.cycle, Pass); }
    if role.Repair? {
      if Verdict(ns, roles, role.cycle, Revise) { VerdictsStay(ns, ns', roles, more, role.cycle, Revise); }
    }
  }

  lemma {:induction false} WorkKeepsGrown(ns: seq<Node>, ns': seq<Node>, roles: seq<Role>, k: nat, r: nat)
    requires Grown(ns, roles, k, r) && KeepsOld(ns, ns') && |ns'| == |ns|
    ensures Grown(ns', roles, k, r)
  {
    forall i, j ensures Lists(ns', i, j) <==> Lists(ns, i, j) {}
    assert Links(ns') == Links(ns);
    assert roles + [] == roles;
    forall i: nat | i < |ns|
      ensures roles[i].Verify? ==> Verdict(ns', roles, roles[i].cycle, Pass)
      ensures roles[i].Repair? ==> Verdict(ns', roles, roles[i].cycle, Revise) || Verify(roles[i].cycle) in roles
    {
      OldStaysJustified(ns, ns', roles, [], i);
    }
  }

  // ---- Growth keeps the shape ---------------------------------------------

  // What an accepted growth leaves: its requests as new nodes after the old ones.
  ghost predicate Added(ns: seq<Node>, ns': seq<Node>, rs: seq<Request>) {
    && |ns'| == |ns| + |rs| && KeepsOld(ns, ns') && WellShaped(Defs(ns')) && KnownDeps(Defs(ns))
    && (forall i | |ns| <= i < |ns'| :: ns'[i].def == PreparedDef(rs[i - |ns|], HighestOrder(ns) + 1 + i - |ns|))
  }

  lemma {:induction false} GrowthAdds(g: Graph, rs: seq<Request>, id: nat)
    requires Structured(g.nodes) && Expandable(g, rs)
    ensures Enabled(g, Expand(rs, id)) && Added(g.nodes, Next(g, Expand(rs, id)).nodes, rs)
  {
    hide Structured, KeepsOld, WellShaped, KnownDeps, Expandable, Next, PreparedDef, HighestOrder, Defs;
    MoveKeepsStructure(g, Expand(rs, id));
    ShapeOfStructured(g.nodes);
    ShapeOfStructured(Next(g, Expand(rs, id)).nodes);
    MoveKeepsOld(g, Expand(rs, id));
    AddedNodes(g, rs, id);
  }

  lemma {:induction false} AddedNodes(g: Graph, rs: seq<Request>, id: nat)
    requires Structured(g.nodes) && Expandable(g, rs)
    ensures var ns' := Next(g, Expand(rs, id)).nodes;
      && |ns'| == |g.nodes| + |rs|
      && (forall i | |g.nodes| <= i < |ns'| ::
            ns'[i].def == PreparedDef(rs[i - |g.nodes|], HighestOrder(g.nodes) + 1 + i - |g.nodes|))
  {
    hide Structured, Expandable, Next, PreparedDef, HighestOrder;
    GrownLength(g, rs, id);
    forall i: nat | |g.nodes| <= i < |g.nodes| + |rs|
      ensures Next(g, Expand(rs, id)).nodes[i].def
        == PreparedDef(rs[i - |g.nodes|], HighestOrder(g.nodes) + 1 + i - |g.nodes|)
    {
      AddedNode(g, rs, id, i);
    }
  }

  lemma ShapeOfStructured(ns: seq<Node>)
    requires Structured(ns)
    ensures WellShaped(Defs(ns)) && KnownDeps(Defs(ns))
  {
  }

  lemma {:induction false} GrownLength(g: Graph, rs: seq<Request>, id: nat)
    requires Structured(g.nodes) && Expandable(g, rs)
    ensures |Next(g, Expand(rs, id)).nodes| == |g.nodes| + |rs|
  {
    NextLength(g, Expand(rs, id));
    WrittenUnion(g, rs, id);
  }

  lemma {:induction false} AddedNode(g: Graph, rs: seq<Request>, id: nat, i: nat)
    requires Structured(g.nodes) && Expandable(g, rs) && |g.nodes| <= i < |g.nodes| + |rs|
    requires |Next(g, Expand(rs, id)).nodes| == |g.nodes| + |rs|
    ensures Next(g, Expand(rs, id)).nodes[i].def
      == PreparedDef(rs[i - |g.nodes|], HighestOrder(g.nodes) + 1 + i - |g.nodes|)
  {
    WrittenAt(g, rs, id, i);
    NextKeepsDef(g, Expand(rs, id), i);
  }

  lemma {:induction false} WrittenAt(g: Graph, rs: seq<Request>, id: nat, i: nat)
    requires Expandable(g, rs) && |g.nodes| <= i < |g.nodes| + |rs|
    ensures i < |Written(g, Expand(rs, id))|
    ensures Written(g, Expand(rs, id))[i].def
      == PreparedDef(rs[i - |g.nodes|], HighestOrder(g.nodes) + 1 + i - |g.nodes|)
  {
    hide AcceptableShape, Structured, Written, Union;
    WrittenUnion(g, rs, id);
    UnionAt(Written(g, Expand(rs, id)), g.nodes, rs, id, i);
  }

  lemma {:induction false} WrittenUnion(g: Graph, rs: seq<Request>, id: nat)
    requires Expandable(g, rs)
    ensures Written(g, Expand(rs, id)) == Union(g.nodes, rs, id)
    ensures |Written(g, Expand(rs, id))| == |g.nodes| + |rs|
  {
    hide AcceptableShape, Structured;
  }

  lemma {:induction false} UnionAt(all: seq<Node>, ns: seq<Node>, rs: seq<Request>, id: nat, i: nat)
    requires all == Union(ns, rs, id) && |ns| <= i < |ns| + |rs|
    ensures i < |all| && all[i].def == PreparedDef(rs[i - |ns|], HighestOrder(ns) + 1 + i - |ns|)
  {
  }

  // Old nodes list what they listed.
  lemma {:induction false} OldLinks(ns: seq<Node>, ns': seq<Node>, rs: seq<Request>, i: int, j: int)
    requires Added(ns, ns', rs) && 0 <= i < |ns|
    ensures Lists(ns', i, j) <==> Lists(ns, i, j)
  {
    if Lists(ns', i, j) {
      var key := ns'[j].def.key;
      assert key in Defs(ns)[i].deps && HasKey(Defs(ns), key);
      var x :| 0 <= x < |ns| && Defs(ns)[x].key == key;
      assert Defs(ns')[x].key == Defs(ns')[j].key;
    }
  }

  lemma {:induction false} OldLinksStay(ns: seq<Node>, ns': seq<Node>, rs: seq<Request>)
    requires Added(ns, ns', rs)
    ensures Links(ns) <= Links(ns')
    ensures forall p | p in Links(ns') && p !in Links(ns) :: |ns| <= p.0 < |ns'| && Lists(ns', p.0, p.1)
  {
    forall p | p in Links(ns) ensures p in Links(ns') { OldLinks(ns, ns', rs, p.0, p.1); }
    forall p | p in Links(ns') && p !in Links(ns) ensures |ns| <= p.0 < |ns'| && Lists(ns', p.0, p.1) {
      if p.0 < |ns| { OldLinks(ns, ns', rs, p.0, p.1); }
    }
  }

  // The one new node of a repair or a verification links to the one node it waits on.
  lemma {:induction false} OneNewLink(ns: seq<Node>, ns': seq<Node>, r: Request, j0: nat)
    requires Added(ns, ns', [r]) && j0 < |ns| && r.deps == [ns[j0].def.key]
    ensures Links(ns') == Links(ns) + {(|ns|, j0 as int)}
  {
    OldLinksStay(ns, ns', [r]);
    assert ns'[|ns|].def.deps == r.deps;
    assert Lists(ns', |ns|, j0);
    forall p | p in Links(ns') && p !in Links(ns) ensures p == (|ns|, j0 as int) {
      assert Defs(ns')[p.1].key == Defs(ns')[j0].key;
    }
  }

  lemma {:induction false} OneNewRoled(ns: seq<Node>, ns': seq<Node>, roles: seq<Role>, r: Request, role: Role)
    requires Added(ns, ns', [r]) && Roled(ns, roles) && Tight(r.key) && KeyIs(r.key, role)
    ensures Roled(ns', roles + [role])
  {
    TightIsTrimmed(r.key);
    forall i | 0 <= i < |ns'| ensures KeyIs(ns'[i].def.key, (roles + [role])[i]) {
      if i < |ns| { assert ns'[i].def == ns[i].def; }
    }
  }

  lemma PayloadsStay(ns: seq<Node>, ns': seq<Node>, roles: seq<Role>, more: seq<Role>)
    requires |roles| == |ns| && |ns'| == |roles| + |more| && KeepsOld(ns, ns')
    requires RightPayloads(ns, roles)
    requires forall i | |ns| <= i < |ns'| :: RightPayload(more[i - |ns|], ns'[i].def)
    ensures RightPayloads(ns', roles + more)
  {
    forall i | 0 <= i < |ns'| ensures RightPayload((roles + more)[i], ns'[i].def) {
      if i < |ns| { assert ns'[i].def == ns[i].def; }
    }
  }

  lemma VerifyCounted(roles: seq<Role>, k: nat, r: nat)
    requires CountedRoles(roles, k, r) && k == r + 1
    ensures CountedRoles(roles + [Verify(k)], k, r)
  {
  }

  lemma RepairCounted(roles: seq<Role>, k: nat, r: nat)
    requires CountedRoles(roles, k, r) && k == r + 1
    ensures CountedRoles(roles + [Repair(k)], k, k)
  {
    assert (roles + [Repair(k)])[|roles|] == Repair(k);
  }

  lemma {:induction false} VerifyJustified(ns: seq<Node>, ns': seq<Node>, roles: seq<Role>, k: nat)
    requires |roles| == |ns| && |ns'| == |ns| + 1 && KeepsOld(ns, ns')
    requires Justified(ns, roles) && Verdict(ns, roles, k, Pass)
    ensures Justified(ns', roles + [Verify(k)])
  {
    VerdictsStay(ns, ns', roles, [Verify(k)], k, Pass);
    forall i: nat | i < |ns|
      ensures var all := roles + [Verify(k)];
        && (all[i].Verify? ==> Verdict(ns', all, all[i].cycle, Pass))
        && (all[i].Repair? ==> Verdict(ns', all, all[i].cycle, Revise) || Verify(all[i].cycle) in all)
    {
      OldStaysJustified(ns, ns', roles, [Verify(k)], i);
    }
  }

  lemma {:induction false} RepairJustified(ns: seq<Node>, ns': seq<Node>, roles: seq<Role>, k: nat)
    requires |roles| == |ns| && |ns'| == |ns| + 1 && KeepsOld(ns, ns')
    requires Justified(ns, roles) && (Verdict(ns, roles, k, Revise) || Verify(k) in roles)
    ensures Justified(ns', roles + [Repair(k)])
  {
    if Verdict(ns, roles, k, Revise) { VerdictsStay(ns, ns', roles, [Repair(k)], k, Revise); }
    forall i: nat | i < |ns|
      ensures var all := roles + [Repair(k)];
        && (all[i].Verify? ==> Verdict(ns', all, all[i].cycle, Pass))
        && (all[i].Repair? ==> Verdict(ns', all, all[i].cycle, Revise) || Verify(all[i].cycle) in all)
    {
      OldStaysJustified(ns, ns', roles, [Repair(k)], i);
    }
  }

  lemma {:induction false} VerifyLinked(
    ns: seq<Node>, ns': seq<Node>, roles: seq<Role>, k: nat, r: nat, passed: bool)
    requires Roled(ns, roles) && Review(k) in roles && Wired(Links(ns), roles, k, r) && k == r + 1
    requires Added(ns, ns', VerifyRequests(k, passed))
    ensures Roled(ns', roles + [Verify(k)]) && Wired(Links(ns'), roles + [Verify(k)], k, r)
  {
    var j0: nat :| j0 < |ns| && roles[j0] == Review(k);
    NumberedIsTight(VERIFY, k);
    OneNewRoled(ns, ns', roles, VerifyRequests(k, passed)[0], Verify(k));
    OneNewLink(ns, ns', VerifyRequests(k, passed)[0], j0);
    ModelWires.VerifyWired(Links(ns), roles, k, r, j0);
  }

  lemma {:induction false} RepairLinked(
    ns: seq<Node>, ns': seq<Node>, roles: seq<Role>, k: nat, r: nat, after: Role)
    requires Roled(ns, roles) && DistinctKeys(Defs(ns)) && Wired(Links(ns), roles, k, r) && k == r + 1
    requires CountedRoles(roles, k, r)
    requires (after == Review(k) && Verify(k) !in roles) || after == Verify(k)
    requires after in roles && Added(ns, ns', RepairRequests(k, KeyOfRole(after)))
    ensures Roled(ns', roles + [Repair(k)]) && Wired(Links(ns'), roles + [Repair(k)], k, k)
  {
    hide Wired;
    var j0: nat :| j0 < |ns| && roles[j0] == after;
    NumberedIsTight(REPAIR, k);
    OneNewRoled(ns, ns', roles, RepairRequests(k, KeyOfRole(after))[0], Repair(k));
    OneNewLink(ns, ns', RepairRequests(k, KeyOfRole(after))[0], j0);
    RolesAreUnique(ns, roles);
    ModelWires.RepairWired(Links(ns), roles, k, r, j0);
  }

  lemma {:induction false} VerifyKeepsGrown(
    ns: seq<Node>, ns': seq<Node>, roles: seq<Role>, k: nat, r: nat, passed: bool)
    requires Grown(ns, roles, k, r) && k == r + 1 && Verify(k) !in roles && Verdict(ns, roles, k, Pass)
    requires Added(ns, ns', VerifyRequests(k, passed))
    ensures Grown(ns', roles + [Verify(k)], k, r)
  {
    VerifyLinked(ns, ns', roles, k, r, passed);
    VerifyJustified(ns, ns', roles, k);
    VerifyPayload(ns, ns', roles, k, passed);
    VerifyCounted(roles, k, r);
  }

  lemma VerifyPayload(ns: seq<Node>, ns': seq<Node>, roles: seq<Role>, k: nat, passed: bool)
    requires |roles| == |ns| && Added(ns, ns', VerifyRequests(k, passed))
    requires RightPayloads(ns, roles)
    ensures RightPayloads(ns', roles + [Verify(k)])
  {
    PayloadsStay(ns, ns', roles, [Verify(k)]);
  }

  lemma {:induction false} RepairKeepsGrown(
    ns: seq<Node>, ns': seq<Node>, roles: seq<Role>, k: nat, r: nat, after: Role)
    requires Grown(ns, roles, k, r) && DistinctKeys(Defs(ns)) && k == r + 1
    requires (after == Review(k) && Verify(k) !in roles && Verdict(ns, roles, k, Revise)) || after == Verify(k)
    requires after in roles && Added(ns, ns', RepairRequests(k, KeyOfRole(after)))
    ensures Grown(ns', roles + [Repair(k)], k, k)
  {
    RepairLinked(ns, ns', roles, k, r, after);
    RepairJustified(ns, ns', roles, k);
    RepairPayload(ns, ns', roles, k, KeyOfRole(after));
    RepairCounted(roles, k, r);
  }

  lemma RepairPayload(ns: seq<Node>, ns': seq<Node>, roles: seq<Role>, k: nat, after: string)
    requires |roles| == |ns| && Added(ns, ns', RepairRequests(k, after))
    requires RightPayloads(ns, roles)
    ensures RightPayloads(ns', roles + [Repair(k)])
  {
    PayloadsStay(ns, ns', roles, [Repair(k)]);
  }

  // ---- A new cycle --------------------------------------------------------

  lemma KeyAt(ds: seq<Def>, i: nat, j: nat)
    requires DistinctKeys(ds) && i < |ds| && j < |ds| && ds[i].key == ds[j].key
    ensures i == j
  {
  }

  // What a new execution node lists: the producer, or its fellows.
  lemma {:induction false} ExecLists(
    was: seq<Def>, ds: seq<Def>, c: nat, rs: seq<Request>, j0: nat, n: nat, j: nat)
    requires j0 < |was| && Appended(was, ds, c, was[j0].key, rs) && DistinctKeys(ds) && KnownDeps(RawDefs(rs))
    requires n < |rs| && DepOf(ds, |was| + n, j)
    ensures j == j0 || |was| <= j < |was| + |rs|
  {
    var es := ExecutionNodes(c, was[j0].key, rs);
    var d :| 0 <= d < |es[n].deps| && es[n].deps[d] == ds[j].key;
    if rs[n].deps == [] {
      KeyAt(ds, j, j0);
    } else {
      assert rs[n].deps[d] in RawDefs(rs)[n].deps;
      var m := FindRaw(rs, rs[n].deps[d]);
      assert ds[|was| + m].key == es[m].key;
      KeyAt(ds, j, |was| + m);
    }
  }

  lemma {:induction false} ReviewLists(
    was: seq<Def>, ds: seq<Def>, c: nat, producer: string, rs: seq<Request>, j: nat)
    requires Appended(was, ds, c, producer, rs) && DistinctKeys(ds) && DepOf(ds, |was| + |rs|, j)
    ensures |was| <= j < |was| + |rs|
  {
    ReviewListsExecs(c, producer, rs, ds[j].key);
    var m: nat :| m < |rs| && ds[j].key == ExecPrefix(c) + rs[m].key;
    KeyAt(ds, j, |was| + m);
  }

  lemma {:induction false} ExecIsListed(
    was: seq<Def>, ds: seq<Def>, c: nat, producer: string, rs: seq<Request>, n: nat) returns (i: nat)
    requires Appended(was, ds, c, producer, rs) && n < |rs|
    ensures DepOf(ds, i, |was| + n)
  {
    var m := ListerOf(c, producer, rs, n);
    i := |was| + m;
  }

  lemma {:induction false} ExecListsSome(
    was: seq<Def>, ds: seq<Def>, c: nat, producer: string, rs: seq<Request>, n: nat) returns (j: nat)
    requires Appended(was, ds, c, producer, rs) && n < |rs| && KnownDeps(ds)
    ensures DepOf(ds, |was| + n, j)
  {
    assert ExecutionNodes(c, producer, rs)[n].deps != [];
    var k := ds[|was| + n].deps[0];
    assert k in ds[|was| + n].deps && HasKey(ds, k);
    j :| j < |ds| && ds[j].key == k;
  }

  // Some execution node waits on nothing but the producer.
  lemma {:induction false} ProducerIsListed(was: seq<Def>, ds: seq<Def>, c: nat, rs: seq<Request>, j0: nat)
    returns (i: nat)
    requires j0 < |was| && Appended(was, ds, c, was[j0].key, rs) && rs != []
    requires KnownDeps(RawDefs(rs)) && Acyclic(RawDefs(rs))
    ensures DepOf(ds, i, j0)
  {
    var raw := RawDefs(rs);
    assert 0 in Upto(|rs|);
    var n := MinimalMember(raw, Upto(|rs|));
    if raw[n].deps != [] {
      assert raw[n].deps[0] in raw[n].deps;
      var m := FindRaw(rs, raw[n].deps[0]);
      assert DepOf(raw, n, m);
    }
    i := |was| + n;
    assert ds[i].deps[0] == was[j0].key;
  }

  lemma LinkOf(ns: seq<Node>, i: nat, j: nat)
    ensures DepOf(Defs(ns), i, j) <==> (i as int, j as int) in Links(ns)
  {
    assert DepOf(Defs(ns), i, j) <==> Lists(ns, i, j);
  }

  lemma {:induction false} NewLink(
    ns: seq<Node>, ns': seq<Node>, c: nat, rs: seq<Request>, j0: nat, i: nat, j: nat)
    requires j0 < |ns| && Appended(Defs(ns), Defs(ns'), c, ns[j0].def.key, rs)
    requires DistinctKeys(Defs(ns')) && KnownDeps(RawDefs(rs))
    requires |ns| <= i < |ns'| && (i as int, j as int) in Links(ns')
    ensures (i < |ns| + |rs| && (j == j0 || |ns| <= j < |ns| + |rs|))
      || (i == |ns| + |rs| && |ns| <= j < |ns| + |rs|)
  {
    LinkOf(ns', i, j);
    if i < |ns| + |rs| {
      ExecLists(Defs(ns), Defs(ns'), c, rs, j0, i - |ns|, j);
    } else {
      ReviewLists(Defs(ns), Defs(ns'), c, Defs(ns)[j0].key, rs, j);
    }
  }

  lemma {:induction false} CycleFollows(
    ns: seq<Node>, ns': seq<Node>, c: nat, rs: seq<Request>, j0: nat)
    requires j0 < |ns| && Appended(Defs(ns), Defs(ns'), c, ns[j0].def.key, rs) && rs != []
    requires KnownDeps(Defs(ns')) && KnownDeps(RawDefs(rs)) && Acyclic(RawDefs(rs))
    ensures forall j | |ns| <= j < |ns| + |rs| :: Followed(Links(ns'), j) && FollowsOn(Links(ns'), j)
    ensures Followed(Links(ns'), j0)
  {
    var was, ds := Defs(ns), Defs(ns');
    forall j | |ns| <= j < |ns| + |rs| ensures Followed(Links(ns'), j) && FollowsOn(Links(ns'), j) {
      var i := ExecIsListed(was, ds, c, was[j0].key, rs, j - |ns|);
      LinkOf(ns', i, j);
      var x := ExecListsSome(was, ds, c, was[j0].key, rs, j - |ns|);
      LinkOf(ns', j, x);
    }
    var i := ProducerIsListed(was, ds, c, rs, j0);
    LinkOf(ns', i, j0);
  }

  lemma {:induction false} CycleIsLinked(
    ns: seq<Node>, ns': seq<Node>, c: nat, rs: seq<Request>, j0: nat)
    requires j0 < |ns| && Added(ns, ns', ExecutionRequests(c, ns[j0].def.key, rs))
    requires Appended(Defs(ns), Defs(ns'), c, ns[j0].def.key, rs) && rs != []
    requires KnownDeps(RawDefs(rs)) && Acyclic(RawDefs(rs))
    ensures CycleLinks(Links(ns), Links(ns'), |ns|, |rs|, j0)
  {
    OldLinksStay(ns, ns', ExecutionRequests(c, ns[j0].def.key, rs));
    CycleFollows(ns, ns', c, rs, j0);
    forall p | p in Links(ns') && p !in Links(ns)
      ensures (|ns| <= p.0 < |ns| + |rs| && (p.1 == j0 || |ns| <= p.1 < |ns| + |rs|))
        || (p.0 == |ns| + |rs| && |ns| <= p.1 < |ns| + |rs|)
    {
      NewLink(ns, ns', c, rs, j0, p.0, p.1);
    }
  }

  lemma {:induction false} AddedIsAppended(ns: seq<Node>, ns': seq<Node>, c: nat, producer: string, rs: seq<Request>)
    requires Added(ns, ns', ExecutionRequests(c, producer, rs)) && Tidy(rs)
    ensures Appended(Defs(ns), Defs(ns'), c, producer, rs)
  {
    TidyIsAppended(ns, c, producer, rs, 0);
    UnionDefs(ns, ExecutionRequests(c, producer, rs), 0);
    assert Defs(ns') == Defs(Union(ns, ExecutionRequests(c, producer, rs), 0));
  }

  lemma {:induction false} CycleRoled(
    ns: seq<Node>, ns': seq<Node>, roles: seq<Role>, c: nat, producer: string, rs: seq<Request>)
    requires Roled(ns, roles) && Added(ns, ns', ExecutionRequests(c, producer, rs))
    requires Appended(Defs(ns), Defs(ns'), c, producer, rs)
    ensures Roled(ns', roles + CycleRoles(c, |rs|))
  {
    var all := roles + CycleRoles(c, |rs|);
    forall i | 0 <= i < |ns'| ensures KeyIs(ns'[i].def.key, all[i]) {
      if i < |ns| {
        assert ns'[i].def == ns[i].def;
      } else if i < |ns| + |rs| {
        assert Defs(ns')[i].key == ExecutionNodes(c, producer, rs)[i - |ns|].key;
        MatchExecOfKey(c, rs[i - |ns|].key);
      } else {
        assert Defs(ns')[i].key == ReviewKey(c);
      }
    }
  }

  lemma {:induction false} CyclePayload(
    ns: seq<Node>, ns': seq<Node>, roles: seq<Role>, c: nat, producer: string, rs: seq<Request>)
    requires |roles| == |ns| && Added(ns, ns', ExecutionRequests(c, producer, rs))
    requires forall n | 0 <= n < |rs| :: rs[n].mode.WhenSucceeded?
    requires RightPayloads(ns, roles)
    ensures RightPayloads(ns', roles + CycleRoles(c, |rs|))
  {
    forall i | |ns| <= i < |ns'| ensures RightPayload(CycleRoles(c, |rs|)[i - |ns|], ns'[i].def) {
      assert ns'[i].def.mode == ExecutionRequests(c, producer, rs)[i - |ns|].mode;
    }
    PayloadsStay(ns, ns', roles, CycleRoles(c, |rs|));
  }

  lemma {:induction false} CycleJustified(ns: seq<Node>, ns': seq<Node>, roles: seq<Role>, c: nat, m: nat)
    requires |roles| == |ns| && |ns'| == |ns| + m + 1 && KeepsOld(ns, ns') && Justified(ns, roles)
    ensures Justified(ns', roles + CycleRoles(c, m))
  {
    forall i: nat | i < |ns|
      ensures var all := roles + CycleRoles(c, m);
        && (all[i].Verify? ==> Verdict(ns', all, all[i].cycle, Pass))
        && (all[i].Repair? ==> Verdict(ns', all, all[i].cycle, Revise) || Verify(all[i].cycle) in all)
    {
      OldStaysJustified(ns, ns', roles, CycleRoles(c, m), i);
    }
  }

  lemma {:induction false} CycleLinksAt(
    ns: seq<Node>, ns': seq<Node>, roles: seq<Role>, c: nat, rs: seq<Request>) returns (j0: nat)
    requires Roled(ns, roles) && ProducerRole(c) in roles && rs != [] && Tidy(rs)
    requires KnownDeps(RawDefs(rs)) && Acyclic(RawDefs(rs))
    requires Added(ns, ns', ExecutionRequests(c, KeyOfRole(ProducerRole(c)), rs))
    ensures j0 < |roles| && roles[j0] == ProducerRole(c) && CycleLinks(Links(ns), Links(ns'), |ns|, |rs|, j0)
  {
    j0 :| j0 < |ns| && roles[j0] == ProducerRole(c);
    assert KeyIs(ns[j0].def.key, roles[j0]);
    AddedIsAppended(ns, ns', c, KeyOfRole(ProducerRole(c)), rs);
    CycleIsLinked(ns, ns', c, rs, j0);
  }

  lemma {:induction false} CycleLooks(
    ns: seq<Node>, ns': seq<Node>, roles: seq<Role>, c: nat, producer: string, rs: seq<Request>)
    requires Roled(ns, roles) && Tidy(rs) && (forall n | 0 <= n < |rs| :: rs[n].mode.WhenSucceeded?)
    requires RightPayloads(ns, roles) && Justified(ns, roles)
    requires Added(ns, ns', ExecutionRequests(c, producer, rs))
    ensures Roled(ns', roles + CycleRoles(c, |rs|)) && Justified(ns', roles + CycleRoles(c, |rs|))
    ensures RightPayloads(ns', roles + CycleRoles(c, |rs|))
  {
    AddedIsAppended(ns, ns', c, producer, rs);
    CycleRoled(ns, ns', roles, c, producer, rs);
    CyclePayload(ns, ns', roles, c, producer, rs);
    CycleJustified(ns, ns', roles, c, |rs|);
  }

  // Everything the new nodes bring, before it is counted.
  ghost predicate CycleDone(ns: seq<Node>, ns': seq<Node>, roles: seq<Role>, c: nat, m: nat, j0: nat) {
    && Roled(ns', roles + CycleRoles(c, m)) && Justified(ns', roles + CycleRoles(c, m))
    && RightPayloads(ns', roles + CycleRoles(c, m))
    && j0 < |roles| && roles[j0] == ProducerRole(c)
    && CycleLinks(Links(ns), Links(ns'), |ns|, m, j0)
  }

  // The plan, as it has to be for its cycle to be accepted.
  ghost predicate FitPlan(rs: seq<Request>) {
    && Tidy(rs) && rs != [] && (forall n | 0 <= n < |rs| :: rs[n].mode.WhenSucceeded?)
    && KnownDeps(RawDefs(rs)) && Acyclic(RawDefs(rs))
  }

  lemma {:induction false} CycleIsDone(
    ns: seq<Node>, ns': seq<Node>, roles: seq<Role>, c: nat, rs: seq<Request>) returns (j0: nat)
    requires Roled(ns, roles) && ProducerRole(c) in roles && FitPlan(rs)
    requires RightPayloads(ns, roles) && Justified(ns, roles)
    requires Added(ns, ns', ExecutionRequests(c, KeyOfRole(ProducerRole(c)), rs))
    ensures CycleDone(ns, ns', roles, c, |rs|, j0)
  {
    j0 := CycleLinksAt(ns, ns', roles, c, rs);
    CycleLooks(ns, ns', roles, c, KeyOfRole(ProducerRole(c)), rs);
  }

  lemma {:induction false} CycleKeepsGrown(
    ns: seq<Node>, ns': seq<Node>, roles: seq<Role>, k: nat, rs: seq<Request>)
    requires Grown(ns, roles, k, k) && DistinctKeys(Defs(ns)) && ProducerRole(k + 1) in roles && FitPlan(rs)
    requires Added(ns, ns', ExecutionRequests(k + 1, KeyOfRole(ProducerRole(k + 1)), rs))
    ensures Grown(ns', roles + CycleRoles(k + 1, |rs|), k + 1, k)
  {
    var j0 := CycleIsDone(ns, ns', roles, k + 1, rs);
    GrownByCycle(ns, ns', roles, k, |rs|, j0);
  }

  lemma GrownByCycle(ns: seq<Node>, ns': seq<Node>, roles: seq<Role>, k: nat, m: nat, j0: nat)
    requires Grown(ns, roles, k, k) && DistinctKeys(Defs(ns)) && m > 0 && CycleDone(ns, ns', roles, k + 1, m, j0)
    ensures Grown(ns', roles + CycleRoles(k + 1, m), k + 1, k)
  {
    RolesAreUnique(ns, roles);
    CycleWired(Links(ns), Links(ns'), roles, k, m, j0);
    CycleCounted(roles, k, m);
  }
}
