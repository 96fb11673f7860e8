// Which growth the store accepts. Whatever the models answered, an expansion chosen
// for a succeeded producer is refused only for the plan's own faults, and one chosen
// for a review never.

module ModelAccept {
  import opened Basics
  import opened Dag
  import opened GraphShape
  import opened Nodes
  import opened Scheduler
  import opened Invariants
  import opened Planner
  import opened ModelKeys
  import opened ModelGraph
  import opened ModelShape
  import opened ModelGrowth

  // ---- Keys survive trimming ----------------------------------------------

  predicate Tight(s: string) {
    s != "" && !IsSpace(s[0]) && !IsSpace(s[|s| - 1])
  }

  lemma TightIsTrimmed(s: string)
    requires Tight(s)
    ensures Trim(s) == s
  {
  }

  lemma TrimmedIsTight(s: string)
    requires Trim(s) == s != ""
    ensures Tight(s)
  {
    assert TrimStart(s) == s || |TrimStart(s)| < |s| by { TrimStartShrinks(s); }
  }

  lemma {:induction false} TrimStartShrinks(s: string)
    ensures TrimStart(s) == s || |TrimStart(s)| < |s|
  {
    if s != [] && IsSpace(s[0]) { TrimStartShrinks(s[1..]); }
  }

  lemma NumberedIsTight(prefix: string, n: nat)
    requires prefix != "" && !IsSpace(prefix[0])
    ensures Tight(prefix + Dec(n))
  {
    var s := prefix + Dec(n);
    assert IsDigit(s[|s| - 1]);
  }

  // No step id ends in white space.
  predicate Tidy(rs: seq<Request>) {
    forall n | 0 <= n < |rs| :: rs[n].key == "" || !IsSpace(rs[n].key[|rs[n].key| - 1])
  }

  lemma {:induction false} ExecKeyIsTight(c: nat, id: string)
    ensures Tight(ExecPrefix(c) + id) <==> id == "" || !IsSpace(id[|id| - 1])
  {
    var s := ExecPrefix(c) + id;
    assert s[0] == 'e';
    assert s[|s| - 1] == if id == "" then ':' else id[|id| - 1];
  }

  // ---- The union ----------------------------------------------------------

  lemma UnionDefs(ns: seq<Node>, rs: seq<Request>, id: nat)
    ensures var ds := Defs(Union(ns, rs, id));
      && |ds| == |ns| + |rs|
      && (forall i | 0 <= i < |ns| :: ds[i] == Defs(ns)[i])
      && (forall i | |ns| <= i < |ds| :: ds[i] == PreparedDef(rs[i - |ns|], HighestOrder(ns) + 1 + i - |ns|))
  {
  }

  ghost predicate Open(g: Graph) {
    !g.status.GraphFailed? && !g.status.GraphCancelled?
  }

  // A growth with tight keys is accepted when the union is well shaped and acyclic.
  lemma {:induction false} AcceptedWhenShaped(g: Graph, rs: seq<Request>)
    requires Structured(g.nodes) && rs != [] && (forall n | 0 <= n < |rs| :: Tight(rs[n].key))
    ensures Expandable(g, rs) <==>
      Open(g) && WellShaped(Defs(Union(g.nodes, rs, 0))) && Acyclic(Defs(Union(g.nodes, rs, 0)))
  {
    var ds := Defs(Union(g.nodes, rs, 0));
    UnionDefs(g.nodes, rs, 0);
    forall i | 0 <= i < |ds| ensures Trim(ds[i].key) == ds[i].key != "" {
      if i < |g.nodes| {
        assert ds[i].key == g.nodes[i].def.key;
      } else {
        TightIsTrimmed(rs[i - |g.nodes|].key);
      }
    }
    AcceptableShapeWhenTrimmed(ds);
  }

  // ---- An open graph ------------------------------------------------------

  lemma WaitingProducerKeepsOpen(g: Graph, i: nat)
    requires Structured(g.nodes) && g.status == Derive(g.nodes)
    requires i < |g.nodes| && g.nodes[i].status.Succeeded? && g.nodes[i].def.payload.expandsGraph
    requires !Followed(Links(g.nodes), i)
    ensures Open(g)
  {
    forall j ensures !Lists(g.nodes, j, i) { assert (j, i) !in Links(g.nodes); }
    assert AwaitsExpansion(g.nodes, i);
  }

  lemma NobodyFollows(links: set<(int, int)>, roles: seq<Role>, k: nat, r: nat, j: nat)
    requires Wired(links, roles, k, r) && j < |roles|
    requires forall a | a in roles :: !MayList(a, roles[j])
    ensures !Followed(links, j)
  {
  }

  // ---- Repairs and verifications ------------------------------------------

  lemma {:induction false} FreshKey(ns: seq<Node>, roles: seq<Role>, role: Role)
    requires Roled(ns, roles) && !role.Exec? && role !in roles
    ensures !HasKey(Defs(ns), KeyOfRole(role))
  {
    FindByRole(ns, roles, role);
    forall i | 0 <= i < |ns| ensures Defs(ns)[i].key != KeyOfRole(role) {}
  }

  lemma {:induction false} PresentKey(ns: seq<Node>, roles: seq<Role>, role: Role)
    requires Roled(ns, roles) && !role.Exec? && role in roles
    ensures HasKey(Defs(ns), KeyOfRole(role))
  {
    FindByRole(ns, roles, role);
    assert Defs(ns)[Find(ns, KeyOfRole(role)).value].key == KeyOfRole(role);
  }

  // One node after one that exists fits into any grown graph that is open.
  lemma {:induction false} OneMoreAccepted(g: Graph, roles: seq<Role>, r: Request, role: Role, after: Role)
    requires Structured(g.nodes) && Roled(g.nodes, roles)
    requires !role.Exec? && role !in roles && !after.Exec? && after in roles
    requires r.key == KeyOfRole(role) && r.deps == [KeyOfRole(after)] && Tight(r.key)
    ensures Expandable(g, [r]) <==> Open(g)
  {
    hide Roled, Open, Expandable, KeyOfRole, OneMore, Tight;
    UnionIsOneMore(g, roles, r, role, after);
    OneMoreIsShaped(Defs(g.nodes), Defs(Union(g.nodes, [r], 0)), r.key, KeyOfRole(after));
    AcceptedWhenShaped(g, [r]);
  }

  lemma {:induction false} UnionIsOneMore(g: Graph, roles: seq<Role>, r: Request, role: Role, after: Role)
    requires Structured(g.nodes) && Roled(g.nodes, roles)
    requires !role.Exec? && role !in roles && !after.Exec? && after in roles
    requires r.key == KeyOfRole(role) && r.deps == [KeyOfRole(after)] && Tight(r.key)
    ensures OneMore(Defs(g.nodes), Defs(Union(g.nodes, [r], 0)), r.key, KeyOfRole(after))
  {
    hide KeyOfRole, Tight, Trim;
    FreshKey(g.nodes, roles, role);
    PresentKey(g.nodes, roles, after);
    UnionDefs(g.nodes, [r], 0);
    TightIsTrimmed(r.key);
  }

  lemma {:induction false} RepairAccepted(g: Graph, roles: seq<Role>, c: nat, after: Role)
    requires Structured(g.nodes) && Roled(g.nodes, roles) && Repair(c) !in roles && after in roles
    requires after == Review(c) || after == Verify(c)
    ensures Expandable(g, RepairRequests(c, KeyOfRole(after))) <==> Open(g)
  {
    NumberedIsTight(REPAIR, c);
    OneMoreAccepted(g, roles, RepairRequests(c, KeyOfRole(after))[0], Repair(c), after);
  }

  lemma {:induction false} VerifyAccepted(g: Graph, roles: seq<Role>, c: nat, passed: bool)
    requires Structured(g.nodes) && Roled(g.nodes, roles) && Verify(c) !in roles && Review(c) in roles
    ensures Expandable(g, VerifyRequests(c, passed)) <==> Open(g)
  {
    hide Expandable, Open, Structured;
    NumberedIsTight(VERIFY, c);
    OneMoreAccepted(g, roles, VerifyRequests(c, passed)[0], Verify(c), Review(c));
  }

  // ---- A plan's nodes -----------------------------------------------------

  lemma {:induction false} NoSuchExec(ns: seq<Node>, roles: seq<Role>, c: nat, id: string)
    requires Roled(ns, roles) && Exec(c) !in roles
    ensures !HasKey(Defs(ns), ExecPrefix(c) + id)
  {
    MatchExecOfKey(c, id);
    forall i: nat | i < |ns| ensures Defs(ns)[i].key != ExecPrefix(c) + id {
      if ns[i].def.key == ExecPrefix(c) + id { RoleOfKey(ns, roles, i, Exec(c)); }
    }
  }

  lemma {:induction false} NewCycleIsFresh(ns: seq<Node>, roles: seq<Role>, c: nat)
    requires Roled(ns, roles) && Exec(c) !in roles && Review(c) !in roles
    ensures Fresh(Defs(ns), c)
  {
    FreshKey(ns, roles, Review(c));
    forall id ensures !HasKey(Defs(ns), ExecPrefix(c) + id) { NoSuchExec(ns, roles, c, id); }
  }

  lemma {:induction false} TidyIsAppended(ns: seq<Node>, c: nat, producer: string, rs: seq<Request>, id: nat)
    requires Tidy(rs)
    ensures Appended(Defs(ns), Defs(Union(ns, ExecutionRequests(c, producer, rs), id)), c, producer, rs)
    ensures forall n | 0 <= n <= |rs| :: Tight(ExecutionRequests(c, producer, rs)[n].key)
  {
    var es, all := ExecutionNodes(c, producer, rs), ExecutionRequests(c, producer, rs);
    UnionDefs(ns, all, id);
    forall n | 0 <= n < |rs| ensures all[n] == es[n] && Tight(es[n].key) && Trim(es[n].key) == es[n].key {
      ExecKeyIsTight(c, rs[n].key);
      TightIsTrimmed(es[n].key);
    }
    NumberedIsTight(REVIEW, c);
    TightIsTrimmed(ReviewKey(c));
  }

  lemma {:induction false} TidyIsAccepted(
    g: Graph, roles: seq<Role>, c: nat, producer: Role, rs: seq<Request>)
    requires Structured(g.nodes) && Roled(g.nodes, roles) && Exec(c) !in roles && Review(c) !in roles && Open(g)
    requires !producer.Exec? && producer in roles
    requires WellShaped(RawDefs(rs)) && Acyclic(RawDefs(rs)) && Tidy(rs)
    ensures Expandable(g, ExecutionRequests(c, KeyOfRole(producer), rs))
  {
    var all := ExecutionRequests(c, KeyOfRole(producer), rs);
    NewCycleIsFresh(g.nodes, roles, c);
    PresentKey(g.nodes, roles, producer);
    TidyIsAppended(g.nodes, c, KeyOfRole(producer), rs, 0);
    AppendedIsShaped(Defs(g.nodes), Defs(Union(g.nodes, all, 0)), c, KeyOfRole(producer), rs);
    AcceptedWhenShaped(g, all);
  }

  // The plan's nodes fit the graph whenever the step ids are tidy; an untidy id is
  // trimmed where it is stored but not where it is listed, and is refused.
  lemma {:induction false} ExecutionAcceptedIffTidy(
    g: Graph, roles: seq<Role>, c: nat, producer: Role, rs: seq<Request>)
    requires Structured(g.nodes) && Roled(g.nodes, roles) && Exec(c) !in roles && Review(c) !in roles && Open(g)
    requires !producer.Exec? && producer in roles && AcceptableShape(RawDefs(rs))
    ensures Expandable(g, ExecutionRequests(c, KeyOfRole(producer), rs)) <==> Tidy(rs)
  {
    if Tidy(rs) { TidyIsAccepted(g, roles, c, producer, rs); }
    if Expandable(g, ExecutionRequests(c, KeyOfRole(producer), rs)) {
      AcceptedIsTidy(g, c, KeyOfRole(producer), rs);
    }
  }

  lemma {:induction false} AcceptedIsTidy(g: Graph, c: nat, producer: string, rs: seq<Request>)
    requires Structured(g.nodes) && Expandable(g, ExecutionRequests(c, producer, rs))
    ensures Tidy(rs)
  {
    forall n: nat | n < |rs| ensures rs[n].key == "" || !IsSpace(rs[n].key[|rs[n].key| - 1]) {
      var k := ExecutionNodes(c, producer, rs)[n].key;
      var m := ListerOf(c, producer, rs, n);
      ListedIsTight(g.nodes, ExecutionRequests(c, producer, rs), m, k);
      ExecKeyIsTight(c, rs[n].key);
    }
  }

  lemma {:induction false} ListedIsTight(ns: seq<Node>, rs: seq<Request>, m: nat, k: string)
    requires Structured(ns) && AcceptableShape(Defs(Union(ns, rs, 0))) && m < |rs| && k in rs[m].deps
    ensures Tight(k)
  {
    UnionDefs(ns, rs, 0);
    assert Defs(Union(ns, rs, 0))[|ns| + m].deps == rs[m].deps;
    KnownDepIsTight(ns, rs, |ns| + m, k);
  }

  // Every execution node is listed, by another or by the review.
  lemma {:induction false} ListerOf(c: nat, producer: string, rs: seq<Request>, n: nat) returns (m: nat)
    requires n < |rs|
    ensures m <= |rs|
    ensures ExecutionNodes(c, producer, rs)[n].key in ExecutionRequests(c, producer, rs)[m].deps
  {
    var es := ExecutionNodes(c, producer, rs);
    if SinkAt(es, n) {
      m := |rs|;
    } else {
      m :| 0 <= m < |rs| && es[n].key in es[m].deps;
    }
  }

  // A dependency of an accepted union names a stored key, which is trimmed.
  lemma {:induction false} KnownDepIsTight(ns: seq<Node>, rs: seq<Request>, i: nat, k: string)
    requires Structured(ns) && AcceptableShape(Defs(Union(ns, rs, 0)))
    requires i < |Defs(Union(ns, rs, 0))| && k in Defs(Union(ns, rs, 0))[i].deps
    ensures Tight(k)
  {
    var ds := Defs(Union(ns, rs, 0));
    UnionDefs(ns, rs, 0);
    assert HasKey(ds, k);
    var j :| 0 <= j < |ds| && ds[j].key == k;
    assert Trim(ds[j].key) != "";
    if j < |ns| { assert ds[j].key == ns[j].def.key; } else { TrimTwice(rs[j - |ns|].key); }
    TrimmedIsTight(k);
  }
}
