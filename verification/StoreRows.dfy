// Graph rows held together in one store: what each row stores, and the loops of
// src/jev.js over all of them. Each method says what it does to the stored values
// and that the other rows stay as they were.

module StoreRows {
  import opened Basics
  import opened Dag
  import opened GraphShape
  import opened Nodes
  import opened Scheduler
  import opened Invariants
  import opened GraphRuns
  import opened Drain
  import opened Store
  import opened Fencing
  import opened Activity
  import opened StoreSteps
  import opened Rows
  import opened GraphTable
  import Books
  import opened BillingStore

  // The row stores g in these records.
  ghost predicate Stores(row: GraphRow, records: set<NodeRow>, g: Graph)
    reads row, records
  {
    (forall r | r in row.rows :: r in records) && Apart(row.rows) && row.Value() == g
  }

  // Row x stores vs[x] in records owned[x], and nothing is shared between rows.
  ghost predicate AllHeld(gs: seq<GraphRow>, owned: seq<set<NodeRow>>, vs: seq<Graph>)
    reads gs, set x, r | 0 <= x < |owned| && r in owned[x] :: r
  {
    && |gs| == |owned| == |vs|
    && (forall x | 0 <= x < |gs| :: Stores(gs[x], owned[x], vs[x]))
    && (forall x, y | 0 <= x < y < |gs| :: gs[x] != gs[y] && owned[x] !! owned[y])
  }

  method MakeHere(row: GraphRow, m: Move, ghost records: set<NodeRow>, ghost g: Graph)
      returns (ghost more: set<NodeRow>)
    requires Stores(row, records, g) && Structured(g.nodes) && Enabled(g, m)
    modifies row, records
    ensures Stores(row, more, Next(g, m)) && fresh(more - records)
  {
    row.Make(m);
    more := records + (set r | r in row.rows);
  }

  // One move on graph x; the other graphs and their records stay as they are.
  method MoveOne(gs: seq<GraphRow>, x: nat, m: Move, ghost owned: seq<set<NodeRow>>, ghost vs: seq<Graph>)
      returns (ghost more: seq<set<NodeRow>>)
    requires AllHeld(gs, owned, vs) && x < |gs| && Structured(vs[x].nodes) && Enabled(vs[x], m)
    modifies gs[x], owned[x]
    ensures |more| == |owned| && more == owned[x := more[x]] && fresh(more[x] - owned[x])
    ensures AllHeld(gs, more, vs[x := Next(vs[x], m)])
  {
    hide Stores, Next, Enabled, Structured;
    ghost var mine := MakeHere(gs[x], m, owned[x], vs[x]);
    more := owned[x := mine];
    Reassemble(gs, owned, more, vs, x, Next(vs[x], m));
  }

  lemma Reassemble(
    gs: seq<GraphRow>, owned: seq<set<NodeRow>>, more: seq<set<NodeRow>>, vs: seq<Graph>, x: nat, g: Graph)
    requires x < |gs| == |owned| == |more| == |vs| && more == owned[x := more[x]]
    requires forall y | 0 <= y < |gs| && y != x :: Stores(gs[y], owned[y], vs[y])
    requires Stores(gs[x], more[x], g)
    requires forall x, y | 0 <= x < y < |gs| :: gs[x] != gs[y] && more[x] !! more[y]
    ensures AllHeld(gs, more, vs[x := g])
  {
    forall y | 0 <= y < |gs| ensures Stores(gs[y], more[y], vs[x := g][y]) {}
  }

  // `db.graphNodes.find(item => item.id === nodeId)`
  method FindNode(gs: seq<GraphRow>, node: nat, ghost owned: seq<set<NodeRow>>, ghost vs: seq<Graph>)
      returns (at: Option<(nat, nat)>)
    requires AllHeld(gs, owned, vs)
    ensures at.Some? ==> at.value.0 < |gs| && NodeIn(vs[at.value.0].nodes, node) == Some(at.value.1)
    ensures at.None? ==> forall x | 0 <= x < |gs| :: NodeIn(vs[x].nodes, node).None?
  {
    for x := 0 to |gs|
      invariant forall y | 0 <= y < x :: NodeIn(vs[y].nodes, node).None?
    {
      var g := gs[x].Value();
      assert Stores(gs[x], owned[x], vs[x]);
      var i := NodeIn(g.nodes, node);
      if i.Some? { return Some((x, i.value)); }
    }
    return None;
  }

  // `db.taskGraphs.find(item => item.id === graphId)`
  method FindGraph(gs: seq<GraphRow>, id: nat, ghost owned: seq<set<NodeRow>>, ghost vs: seq<Graph>)
      returns (at: Option<nat>)
    requires AllHeld(gs, owned, vs)
    ensures at.Some? ==> at.value < |gs| && vs[at.value].id == id
    ensures at.None? ==> forall x | 0 <= x < |gs| :: vs[x].id != id
  {
    for x := 0 to |gs|
      invariant forall y | 0 <= y < x :: vs[y].id != id
    {
      assert Stores(gs[x], owned[x], vs[x]);
      if gs[x].id == id { return Some(x); }
    }
    return None;
  }

  // The keys an expansion brings: none empty, none taken, none repeated.
  method KeysAreNew(ns: seq<Node>, requests: seq<Request>) returns (unseen: bool)
    ensures !unseen ==> !AcceptableShape(Defs(Union(ns, requests, 0)))
  {
    ghost var all := Defs(Union(ns, requests, 0));
    assert forall i | 0 <= i < |ns| :: all[i].key == ns[i].def.key;
    var taken := set i | 0 <= i < |ns| :: ns[i].def.key;
    for t := 0 to |requests|
      invariant forall k | k in taken :: exists i :: 0 <= i < |ns| + t && all[i].key == k
    {
      var key := Trim(requests[t].key);
      assert all[|ns| + t].key == key;
      if key == "" { return false; }
      if key in taken { return false; }
      taken := taken + {key};
    }
    return true;
  }

  // assertGraphShape on the union of what is stored and what is asked for.
  method MayGrow(row: GraphRow, requests: seq<Request>) returns (may: bool)
    requires Apart(row.rows)
    ensures may <==> Expandable(row.Value(), requests)
  {
    if requests == [] || row.status.GraphFailed? || row.status.GraphCancelled? { return false; }
    var ns := Values(row.rows);
    var newKeys := KeysAreNew(ns, requests);
    if !newKeys { return false; }
    var shape := AssertGraphShape(Defs(Union(ns, requests, 0)));
    return shape.Ok?;
  }

  ghost predicate Wanted(g: Graph, op: Op)
    requires op.ClaimNext?
  {
    Active(g) && Matches(op.forTask, g.task) && Matches(op.forTenant, g.tenant)
  }

  // `cs` lists the wanted graphs among the first n, oldest first.
  ghost predicate Lined(vs: seq<Graph>, op: Op, cs: seq<nat>, n: nat)
    requires op.ClaimNext? && n <= |vs|
  {
    && (forall a | 0 <= a < |cs| :: cs[a] < n && Wanted(vs[cs[a]], op))
    && (forall x: nat | x < n && Wanted(vs[x], op) :: x in cs)
    && (forall a, b | 0 <= a < b < |cs| :: OlderGraph(Db(vs, 0), cs[a], cs[b]))
  }

  // Where a graph created at `at` goes: after the graphs no younger than it.
  method PlaceFor(gs: seq<GraphRow>, cs: seq<nat>, at: int) returns (p: nat)
    requires forall a | 0 <= a < |cs| :: cs[a] < |gs|
    ensures p <= |cs| && (forall a | 0 <= a < p :: gs[cs[a]].createdAt <= at)
    ensures p < |cs| ==> gs[cs[p]].createdAt > at
  {
    p := 0;
    while p < |cs| && gs[cs[p]].createdAt <= at
      invariant p <= |cs| && forall a | 0 <= a < p :: gs[cs[a]].createdAt <= at
    {
      p := p + 1;
    }
  }

  lemma LinedInsert(vs: seq<Graph>, op: Op, cs: seq<nat>, n: nat, p: nat)
    requires op.ClaimNext? && n < |vs| && Lined(vs, op, cs, n) && Wanted(vs[n], op) && p <= |cs|
    requires forall a | 0 <= a < p :: vs[cs[a]].createdAt <= vs[n].createdAt
    requires p < |cs| ==> vs[cs[p]].createdAt > vs[n].createdAt
    ensures Lined(vs, op, cs[..p] + [n] + cs[p..], n + 1)
  {
    var more := cs[..p] + [n] + cs[p..];
    hide Wanted, OlderGraph;
    InsertedElements(cs, p, n);
    forall x: nat | x < n + 1 && Wanted(vs[x], op) ensures x in more { InsertKeeps(cs, p, n, x); }
    forall a, b | 0 <= a < b < |more| ensures OlderGraph(Db(vs, 0), more[a], more[b]) {
      OlderInserted(vs, op, cs, n, p, a, b);
    }
  }

  function InsertedAt(cs: seq<nat>, p: nat, n: nat, c: nat): nat
    requires p <= |cs| && c <= |cs|
  {
    if c < p then cs[c] else if c == p then n else cs[c - 1]
  }

  lemma InsertedElements(cs: seq<nat>, p: nat, n: nat)
    requires p <= |cs|
    ensures var more := cs[..p] + [n] + cs[p..];
      |more| == |cs| + 1 && forall c | 0 <= c < |more| :: more[c] == InsertedAt(cs, p, n, c)
  {
  }

  lemma OlderInserted(vs: seq<Graph>, op: Op, cs: seq<nat>, n: nat, p: nat, a: nat, b: nat)
    requires op.ClaimNext? && n < |vs| && Lined(vs, op, cs, n) && p <= |cs| && a < b <= |cs|
    requires forall a | 0 <= a < p :: vs[cs[a]].createdAt <= vs[n].createdAt
    requires p < |cs| ==> vs[cs[p]].createdAt > vs[n].createdAt
    ensures var x, y := InsertedAt(cs, p, n, a), InsertedAt(cs, p, n, b);
      x < |vs| && y < |vs| && OlderGraph(Db(vs, 0), x, y)
  {
    hide Wanted;
    if a == p && b > p + 1 { assert OlderGraph(Db(vs, 0), cs[p], cs[b - 1]); }
  }

  lemma InsertKeeps(cs: seq<nat>, p: nat, n: nat, x: nat)
    requires p <= |cs|
    ensures x in cs[..p] + [n] + cs[p..] <==> x in cs || x == n
  {
    assert cs == cs[..p] + cs[p..];
  }

  lemma HeadersMatch(gs: seq<GraphRow>, owned: seq<set<NodeRow>>, vs: seq<Graph>)
    requires AllHeld(gs, owned, vs)
    ensures |gs| == |vs| && forall x | 0 <= x < |gs| ::
      && gs[x].createdAt == vs[x].createdAt && gs[x].status == vs[x].status
      && gs[x].task == vs[x].task && gs[x].tenant == vs[x].tenant
  {
    forall x | 0 <= x < |gs| ensures Stores(gs[x], owned[x], vs[x]) {}
  }

  // `.filter(...).filter(...).filter(...).sort(...)`; the sort is stable.
  method Candidates(gs: seq<GraphRow>, ghost op: Op, forTask: Option<string>, forTenant: Option<string>,
                    ghost owned: seq<set<NodeRow>>, ghost vs: seq<Graph>)
      returns (cs: seq<nat>)
    requires op.ClaimNext? && op.forTask == forTask && op.forTenant == forTenant && AllHeld(gs, owned, vs)
    ensures Lined(vs, op, cs, |vs|)
  {
    hide Structured, Next, AllHeld;
    HeadersMatch(gs, owned, vs);
    hide AllHeld;
    cs := [];
    for n := 0 to |gs|
      invariant Lined(vs, op, cs, n)
    {
      var g := gs[n];
      if (g.status.GraphPending? || g.status.GraphRunning?)
         && Matches(forTask, g.task) && Matches(forTenant, g.tenant)
      {
        var p := PlaceFor(gs, cs, g.createdAt);
        LinedInsert(vs, op, cs, n, p);
        cs := cs[..p] + [n] + cs[p..];
      }
    }
  }

  // The first candidate that offers anything is the one to serve.
  lemma FirstOfferServes(db: Db, op: Op, cs: seq<nat>, c: nat)
    requires op.ClaimNext? && Trim(op.worker) != "" && Lined(db.graphs, op, cs, |db.graphs|) && c < |cs|
    requires Offers(db.graphs[cs[c]], op) && forall a | 0 <= a < c :: !Offers(db.graphs[cs[a]], op)
    ensures Serves(db, op, cs[c])
  {
    forall y | 0 <= y < |db.graphs| && y != cs[c] && Offers(db.graphs[y], op) ensures OlderGraph(db, cs[c], y) {
      assert Wanted(db.graphs[y], op) && y in cs;
      var b :| 0 <= b < |cs| && cs[b] == y;
      assert OlderGraph(Db(db.graphs, 0), cs[c], cs[b]);
    }
  }

  lemma NobodyServes(db: Db, op: Op, cs: seq<nat>)
    requires op.ClaimNext? && Lined(db.graphs, op, cs, |db.graphs|)
    requires forall a | 0 <= a < |cs| :: !Offers(db.graphs[cs[a]], op)
    ensures forall x :: !Serves(db, op, x)
  {
    forall x | 0 <= x < |db.graphs| ensures !Offers(db.graphs[x], op) {
      if Wanted(db.graphs[x], op) { assert x in cs; }
    }
  }

  // What serving the candidate at x with its node i comes to.
  lemma {:induction false} ClaimEffect(db: Db, op: Op, x: nat, i: nat)
    requires Healthy(db) && op.ClaimNext? && Serves(db, op, x)
    requires FirstClaimable(db.graphs[x].nodes, op.filter, i)
    ensures var m := Move.Claim(i, db.nextId, op.worker, op.leaseMs, op.now);
      && Structured(db.graphs[x].nodes) && Enabled(db.graphs[x], m)
      && Step(db, op) == Db(db.graphs[x := Next(db.graphs[x], m)], db.nextId + 1)
    ensures Healthy(Step(db, op)) && Told(db, op) == Did
    ensures In(Step(db, op), x, i) && HandsOut(db, op, x, At(Step(db, op), x, i))
  {
    StepKeepsHealthy(db, op);
    ClaimMeaning(db, op, x);
    ClaimHandsOut(db, op, x);
    hide Next, HandsOut;
    FirstIsUnique(db.graphs[x].nodes, op.filter, i, NodeToClaim(db.graphs[x], op));
  }

  // `db.taskGraphs.find(graph => graph.taskId === taskId && graphIsActive(graph))`
  method SomeActiveFor(gs: seq<GraphRow>, task: string, ghost owned: seq<set<NodeRow>>, ghost vs: seq<Graph>)
      returns (some: bool)
    requires AllHeld(gs, owned, vs)
    ensures some <==> exists x :: 0 <= x < |vs| && vs[x].task == task && Active(vs[x])
  {
    for x := 0 to |gs|
      invariant forall y | 0 <= y < x :: !(vs[y].task == task && Active(vs[y]))
    {
      assert Stores(gs[x], owned[x], vs[x]);
      hide Stores;
      if gs[x].task == task && (gs[x].status.GraphPending? || gs[x].status.GraphRunning?) { return true; }
    }
    return false;
  }

  // The new graph row, its nodes pushed and settled.
  method NewRow(id: nat, task: string, tenant: string, requests: seq<Request>, now: int)
      returns (row: GraphRow, ghost records: set<NodeRow>)
    requires Creatable(requests)
    ensures fresh(row) && fresh(records) && Stores(row, records, Created(id, task, tenant, now, requests))
  {
    CreatedFrom(id, task, tenant, now, requests);
    row := new GraphRow(id, task, tenant, now);
    row.AppendAndSettle(requests, 0, id + 1);
    records := set r | r in row.rows;
  }

  lemma AddedBehind(gs: seq<GraphRow>, owned: seq<set<NodeRow>>, vs: seq<Graph>,
                    row: GraphRow, records: set<NodeRow>, g: Graph)
    requires AllHeld(gs, owned, vs) && Stores(row, records, g)
    requires row !in gs && forall x | 0 <= x < |owned| :: owned[x] !! records
    ensures AllHeld(gs + [row], owned + [records], vs + [g])
  {
    hide Stores;
  }

  // Every id in `ids` is of a node of the graph that the sweep ends or recovers.
  ghost predicate StalledIn(g: Graph, now: int, id: nat) {
    exists i :: 0 <= i < |g.nodes| && Stalled(g.nodes[i], now) && g.nodes[i].id == id
  }

  ghost predicate SweptIds(g: Graph, now: int, ids: seq<nat>) {
    forall id :: id in ids <==> StalledIn(g, now, id)
  }

  method SweepHere(row: GraphRow, now: int, ghost records: set<NodeRow>, ghost g: Graph) returns (ids: seq<nat>)
    requires Stores(row, records, g) && Structured(g.nodes)
    modifies row, records
    ensures Stores(row, records, Next(g, Move.Sweep(now))) && SweptIds(g, now, ids)
  {
    hide Structured, Next;
    var swept := row.Sweep(now);
    ids := IdsAt(row.rows, swept);
    forall id ensures id in ids <==> StalledIn(g, now, id) {
      if i :| 0 <= i < |g.nodes| && Stalled(g.nodes[i], now) && g.nodes[i].id == id { assert i in swept; }
    }
  }

  method IdsAt(rows: seq<NodeRow>, at: seq<nat>) returns (ids: seq<nat>)
    requires forall i | i in at :: i < |rows|
    ensures forall id :: id in ids <==> exists i :: i in at && rows[i].id == id
  {
    assert forall t | 0 <= t < |at| :: at[t] in at;
    ids := seq(|at|, t requires 0 <= t < |at| => rows[at[t]].id);
    forall i | i in at ensures rows[i].id in ids {
      var t :| 0 <= t < |at| && at[t] == i;
      assert ids[t] == rows[i].id;
    }
  }

  method SweepOne(gs: seq<GraphRow>, x: nat, now: int, ghost owned: seq<set<NodeRow>>, ghost vs: seq<Graph>)
      returns (ids: seq<nat>)
    requires AllHeld(gs, owned, vs) && x < |gs| && Structured(vs[x].nodes)
    modifies gs[x], owned[x]
    ensures AllHeld(gs, owned, vs[x := Next(vs[x], Move.Sweep(now))]) && SweptIds(vs[x], now, ids)
  {
    hide Stores, Next, Structured, SweptIds;
    ids := SweepHere(gs[x], now, owned[x], vs[x]);
    Reassemble(gs, owned, owned, vs, x, Next(vs[x], Move.Sweep(now)));
  }

  // The sweep at graph x, if the tenant is in scope.
  method SweepAt(gs: seq<GraphRow>, x: nat, now: int, tenant: Option<string>,
                 ghost owned: seq<set<NodeRow>>, ghost vs: seq<Graph>)
      returns (ids: seq<nat>)
    requires AllHeld(gs, owned, vs) && x < |gs| && Structured(vs[x].nodes)
    modifies gs[x], owned[x]
    ensures AllHeld(gs, owned, vs[x := SweptGraph(vs[x], now, tenant)])
    ensures if Matches(tenant, vs[x].tenant) then SweptIds(vs[x], now, ids) else ids == []
  {
    assert Stores(gs[x], owned[x], vs[x]);
    hide Stores, Next, Structured, SweptIds, AllHeld;
    if Matches(tenant, gs[x].tenant) {
      ids := SweepOne(gs, x, now, owned, vs);
    } else {
      assert vs[x := vs[x]] == vs;
      ids := [];
    }
  }

  // Every id the sweep ends or recovers, in the graphs before x.
  ghost predicate SweptBefore(vs: seq<Graph>, x: nat, now: int, tenant: Option<string>, ids: seq<nat>)
    requires x <= |vs|
  {
    forall id :: id in ids <==> exists y :: 0 <= y < x && Matches(tenant, vs[y].tenant) && StalledIn(vs[y], now, id)
  }

  lemma SweptOneMore(vs: seq<Graph>, x: nat, now: int, tenant: Option<string>, ids: seq<nat>, more: seq<nat>)
    requires x < |vs| && SweptBefore(vs, x, now, tenant, ids)
    requires if Matches(tenant, vs[x].tenant) then SweptIds(vs[x], now, more) else more == []
    ensures SweptBefore(vs, x + 1, now, tenant, ids + more)
  {
    hide StalledIn, Matches;
  }

  // The graphs before x as the sweep leaves them, the others as they were.
  ghost predicate SweptUpTo(vs: seq<Graph>, ws: seq<Graph>, x: nat, now: int, tenant: Option<string>)
    requires forall y | 0 <= y < |vs| :: Structured(vs[y].nodes)
  {
    |ws| == |vs| && forall y | 0 <= y < |vs| :: ws[y] == if y < x then SweptGraph(vs[y], now, tenant) else vs[y]
  }

  lemma SweptUpToOneMore(vs: seq<Graph>, ws: seq<Graph>, x: nat, now: int, tenant: Option<string>)
    requires forall y | 0 <= y < |vs| :: Structured(vs[y].nodes)
    requires x < |vs| && SweptUpTo(vs, ws, x, now, tenant)
    ensures ws[x] == vs[x] && SweptUpTo(vs, ws[x := SweptGraph(vs[x], now, tenant)], x + 1, now, tenant)
  {
    hide SweptGraph, Structured;
  }

  ghost function Flat(owned: seq<set<NodeRow>>): (rs: set<NodeRow>)
    ensures forall x | 0 <= x < |owned| :: owned[x] <= rs
  {
    set x, r | 0 <= x < |owned| && r in owned[x] :: r
  }

  method SweepGraphs(gs: seq<GraphRow>, now: int, tenant: Option<string>, billing: BillingTables,
                     ghost owned: seq<set<NodeRow>>, ghost vs: seq<Graph>)
      returns (swept: seq<nat>, ghost ws: seq<Graph>)
    requires AllHeld(gs, owned, vs) && forall y | 0 <= y < |vs| :: Structured(vs[y].nodes)
    modifies gs, Flat(owned), billing`reservations
    ensures AllHeld(gs, owned, ws) && SweptUpTo(vs, ws, |vs|, now, tenant)
    ensures SweptBefore(vs, |vs|, now, tenant, swept)
    ensures Books.ReleasedFor(old(billing.reservations), billing.reservations, swept)
  {
    hide Stores, Next, Structured, SweptGraph, SweptIds, StalledIn;
    swept, ws := [], vs;
    for x := 0 to |gs|
      invariant AllHeld(gs, owned, ws) && SweptUpTo(vs, ws, x, now, tenant)
      invariant SweptBefore(vs, x, now, tenant, swept)
      invariant Books.ReleasedFor(old(billing.reservations), billing.reservations, swept)
    {
      hide AllHeld, SweptBefore, SweptUpTo, Books.ReleasedFor;
      SweptUpToOneMore(vs, ws, x, now, tenant);
      var ids := SweepAt(gs, x, now, tenant, owned, ws);
      ws := ws[x := SweptGraph(vs[x], now, tenant)];
      ghost var before := billing.reservations;
      billing.ReleaseSwept(ids);
      Books.ReleasedThen(old(billing.reservations), before, billing.reservations, swept, ids);
      SweptOneMore(vs, x, now, tenant, swept, ids);
      swept := swept + ids;
    }
  }

  lemma {:induction false} SweepComesTo(db: Db, op: Op, ws: seq<Graph>)
    requires Sound(db) && op.SweepStalled? && SweptUpTo(db.graphs, ws, |db.graphs|, op.now, op.forTenant)
    ensures Step(db, op) == Db(ws, db.nextId) && Told(db, op) == Did
  {
    SweepMeaning(db, op, ws);
  }

  lemma NoWorkerServesNothing(db: Db, op: Op)
    requires op.ClaimNext? && Trim(op.worker) == ""
    ensures forall x :: !Serves(db, op, x)
  {
  }

  lemma LinedInRange(vs: seq<Graph>, op: Op, cs: seq<nat>)
    requires op.ClaimNext? && Lined(vs, op, cs, |vs|)
    ensures forall a | 0 <= a < |cs| :: cs[a] < |vs| && Wanted(vs[cs[a]], op)
  {
  }
}
