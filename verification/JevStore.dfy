// The store src/jev.js works on: graphs and node records updated in place, one
// method per exported operation. Each does exactly the step Store specifies, and
// says what its caller is told.

module JevStore {
  import opened Basics
  import opened Dag
  import opened GraphShape
  import opened Nodes
  import opened Scheduler
  import opened Invariants
  import opened GraphRuns
  import opened Drain
  import opened Store
  import opened Fencing
  import opened Activity
  import opened StoreSteps
  import opened Rows
  import opened GraphTable
  import opened StoreRows
  import Books
  import opened BillingStore

  class Jev {
    var graphs: seq<GraphRow>
    var nextId: nat
    ghost var db: Db
    ghost var owned: seq<set<NodeRow>>

    constructor ()
      ensures Valid() && fresh(Footprint()) && db == Db([], 0)
    {
      graphs, nextId := [], 0;
      db, owned := Db([], 0), [];
    }

    ghost function Footprint(): set<object>
      reads this
    {
      (set row: object | row in graphs) + (set r: object | r in Flat(owned))
    }

    ghost predicate Stored()
      reads this, Footprint()
    {
      AllHeld(graphs, owned, db.graphs) && nextId == db.nextId
    }

    ghost predicate Valid()
      reads this, Footprint()
    {
      Stored() && |graphs| == |owned| == |db.graphs| && Healthy(db)
    }

    // The pushes of createTaskGraph.
    method Push(row: GraphRow, used: nat, ghost records: set<NodeRow>, ghost g: Graph)
      requires Stored() && Stores(row, records, g)
      requires row !in graphs && forall x | 0 <= x < |owned| :: owned[x] !! records
      modifies this
      ensures Stored() && db == Db(old(db).graphs + [g], old(db).nextId + used)
      ensures graphs == old(graphs) + [row] && owned == old(owned) + [records]
    {
      AddedBehind(graphs, owned, db.graphs, row, records, g);
      hide Stores;
      graphs, owned := graphs + [row], owned + [records];
      nextId := nextId + used;
      db := Db(db.graphs + [g], db.nextId + used);
    }

    // The writes of one operation: `m` made on graph x, `used` ids handed out.
    method Write(x: nat, m: Move, used: nat, ghost after: Db)
      requires Stored() && x < |graphs| && Structured(db.graphs[x].nodes) && Enabled(db.graphs[x], m)
      requires after == Db(db.graphs[x := Next(db.graphs[x], m)], db.nextId + used)
      modifies this`nextId, this`db, this`owned, graphs[x], owned[x]
      ensures Stored() && db == after
      ensures |owned| == |old(owned)| && owned == old(owned)[x := owned[x]] && fresh(owned[x] - old(owned[x]))
    {
      hide Stores, Next, Enabled, Structured;
      owned := MoveOne(graphs, x, m, owned, db.graphs);
      nextId := nextId + used;
      db := after;
    }

    method RowAt(x: nat, i: nat) returns (row: NodeRow)
      requires Valid() && x < |graphs| && i < |db.graphs[x].nodes|
      ensures row.Value() == db.graphs[x].nodes[i]
    {
      assert Stores(graphs[x], owned[x], db.graphs[x]);
      row := graphs[x].rows[i];
    }

    method StatusAt(x: nat) returns (status: GraphStatus)
      requires Valid() && x < |graphs|
      ensures status == db.graphs[x].status
    {
      assert Stores(graphs[x], owned[x], db.graphs[x]);
      status := graphs[x].status;
    }

    method RenewNodeLease(node: nat, lease: nat, leaseMs: int, now: int) returns (reply: Reply)
      requires Valid()
      modifies this, Footprint()
      ensures Valid() && fresh(Footprint() - old(Footprint()))
      ensures db == Step(old(db), Op.RenewLease(node, lease, leaseMs, now))
      ensures reply == Told(old(db), Op.RenewLease(node, lease, leaseMs, now))
    {
      hide AllHeld, Stores, Step, Told, Next, Sound, Fenced, Ids, Enabled, Structured;
      ghost var op := Op.RenewLease(node, lease, leaseMs, now);
      var at := FindNode(graphs, node, owned, db.graphs);
      if at.None? {
        UnknownNodeMeaning(db, op);
        return Threw;
      }
      var x, i := at.value.0, at.value.1;
      NodeOpEffect(db, op, x, i);
      NodeOpTold(db, op, x, i);
      var row := RowAt(x, i);
      if !row.status.Running? || row.lease != Some(lease) { return Declined; }
      Write(x, Move.Renew(i, leaseMs, now), 0, Step(db, op));
      return Did;
    }

    method CompleteNode(node: nat, lease: nat, output: Output) returns (reply: Reply)
      requires Valid()
      modifies this, Footprint()
      ensures Valid() && fresh(Footprint() - old(Footprint()))
      ensures db == Step(old(db), Op.CompleteNode(node, lease, output))
      ensures reply == Told(old(db), Op.CompleteNode(node, lease, output))
    {
      hide AllHeld, Stores, Step, Told, Next, Sound, Fenced, Ids, Enabled, Structured;
      ghost var op := Op.CompleteNode(node, lease, output);
      var at := FindNode(graphs, node, owned, db.graphs);
      if at.None? {
        UnknownNodeMeaning(db, op);
        return Threw;
      }
      var x, i := at.value.0, at.value.1;
      NodeOpEffect(db, op, x, i);
      NodeOpTold(db, op, x, i);
      var row := RowAt(x, i);
      if row.status.Succeeded? && row.lease == Some(lease) { return Repeated; }
      if !row.status.Running? || row.lease != Some(lease) { return Declined; }
      Write(x, Move.Complete(i, output), 0, Step(db, op));
      return Did;
    }

    method FailNode(node: nat, lease: nat, retryable: bool) returns (reply: Reply)
      requires Valid()
      modifies this, Footprint()
      ensures Valid() && fresh(Footprint() - old(Footprint()))
      ensures db == Step(old(db), Op.FailNode(node, lease, retryable))
      ensures reply == Told(old(db), Op.FailNode(node, lease, retryable))
    {
      hide AllHeld, Stores, Step, Told, Next, Sound, Fenced, Ids, Enabled, Structured;
      ghost var op := Op.FailNode(node, lease, retryable);
      var at := FindNode(graphs, node, owned, db.graphs);
      if at.None? {
        UnknownNodeMeaning(db, op);
        return Threw;
      }
      var x, i := at.value.0, at.value.1;
      NodeOpEffect(db, op, x, i);
      NodeOpTold(db, op, x, i);
      var row := RowAt(x, i);
      if !row.status.Running? || row.lease != Some(lease) { return Declined; }
      Write(x, Move.Fail(i, retryable), 0, Step(db, op));
      return Did;
    }

    method ReopenNode(node: nat) returns (reply: Reply)
      requires Valid()
      modifies this, Footprint()
      ensures Valid() && fresh(Footprint() - old(Footprint()))
      ensures db == Step(old(db), Op.ReopenNode(node))
      ensures reply == Told(old(db), Op.ReopenNode(node))
    {
      hide AllHeld, Stores, Step, Told, Next, Sound, Fenced, Ids, Enabled, Structured;
      ghost var op := Op.ReopenNode(node);
      var at := FindNode(graphs, node, owned, db.graphs);
      if at.None? {
        UnknownNodeMeaning(db, op);
        return Threw;
      }
      var x, i := at.value.0, at.value.1;
      NodeOpEffect(db, op, x, i);
      NodeOpTold(db, op, x, i);
      var row := RowAt(x, i);
      if !row.status.Failed? && !row.status.TimedOut? { return Declined; }
      var status := StatusAt(x);
      if status.GraphCancelled? { return Declined; }
      Write(x, Move.Reopen(i), 0, Step(db, op));
      return Did;
    }

    method CancelGraph(graph: nat) returns (reply: Reply)
      requires Valid()
      modifies this, Footprint()
      ensures Valid() && fresh(Footprint() - old(Footprint()))
      ensures db == Step(old(db), Op.CancelGraph(graph))
      ensures reply == Told(old(db), Op.CancelGraph(graph))
    {
      hide AllHeld, Stores, Step, Told, Next, Sound, Fenced, Ids, Enabled, Structured;
      ghost var op := Op.CancelGraph(graph);
      var at := FindGraph(graphs, graph, owned, db.graphs);
      if at.None? {
        UnknownGraphMeaning(db, op);
        return Threw;
      }
      GraphOpEffect(db, op, at.value);
      Write(at.value, Move.Cancel, 0, Step(db, op));
      return Did;
    }

    method CanGrow(x: nat, requests: seq<Request>) returns (may: bool)
      requires Valid() && x < |graphs|
      ensures may <==> Expandable(db.graphs[x], requests)
    {
      assert Stores(graphs[x], owned[x], db.graphs[x]);
      may := MayGrow(graphs[x], requests);
    }

    method ExpandGraph(graph: nat, requests: seq<Request>) returns (reply: Reply)
      requires Valid()
      modifies this, Footprint()
      ensures Valid() && fresh(Footprint() - old(Footprint()))
      ensures db == Step(old(db), Op.ExpandGraph(graph, requests))
      ensures reply == Told(old(db), Op.ExpandGraph(graph, requests))
    {
      hide AllHeld, Stores, Step, Told, Next, Sound, Fenced, Ids, Structured, Expandable;
      ghost var op := Op.ExpandGraph(graph, requests);
      var at := FindGraph(graphs, graph, owned, db.graphs);
      if at.None? {
        UnknownGraphMeaning(db, op);
        return Threw;
      }
      GraphOpEffect(db, op, at.value);
      var may := CanGrow(at.value, requests);
      if !may { return Threw; }
      Write(at.value, Move.Expand(requests, nextId), |requests|, Step(db, op));
      return Did;
    }

    method FirstAt(x: nat, filter: Option<string>) returns (first: Option<nat>)
      requires Valid() && x < |graphs|
      ensures first.Some? ==> FirstClaimable(db.graphs[x].nodes, filter, first.value)
      ensures first.None? ==>
        forall i :: !(Claimable(db.graphs[x].nodes, i) && ClassFits(db.graphs[x].nodes[i], filter))
    {
      assert Stores(graphs[x], owned[x], db.graphs[x]) && Structured(db.graphs[x].nodes);
      first := FirstToClaim(Values(graphs[x].rows), filter);
    }

    // The loop over the candidates: the first that has a node to hand out, and which.
    method FirstOffer(cs: seq<nat>, ghost op: Op, filter: Option<string>) returns (offer: Option<(nat, nat)>)
      requires Valid() && op.ClaimNext? && op.filter == filter && Lined(db.graphs, op, cs, |db.graphs|)
      ensures offer.Some? ==>
        var c := offer.value.0;
        && c < |cs| && Offers(db.graphs[cs[c]], op) && FirstClaimable(db.graphs[cs[c]].nodes, filter, offer.value.1)
        && forall a | 0 <= a < c :: !Offers(db.graphs[cs[a]], op)
      ensures offer.None? ==> forall a | 0 <= a < |cs| :: !Offers(db.graphs[cs[a]], op)
    {
      LinedInRange(db.graphs, op, cs);
      for c := 0 to |cs|
        invariant forall a | 0 <= a < c :: !Offers(db.graphs[cs[a]], op)
      {
        hide Stores, Sound, Fenced, Ids, Lined;
        var first := FirstAt(cs[c], filter);
        if first.Some? { return Some((c, first.value)); }
      }
      return None;
    }

    method HandOut(x: nat, i: nat, ghost op: Op, worker: string, leaseMs: int, now: int) returns (node: Node)
      requires Valid() && op.ClaimNext? && op.worker == worker && op.leaseMs == leaseMs && op.now == now
      requires Serves(db, op, x) && FirstClaimable(db.graphs[x].nodes, op.filter, i)
      modifies this, Footprint()
      ensures Valid() && fresh(Footprint() - old(Footprint()))
      ensures db == Step(old(db), op) && Told(old(db), op) == Did && HandsOut(old(db), op, x, node)
    {
      hide AllHeld, Stores, Step, Told, Next, Sound, Fenced, Ids, Structured, Enabled, HandsOut;
      ClaimEffect(db, op, x, i);
      Write(x, Move.Claim(i, nextId, worker, leaseMs, now), 1, Step(db, op));
      var row := RowAt(x, i);
      node := row.Value();
    }

    method ClaimNextNode(forTask: Option<string>, forTenant: Option<string>, worker: string,
                         filter: Option<string>, leaseMs: int, now: int)
        returns (reply: Reply, handed: Option<Node>)
      requires Valid()
      modifies this, Footprint()
      ensures Valid() && fresh(Footprint() - old(Footprint()))
      ensures db == Step(old(db), Op.ClaimNext(forTask, forTenant, worker, filter, leaseMs, now))
      ensures reply == Told(old(db), Op.ClaimNext(forTask, forTenant, worker, filter, leaseMs, now))
      ensures handed.Some? <==> reply == Did
      ensures handed.Some? ==>
        exists x :: HandsOut(old(db), Op.ClaimNext(forTask, forTenant, worker, filter, leaseMs, now), x, handed.value)
    {
      hide AllHeld, Stores, Step, Told, Next, Sound, Fenced, Ids, Structured, Lined, Serves, Enabled, HandsOut;
      ghost var op := Op.ClaimNext(forTask, forTenant, worker, filter, leaseMs, now);
      if Trim(worker) == "" {
        assert forall x :: !Serves(db, op, x) by { NoWorkerServesNothing(db, op); }
        NoClaimMeaning(db, op);
        return Threw, None;
      }
      var cs := Candidates(graphs, op, forTask, forTenant, owned, db.graphs);
      var offer := FirstOffer(cs, op, filter);
      if offer.Some? {
        FirstOfferServes(db, op, cs, offer.value.0);
        var node := HandOut(cs[offer.value.0], offer.value.1, op, worker, leaseMs, now);
        return Did, Some(node);
      }
      NobodyServes(db, op, cs);
      NoClaimMeaning(db, op);
      return Nothing, None;
    }

    method MayCreate(ghost op: Op, task: string, requests: seq<Request>) returns (may: bool)
      requires Valid() && op.CreateGraph? && op.task == task && op.requests == requests
      ensures may <==> CanCreate(db, op)
    {
      hide Stores, Sound, Fenced, Ids;
      if task == "" { return false; }
      var shape := AssertGraphShape(Defs(Union([], requests, 0)));
      if shape.Err? { return false; }
      var existing := SomeActiveFor(graphs, task, owned, db.graphs);
      return !existing;
    }

    method AddGraph(task: string, tenant: string, requests: seq<Request>, now: int)
      requires Stored() && |graphs| == |owned| == |db.graphs| && Creatable(requests)
      modifies this
      ensures Stored() && |graphs| == |owned| == |db.graphs| && fresh(Footprint() - old(Footprint()))
      ensures db == Db(old(db).graphs + [Created(old(db).nextId, task, tenant, now, requests)],
                       old(db).nextId + (1 + |requests|))
    {
      hide AllHeld, Stores, Created, Creatable;
      var row, records := NewRow(nextId, task, tenant, requests, now);
      Push(row, 1 + |requests|, records, Created(nextId, task, tenant, now, requests));
    }

    method CreateTaskGraph(task: string, tenant: string, requests: seq<Request>, now: int) returns (reply: Reply)
      requires Valid()
      modifies this, Footprint()
      ensures Valid() && fresh(Footprint() - old(Footprint()))
      ensures db == Step(old(db), Op.CreateGraph(task, tenant, requests, now))
      ensures reply == Told(old(db), Op.CreateGraph(task, tenant, requests, now))
    {
      hide AllHeld, Stores, Step, Told, Next, Sound, Fenced, Ids, Structured, Created, AcceptableShape;
      ghost var op := Op.CreateGraph(task, tenant, requests, now);
      var may := MayCreate(op, task, requests);
      if !may {
        NoCreateMeaning(db, op);
        return Threw;
      }
      CreateEffect(db, op);
      AddGraph(task, tenant, requests, now);
      return Did;
    }

    // The sweep, which also releases what the dead workers' attempts had reserved.
    method SweepStalledNodes(now: int, forTenant: Option<string>, billing: BillingTables)
        returns (reply: Reply, swept: seq<nat>)
      requires Valid()
      modifies this, Footprint(), billing`reservations
      ensures Valid() && Footprint() == old(Footprint())
      ensures db == Step(old(db), Op.SweepStalled(now, forTenant))
      ensures reply == Told(old(db), Op.SweepStalled(now, forTenant))
      ensures SweptBefore(old(db).graphs, |old(db).graphs|, now, forTenant, swept)
      ensures Books.ReleasedFor(old(billing.reservations), billing.reservations, swept)
    {
      ghost var op := Op.SweepStalled(now, forTenant);
      hide Stores, Fenced, Ids, Step, Next, Structured, SweptUpTo, SweptBefore, Books.ReleasedFor;
      StepKeepsHealthy(db, op);
      ghost var ws;
      swept, ws := SweepGraphs(graphs, now, forTenant, billing, owned, db.graphs);
      SweepComesTo(db, op, ws);
      db := Step(db, op);
      return Did, swept;
    }
  }
}
