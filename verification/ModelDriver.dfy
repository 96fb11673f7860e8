// advanceModelGraph (src/jev-model-loop.js, lines 121-230): at most one transition of
// one model graph per call, a node's or the driver's own.

module ModelDriver {
  import opened Basics
  import opened Dag
  import opened GraphShape
  import opened Nodes
  import opened Scheduler
  import opened Invariants
  import opened GraphRuns
  import opened Drain
  import opened Planner
  import opened ModelKeys
  import opened ModelGraph
  import opened ModelBounds
  import opened Rows
  import opened GraphTable
  import opened StoreRows
  import opened Executor

  datatype Turn =
    | Stopped
    | Ran(key: string)
    | Waiting
    | Acted(action: Action, grew: bool)

  // expandExecution, expandRepair, expandVerify and settleVerification, up to the
  // call of expandGraph.
  method PlanGrowth(t: TaskType, ns: seq<Node>, limit: nat, a: Action, passed: bool) returns (rs: Option<seq<Request>>)
    ensures rs == GrowthFor(t, ns, limit, a, passed)
  {
    match a {
      case ExpandExecution(cycle, producer) =>
        if !Has(ns, producer) { return None; }
        var output := ns[Find(ns, producer).value].output;
        if output.NoOutput? || output.plan.None? { return None; }
        var compiled := GraphFromExecutionPlan(t, output.plan.value);
        if compiled.Err? { return None; }
        return Some(ExecutionRequests(cycle, producer, compiled.value));
      case ExpandRepair(cycle) =>
        return Some(RepairRequests(cycle, ReviewKey(cycle)));
      case ExpandVerify(cycle) =>
        return Some(VerifyRequests(cycle, passed));
      case Verified(cycle, evidence) =>
        if evidence == Some(true) { return None; }
        if Has(ns, RepairKey(cycle)) || cycle >= limit { return None; }
        return Some(RepairRequests(cycle, VerifyKey(cycle)));
      case _ =>
        return None;
    }
  }

  // The driver acts on what it decided: the graph grows, or stays as it is.
  method Act(row: GraphRow, t: TaskType, limit: nat, a: Action, passed: bool, firstId: nat) returns (grew: bool)
    requires row.Sturdy() && Decides(row.Value().nodes, limit, a)
    modifies row, row.rows
    ensures row.Sturdy() && (forall r | r in row.rows :: r in old(row.rows) || fresh(r))
    ensures grew <==> Grows(t, limit, old(row.Value()), Advanced(a, passed, firstId))
    ensures row.Value() == Stepped(t, limit, old(row.Value()), Advanced(a, passed, firstId))
  {
    hide Decides, Structured, Next, Expandable;
    var rs := PlanGrowth(t, Values(row.rows), limit, a, passed);
    if rs.None? { return false; }
    grew := MayGrow(row, rs.value);
    if grew {
      SteppedGrown(t, limit, row.Value(), Advanced(a, passed, firstId), rs.value);
      row.Grow(rs.value, firstId);
    }
  }

  // With `executeNodes` a claimable node is run, and its work's answer recorded;
  // without it workers run nodes and the driver waits for them.
  method AdvanceModelGraph(
    row: GraphRow, t: TaskType, limit: nat, executeNodes: bool, answer: Answer, passed: bool, firstId: nat, now: int)
      returns (turn: Turn)
    requires row.Sturdy()
    modifies row, row.rows
    ensures row.Sturdy() && (forall r | r in row.rows :: r in old(row.rows) || fresh(r))
    ensures turn.Stopped? <==> old(row.status).GraphCancelled?
    ensures turn.Stopped? || turn.Waiting? ==> row.Value() == old(row.Value())
    ensures turn.Ran? ==> executeNodes && SomethingToClaim(old(row.Value()))
    ensures turn.Ran? ==> row.Value() == Round(old(row.Value()), answer, now)
    ensures turn.Waiting? <==>
      && !executeNodes && !old(row.status).GraphCancelled?
      && exists n :: n in old(row.Value()).nodes && (n.status.Ready? || n.status.Running?)
    ensures turn.Acted? ==> !(executeNodes && SomethingToClaim(old(row.Value())))
    ensures turn.Acted? ==> Decides(old(row.Value()).nodes, limit, turn.action)
    ensures turn.Acted? ==>
      var e := Advanced(turn.action, passed, firstId);
      && (turn.grew <==> Grows(t, limit, old(row.Value()), e))
      && row.Value() == Stepped(t, limit, old(row.Value()), e)
  {
    hide Structured, Next, Decides, Grows, Stepped, Round, SomethingToClaim;
    if row.status.GraphCancelled? { return Stopped; }
    if executeNodes {
      var key := ExecuteNextNode(row, answer, now);
      if key.Some? { return Ran(key.value); }
    } else {
      var ns := Values(row.rows);
      if exists n | n in ns :: n.status.Ready? || n.status.Running? { return Waiting; }
    }
    var action := NextModelGraphAction(Values(row.rows), limit);
    var grew := Act(row, t, limit, action, passed, firstId);
    return Acted(action, grew);
  }
}
