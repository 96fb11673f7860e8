// Exactly what is decided at each point of the model loop, what is then asked for, and
// what a verification reports (src/jev-model-graph.js, lines 48-500;
// src/jev-model-loop.js, lines 420-622).

module ModelVerdicts {
  import opened Basics
  import opened Dag
  import opened GraphShape
  import opened Nodes
  import opened Scheduler
  import opened Invariants
  import opened GraphRuns
  import opened Planner
  import opened ModelKeys
  import opened ModelGraph
  import opened ModelShape
  import opened ModelGrowth
  import opened ModelLoop
  import opened ModelIdle
  import opened ModelBounds

  // ---- The decision -------------------------------------------------------

  // A node for this has succeeded.
  ghost predicate Succeeds(ns: seq<Node>, roles: seq<Role>, role: Role) {
    exists i :: 0 <= i < |ns| && i < |roles| && roles[i] == role && ns[i].status == Succeeded
  }

  // The latest cycle up to k whose review has succeeded; 0 if none has.
  ghost predicate Reviewed(ns: seq<Node>, roles: seq<Role>, k: nat, c: nat) {
    && c <= k && (c > 0 ==> Succeeds(ns, roles, Review(c)))
    && (forall n | c < n <= k :: !Succeeds(ns, roles, Review(n)))
  }

  // The evidence each verification of cycle c carries.
  ghost predicate Carries(ns: seq<Node>, roles: seq<Role>, c: nat, passed: Option<bool>) {
    forall i | 0 <= i < |ns| && i < |roles| && roles[i] == Verify(c) :: ns[i].def.payload.evidencePassed == passed
  }

  // What the verdict on cycle c asks for.
  ghost predicate Follows(ns: seq<Node>, roles: seq<Role>, limit: nat, c: nat, a: Action)
    requires |roles| == |ns|
  {
    && (Verdict(ns, roles, c, Revise) ==>
          a == if Repair(c) in roles then Idle else if c >= limit then RepairLimit(c) else ExpandRepair(c))
    && (Verdict(ns, roles, c, Pass) ==>
          if Verify(c) !in roles then a == ExpandVerify(c)
          else if Succeeds(ns, roles, Verify(c)) then a.Verified? && a.cycle == c && Carries(ns, roles, c, a.passed)
          else a == Idle)
    && (Verdict(ns, roles, c, Block) ==> a == Blocked(c))
    && (!Verdict(ns, roles, c, Revise) && !Verdict(ns, roles, c, Pass) && !Verdict(ns, roles, c, Block) ==> a == Idle)
  }

  lemma DoneIsSucceeds(ns: seq<Node>, roles: seq<Role>, role: Role)
    requires Roled(ns, roles) && DistinctKeys(Defs(ns)) && !role.Exec?
    ensures Done(ns, KeyOfRole(role)) <==> Succeeds(ns, roles, role)
  {
    hide KeyIs, KeyOfRole;
    FindByRole(ns, roles, role);
    if i :| 0 <= i < |ns| && roles[i] == role && ns[i].status == Succeeded {
      SameRoleSameNode(ns, roles, i, Find(ns, KeyOfRole(role)).value);
    }
  }

  lemma VerdictOfReview(ns: seq<Node>, roles: seq<Role>, c: nat, d: Decision)
    requires Roled(ns, roles) && DistinctKeys(Defs(ns)) && Done(ns, ReviewKey(c))
    ensures Verdict(ns, roles, c, d) <==> DecisionOf(ns[Find(ns, ReviewKey(c)).value]) == Some(d)
  {
    hide KeyIs, ReviewKey, DecisionOf;
    assert ReviewKey(c) == KeyOfRole(Review(c));
    FindByRole(ns, roles, Review(c));
    var x := Find(ns, ReviewKey(c)).value;
    if Verdict(ns, roles, c, d) {
      var j :| 0 <= j < |ns| && roles[j] == Review(c) && ns[j].status.Succeeded? && DecisionOf(ns[j]) == Some(d);
      SameRoleSameNode(ns, roles, j, x);
    }
  }

  lemma {:induction false} OnVerdictFollows(ns: seq<Node>, roles: seq<Role>, limit: nat, c: nat)
    requires Roled(ns, roles) && DistinctKeys(Defs(ns)) && Done(ns, ReviewKey(c))
    ensures Follows(ns, roles, limit, c, OnVerdict(ns, limit, c, DecisionOf(ns[Find(ns, ReviewKey(c)).value])))
  {
    hide Roled, Verdict, Succeeds, DistinctKeys, ReviewKey, DecisionOf;
    VerdictOfReview(ns, roles, c, Revise);
    VerdictOfReview(ns, roles, c, Pass);
    VerdictOfReview(ns, roles, c, Block);
    FindByRole(ns, roles, Repair(c));
    FindByRole(ns, roles, Verify(c));
    DoneIsSucceeds(ns, roles, Verify(c));
    if Done(ns, VerifyKey(c)) { OneCarries(ns, roles, c); }
  }

  lemma OneCarries(ns: seq<Node>, roles: seq<Role>, c: nat)
    requires Roled(ns, roles) && DistinctKeys(Defs(ns)) && Done(ns, VerifyKey(c))
    ensures Carries(ns, roles, c, ns[Find(ns, VerifyKey(c)).value].def.payload.evidencePassed)
  {
    hide KeyIs, VerifyKey;
    assert VerifyKey(c) == KeyOfRole(Verify(c));
    FindByRole(ns, roles, Verify(c));
    var x := Find(ns, VerifyKey(c)).value;
    forall i: nat | i < |ns| && roles[i] == Verify(c) ensures i == x { SameRoleSameNode(ns, roles, i, x); }
  }

  lemma {:induction false} OnReviewsFollows(ns: seq<Node>, roles: seq<Role>, limit: nat, k: nat, c: nat)
    requires Roled(ns, roles) && DistinctKeys(Defs(ns)) && Reviewed(ns, roles, k, c)
    ensures if c == 0 then OnReviews(ns, limit, k) == Idle else Follows(ns, roles, limit, c, OnReviews(ns, limit, k))
  {
    hide Roled, Succeeds, DistinctKeys, ReviewKey, DecisionOf, OnVerdict, Follows;
    if k > 0 {
      DoneIsSucceeds(ns, roles, Review(k));
      if Done(ns, ReviewKey(k)) {
        OnVerdictFollows(ns, roles, limit, k);
      } else {
        OnReviewsFollows(ns, roles, limit, k - 1, c);
      }
    }
  }

  // Whatever shape the graph has grown to: the work of the next cycle is asked for exactly
  // when its producer has succeeded; else the latest review that has succeeded decides, and
  // nothing is decided without one.
  lemma {:induction false} DecisionIs(
    ns: seq<Node>, roles: seq<Role>, k: nat, r: nat, limit: nat, a: Action, c: nat)
    requires Grown(ns, roles, k, r) && DistinctKeys(Defs(ns)) && Decides(ns, limit, a) && Reviewed(ns, roles, k, c)
    ensures if r == k && Succeeds(ns, roles, ProducerRole(k + 1))
            then !ProducerRole(k + 1).Exec? && a == ExpandExecution(k + 1, KeyOfRole(ProducerRole(k + 1)))
            else if c == 0 then a == Idle else Follows(ns, roles, limit, c, a)
  {
    hide Grown, Decides, DistinctKeys, Roled, Reviewed, Follows, OnReviews, KeyOfRole, Present, Wired;
    GrownFacts(ns, roles, k, r);
    DecidedAt(ns, roles, k, r, limit, a);
    OnReviewsFollows(ns, roles, limit, k, c);
    DoneIsSucceeds(ns, roles, ProducerRole(k + 1));
  }

  // A verdict is what the succeeded review of the cycle answered with.
  lemma VerdictIs(ns: seq<Node>, roles: seq<Role>, c: nat, d: Decision)
    requires |roles| == |ns|
    ensures Verdict(ns, roles, c, d) <==>
      exists i :: 0 <= i < |ns| && roles[i] == Review(c) && ns[i].status == Succeeded
                  && ns[i].output.Output? && ns[i].output.decision == Some(d)
  {
  }

  // ---- What is asked for --------------------------------------------------

  // A model's node: two attempts, no time limit, no price.
  predicate AsksModel(r: Request, kind: string, key: string, deps: seq<string>, mode: Mode, payload: Payload) {
    r == Request(key, kind, deps, mode, payload, "cpu", 2, 0, 0)
  }

  // What a model graph starts with: a plan, and an implementation that waits for it.
  lemma FirstAskedFor()
    ensures |STARTING_NODES| == 2
    ensures AsksModel(STARTING_NODES[0], "model_plan", "astra-plan", [], WhenSucceeded, Payload(false, None))
    ensures AsksModel(STARTING_NODES[1], "model_implement", "fable-implement", ["astra-plan"], WhenSucceeded,
                      Payload(true, None))
  {
  }

  // The request for a plan's step, as the work of a cycle: its names carry the cycle, and
  // what waits for nothing waits for the producer of the plan.
  predicate AsksWork(r: Request, plan: Request, c: nat, producer: string) {
    && r == plan.(key := r.key, deps := r.deps)
    && r.key == "exec" + Dec(c) + ":" + plan.key
    && (if plan.deps == [] then r.deps == [producer]
        else |r.deps| == |plan.deps|
             && forall d | 0 <= d < |r.deps| :: r.deps[d] == "exec" + Dec(c) + ":" + plan.deps[d])
  }

  // What each decision asks the graph to grow by: the plan's work and the review of it,
  // which waits until all that nothing else waits for has settled; a repair of what was
  // reviewed; a verification that carries what the verifier recorded; and after a
  // verification that did not pass, a repair, unless there is one or the limit is reached.
  lemma {:induction false} AskedFor(t: TaskType, ns: seq<Node>, limit: nat, a: Action, passed: bool)
    ensures var asked := GrowthFor(t, ns, limit, a, passed);
      match a
      case ExpandExecution(c, producer) =>
        && (asked.Some? <==>
              && Has(ns, producer) && ns[Find(ns, producer).value].output.Output?
              && ns[Find(ns, producer).value].output.plan.Some?
              && Compilable(t, ns[Find(ns, producer).value].output.plan.value))
        && (asked.Some? ==>
              var plan := Compiled(t, ns[Find(ns, producer).value].output.plan.value);
              && |asked.value| == |plan| + 1
              && (forall n | 0 <= n < |plan| :: AsksWork(asked.value[n], plan[n], c, producer))
              && AsksModel(asked.value[|plan|], "model_review", "astra-review-" + Dec(c),
                           asked.value[|plan|].deps, WhenSettled, Payload(true, None))
              && (forall key :: key in asked.value[|plan|].deps <==>
                    exists n :: 0 <= n < |plan| && asked.value[n].key == key
                                && forall m | 0 <= m < |plan| :: key !in asked.value[m].deps))
      case ExpandRepair(c) =>
        && asked.Some? && |asked.value| == 1
        && AsksModel(asked.value[0], "model_repair", "fable-repair-" + Dec(c), ["astra-review-" + Dec(c)],
                     WhenSucceeded, Payload(true, None))
      case ExpandVerify(c) =>
        && asked.Some? && |asked.value| == 1
        && AsksModel(asked.value[0], "model_verify", "model-verify-" + Dec(c), ["astra-review-" + Dec(c)],
                     WhenSucceeded, Payload(false, Some(passed)))
      case Verified(c, evidence) =>
        && (asked.Some? <==>
              evidence != Some(true) && c < limit && forall n | n in ns :: n.def.key != "fable-repair-" + Dec(c))
        && (asked.Some? ==>
              && |asked.value| == 1
              && AsksModel(asked.value[0], "model_repair", "fable-repair-" + Dec(c), ["model-verify-" + Dec(c)],
                           WhenSucceeded, Payload(true, None)))
      case _ => asked.None?
  {
    hide Dec, Compiled, Compilable;
    match a {
      case ExpandExecution(c, producer) =>
        var asked := GrowthFor(t, ns, limit, a, passed);
        if asked.Some? { WorkAskedFor(c, producer, Compiled(t, ns[Find(ns, producer).value].output.plan.value)); }
      case Verified(c, evidence) =>
        HasIs(ns, RepairKey(c));
      case _ =>
    }
  }

  lemma HasIs(ns: seq<Node>, key: string)
    ensures Has(ns, key) <==> exists n :: n in ns && n.def.key == key
  {
    if Has(ns, key) { assert ns[Find(ns, key).value] in ns; }
  }

  lemma {:induction false} WorkAskedFor(c: nat, producer: string, plan: seq<Request>)
    ensures var asked := ExecutionRequests(c, producer, plan);
      && |asked| == |plan| + 1
      && (forall n | 0 <= n < |plan| :: AsksWork(asked[n], plan[n], c, producer))
      && AsksModel(asked[|plan|], "model_review", "astra-review-" + Dec(c), asked[|plan|].deps, WhenSettled,
                   Payload(true, None))
      && (forall key :: key in asked[|plan|].deps <==>
            exists n :: 0 <= n < |plan| && asked[n].key == key && forall m | 0 <= m < |plan| :: key !in asked[m].deps)
  {
    hide Dec;
  }

  // ---- What a verification reports ----------------------------------------

  // A node keeps its definition whatever is done to the graph and however it grows.
  lemma {:induction false} LoopKeepsDef(t: TaskType, limit: nat, g: Graph, events: seq<Event>, i: nat)
    requires Structured(g.nodes) && CanLoop(t, limit, g, events) && i < |g.nodes|
    ensures i < |AfterLoop(t, limit, g, events).nodes|
    ensures AfterLoop(t, limit, g, events).nodes[i].def == g.nodes[i].def
    decreases |events|
  {
    hide Structured, CanStep, Next, Grows, GrowthFor;
    if events != [] {
      StepKeepsDef(t, limit, g, events[0], i);
      LoopKeepsDef(t, limit, Stepped(t, limit, g, events[0]), events[1..], i);
    }
  }

  lemma {:induction false} StepKeepsDef(t: TaskType, limit: nat, g: Graph, e: Event, i: nat)
    requires Structured(g.nodes) && CanStep(limit, g, e) && i < |g.nodes|
    ensures i < |Stepped(t, limit, g, e).nodes| && Stepped(t, limit, g, e).nodes[i].def == g.nodes[i].def
  {
    hide Structured, Next, GrowthFor, Decides, Expandable;
    if e.Worked? {
      MoveKeepsOld(g, e.move);
    } else if Grows(t, limit, g, e) {
      var rs := GrowthFor(t, g.nodes, limit, e.action, e.passed).value;
      SteppedGrown(t, limit, g, e, rs);
      MoveKeepsOld(g, Expand(rs, e.firstId));
    }
  }

  // What is reported of a cycle is the evidence of the node that verifies it.
  lemma {:induction false} ReportsEvidence(ns: seq<Node>, limit: nat, c: nat, q: Option<bool>)
    requires Decides(ns, limit, Verified(c, q))
    ensures Has(ns, VerifyKey(c)) && q == ns[Find(ns, VerifyKey(c)).value].def.payload.evidencePassed
  {
    hide HighestIn, ReadsCycles, VerifyKey, ReviewKey, ProducerKeyFor, DecisionOf;
    var s, exec, review :| ReadsCycles(ns, s) && HighestIn(s.exec, exec) && HighestIn(s.reviews, review)
      && DecidedFrom(ns, limit, s, exec, review, Verified(c, q));
    var d := DecidingReview(ns, limit, review);
  }

  // After the verification of cycle c was asked for with what the verifier recorded, every
  // later report on that cycle, whatever happens in between, is that record: nothing more
  // is asked for if it passed; if it did not, a repair, unless there is one or the limit is
  // reached.
  lemma {:induction false} RecordIsReported(
    t: TaskType, limit: nat, g: Graph, c: nat, passed: bool, id: nat, events: seq<Event>, q: Option<bool>, now: bool)
    requires Structured(g.nodes) && CanStep(limit, g, Advanced(ExpandVerify(c), passed, id))
    requires Grows(t, limit, g, Advanced(ExpandVerify(c), passed, id))
    requires CanLoop(t, limit, Stepped(t, limit, g, Advanced(ExpandVerify(c), passed, id)), events)
    requires var g' := AfterLoop(t, limit, Stepped(t, limit, g, Advanced(ExpandVerify(c), passed, id)), events);
      Decides(g'.nodes, limit, Verified(c, q))
    ensures q == Some(passed)
    ensures var g' := AfterLoop(t, limit, Stepped(t, limit, g, Advanced(ExpandVerify(c), passed, id)), events);
      GrowthFor(t, g'.nodes, limit, Verified(c, q), now).Some?
      <==> !passed && c < limit && forall n | n in g'.nodes :: n.def.key != "fable-repair-" + Dec(c)
  {
    hide Structured, CanStep, Grows, CanLoop, AfterLoop, Stepped, Decides, Next, Dec, GrowthFor;
    var e := Advanced(ExpandVerify(c), passed, id);
    var g1 := Stepped(t, limit, g, e);
    VerificationIsStored(t, limit, g, c, passed, id);
    LoopKeepsDef(t, limit, g1, events, |g.nodes|);
    var g' := AfterLoop(t, limit, g1, events);
    ReportsEvidence(g'.nodes, limit, c, q);
    KeyIsOnce(g'.nodes, VerifyKey(c), |g.nodes|);
    AskedFor(t, g'.nodes, limit, Verified(c, q), now);
  }

  lemma KeyIsOnce(ns: seq<Node>, key: string, i: nat)
    requires Structured(ns) && i < |ns| && ns[i].def.key == key
    ensures Find(ns, key) == Some(i)
  {
    var x := Find(ns, key).value;
    assert Defs(ns)[x].key == Defs(ns)[i].key;
  }

  lemma {:induction false} VerificationIsStored(t: TaskType, limit: nat, g: Graph, c: nat, passed: bool, id: nat)
    requires Structured(g.nodes) && CanStep(limit, g, Advanced(ExpandVerify(c), passed, id))
    requires Grows(t, limit, g, Advanced(ExpandVerify(c), passed, id))
    ensures var g' := Stepped(t, limit, g, Advanced(ExpandVerify(c), passed, id));
      && |g.nodes| < |g'.nodes| && g'.nodes[|g.nodes|].def.key == VerifyKey(c)
      && g'.nodes[|g.nodes|].def.payload.evidencePassed == Some(passed)
  {
    hide Structured, Next, Decides, Expandable, Dec;
    var e, rs := Advanced(ExpandVerify(c), passed, id), VerifyRequests(c, passed);
    SteppedGrown(t, limit, g, e, rs);
    GrowthAdds(g, rs, id);
    KeyIsTight(VerifyKey(c));
  }

  lemma KeyIsTight(key: string)
    requires exists n: nat :: key == VERIFY + Dec(n)
    ensures Trim(key) == key
  {
  }
}
