// The sequential reference: ExecutionEngine.run (src/execution-engine.js, lines
// 29-104). Each attempt at a step may fail for reasons of its own, and a cancel
// may arrive between any two looks at the flag; both are parameters.

module Engine {
  import opened Basics
  import opened Nodes
  import opened Scheduler
  import opened Workspaces
  import opened Planner
  import opened Commuting
  import opened PlanMeaning

  datatype StepState = StepWaiting | StepPassed | StepFailed | StepCancelled

  datatype EngineStatus = Completed | Broken | Stopped

  function Attempts(step: PlanStep): (n: nat)
    ensures n >= 1
  {
    Max(1, step.retries + 1)
  }

  // The steps a run still has to do, among the first n.
  function Remaining(states: seq<StepState>, n: nat): seq<nat>
    requires n <= |states|
  {
    if n == 0 then []
    else Remaining(states, n - 1) + (if states[n - 1].StepPassed? then [] else [n - 1])
  }

  lemma {:induction false} NothingPassedYet(states: seq<StepState>, n: nat)
    requires n <= |states| && forall m | 0 <= m < n :: !states[m].StepPassed?
    ensures Remaining(states, n) == Counting(n)
  {
    if n > 0 {
      NothingPassedYet(states, n - 1);
      CountingOn(n);
    }
  }

  // They are exactly the steps that have not passed, in list order.
  lemma {:induction false} RemainingAre(states: seq<StepState>, n: nat)
    requires n <= |states|
    ensures forall i: nat :: i in Remaining(states, n) <==> i < n && states[i] != StepPassed
    ensures forall a, b | 0 <= a < b < |Remaining(states, n)| :: Remaining(states, n)[a] < Remaining(states, n)[b]
  {
    if n > 0 {
      RemainingAre(states, n - 1);
      var init := Remaining(states, n - 1);
      assert forall a | 0 <= a < |init| :: init[a] in init;
    }
  }

  // What doing the remaining steps among the first n comes to.
  function Did(
    t: TaskType, world: World, steps: seq<PlanStep>, states: seq<StepState>, n: nat, w: Workspace): Option<Workspace>
    requires n <= |states|
  {
    Commuting.Run(Doing(t, world, steps), Remaining(states, n), w)
  }

  predicate AllPassed(states: seq<StepState>, n: nat)
    requires n <= |states|
  {
    forall m | 0 <= m < n :: states[m].StepPassed?
  }

  predicate StoppedAt(states0: seq<StepState>, states: seq<StepState>, status: EngineStatus, n: nat)
    requires n < |states| == |states0|
  {
    && AllPassed(states, n)
    && (if status.Broken? then states[n].StepFailed? else states[n].StepCancelled?)
    && (forall m | n < m < |states| :: states[m] == states0[m])
  }

  // Nobody cancels, and every step has an attempt that does not fail by itself.
  ghost predicate Undisturbed(steps: seq<PlanStep>, lucky: (nat, nat) -> bool, stops: nat -> bool) {
    && (forall p :: !stops(p))
    && (forall n | 0 <= n < |steps| :: AnAttemptPasses(steps, lucky, n))
  }

  ghost predicate AnAttemptPasses(steps: seq<PlanStep>, lucky: (nat, nat) -> bool, n: nat)
    requires n < |steps|
  {
    exists a :: 1 <= a <= Attempts(steps[n]) && lucky(n, a)
  }

  class ExecutionEngine {
    var workspace: Workspace
    var states: seq<StepState>
    var looks: nat

    constructor (workspace: Workspace, states: seq<StepState>)
      ensures this.workspace == workspace && this.states == states && looks == 0
    {
      this.workspace, this.states, this.looks := workspace, states, 0;
    }

    // `this.cancelled`, read once more.
    method Cancelling(stops: nat -> bool) returns (now: bool)
      modifies this`looks
      ensures looks == old(looks) + 1 && now == stops(old(looks))
    {
      now := stops(looks);
      looks := looks + 1;
    }

    // Up to Attempts(step) tries; a try changes the workspace only if it succeeds.
    method TryStep(
      t: TaskType, world: World, steps: seq<PlanStep>, n: nat, lucky: (nat, nat) -> bool, stops: nat -> bool)
      returns (passed: bool)
      requires n < |steps|
      modifies this`workspace, this`looks
      ensures passed ==> Some(workspace) == Perform(t, world, steps, n, old(workspace))
      ensures !passed ==> workspace == old(workspace)
      ensures !passed && (forall p :: !stops(p)) ==>
        Perform(t, world, steps, n, workspace).None? || !AnAttemptPasses(steps, lucky, n)
      ensures looks >= old(looks)
    {
      for attempt := 1 to Attempts(steps[n]) + 1
        invariant workspace == old(workspace) && looks >= old(looks)
        invariant Perform(t, world, steps, n, workspace).None? || forall a | 1 <= a < attempt :: !lucky(n, a)
      {
        var stop := Cancelling(stops);
        if stop { return false; }
        var result := Perform(t, world, steps, n, workspace);
        if lucky(n, attempt) && result.Some? {
          workspace := result.value;
          return true;
        }
      }
      return false;
    }

    // The body of the loop over the steps; a status means the run ends here.
    method DoStep(
      t: TaskType, world: World, steps: seq<PlanStep>, n: nat, lucky: (nat, nat) -> bool, stops: nat -> bool)
      returns (end: Option<EngineStatus>)
      requires n < |states| == |steps|
      modifies this
      ensures |states| == |steps| && forall m | 0 <= m < |states| && m != n :: states[m] == old(states)[m]
      ensures end.None? ==> states[n].StepPassed?
      ensures end.None? ==>
        Some(workspace)
        == (if old(states)[n].StepPassed? then Some(old(workspace)) else Perform(t, world, steps, n, old(workspace)))
      ensures end.Some? ==> workspace == old(workspace) && !end.value.Completed?
      ensures end.Some? ==> if end.value.Broken? then states[n].StepFailed? else states[n].StepCancelled?
      ensures end.Some? && (forall p :: !stops(p)) ==>
        !old(states)[n].StepPassed?
        && (Perform(t, world, steps, n, workspace).None? || !AnAttemptPasses(steps, lucky, n))
    {
      var stop := Cancelling(stops);
      if stop {
        states := states[n := StepCancelled];
        return Some(Stopped);
      }
      if states[n].StepPassed? { return None; }
      var passed := TryStep(t, world, steps, n, lucky, stops);
      if passed {
        states := states[n := StepPassed];
        return None;
      }
      stop := Cancelling(stops);
      if stop {
        states := states[n := StepCancelled];
        return Some(Stopped);
      }
      states := states[n := StepFailed];
      return Some(Broken);
    }

    method Run(
      t: TaskType, world: World, steps: seq<PlanStep>, lucky: (nat, nat) -> bool, stops: nat -> bool)
      returns (status: EngineStatus)
      requires |states| == |steps|
      modifies this
      ensures |states| == |steps|
      // A completed run has done every step, and left what the list leaves.
      ensures status.Completed? ==>
        AllPassed(states, |steps|) && Did(t, world, steps, old(states), |steps|, old(workspace)) == Some(workspace)
      // Any other run stopped at one step, having done exactly the steps before it.
      ensures !status.Completed? ==>
        exists n :: 0 <= n < |steps| && StoppedAt(old(states), states, status, n)
                    && Did(t, world, steps, old(states), n, old(workspace)) == Some(workspace)
      // Left alone, it completes unless the list itself fails or a step runs out
      // of attempts.
      ensures
        && Undisturbed(steps, lucky, stops)
        && Did(t, world, steps, old(states), |steps|, old(workspace)).Some?
        ==> status.Completed?
    {
      ghost var states0, w0 := states, workspace;
      DidNothing(t, world, steps, states, workspace);
      hide Did, Perform, Undisturbed, AnAttemptPasses, AllPassed, StoppedAt;
      for n := 0 to |steps|
        invariant |states| == |steps| && AllPassed(states, n)
        invariant forall m | n <= m < |steps| :: states[m] == states0[m]
        invariant Did(t, world, steps, states0, n, w0) == Some(workspace)
      {
        OneStepOn(t, world, steps, states0, n, w0, workspace);
        ghost var w, before := workspace, states;
        var end := DoStep(t, world, steps, n, lucky, stops);
        if end.Some? {
          StoppedForAReason(t, world, steps, states0, n, w0, w, lucky, stops);
          StoppedHere(states0, before, states, end.value, n);
          return end.value;
        }
        OneMorePassed(before, states, n);
      }
      return Completed;
    }
  }

  lemma DidNothing(t: TaskType, world: World, steps: seq<PlanStep>, states: seq<StepState>, w: Workspace)
    ensures Did(t, world, steps, states, 0, w) == Some(w) && AllPassed(states, 0)
  {
  }

  lemma OneMorePassed(before: seq<StepState>, states: seq<StepState>, n: nat)
    requires n < |before| == |states| && AllPassed(before, n) && states[n].StepPassed?
    requires forall m | 0 <= m < |states| && m != n :: states[m] == before[m]
    ensures AllPassed(states, n + 1)
  {
  }

  lemma StoppedHere(
    states0: seq<StepState>, before: seq<StepState>, states: seq<StepState>, status: EngineStatus, n: nat)
    requires n < |before| == |states| == |states0| && AllPassed(before, n)
    requires forall m | n <= m < |before| :: before[m] == states0[m]
    requires forall m | 0 <= m < |states| && m != n :: states[m] == before[m]
    requires if status.Broken? then states[n].StepFailed? else states[n].StepCancelled?
    ensures StoppedAt(states0, states, status, n)
  {
  }

  lemma {:induction false} OneStepOn(
    t: TaskType, world: World, steps: seq<PlanStep>, states: seq<StepState>, n: nat, w0: Workspace, w: Workspace)
    requires n < |states| == |steps| && Did(t, world, steps, states, n, w0) == Some(w)
    ensures Did(t, world, steps, states, n + 1, w0)
      == if states[n].StepPassed? then Some(w) else Perform(t, world, steps, n, w)
  {
    RunLast(Doing(t, world, steps), Remaining(states, n), n, w0);
    assert Remaining(states, n) + [] == Remaining(states, n);
  }

  // A list that fails among its first n steps fails.
  lemma {:induction false} FailsFrom(
    t: TaskType, world: World, steps: seq<PlanStep>, states: seq<StepState>, n: nat, m: nat, w: Workspace)
    requires n <= m <= |states|
    ensures Did(t, world, steps, states, n, w).None? ==> Did(t, world, steps, states, m, w).None?
  {
    if n < m {
      FailsFrom(t, world, steps, states, n, m - 1, w);
      RunLast(Doing(t, world, steps), Remaining(states, m - 1), m - 1, w);
      assert Remaining(states, m - 1) + [] == Remaining(states, m - 1);
    }
  }

  lemma {:induction false} StoppedForAReason(
    t: TaskType, world: World, steps: seq<PlanStep>, states: seq<StepState>, n: nat, w0: Workspace, w: Workspace,
    lucky: (nat, nat) -> bool, stops: nat -> bool)
    requires n < |states| == |steps| && Did(t, world, steps, states, n, w0) == Some(w)
    requires (forall p :: !stops(p)) ==>
      !states[n].StepPassed? && (Perform(t, world, steps, n, w).None? || !AnAttemptPasses(steps, lucky, n))
    ensures !(Undisturbed(steps, lucky, stops) && Did(t, world, steps, states, |steps|, w0).Some?)
  {
    OneStepOn(t, world, steps, states, n, w0, w);
    FailsFrom(t, world, steps, states, n + 1, |steps|, w0);
  }

  // A run from the start has the whole list to do.
  lemma {:induction false} FreshRunDoesTheList(
    t: TaskType, world: World, steps: seq<PlanStep>, states: seq<StepState>, w: Workspace)
    requires |states| == |steps| && forall m | 0 <= m < |states| :: !states[m].StepPassed?
    ensures Did(t, world, steps, states, |steps|, w) == InOrder(t, world, steps, w)
  {
    NothingPassedYet(states, |steps|);
  }
}
