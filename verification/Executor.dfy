// drainGraph and executeNextNode (src/jev-executor.js, lines 130-409): the loop that
// claims a node, has it worked on, and records how it went. The work is an answer
// supplied from outside, and the step ceiling is the number of answers.

module Executor {
  import opened Basics
  import opened Dag
  import opened GraphShape
  import opened Nodes
  import opened Readiness
  import opened Scheduler
  import opened Invariants
  import opened GraphRuns
  import opened Deadlock
  import opened Drain
  import opened StatusRules
  import opened Rows
  import opened GraphTable

  datatype RunStatus = RunCompleted | RunCancelled | RunFailed | StepLimitReached | RunIncomplete

  function StatusOfRun(s: GraphStatus, exhausted: bool): RunStatus {
    if s.GraphSucceeded? then RunCompleted
    else if s.GraphCancelled? then RunCancelled
    else if s.GraphFailed? then RunFailed
    else if exhausted then StepLimitReached
    else RunIncomplete
  }

  lemma {:induction false} FoundToClaim(g: Graph, i: nat)
    requires Active(g) && FirstClaimable(g.nodes, None, i)
    ensures SomethingToClaim(g) && ToClaim(g) == i && i < |g.nodes|
  {
    FirstIsUnique(g.nodes, None, i, ToClaim(g));
  }

  lemma {:induction false} RoundInSteps(g: Graph, i: nat, a: Answer, now: int)
    requires Structured(g.nodes) && SomethingToClaim(g) && ToClaim(g) == i
    ensures var m := ClaimMove(i, now);
      && Enabled(g, m) && Structured(Next(g, m).nodes) && Enabled(Next(g, m), Resolution(i, a))
      && Round(g, a, now) == Next(Next(g, m), Resolution(i, a))
  {
    assert Claimed(g, now) == Next(g, ClaimMove(i, now));
  }

  // claimNextNode's choice, in this graph.
  method Pick(row: GraphRow) returns (first: Option<nat>)
    requires row.Sturdy()
    ensures first.Some? <==> SomethingToClaim(row.Value())
    ensures first.Some? ==> first.value == ToClaim(row.Value()) && first.value < |row.rows|
  {
    if !row.status.GraphPending? && !row.status.GraphRunning? { return None; }
    first := FirstToClaim(Values(row.rows), None);
    if first.Some? { FoundToClaim(row.Value(), first.value); }
  }

  // completeNode or failNode, as the work went.
  method Resolve(row: GraphRow, i: nat, answer: Answer)
    requires row.Sturdy() && Enabled(row.Value(), Resolution(i, answer))
    modifies row, row.rows
    ensures row.rows == old(row.rows) && row.Sturdy() && row.Value() == Next(old(row.Value()), Resolution(i, answer))
  {
    hide Next, Structured, Enabled;
    match answer {
      case Succeeds(output) => row.Complete(i, output);
      case Fails(retryable) => row.Fail(i, retryable);
    }
  }

  method ClaimAndResolve(row: GraphRow, i: nat, answer: Answer, now: int)
    requires row.Sturdy() && SomethingToClaim(row.Value()) && ToClaim(row.Value()) == i
    modifies row, row.rows
    ensures row.rows == old(row.rows) && row.Sturdy() && row.Value() == Round(old(row.Value()), answer, now)
  {
    RoundInSteps(row.Value(), i, answer, now);
    hide Next, Structured, Enabled, Round, ToClaim, SomethingToClaim;
    row.Claim(i, 0, "inline-worker", 120000, now);
    Resolve(row, i, answer);
  }

  method ExecuteNextNode(row: GraphRow, answer: Answer, now: int) returns (key: Option<string>)
    requires row.Sturdy()
    modifies row, row.rows
    ensures row.Sturdy() && row.rows == old(row.rows)
    ensures key.Some? <==> SomethingToClaim(old(row.Value()))
    ensures key.Some? ==> key.value == old(row.Value()).nodes[ToClaim(old(row.Value()))].def.key
    ensures row.Value() == if key.Some? then Round(old(row.Value()), answer, now) else old(row.Value())
  {
    hide Round, ToClaim, SomethingToClaim;
    var first := Pick(row);
    if first.None? { return None; }
    key := Some(row.rows[first.value].def.key);
    ClaimAndResolve(row, first.value, answer, now);
  }

  lemma {:induction false} DrainUnfolds(g: Graph, executed: seq<string>, answers: seq<Answer>, steps: nat, now: int)
    requires Structured(g.nodes) && steps < |answers|
    ensures !SomethingToClaim(g) ==> Drained(g, answers[steps..], now) == g && Executed(g, answers[steps..], now) == []
    ensures SomethingToClaim(g) ==>
      var g' := Round(g, answers[steps], now);
      && Drained(g, answers[steps..], now) == Drained(g', answers[steps + 1..], now)
      && executed + Executed(g, answers[steps..], now)
         == executed + [g.nodes[ToClaim(g)].def.key] + Executed(g', answers[steps + 1..], now)
  {
    ExecutedUnfolds(g, answers[steps..], now);
    if SomethingToClaim(g) {
      assert answers[steps..][1..] == answers[steps + 1..] && answers[steps..][0] == answers[steps];
      Associative(
        executed, [g.nodes[ToClaim(g)].def.key], Executed(Round(g, answers[steps], now), answers[steps + 1..], now));
    }
  }

  lemma NothingLeftToDrain(g: Graph, answers: seq<Answer>, now: int)
    requires Structured(g.nodes)
    ensures answers == [] ==> Drained(g, answers, now) == g && Executed(g, answers, now) == []
  {
  }

  lemma Associative<T>(a: seq<T>, b: seq<T>, c: seq<T>)
    ensures a + (b + c) == a + b + c
  {
  }

  // Work left over at the end of a run is reported as running into the ceiling, unless
  // the graph was stuck before the run.
  lemma {:induction false} UnexhaustedIsSettled(g: Graph, answers: seq<Answer>, now: int)
    requires Unheld(g) && |Executed(g, answers, now)| < |answers|
    ensures Unfinished(Drained(g, answers, now).nodes) <==> Deadlocked(g.nodes)
    decreases |answers|
  {
    hide Structured, Derive, Idle, Round, ToClaim, SomethingToClaim, Executed;
    ExecutedUnfolds(g, answers, now);
    ClaimsWhileProgress(g);
    if SomethingToClaim(g) {
      RoundKeepsUnheld(g, answers[0], now);
      UnexhaustedIsSettled(Round(g, answers[0], now), answers[1..], now);
    }
  }

  // What one turn of a drain does: of the nodes that may run it takes the one stored
  // first, which then has succeeded with the answer's output, or is put back or has failed
  // as the answer and its attempts say, one attempt more; and there is no turn only where
  // the graph is closed or no node may run.
  lemma {:induction false} RoundSays(g: Graph, a: Answer, now: int)
    requires Structured(g.nodes)
    ensures SomethingToClaim(g) <==> g.status in {GraphPending, GraphRunning} && exists i: nat :: MayRun(g.nodes, i)
    ensures SomethingToClaim(g) ==>
      var i, ns, ns' := ToClaim(g), g.nodes, Round(g, a, now).nodes;
      && MayRun(ns, i) && (forall j | MayRun(ns, j) && j != i :: ns[i].def.order < ns[j].def.order)
      && |ns'| == |ns| && ns'[i].attempt == ns[i].attempt + 1
      && (match a
          case Succeeds(output) => ns'[i].status == Succeeded && ns'[i].output == output
          case Fails(retryable) =>
            ns'[i].status == if retryable && ns[i].attempt + 1 < ns[i].maxAttempts then Ready else Failed)
  {
    hide Structured, MayRun, Claimable, TextLess, Round, SomethingToClaim, ToClaim;
    ClaimsWhereAny(g);
    if SomethingToClaim(g) {
      var i := ToClaim(g);
      TakesFirst(g, i);
      RoundInSteps(g, i, a, now);
      RoundMakes(g, i, a, now);
    }
  }

  lemma ClaimsWhereAny(g: Graph)
    requires Structured(g.nodes)
    ensures SomethingToClaim(g) <==> g.status in {GraphPending, GraphRunning} && exists i: nat :: MayRun(g.nodes, i)
  {
    hide Structured, MayRun, UnblockedAt, TextLess;
    forall i ensures MayRun(g.nodes, i) <==> Claimable(g.nodes, i) { MayRunIsClaimable(g.nodes, i); }
    if i: nat :| Claimable(g.nodes, i) {
      KeysDiffer(g.nodes);
      FirstExists(g.nodes, None, i);
    }
  }

  lemma TakesFirst(g: Graph, i: nat)
    requires Structured(g.nodes) && SomethingToClaim(g) && ToClaim(g) == i
    ensures MayRun(g.nodes, i) && forall j | MayRun(g.nodes, j) && j != i :: g.nodes[i].def.order < g.nodes[j].def.order
  {
    hide MayRun, UnblockedAt, TextLess, WellShaped, Acyclic, Trim;
    forall j ensures MayRun(g.nodes, j) <==> Claimable(g.nodes, j) { MayRunIsClaimable(g.nodes, j); }
  }

  lemma KeysDiffer(ns: seq<Node>)
    requires Structured(ns)
    ensures DistinctKeys(Defs(ns))
  {
  }

  lemma {:induction false} RoundMakes(g: Graph, i: nat, a: Answer, now: int)
    requires Structured(g.nodes) && Enabled(g, ClaimMove(i, now))
    requires Enabled(Next(g, ClaimMove(i, now)), Resolution(i, a))
    ensures var ns, ns' := g.nodes, Next(Next(g, ClaimMove(i, now)), Resolution(i, a)).nodes;
      && i < |ns| == |ns'| && ns'[i].attempt == ns[i].attempt + 1
      && (match a
          case Succeeds(output) => ns'[i].status == Succeeded && ns'[i].output == output
          case Fails(retryable) =>
            ns'[i].status == if retryable && ns[i].attempt + 1 < ns[i].maxAttempts then Ready else Failed)
  {
    hide Structured, UnblockedAt, Follows;
    var m, g1 := ClaimMove(i, now), Next(g, ClaimMove(i, now));
    MoveCounts(g, m, i);
    MoveCounts(g1, Resolution(i, a), i);
    NextLength(g, m);
    NextLength(g1, Resolution(i, a));
    NextFollows(g1, Resolution(i, a), i);
    if a.Succeeds? || !WillRetry(g1.nodes[i], a.retryable) {
      ResolvedStays(Written(g1, Resolution(i, a))[i], Next(g1, Resolution(i, a)).nodes[i]);
    }
  }

  lemma ResolvedStays(n: Node, n': Node)
    requires Follows(n, n') && Terminal(n.status)
    ensures n' == n
  {
  }

  // What is reported of a run: what the graph has come to, and for one still open whether
  // the ceiling was hit.
  lemma RunStatusSays(g: Graph, exhausted: bool)
    requires g.nodes != [] && g.status == Derive(g.nodes)
    ensures var s, settled := StatusOfRun(g.status, exhausted), {Succeeded, Failed, Skipped, Cancelled, TimedOut};
      && (s == RunCompleted <==> AllIn(g.nodes, {Succeeded}) && !OwesSome(g.nodes))
      && (s == RunCancelled <==>
            && AllIn(g.nodes, settled) && !OwesSome(g.nodes)
            && exists i :: 0 <= i < |g.nodes| && g.nodes[i].status == Cancelled)
      && (s == RunFailed <==>
            AllIn(g.nodes, settled - {Cancelled}) && !OwesSome(g.nodes) && !AllIn(g.nodes, {Succeeded}))
      && (s == StepLimitReached <==> exhausted && (OwesSome(g.nodes) || !AllIn(g.nodes, settled)))
      && (s == RunIncomplete <==> !exhausted && (OwesSome(g.nodes) || !AllIn(g.nodes, settled)))
  {
    hide Derive, OwesSome;
    StatusSays(g);
    assert {Succeeded, Failed, Skipped, Cancelled, TimedOut} - {Cancelled} == {Succeeded, Failed, Skipped, TimedOut};
  }

  // So a drain that stops before its ceiling is reported as incomplete only where a
  // success still owes the graph more work, or the graph was stuck to begin with.
  lemma {:induction false} IncompleteOwes(g: Graph, answers: seq<Answer>, now: int)
    requires Unheld(g) && |Executed(g, answers, now)| < |answers| && !Deadlocked(g.nodes)
    ensures StatusOfRun(Drained(g, answers, now).status, false) == RunIncomplete
      <==> OwesSome(Drained(g, answers, now).nodes)
  {
    hide Executed, Drained, Deadlocked, OwesSome, Derive;
    UnexhaustedIsSettled(g, answers, now);
    DrainedUnheld(g, answers, now);
    var d := Drained(g, answers, now);
    RunStatusSays(d, false);
    SettledIsAllIn(d.nodes);
  }

  lemma SettledIsAllIn(ns: seq<Node>)
    ensures !Unfinished(ns) ==> AllIn(ns, {Succeeded, Failed, Skipped, Cancelled, TimedOut})
  {
  }

  lemma {:induction false} DrainedUnheld(g: Graph, answers: seq<Answer>, now: int)
    requires Unheld(g)
    ensures Drained(g, answers, now).nodes != []
      && Drained(g, answers, now).status == Derive(Drained(g, answers, now).nodes)
    decreases |answers|
  {
    hide Derive, Idle, Round, ToClaim, SomethingToClaim;
    if answers != [] && SomethingToClaim(g) {
      RoundKeepsUnheld(g, answers[0], now);
      DrainedUnheld(Round(g, answers[0], now), answers[1..], now);
    }
  }

  // `executed` lists the claimed nodes' keys; running into the ceiling is reported.
  method DrainGraph(row: GraphRow, answers: seq<Answer>, now: int)
      returns (executed: seq<string>, exhausted: bool, status: RunStatus)
    requires row.Sturdy()
    modifies row, row.rows
    ensures row.Sturdy() && row.rows == old(row.rows)
    ensures row.Value() == Drained(old(row.Value()), answers, now)
    ensures executed == Executed(old(row.Value()), answers, now)
    ensures exhausted <==> |executed| == |answers| > 0
    ensures status == StatusOfRun(row.status, exhausted)
  {
    hide Round, ToClaim, SomethingToClaim, Structured, Drained, Executed;
    executed, exhausted := [], false;
    var steps := 0;
    assert answers[0..] == answers;
    while steps < |answers|
      invariant steps <= |answers| && row.Sturdy() && row.rows == old(row.rows)
      invariant Drained(old(row.Value()), answers, now) == Drained(row.Value(), answers[steps..], now)
      invariant Executed(old(row.Value()), answers, now) == executed + Executed(row.Value(), answers[steps..], now)
      invariant |executed| == steps && (exhausted <==> steps == |answers| > 0)
    {
      DrainUnfolds(row.Value(), executed, answers, steps, now);
      var key := ExecuteNextNode(row, answers[steps], now);
      steps := steps + 1;
      if key.None? { break; }
      executed := executed + [key.value];
      exhausted := steps == |answers|;
    }
    NothingLeftToDrain(row.Value(), answers[steps..], now);
    status := StatusOfRun(row.status, exhausted);
  }
}
