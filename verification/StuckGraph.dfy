// What becomes of the graph that got stuck (StuckRun): a node of it ran and is skipped,
// draining it does nothing, and expanding it rewrites a node it had (src/jev.js, lines
// 201-309; src/jev-executor.js, lines 328-387).

module StuckGraph {
  import opened Basics
  import opened Dag
  import opened GraphShape
  import opened Nodes
  import opened Readiness
  import opened Scheduler
  import opened Invariants
  import opened GraphRuns
  import opened Deadlock
  import opened Drain
  import opened StuckRun
  import opened ModelAccept
  import ModelGrowth

  // ---- A node that ran and is skipped -------------------------------------

  lemma {:induction false} ClaimedOnce(moves: seq<Move>, m: Move)
    requires m in moves && m.Claim?
    ensures ClaimsOf(moves, m.i) > 0
  {
    if moves[0] != m { ClaimedOnce(moves[1..], m); }
  }

  lemma {:induction false} RanAndIsSkipped(id: nat, task: string, tenant: string, now: int)
    returns (moves: seq<Move>)
    ensures Creatable(CHAIN) && CanRun(Initial(id, task, tenant, now, CHAIN), moves)
    ensures var g := After(Initial(id, task, tenant, now, CHAIN), moves);
      |g.nodes| == 4 && g.nodes[1].status.Skipped? && g.nodes[1].attempt > 0
  {
    hide Structured, Initial, CanRun, After, ChainLinked, Derive, Creatable;
    moves := RunsIntoIt(id, task, tenant, now);
    var start := Initial(id, task, tenant, now, CHAIN);
    ClaimedOnce(moves, ClaimMove(1, 0));
    CreatedHasFour(id, task, tenant, now);
    RunCounts(start, moves, 1);
  }

  lemma {:induction false} CreatedHasFour(id: nat, task: string, tenant: string, now: int)
    requires Creatable(CHAIN)
    ensures OnChain(Initial(id, task, tenant, now, CHAIN).nodes)
  {
    hide Initial, Creatable;
    CreatedIsFresh(id, task, tenant, now, CHAIN);
    FreshOnChain(Initial(id, task, tenant, now, CHAIN).nodes);
  }

  // ---- Expanding it -------------------------------------------------------

  // The producer's expansion: one node that waits for it.
  const MORE: seq<Request> := [StepRequest("d", ["p"], false)]

  lemma MoreKeys()
    ensures Tight("d") && "d" != "a" && "d" != "b" && "d" != "c" && "d" != "p"
    ensures MORE[0].key == "d" && MORE[0].deps == ["p"]
  {
    assert "d"[0] != "a"[0] && "d"[0] != "b"[0] && "d"[0] != "c"[0] && "d"[0] != "p"[0];
  }

  lemma {:induction false} OneMoreOnChain(ns: seq<Node>)
    requires OnChain(ns)
    ensures ModelGrowth.OneMore(Defs(ns), Defs(Union(ns, MORE, 0)), "d", "p")
  {
    hide Trim;
    MoreKeys();
    PlainKeys();
    TightIsTrimmed("d");
    UnionDefs(ns, MORE, 0);
    assert Defs(ns)[3].key == "p";
  }

  lemma {:induction false} MayExpand(g: Graph, s: seq<Status>, a: nat, l: nat, firstId: nat)
    requires Looks(g, s, a, l) && OnChain(g.nodes) && s[3].Succeeded?
    ensures Enabled(g, Expand(MORE, firstId))
  {
    hide ChainLinked, OnChain, Acyclic, WellShaped, ModelGrowth.OneMore, Union, Expandable, Tight;
    StillRunning(g, s, a, l);
    MoreKeys();
    OneMoreOnChain(g.nodes);
    ModelGrowth.OneMoreIsShaped(Defs(g.nodes), Defs(Union(g.nodes, MORE, 0)), "d", "p");
    AcceptedWhenShaped(g, MORE);
  }

  lemma StillRunning(g: Graph, s: seq<Status>, a: nat, l: nat)
    requires Looks(g, s, a, l) && s[3].Succeeded?
    ensures g.status.GraphRunning?
  {
    hide Structured;
    assert AwaitsExpansion(g.nodes, 3);
  }

  // Expansion promises to leave existing nodes alone. Here it skips the one that was put
  // back for a retry.
  lemma {:induction false} ExpansionRewrites(g: Graph, a: nat, l: nat, firstId: nat)
    requires Looks(g, S10, a, l) && OnChain(g.nodes)
    ensures Enabled(g, Expand(MORE, firstId)) && g.nodes[2].status.Ready?
    ensures |Next(g, Expand(MORE, firstId)).nodes| > 2 && Next(g, Expand(MORE, firstId)).nodes[2].status.Skipped?
  {
    hide Structured, OnChain, Union, Next, Expandable;
    MayExpand(g, S10, a, l, firstId);
    StillDoomed(g, Expand(MORE, firstId));
    NextPropagationSkips(g, Expand(MORE, firstId), 2);
  }

  lemma StillDoomed(g: Graph, m: Move)
    requires ChainLinked(g.nodes) && Show(g.nodes, S10) && m.Expand? && Enabled(g, m)
    ensures Propagates(g, m) && |Written(g, m)| > 2 && Written(g, m)[2].status.Ready? && DoomedAt(Written(g, m), 2)
  {
    hide Expandable, AcceptableShape;
    assert Lists(g.nodes, 2, 1);
    assert Lists(Written(g, m), 2, 1);
  }

  lemma {:induction false} ExpansionCanRewrite(id: nat, task: string, tenant: string, now: int, firstId: nat)
    returns (moves: seq<Move>)
    ensures Creatable(CHAIN) && CanRun(Initial(id, task, tenant, now, CHAIN), moves)
    ensures var g, m := After(Initial(id, task, tenant, now, CHAIN), moves), Expand(MORE, firstId);
      && Enabled(g, m) && |g.nodes| == 4 && |Next(g, m).nodes| > 2
      && g.nodes[2].status.Ready? && Next(g, m).nodes[2].status.Skipped?
  {
    hide Structured, Initial, CanRun, After, ChainLinked, Derive, Creatable, OnChain, Next, Expandable;
    moves := RunsIntoIt(id, task, tenant, now);
    var start := Initial(id, task, tenant, now, CHAIN);
    StillOnChain(id, task, tenant, now, moves);
    ExpansionRewrites(After(start, moves), 2, 3, firstId);
  }

  lemma {:induction false} StillOnChain(id: nat, task: string, tenant: string, now: int, moves: seq<Move>)
    requires Creatable(CHAIN) && CanRun(Initial(id, task, tenant, now, CHAIN), moves)
    requires |After(Initial(id, task, tenant, now, CHAIN), moves).nodes| == 4
    ensures OnChain(After(Initial(id, task, tenant, now, CHAIN), moves).nodes)
  {
    hide Structured, Initial, CanRun, After, Creatable, PreparedDef;
    CreatedHasFour(id, task, tenant, now);
    var start := Initial(id, task, tenant, now, CHAIN);
    forall i: nat | i < 4 ensures After(start, moves).nodes[i].def == start.nodes[i].def { DefStays(start, moves, i); }
  }

  lemma DefStays(g: Graph, moves: seq<Move>, i: nat)
    requires Structured(g.nodes) && CanRun(g, moves) && i < |g.nodes|
    ensures i < |After(g, moves).nodes| && After(g, moves).nodes[i].def == g.nodes[i].def
  {
    hide Structured, CanRun, After, ClaimsOf, ReopensOf;
    RunCounts(g, moves, i);
  }

  // ---- Draining it --------------------------------------------------------

  lemma {:induction false} NothingToDrain(g: Graph, a: nat, l: nat, answers: seq<Answer>, at: int)
    requires Looks(g, S10, a, l)
    ensures Executed(g, answers, at) == [] && Drained(g, answers, at) == g && Unfinished(g.nodes)
  {
    hide Structured, ChainLinked, Derive;
    EndsStuck(g, a, l);
    forall i | 0 <= i < |g.nodes| ensures !g.nodes[i].status.Running? { assert g.nodes[i].status == S10[i]; }
    ClaimsWhileProgress(g);
  }

  // A drain of it, however high its ceiling, claims nothing and leaves work behind.
  lemma {:induction false} DrainLeavesWork(
    id: nat, task: string, tenant: string, now: int, answers: seq<Answer>, at: int) returns (moves: seq<Move>)
    ensures Creatable(CHAIN) && CanRun(Initial(id, task, tenant, now, CHAIN), moves)
    ensures var g := After(Initial(id, task, tenant, now, CHAIN), moves);
      Executed(g, answers, at) == [] && Unfinished(Drained(g, answers, at).nodes)
  {
    hide Structured, Initial, CanRun, After, Looks, Creatable, Unfinished;
    moves := RunsIntoIt(id, task, tenant, now);
    NothingToDrain(After(Initial(id, task, tenant, now, CHAIN), moves), 2, 3, answers, at);
  }
}
