// The order in which nodes succeed, over any run of a graph with any number of
// workers: an accepted completion finds every when-succeeded dependency completed.

module Completions {
  import opened Basics
  import opened Dag
  import opened Nodes
  import opened Readiness
  import opened Scheduler
  import opened Invariants
  import opened GraphRuns
  import opened GraphShape
  import opened Commuting

  // The nodes at positions base, ..., base + n - 1 completed by a run, in order.
  function Succeeding(moves: seq<Move>, base: nat, n: nat): seq<nat> {
    if moves == [] then []
    else (if Completes(moves[0], base, n) then [moves[0].i - base] else []) + Succeeding(moves[1..], base, n)
  }

  predicate Completes(m: Move, base: nat, n: nat) {
    m.Complete? && base <= m.i < base + n
  }

  ghost predicate Won(g: Graph, base: nat, x: int) {
    0 <= x && base + x < |g.nodes| && g.nodes[base + x].status.Succeeded?
  }

  lemma {:induction false} SuccessNeedsCompletion(g: Graph, m: Move, x: nat)
    requires Structured(g.nodes) && Enabled(g, m) && x < |g.nodes|
    ensures x < |Next(g, m).nodes|
    ensures Next(g, m).nodes[x].status.Succeeded? <==> g.nodes[x].status.Succeeded? || (m.Complete? && m.i == x)
  {
    WrittenSuccess(g, m, x);
    NextFollows(g, m, x);
  }

  lemma WrittenSuccess(g: Graph, m: Move, x: nat)
    requires Enabled(g, m) && x < |g.nodes|
    ensures x < |Written(g, m)|
    ensures Written(g, m)[x].status.Succeeded? <==> g.nodes[x].status.Succeeded? || (m.Complete? && m.i == x)
  {
  }

  // What a running when-succeeded node lists has succeeded. Every move keeps this:
  // a claim looks at the dependencies again, and a success is final.
  ghost predicate RunsOnSuccess(ns: seq<Node>) {
    forall i, j | Lists(ns, i, j) && ns[i].status.Running? && ns[i].def.mode.WhenSucceeded? :: ns[j].status.Succeeded?
  }

  lemma {:induction false} MoveKeepsRunsOnSuccess(g: Graph, m: Move)
    requires Structured(g.nodes) && RunsOnSuccess(g.nodes) && Enabled(g, m)
    ensures RunsOnSuccess(Next(g, m).nodes)
  {
    var ns, ms := g.nodes, Next(g, m).nodes;
    NextLength(g, m);
    forall i: nat, j: nat | Lists(ms, i, j) && ms[i].status.Running? && ms[i].def.mode.WhenSucceeded?
      ensures ms[j].status.Succeeded?
    {
      RunningWasThere(g, m, i);
      MoveCounts(g, m, i);
      hide Next, Structured, RunsOnSuccess;
      ListedWasThere(g, m, i, j);
      ClaimedOnSuccess(g, m, i, j);
      SuccessIsFinal(g, m, j);
    }
  }

  lemma {:induction false} RunningWasThere(g: Graph, m: Move, i: nat)
    requires Structured(g.nodes) && Enabled(g, m) && i < |Next(g, m).nodes| && Next(g, m).nodes[i].status.Running?
    ensures i < |g.nodes| && (g.nodes[i].status.Running? || (m.Claim? && m.i == i))
  {
    NextLength(g, m);
    NextFollows(g, m, i);
    hide Next, Structured;
    WrittenRunning(g, m, i);
  }

  lemma WrittenRunning(g: Graph, m: Move, i: nat)
    requires Enabled(g, m) && i < |Written(g, m)| && Written(g, m)[i].status.Running?
    ensures i < |g.nodes| && (g.nodes[i].status.Running? || (m.Claim? && m.i == i))
  {
  }

  // An old node lists old nodes, and the same ones.
  lemma {:induction false} ListedWasThere(g: Graph, m: Move, i: nat, j: nat)
    requires Structured(g.nodes) && Enabled(g, m) && i < |g.nodes| && Lists(Next(g, m).nodes, i, j)
    ensures Lists(g.nodes, i, j)
  {
    var ms := Written(g, m);
    NextLength(g, m);
    NextKeepsDef(g, m, i);
    NextKeepsDef(g, m, j);
    assert Lists(ms, i, j);
    MoveKeepsStructure(g, m);
    hide Next, Acyclic, Settle;
    if m.Expand? {
      OldListsOld(g.nodes, m.requests, m.firstId, i, j);
    } else {
      WrittenNode(g, m, i);
      WrittenNode(g, m, j);
    }
  }

  lemma ClaimedOnSuccess(g: Graph, m: Move, i: nat, j: nat)
    requires RunsOnSuccess(g.nodes) && Enabled(g, m) && Lists(g.nodes, i, j) && g.nodes[i].def.mode.WhenSucceeded?
    requires g.nodes[i].status.Running? || (m.Claim? && m.i == i)
    ensures g.nodes[j].status.Succeeded?
  {
    if m.Claim? && m.i == i { assert UnblockedAt(g.nodes, i); }
  }

  // What Succeeding has to be, started from g.
  ghost predicate Orderly(g: Graph, base: nat, n: nat, out: seq<nat>) {
    && NoRepeats(out)
    && (forall a | 0 <= a < |out| :: out[a] < n && !Won(g, base, out[a]))
    && (forall a, j | 0 <= a < |out| && 0 <= j < n && Lists(g.nodes, base + out[a], base + j)
                      && g.nodes[base + out[a]].def.mode.WhenSucceeded? ::
          Won(g, base, j) || j in out[..a])
  }

  // One move, as far as the window is concerned.
  ghost predicate Advances(g: Graph, g': Graph, m: Move, base: nat, n: nat) {
    && base + n <= |g.nodes| <= |g'.nodes|
    && (forall x | 0 <= x < |g.nodes| :: g'.nodes[x].def == g.nodes[x].def)
    && (forall x | 0 <= x < n :: Won(g', base, x) <==> Won(g, base, x) || (Completes(m, base, n) && m.i - base == x))
    && (Completes(m, base, n) ==>
          && !Won(g, base, m.i - base)
          && forall j | 0 <= j < n && Lists(g.nodes, m.i, base + j) && g.nodes[m.i].def.mode.WhenSucceeded? ::
               Won(g, base, j))
  }

  lemma {:induction false} MoveOnNodes(g: Graph, m: Move)
    requires Structured(g.nodes) && Enabled(g, m)
    ensures |g.nodes| <= |Next(g, m).nodes|
    ensures forall x: nat | x < |g.nodes| ::
      && Next(g, m).nodes[x].def == g.nodes[x].def
      && (Next(g, m).nodes[x].status.Succeeded? <==> g.nodes[x].status.Succeeded? || (m.Complete? && m.i == x))
  {
    NextLength(g, m);
    forall x: nat | x < |g.nodes|
      ensures Next(g, m).nodes[x].def == g.nodes[x].def
      ensures Next(g, m).nodes[x].status.Succeeded? <==> g.nodes[x].status.Succeeded? || (m.Complete? && m.i == x)
    {
      SuccessNeedsCompletion(g, m, x);
      MoveCounts(g, m, x);
    }
  }

  lemma {:induction false} MoveAdvances(g: Graph, m: Move, base: nat, n: nat)
    requires Structured(g.nodes) && RunsOnSuccess(g.nodes) && Enabled(g, m) && base + n <= |g.nodes|
    ensures Advances(g, Next(g, m), m, base, n)
  {
    MoveOnNodes(g, m);
    if Completes(m, base, n) { CompletedDepsWon(g, m, base, n); }
  }

  lemma CompletedDepsWon(g: Graph, m: Move, base: nat, n: nat)
    requires RunsOnSuccess(g.nodes) && Enabled(g, m) && Completes(m, base, n) && base + n <= |g.nodes|
    ensures !Won(g, base, m.i - base)
    ensures forall j | 0 <= j < n && Lists(g.nodes, m.i, base + j) && g.nodes[m.i].def.mode.WhenSucceeded? ::
      Won(g, base, j)
  {
  }

  lemma {:induction false} SuccessesAreOrderly(g: Graph, moves: seq<Move>, base: nat, n: nat)
    requires Structured(g.nodes) && RunsOnSuccess(g.nodes) && CanRun(g, moves) && base + n <= |g.nodes|
    ensures Orderly(g, base, n, Succeeding(moves, base, n))
    ensures base + n <= |After(g, moves).nodes|
    ensures forall x | 0 <= x < n ::
      Won(After(g, moves), base, x) <==> Won(g, base, x) || x in Succeeding(moves, base, n)
    decreases |moves|
  {
    if moves != [] {
      MoveKeepsRunsOnSuccess(g, moves[0]);
      MoveAdvances(g, moves[0], base, n);
      SuccessesAreOrderly(Next(g, moves[0]), moves[1..], base, n);
      OrderlyAfter(g, Next(g, moves[0]), moves, base, n);
    }
  }

  lemma {:induction false} OrderlyAfter(g: Graph, g': Graph, moves: seq<Move>, base: nat, n: nat)
    requires moves != [] && Advances(g, g', moves[0], base, n)
    requires Orderly(g', base, n, Succeeding(moves[1..], base, n))
    ensures Orderly(g, base, n, Succeeding(moves, base, n))
    ensures forall x | 0 <= x < n ::
      (Won(g', base, x) || x in Succeeding(moves[1..], base, n))
        <==> (Won(g, base, x) || x in Succeeding(moves, base, n))
  {
    var rest := Succeeding(moves[1..], base, n);
    if Completes(moves[0], base, n) {
      OrderlyOneMore(g, g', base, n, moves[0].i - base, rest);
    } else {
      OrderlyBefore(g, g', base, n, rest);
      assert Succeeding(moves, base, n) == rest;
    }
  }

  lemma OrderlyBefore(g: Graph, g': Graph, base: nat, n: nat, out: seq<nat>)
    requires base + n <= |g.nodes| <= |g'.nodes| && Orderly(g', base, n, out)
    requires forall x: nat | x < |g.nodes| :: g'.nodes[x].def == g.nodes[x].def
    requires forall x | 0 <= x < n :: Won(g', base, x) <==> Won(g, base, x)
    ensures Orderly(g, base, n, out)
  {
    forall a, j | 0 <= a < |out| && 0 <= j < n && Lists(g.nodes, base + out[a], base + j)
                  && g.nodes[base + out[a]].def.mode.WhenSucceeded?
      ensures Won(g, base, j) || j in out[..a]
    {
      assert Lists(g'.nodes, base + out[a], base + j);
    }
  }

  lemma OrderlyOneMore(g: Graph, g': Graph, base: nat, n: nat, first: nat, rest: seq<nat>)
    requires base + n <= |g.nodes| <= |g'.nodes| && Orderly(g', base, n, rest) && first < n
    requires forall x: nat | x < |g.nodes| :: g'.nodes[x].def == g.nodes[x].def
    requires forall x | 0 <= x < n :: Won(g', base, x) <==> Won(g, base, x) || x == first
    requires !Won(g, base, first)
    requires forall j | 0 <= j < n && Lists(g.nodes, base + first, base + j)
                        && g.nodes[base + first].def.mode.WhenSucceeded? :: Won(g, base, j)
    ensures Orderly(g, base, n, [first] + rest)
  {
    hide Won, Lists;
    var out := [first] + rest;
    forall a | 0 < a < |out| ensures out[a] == rest[a - 1] && out[a] != first {}
    forall a, j | 0 <= a < |out| && 0 <= j < n && Lists(g.nodes, base + out[a], base + j)
                  && g.nodes[base + out[a]].def.mode.WhenSucceeded?
      ensures Won(g, base, j) || j in out[..a]
    {
      if a > 0 {
        SameDefsList(g.nodes, g'.nodes, base + rest[a - 1], base + j);
        PrefixWithFirst(first, rest, a);
      }
    }
  }

  lemma SameDefsList(ns: seq<Node>, ms: seq<Node>, i: nat, j: nat)
    requires i < |ns| <= |ms| && j < |ns| && forall x: nat | x < |ns| :: ms[x].def == ns[x].def
    ensures Lists(ms, i, j) <==> Lists(ns, i, j)
  {
  }

  lemma PrefixWithFirst(first: nat, rest: seq<nat>, a: nat)
    requires 0 < a <= |rest|
    ensures forall j :: j in ([first] + rest)[..a] <==> j == first || j in rest[..a - 1]
  {
    assert ([first] + rest)[..a] == [first] + rest[..a - 1];
  }

  // When all of them end up succeeded, the order is a permutation.
  lemma {:induction false} AllWonIsPermutation(out: seq<nat>, n: nat)
    requires NoRepeats(out) && (forall i | i in out :: i < n) && forall i | 0 <= i < n :: i in out
    ensures Permutes(out, n)
  {
    var s := ElementsOf(out);
    assert s == Upto(n);
  }
}
