// Attempts as a balance: whatever the workers and the callers do, every claim spends one
// of the attempts there were, or that a reopening or an expansion added (src/jev.js, lines
// 311-384, 420-424 and 546-586).

module Attempts {
  import opened Basics
  import opened Dag
  import opened GraphShape
  import opened Nodes
  import opened Readiness
  import opened Scheduler
  import opened Invariants
  import opened GraphRuns
  import opened Deadlock
  import opened Drain

  function Left(n: Node): int {
    n.maxAttempts - n.attempt
  }

  // The attempts the added nodes come with.
  function Asked(rs: seq<Request>): nat {
    if rs == [] then 0 else Max(1, rs[0].maxAttempts) + Asked(rs[1..])
  }

  function Allowance(m: Move): nat {
    match m
    case Expand(rs, _) => Asked(rs)
    case Reopen(_) => 1
    case _ => 0
  }

  function Allowances(moves: seq<Move>): nat {
    if moves == [] then 0 else Allowance(moves[0]) + Allowances(moves[1..])
  }

  function AllClaims(moves: seq<Move>): nat {
    if moves == [] then 0 else (if moves[0].Claim? then 1 else 0) + AllClaims(moves[1..])
  }

  lemma {:induction false} LeftOfLonger(ns: seq<Node>, ms: seq<Node>, i: int, d: int)
    requires |ns| <= |ms| && i < |ns|
    requires forall x: nat | x < |ns| :: Left(ms[x]) == Left(ns[x]) + (if x == i then d else 0)
    ensures AttemptsLeft(ms) == AttemptsLeft(ns) + (if i >= 0 then d else 0) + AttemptsLeft(ms[|ns|..])
  {
    if ns == [] {
      assert ms[|ns|..] == ms;
    } else {
      LeftOfLonger(ns[1..], ms[1..], i - 1, d);
      assert ms[1..][|ns| - 1..] == ms[|ns|..];
    }
  }

  lemma {:induction false} LeftOfNew(ns: seq<Node>, rs: seq<Request>)
    requires |ns| == |rs| && forall x: nat | x < |rs| :: Left(ns[x]) == Max(1, rs[x].maxAttempts)
    ensures AttemptsLeft(ns) == Asked(rs)
  {
    if rs != [] { LeftOfNew(ns[1..], rs[1..]); }
  }

  lemma WrittenAsAsked(g: Graph, m: Move, x: nat)
    requires Enabled(g, m) && m.Expand? && x < |m.requests|
    ensures |Written(g, m)| == |g.nodes| + |m.requests|
    ensures Left(Written(g, m)[|g.nodes| + x]) == Max(1, m.requests[x].maxAttempts)
  {
  }

  lemma {:induction false} AddedNode(g: Graph, m: Move, x: nat)
    requires Structured(g.nodes) && Enabled(g, m) && m.Expand? && x < |m.requests|
    ensures |Next(g, m).nodes| == |g.nodes| + |m.requests|
    ensures Left(Next(g, m).nodes[|g.nodes| + x]) == Max(1, m.requests[x].maxAttempts)
  {
    hide Next, Written, Structured, Enabled;
    WrittenAsAsked(g, m, x);
    NextFollows(g, m, |g.nodes| + x);
  }

  lemma {:induction false} AddedAsAsked(g: Graph, m: Move)
    requires Structured(g.nodes) && Enabled(g, m) && m.Expand?
    ensures |Next(g, m).nodes| >= |g.nodes|
    ensures AttemptsLeft(Next(g, m).nodes[|g.nodes|..]) == Asked(m.requests)
  {
    assert |m.requests| > 0;
    hide Next, Written, Structured, Enabled, Left;
    AddedNode(g, m, 0);
    var added := Next(g, m).nodes[|g.nodes|..];
    forall x: nat | x < |m.requests| ensures Left(added[x]) == Max(1, m.requests[x].maxAttempts) {
      AddedNode(g, m, x);
    }
    LeftOfNew(added, m.requests);
  }

  // One move: a claim spends an attempt, a reopening adds one, an expansion adds its
  // nodes' own; nothing else counts.
  lemma {:induction false} MoveBalances(g: Graph, m: Move)
    requires Structured(g.nodes) && Enabled(g, m)
    ensures AttemptsLeft(Next(g, m).nodes) + (if m.Claim? then 1 else 0) == AttemptsLeft(g.nodes) + Allowance(m)
  {
    hide NewNode, Settle, ClaimedNode, ReopenedNode, UnblockedAt;
    NextLength(g, m);
    var d := if m.Claim? then -1 else if m.Reopen? then 1 else 0;
    forall x: nat | x < |g.nodes|
      ensures Left(Next(g, m).nodes[x]) == Left(g.nodes[x]) + (if (m.Claim? || m.Reopen?) && x == m.i then d else 0)
    {
      MoveCounts(g, m, x);
    }
    if m.Expand? { AddedAsAsked(g, m); }
    assert m.Claim? || m.Reopen? ==> m.i < |g.nodes|;
    hide Next, Structured, Enabled, Written;
    LeftOfLonger(g.nodes, Next(g, m).nodes, if m.Claim? || m.Reopen? then m.i else -1, d);
  }

  // Over any run, by any number of workers.
  lemma {:induction false} ClaimsBalance(g: Graph, moves: seq<Move>)
    requires Structured(g.nodes) && CanRun(g, moves)
    ensures AllClaims(moves) + AttemptsLeft(After(g, moves).nodes) == AttemptsLeft(g.nodes) + Allowances(moves)
    decreases |moves|
  {
    hide Structured, Next, AttemptsLeft;
    if moves != [] {
      MoveBalances(g, moves[0]);
      ClaimsBalance(Next(g, moves[0]), moves[1..]);
    }
  }

  lemma {:induction false} ClaimsWithinAllowance(g: Graph, moves: seq<Move>)
    requires Structured(g.nodes) && NodesOk(g.nodes) && CanRun(g, moves)
    ensures AllClaims(moves) <= AttemptsLeft(g.nodes) + Allowances(moves)
  {
    hide Structured, CanRun, After, AttemptsLeft, NodesOk;
    ClaimsBalance(g, moves);
    RunKeepsNodesOk(g, moves);
    AttemptsLeftCovers(After(g, moves).nodes);
  }

  // However the workers interleave: where nothing runs and nothing can be claimed,
  // everything is settled.
  lemma {:induction false} StoppedIsSettled(g: Graph, moves: seq<Move>)
    requires Quiet(g) && CanRun(g, moves) && NoneRetriesDoomed(g, moves)
    ensures !CanProgress(After(g, moves).nodes) <==>
      forall i | 0 <= i < |After(g, moves).nodes| :: Terminal(After(g, moves).nodes[i].status)
  {
    assert Structured(g.nodes);
    hide CanRun, After, Next, Structured, NoneRetriesDoomed, CanProgress;
    RunKeepsQuiet(g, moves);
    NoDeadlock(After(g, moves));
  }
}
