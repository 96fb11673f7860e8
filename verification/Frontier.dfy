// What a node that waits on a frontier can rely on when it is claimed: the reviews
// and replans of src/jev-model-graph.js list only the sinks of the work they judge.

module Frontier {
  import opened Basics
  import opened Dag
  import opened Nodes
  import opened Readiness
  import opened Scheduler
  import opened Invariants
  import opened GraphRuns

  ghost predicate ListedBy(ns: seq<Node>, s: set<nat>, j: int) {
    exists k :: k in s && Lists(ns, k, j)
  }

  // Node r lists every member of s that no member of s lists.
  ghost predicate WaitsOnSinks(ns: seq<Node>, r: int, s: set<nat>) {
    && (forall j | j in s :: j < |ns|)
    && (forall j | j in s :: Lists(ns, r, j) || ListedBy(ns, s, j))
  }

  // Claimed at some time, or about to be.
  ghost predicate Started(ns: seq<Node>, r: int) {
    0 <= r < |ns| && (ns[r].attempt > 0 || Claimable(ns, r))
  }

  // Ran to an end of its own.
  predicate RanToAnEnd(n: Node) {
    n.attempt > 0 && (n.status.Succeeded? || n.status.Failed? || n.status.TimedOut?)
  }

  // Every member of s ran to an end, and what a when-succeeded member lists succeeded.
  ghost predicate HasRun(ns: seq<Node>, s: set<nat>) {
    && (forall j | j in s :: j < |ns| && RanToAnEnd(ns[j]))
    && (forall j, k | k in s && Lists(ns, k, j) ::
          RanToAnEnd(ns[j]) && (ns[k].def.mode.WhenSucceeded? ==> ns[j].status.Succeeded?))
  }

  lemma ListedHasRun(ns: seq<Node>, h: History, i: int, j: int)
    requires NodesOk(ns) && Grounded(ns, h) && !h.reopened && Started(ns, i) && Lists(ns, i, j)
    ensures RanToAnEnd(ns[j])
    ensures ns[i].def.mode.WhenSucceeded? ==> ns[j].status.Succeeded?
  {
    assert NodeOk(ns[j]);
  }

  // From a set each member of which another member lists, one can walk as long as
  // one likes, ending anywhere.
  lemma {:induction false} LongWalkTo(ns: seq<Node>, s: set<nat>, u: nat, n: nat) returns (p: seq<nat>)
    requires u in s && u < |ns|
    requires forall j {:trigger ListedBy(ns, s, j)} | j in s :: ListedBy(ns, s, j)
    ensures |p| == n + 1 && p[n] == u && Walk(Defs(ns), p)
    ensures forall t | 0 <= t < |p| :: p[t] in s
    decreases n
  {
    if n == 0 {
      p := [u];
    } else {
      assert ListedBy(ns, s, u);
      var k :| k in s && Lists(ns, k, u);
      var rest := LongWalkTo(ns, s, k, n - 1);
      p := rest + [u];
      WalkOn(ns, rest, u);
    }
  }

  lemma WalkOn(ns: seq<Node>, p: seq<nat>, u: nat)
    requires p != [] && Walk(Defs(ns), p) && Lists(ns, p[|p| - 1], u)
    ensures Walk(Defs(ns), p + [u])
  {
    var q := p + [u];
    forall t | 0 <= t < |q| - 1 ensures DepOf(Defs(ns), q[t], q[t + 1]) {
      if t < |p| - 1 { assert DepOf(Defs(ns), p[t], p[t + 1]); }
    }
  }

  lemma {:induction false} NoneListsAll(ns: seq<Node>, s: set<nat>)
    requires Acyclic(Defs(ns)) && (forall j | j in s :: j < |ns|)
    requires forall j {:trigger ListedBy(ns, s, j)} | j in s :: ListedBy(ns, s, j)
    ensures s == {}
  {
    if u :| u in s {
      var p := LongWalkTo(ns, s, u, |s|);
      var a, b := Pigeonhole(p, s);
      var loop := p[a..b + 1];
      assert Walk(Defs(ns), loop) by {
        forall t | 0 <= t < |loop| - 1 ensures DepOf(Defs(ns), loop[t], loop[t + 1]) {
          assert DepOf(Defs(ns), p[a + t], p[a + t + 1]);
        }
      }
    }
  }

  lemma IdleIsListed(ns: seq<Node>, h: History, r: nat, s: set<nat>, j: nat) returns (k: nat)
    requires NodesOk(ns) && Grounded(ns, h) && !h.reopened
    requires Started(ns, r) && WaitsOnSinks(ns, r, s) && j in s && ns[j].attempt == 0
    ensures k in s && Lists(ns, k, j) && ns[k].attempt == 0
  {
    assert !Lists(ns, r, j) by { if Lists(ns, r, j) { ListedHasRun(ns, h, r, j); } }
    assert ListedBy(ns, s, j);
    k :| k in s && Lists(ns, k, j);
    if ns[k].attempt > 0 { ListedHasRun(ns, h, k, j); }
  }

  lemma {:induction false} NoneIsIdle(ns: seq<Node>, h: History, r: nat, s: set<nat>)
    requires Acyclic(Defs(ns)) && NodesOk(ns) && Grounded(ns, h) && !h.reopened
    requires Started(ns, r) && WaitsOnSinks(ns, r, s)
    ensures forall j | j in s :: ns[j].attempt > 0
  {
    hide Acyclic, NodesOk, Grounded, Started;
    var idle := set j | j in s && ns[j].attempt == 0;
    forall j {:trigger ListedBy(ns, idle, j)} | j in idle ensures ListedBy(ns, idle, j) {
      var k := IdleIsListed(ns, h, r, s, j);
      assert k in idle;
    }
    NoneListsAll(ns, idle);
    forall j | j in s ensures ns[j].attempt > 0 { assert j !in idle; }
  }

  // Without reopening, when such a node is claimed every member of the set has run
  // to an end, and every node some when-succeeded member lists has succeeded.
  lemma {:induction false} FrontierHasRun(g: Graph, h: History, r: nat, s: set<nat>)
    requires Live(g, h) && !h.reopened && Started(g.nodes, r) && WaitsOnSinks(g.nodes, r, s)
    ensures HasRun(g.nodes, s)
  {
    NoneIsIdle(g.nodes, h, r, s);
    RanOnEnded(g.nodes, h, r, s);
  }

  lemma {:induction false} RanOnEnded(ns: seq<Node>, h: History, r: nat, s: set<nat>)
    requires NodesOk(ns) && Grounded(ns, h) && !h.reopened && Started(ns, r) && WaitsOnSinks(ns, r, s)
    requires forall j | j in s :: ns[j].attempt > 0
    ensures HasRun(ns, s)
  {
    forall j, k | k in s && Lists(ns, k, j)
      ensures RanToAnEnd(ns[j]) && (ns[k].def.mode.WhenSucceeded? ==> ns[j].status.Succeeded?)
    {
      ListedHasRun(ns, h, k, j);
    }
    forall j | j in s ensures RanToAnEnd(ns[j]) {
      if Lists(ns, r, j) {
        ListedHasRun(ns, h, r, j);
      } else {
        var k :| k in s && Lists(ns, k, j);
        ListedHasRun(ns, h, k, j);
      }
    }
  }
}
