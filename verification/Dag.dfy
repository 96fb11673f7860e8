// The dependency graph itself, without statuses: src/jev-domain.js, lines 78-211.
//
// A graph is a sequence of node definitions. Dependencies are written between
// keys; `DepOf(ds, i, j)` is the same relation between positions, "node i lists
// node j".

module Dag {
  import opened Basics

  datatype Mode = WhenSucceeded | WhenSettled

  // The part of a payload that scheduling or graph growth reads; the rest is opaque.
  datatype Payload = Payload(expandsGraph: bool, evidencePassed: Option<bool>)

  // What never changes about a node once it is stored.
  datatype Def = Def(
    key: string, kind: string, deps: seq<string>, mode: Mode, order: int, payload: Payload,
    resourceClass: string, timeoutMs: nat, budgetMinor: nat)

  predicate DepOf(ds: seq<Def>, i: nat, j: nat) {
    i < |ds| && j < |ds| && ds[j].key in ds[i].deps
  }

  ghost predicate HasKey(ds: seq<Def>, k: string) {
    exists i :: 0 <= i < |ds| && ds[i].key == k
  }

  ghost predicate DistinctKeys(ds: seq<Def>) {
    forall i, j | 0 <= i < j < |ds| :: ds[i].key != ds[j].key
  }

  ghost predicate KnownDeps(ds: seq<Def>) {
    forall i, k | 0 <= i < |ds| && k in ds[i].deps :: HasKey(ds, k)
  }

  predicate NoRepeats<T(==)>(s: seq<T>) {
    forall a, b | 0 <= a < b < |s| :: s[a] != s[b]
  }

  // Everything assertGraphShape asks of a list whose keys carry no stray
  // whitespace, except the absence of cycles.
  ghost predicate WellShaped(ds: seq<Def>) {
    && DistinctKeys(ds)
    && KnownDeps(ds)
    && (forall i | 0 <= i < |ds| :: NoRepeats(ds[i].deps) && ds[i].key !in ds[i].deps)
  }

  function IndexOf(ds: seq<Def>, k: string): (i: nat)
    requires HasKey(ds, k)
    ensures i < |ds| && ds[i].key == k
  {
    if ds[0].key == k then 0
    else
      assert HasKey(ds[1..], k) by {
        var i :| 0 <= i < |ds| && ds[i].key == k;
        assert ds[1..][i - 1].key == k;
      }
      1 + IndexOf(ds[1..], k)
  }

  lemma IndexOfKey(ds: seq<Def>, i: nat)
    requires DistinctKeys(ds) && i < |ds|
    ensures HasKey(ds, ds[i].key) && IndexOf(ds, ds[i].key) == i
  {
  }

  function DepsOf(ds: seq<Def>, k: string): seq<string>
    requires HasKey(ds, k)
  {
    ds[IndexOf(ds, k)].deps
  }

  // ---- Cycles -------------------------------------------------------------

  // Each element lists the next one as a dependency.
  ghost predicate Walk(ds: seq<Def>, p: seq<nat>) {
    && (forall t | 0 <= t < |p| :: p[t] < |ds|)
    && (forall t | 0 <= t < |p| - 1 :: DepOf(ds, p[t], p[t + 1]))
  }

  ghost predicate Acyclic(ds: seq<Def>) {
    forall p | Walk(ds, p) && |p| >= 2 :: p[0] != p[|p| - 1]
  }

  // Following dependencies from node u, one can come back to a node already
  // passed: u is on a cycle or downstream of one.
  ghost predicate MeetsCycle(ds: seq<Def>, u: nat) {
    exists p, t :: 0 <= t < |p| - 1 && Walk(ds, p) && p[0] == u && p[t] == p[|p| - 1]
  }

  lemma AcyclicIffNothingMeetsCycle(ds: seq<Def>)
    ensures Acyclic(ds) <==> forall u | 0 <= u < |ds| :: !MeetsCycle(ds, u)
  {
    if u :| 0 <= u < |ds| && MeetsCycle(ds, u) {
      var p, t :| 0 <= t < |p| - 1 && Walk(ds, p) && p[0] == u && p[t] == p[|p| - 1];
      var loop := p[t..];
      assert Walk(ds, loop) by {
        forall s | 0 <= s < |loop| - 1 ensures DepOf(ds, loop[s], loop[s + 1]) {
          assert DepOf(ds, p[t + s], p[t + s + 1]);
        }
      }
      assert loop[0] == loop[|loop| - 1];
    }
    if p :| Walk(ds, p) && |p| >= 2 && p[0] == p[|p| - 1] {
      assert MeetsCycle(ds, p[0]) by { assert 0 <= 0 < |p| - 1; }
    }
  }

  ghost predicate DependsInto(ds: seq<Def>, s: set<nat>, i: nat) {
    i < |ds| && exists j :: j in s && DepOf(ds, i, j)
  }

  ghost predicate Trapped(ds: seq<Def>, s: set<nat>) {
    forall i {:trigger DependsInto(ds, s, i)} | i in s :: DependsInto(ds, s, i)
  }

  // From a set every member of which has a dependency inside the set, one can
  // walk as long as one likes without leaving it.
  lemma {:induction false} LongWalk(ds: seq<Def>, s: set<nat>, u: nat, n: nat) returns (p: seq<nat>)
    requires u in s
    requires Trapped(ds, s)
    ensures |p| == n + 1 && p[0] == u && Walk(ds, p)
    ensures forall t | 0 <= t < |p| :: p[t] in s
    decreases n
  {
    assert DependsInto(ds, s, u);
    if n == 0 {
      p := [u];
    } else {
      var j :| j in s && DepOf(ds, u, j);
      var rest := LongWalk(ds, s, j, n - 1);
      p := [u] + rest;
    }
  }

  lemma {:induction false} ClosedSetMeetsCycle(ds: seq<Def>, s: set<nat>, u: nat)
    requires u in s
    requires Trapped(ds, s)
    ensures MeetsCycle(ds, u)
  {
    var p := LongWalk(ds, s, u, |s|);
    var a, b := Pigeonhole(p, s);
    var q := p[..b + 1];
    assert Walk(ds, q) by {
      forall t | 0 <= t < |q| - 1 ensures DepOf(ds, q[t], q[t + 1]) {
        assert DepOf(ds, p[t], p[t + 1]);
      }
    }
    assert 0 <= a < |q| - 1 && q[0] == u && q[a] == q[|q| - 1];
  }

  // Without cycles, every non-empty set of nodes has a member none of whose
  // dependencies is in the set.
  lemma MinimalMember(ds: seq<Def>, s: set<nat>) returns (i: nat)
    requires Acyclic(ds) && s != {}
    requires forall u | u in s :: u < |ds|
    ensures i in s && forall j | j in s :: !DepOf(ds, i, j)
  {
    if Trapped(ds, s) {
      var u :| u in s;
      ClosedSetMeetsCycle(ds, s, u);
      AcyclicIffNothingMeetsCycle(ds);
      i := u;
    } else {
      i :| i in s && !DependsInto(ds, s, i);
    }
  }

  // ---- Greedy topological order ------------------------------------------

  // `byPosition` in topologicalOrder, and the default sort in assertAcyclic when
  // every position is equal.
  predicate Before(position: map<string, int>, a: string, b: string)
    requires a in position && b in position
  {
    position[a] < position[b] || (position[a] == position[b] && TextLess(a, b))
  }

  lemma BeforeIsStrictTotalOrder(position: map<string, int>, a: string, b: string, c: string)
    requires a in position && b in position && c in position
    ensures !Before(position, a, a)
    ensures a == b || Before(position, a, b) || Before(position, b, a)
    ensures Before(position, a, b) && Before(position, b, c) ==> Before(position, a, c)
  {
    TextLessIrreflexive(a);
    TextLessTotal(a, b);
    if TextLess(a, b) && TextLess(b, c) { TextLessTransitive(a, b, c); }
  }

  // Not placed yet, and everything it lists is.
  ghost predicate Free(ds: seq<Def>, done: seq<string>, k: string) {
    HasKey(ds, k) && k !in done && forall d | d in DepsOf(ds, k) :: d in done
  }

  ghost predicate PositionsFor(ds: seq<Def>, position: map<string, int>) {
    forall k :: k in position <==> HasKey(ds, k)
  }

  // At every step the least free node is placed.
  ghost predicate Greedy(ds: seq<Def>, position: map<string, int>, ordered: seq<string>)
    requires PositionsFor(ds, position)
  {
    forall t | 0 <= t < |ordered| ::
      && Free(ds, ordered[..t], ordered[t])
      && forall k | Free(ds, ordered[..t], k) :: k == ordered[t] || Before(position, ordered[t], k)
  }

  ghost predicate Finished(ds: seq<Def>, ordered: seq<string>) {
    forall k :: !Free(ds, ordered, k)
  }

  // Every key once, dependencies first.
  ghost predicate TopologicalPermutation(ds: seq<Def>, ordered: seq<string>) {
    && NoRepeats(ordered)
    && (forall k :: k in ordered <==> HasKey(ds, k))
    && (forall t, d | 0 <= t < |ordered| && HasKey(ds, ordered[t]) && d in DepsOf(ds, ordered[t]) ::
          d in ordered[..t])
  }

  ghost predicate LexicographicallyNotAfter(position: map<string, int>, a: seq<string>, b: seq<string>)
    requires forall k | k in a || k in b :: k in position
  {
    forall t | 0 <= t < |a| && t < |b| && a[..t] == b[..t] ::
      a[t] == b[t] || Before(position, a[t], b[t])
  }

  lemma GreedyNoRepeats(ds: seq<Def>, position: map<string, int>, ordered: seq<string>)
    requires PositionsFor(ds, position) && Greedy(ds, position, ordered)
    ensures NoRepeats(ordered)
  {
    forall a, b | 0 <= a < b < |ordered| ensures ordered[a] != ordered[b] {
      assert Free(ds, ordered[..b], ordered[b]);
      assert ordered[..b][a] == ordered[a];
    }
  }

  // A finished greedy order of an acyclic graph is a topological permutation, and
  // the lexicographically least one.
  lemma GreedyIsLeast(ds: seq<Def>, position: map<string, int>, ordered: seq<string>)
    requires WellShaped(ds) && Acyclic(ds) && PositionsFor(ds, position)
    requires Greedy(ds, position, ordered) && Finished(ds, ordered)
    ensures TopologicalPermutation(ds, ordered)
    ensures forall other | TopologicalPermutation(ds, other) ::
              LexicographicallyNotAfter(position, ordered, other)
  {
    GreedyNoRepeats(ds, position, ordered);
    forall k ensures k in ordered <==> HasKey(ds, k) {
      if k in ordered {
        var t :| 0 <= t < |ordered| && ordered[t] == k;
        assert Free(ds, ordered[..t], k);
      }
      if HasKey(ds, k) && k !in ordered { UnplacedIsEmpty(ds, ordered); }
    }
    forall t, d | 0 <= t < |ordered| && d in DepsOf(ds, ordered[t]) ensures d in ordered[..t] {
      assert Free(ds, ordered[..t], ordered[t]);
    }
    forall other | TopologicalPermutation(ds, other)
      ensures LexicographicallyNotAfter(position, ordered, other)
    {
      forall t | 0 <= t < |ordered| && t < |other| && ordered[..t] == other[..t]
        ensures ordered[t] == other[t] || Before(position, ordered[t], other[t])
      {
        assert other[t] !in other[..t];
        assert Free(ds, ordered[..t], other[t]);
      }
    }
  }

  lemma UnplacedIsEmpty(ds: seq<Def>, ordered: seq<string>)
    requires WellShaped(ds) && Acyclic(ds) && Finished(ds, ordered)
    ensures forall k | HasKey(ds, k) :: k in ordered
  {
    var unplaced := set i: nat | i in Upto(|ds|) && ds[i].key !in ordered;
    if unplaced != {} {
      var i := MinimalMember(ds, unplaced);
      var k := ds[i].key;
      IndexOfKey(ds, i);
      forall d | d in DepsOf(ds, k) ensures d in ordered {
        assert HasKey(ds, d);
        var j: nat :| j < |ds| && ds[j].key == d;
        assert DepOf(ds, i, j);
      }
      assert Free(ds, ordered, k);
    }
    forall i | 0 <= i < |ds| ensures ds[i].key in ordered { assert i !in unplaced; }
  }

  // The greedy order is unique, so any two ways of computing it agree.
  lemma {:induction false} GreedyUnique(ds: seq<Def>, position: map<string, int>, a: seq<string>, b: seq<string>)
    requires PositionsFor(ds, position)
    requires Greedy(ds, position, a) && Finished(ds, a)
    requires Greedy(ds, position, b) && Finished(ds, b)
    ensures a == b
  {
    GreedyPrefix(ds, position, a, b, |a|);
    GreedyPrefix(ds, position, b, a, |b|);
    assert a == a[..|a|] && b == b[..|b|];
  }

  lemma {:induction false} GreedyPrefix(
    ds: seq<Def>, position: map<string, int>, a: seq<string>, b: seq<string>, n: nat)
    requires PositionsFor(ds, position) && n <= |a|
    requires Greedy(ds, position, a)
    requires Greedy(ds, position, b) && Finished(ds, b)
    ensures n <= |b| && a[..n] == b[..n]
  {
    if n > 0 {
      GreedyPrefix(ds, position, a, b, n - 1);
      var done := a[..n - 1];
      assert b[..|b|] == b;
      assert Free(ds, done, a[n - 1]);
      assert Free(ds, done, b[n - 1]);
      var x, y := a[n - 1], b[n - 1];
      BeforeIsStrictTotalOrder(position, x, y, x);
      assert a[..n] == done + [x] && b[..n] == done + [y];
    }
  }

  // ---- Kahn's algorithm ---------------------------------------------------

  function Missing(deps: seq<string>, done: seq<string>): nat {
    if deps == [] then 0 else (if deps[0] in done then 0 else 1) + Missing(deps[1..], done)
  }

  lemma {:induction false} MissingNothing(deps: seq<string>)
    ensures Missing(deps, []) == |deps|
  {
    if deps != [] { MissingNothing(deps[1..]); }
  }

  lemma {:induction false} MissingZero(deps: seq<string>, done: seq<string>)
    ensures Missing(deps, done) == 0 <==> forall d | d in deps :: d in done
  {
    if deps != [] {
      MissingZero(deps[1..], done);
      assert forall d :: d in deps <==> d == deps[0] || d in deps[1..];
    }
  }

  lemma {:induction false} MissingAfter(deps: seq<string>, done: seq<string>, k: string)
    requires NoRepeats(deps) && k !in done
    ensures Missing(deps, done + [k]) == Missing(deps, done) - (if k in deps then 1 else 0)
  {
    if deps != [] {
      assert NoRepeats(deps[1..]) by {
        forall a, b | 0 <= a < b < |deps[1..]| ensures deps[1..][a] != deps[1..][b] {
          assert deps[a + 1] != deps[b + 1];
        }
      }
      MissingAfter(deps[1..], done, k);
      assert k in deps <==> k == deps[0] || k in deps[1..];
      if k == deps[0] { assert forall t | 0 <= t < |deps[1..]| :: deps[1..][t] == deps[t + 1]; }
    }
  }

  ghost predicate Ascending(position: map<string, int>, q: seq<string>) {
    && (forall k | k in q :: k in position)
    && (forall a, b | 0 <= a < b < |q| :: Before(position, q[a], q[b]))
  }

  // push followed by sort, on a queue that was already sorted.
  function Enqueue(position: map<string, int>, q: seq<string>, k: string): (r: seq<string>)
    requires k in position && forall x | x in q :: x in position
    ensures forall x :: x in r <==> x == k || x in q
  {
    if q == [] then [k]
    else if Before(position, k, q[0]) then [k] + q
    else [q[0]] + Enqueue(position, q[1..], k)
  }

  lemma {:induction false} EnqueueKeepsOrder(position: map<string, int>, q: seq<string>, k: string)
    requires k in position && Ascending(position, q) && k !in q
    ensures Ascending(position, Enqueue(position, q, k))
  {
    if q != [] {
      if Before(position, k, q[0]) {
        forall x | x in q ensures Before(position, k, x) {
          BeforeIsStrictTotalOrder(position, k, q[0], x);
        }
      } else {
        BeforeIsStrictTotalOrder(position, k, q[0], k);
        assert Ascending(position, q[1..]) by {
          forall a, b | 0 <= a < b < |q[1..]| ensures Before(position, q[1..][a], q[1..][b]) {
            assert Before(position, q[a + 1], q[b + 1]);
          }
        }
        EnqueueKeepsOrder(position, q[1..], k);
        var r := Enqueue(position, q[1..], k);
        forall x | x in r ensures Before(position, q[0], x) {
          if x != k {
            var t :| 0 <= t < |q[1..]| && q[1..][t] == x;
            assert Before(position, q[0], q[t + 1]);
          }
        }
      }
    }
  }

  // `dependents.get(k)`: the keys listing k, in node order.
  function Dependents(ds: seq<Def>, k: string): (r: seq<string>) {
    if ds == [] then []
    else Dependents(ds[..|ds| - 1], k)
         + (if k in ds[|ds| - 1].deps then [ds[|ds| - 1].key] else [])
  }

  lemma {:induction false} DependentsOf(ds: seq<Def>, k: string)
    requires DistinctKeys(ds)
    ensures NoRepeats(Dependents(ds, k))
    ensures forall n :: n in Dependents(ds, k) <==> exists i :: 0 <= i < |ds| && ds[i].key == n && k in ds[i].deps
  {
    if ds != [] {
      var init := ds[..|ds| - 1];
      DependentsOf(init, k);
      forall n ensures n in Dependents(ds, k) <==> exists i :: 0 <= i < |ds| && ds[i].key == n && k in ds[i].deps {
        if i :| 0 <= i < |ds| && ds[i].key == n && k in ds[i].deps {
          if i < |init| { assert init[i] == ds[i]; }
        }
        if n in Dependents(init, k) {
          var i :| 0 <= i < |init| && init[i].key == n && k in init[i].deps;
          assert ds[i] == init[i];
        }
      }
      var last := ds[|ds| - 1].key;
      assert last !in Dependents(init, k) by {
        assert forall i | 0 <= i < |init| :: init[i].key == ds[i].key != last;
      }
    }
  }

  lemma DependentsByKey(ds: seq<Def>, k: string)
    requires DistinctKeys(ds)
    ensures NoRepeats(Dependents(ds, k))
    ensures forall n :: n in Dependents(ds, k) <==> HasKey(ds, n) && k in DepsOf(ds, n)
  {
    DependentsOf(ds, k);
    forall n ensures n in Dependents(ds, k) <==> HasKey(ds, n) && k in DepsOf(ds, n) {
      if n in Dependents(ds, k) {
        var i :| 0 <= i < |ds| && ds[i].key == n && k in ds[i].deps;
        IndexOfKey(ds, i);
      }
    }
  }
}
