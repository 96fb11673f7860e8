// Validation and ordering of a graph: assertGraphShape, assertAcyclic and
// topologicalOrder (src/jev-domain.js, lines 89-211). Kahn's algorithm appears
// twice in the source, once per sort order; here both callers share `Peel`.

module GraphShape {
  import opened Basics
  import opened Dag

  datatype ShapeError =
    | NoNodes
    | MissingKey
    | DuplicateKey(key: string)
    | SelfDependency(key: string)
    | UnknownDependency(key: string, dep: string)
    | RepeatedDependency(key: string, dep: string)
    // A dependency that matches a key only after trimming: no node is filed under
    // it, and building the dependents table fails.
    | UnfiledDependency(dep: string)
    | DependencyCycle(keys: seq<string>)

  ghost function KeySet(ds: seq<Def>): (s: set<string>)
    ensures forall k :: k in s <==> HasKey(ds, k)
  {
    set i | 0 <= i < |ds| :: ds[i].key
  }

  lemma {:induction false} KeySetSize(ds: seq<Def>)
    requires DistinctKeys(ds)
    ensures |KeySet(ds)| == |ds|
  {
    if ds != [] {
      var init := ds[..|ds| - 1];
      assert forall i | 0 <= i < |init| :: init[i] == ds[i];
      KeySetSize(init);
      var last := ds[|ds| - 1].key;
      assert last !in KeySet(init);
      KeySetOneMore(ds);
    }
  }

  lemma KeySetOneMore(ds: seq<Def>)
    requires ds != []
    ensures KeySet(ds) == KeySet(ds[..|ds| - 1]) + {ds[|ds| - 1].key}
  {
    var init, last := ds[..|ds| - 1], ds[|ds| - 1].key;
    forall k ensures k in KeySet(ds) <==> k in KeySet(init) + {last} {
      if k in KeySet(ds) {
        var i :| 0 <= i < |ds| && ds[i].key == k;
        if i < |init| { assert init[i].key == k; }
      }
      if k in KeySet(init) {
        var i :| 0 <= i < |init| && init[i].key == k;
        assert ds[i].key == k;
      }
    }
  }

  lemma {:induction false} ElementsOf<T>(s: seq<T>) returns (r: set<T>)
    requires NoRepeats(s)
    ensures |r| == |s| && forall x :: x in r <==> x in s
  {
    if s == [] {
      r := {};
    } else {
      var init := s[..|s| - 1];
      assert forall t | 0 <= t < |init| :: init[t] == s[t];
      r := ElementsOf(init);
      assert s[|s| - 1] !in init;
      r := r + {s[|s| - 1]};
      assert s == init + [s[|s| - 1]];
    }
  }

  lemma AllPlacedIffFull(ds: seq<Def>, ordered: seq<string>)
    requires DistinctKeys(ds) && NoRepeats(ordered)
    requires forall k | k in ordered :: HasKey(ds, k)
    ensures |ordered| == |ds| <==> forall k | HasKey(ds, k) :: k in ordered
  {
    var placed := ElementsOf(ordered);
    var keys := KeySet(ds);
    KeySetSize(ds);
    assert placed <= keys;
    if keys <= placed {
      assert placed == keys;
    } else {
      var k :| k in keys && k !in placed;
      SubsetSize(placed, keys - {k});
    }
  }

  lemma {:induction false} SubsetSize<T>(a: set<T>, b: set<T>)
    requires a <= b
    ensures |a| <= |b|
  {
    if a != {} {
      var x :| x in a;
      SubsetSize(a - {x}, b - {x});
    }
  }

  lemma ExtendKeys(ds: seq<Def>, n: nat)
    requires n < |ds|
    ensures forall k :: HasKey(ds[..n + 1], k) <==> HasKey(ds[..n], k) || k == ds[n].key
  {
    var more, some := ds[..n + 1], ds[..n];
    forall k ensures HasKey(more, k) <==> HasKey(some, k) || k == ds[n].key {
      if HasKey(more, k) {
        var i :| 0 <= i < |more| && more[i].key == k;
        if i < n { assert some[i].key == k; }
      }
      if HasKey(some, k) {
        var i :| 0 <= i < |some| && some[i].key == k;
        assert more[i].key == k;
      }
      assert more[n].key == ds[n].key;
    }
  }

  method DependentsTable(ds: seq<Def>) returns (dependents: map<string, seq<string>>)
    requires WellShaped(ds)
    ensures forall k :: k in dependents <==> HasKey(ds, k)
    ensures forall k | k in dependents :: dependents[k] == Dependents(ds, k)
  {
    dependents := map[];
    for n := 0 to |ds|
      invariant forall k :: k in dependents <==> HasKey(ds[..n], k)
      invariant forall k | k in dependents :: dependents[k] == []
    {
      ExtendKeys(ds, n);
      dependents := dependents[ds[n].key := []];
    }
    assert ds[..|ds|] == ds;
    for n := 0 to |ds|
      invariant forall k :: k in dependents <==> HasKey(ds, k)
      invariant forall k | k in dependents :: dependents[k] == Dependents(ds[..n], k)
    {
      dependents := FileUnder(ds, n, dependents);
    }
  }

  // Push node n's key under each of its dependencies.
  method FileUnder(ds: seq<Def>, n: nat, before: map<string, seq<string>>)
    returns (dependents: map<string, seq<string>>)
    requires WellShaped(ds) && n < |ds|
    requires forall k :: k in before <==> HasKey(ds, k)
    requires forall k | k in before :: before[k] == Dependents(ds[..n], k)
    ensures forall k :: k in dependents <==> HasKey(ds, k)
    ensures forall k | k in dependents :: dependents[k] == Dependents(ds[..n + 1], k)
  {
    var deps := ds[n].deps;
    dependents := before;
    for t := 0 to |deps|
      invariant forall k :: k in dependents <==> HasKey(ds, k)
      invariant forall k | k in dependents ::
        dependents[k] == before[k] + (if k in deps[..t] then [ds[n].key] else [])
    {
      assert HasKey(ds, deps[t]);
      assert deps[t] !in deps[..t];
      assert deps[..t + 1] == deps[..t] + [deps[t]];
      dependents := dependents[deps[t] := dependents[deps[t]] + [ds[n].key]];
    }
    assert deps[..|deps|] == deps;
    assert ds[..n + 1][..n] == ds[..n];
  }

  method IndegreeTable(ds: seq<Def>) returns (indegree: map<string, int>)
    requires WellShaped(ds)
    ensures forall k :: k in indegree <==> HasKey(ds, k)
    ensures forall k | k in indegree :: indegree[k] == |DepsOf(ds, k)|
  {
    indegree := map[];
    for n := 0 to |ds|
      invariant forall i | 0 <= i < n :: ds[i].key in indegree && indegree[ds[i].key] == |ds[i].deps|
      invariant forall k | k in indegree :: HasKey(ds, k)
    {
      assert HasKey(ds, ds[n].key);
      indegree := indegree[ds[n].key := |ds[n].deps|];
    }
    forall k | k in indegree ensures indegree[k] == |DepsOf(ds, k)| {
      assert ds[IndexOf(ds, k)].key == k;
    }
  }

  // What the queue and the counters hold once `done` has been taken off, except
  // that the dependents in `waiting` have not been told about the last removal.
  ghost predicate KahnState(
    ds: seq<Def>, position: map<string, int>, done: seq<string>, waiting: seq<string>,
    queue: seq<string>, indegree: map<string, int>)
    requires PositionsFor(ds, position)
  {
    && Ascending(position, queue)
    && (forall k :: k in queue <==> Free(ds, done, k) && k !in waiting)
    && (forall k :: k in indegree <==> HasKey(ds, k))
    && (forall k | k in indegree ::
          indegree[k] == Missing(DepsOf(ds, k), done) + (if k in waiting then 1 else 0))
  }

  lemma FreeIffNothingMissing(ds: seq<Def>, done: seq<string>, k: string)
    requires HasKey(ds, k)
    ensures Free(ds, done, k) <==> k !in done && Missing(DepsOf(ds, k), done) == 0
  {
    MissingZero(DepsOf(ds, k), done);
  }

  // Taking a key off the queue leaves exactly its dependents to be told.
  lemma AfterRemoval(
    ds: seq<Def>, position: map<string, int>, done: seq<string>, queue: seq<string>, indegree: map<string, int>)
    requires WellShaped(ds) && PositionsFor(ds, position)
    requires KahnState(ds, position, done, [], queue, indegree) && queue != []
    ensures KahnState(ds, position, done + [queue[0]], Dependents(ds, queue[0]), queue[1..], indegree)
  {
    var key := queue[0];
    var done' := done + [key];
    DependentsByKey(ds, key);
    assert Free(ds, done, key);
    assert Ascending(position, queue[1..]) by {
      forall a, b | 0 <= a < b < |queue[1..]| ensures Before(position, queue[1..][a], queue[1..][b]) {
        assert Before(position, queue[a + 1], queue[b + 1]);
      }
    }
    assert key !in queue[1..] by {
      forall t | 0 <= t < |queue[1..]| ensures queue[1..][t] != key {
        assert Before(position, queue[0], queue[t + 1]);
        BeforeIsStrictTotalOrder(position, key, key, key);
      }
    }
    forall k | HasKey(ds, k)
      ensures Missing(DepsOf(ds, k), done)
           == Missing(DepsOf(ds, k), done') + (if k in Dependents(ds, key) then 1 else 0)
    {
      MissingAfter(DepsOf(ds, k), done, key);
    }
    forall k
      ensures k in queue[1..] <==> Free(ds, done', k) && k !in Dependents(ds, key)
    {
      assert k in queue <==> k == key || k in queue[1..];
      if HasKey(ds, k) {
        FreeIffNothingMissing(ds, done, k);
        FreeIffNothingMissing(ds, done', k);
      }
    }
  }

  // One `remaining = indegree.get(next) - 1` and the push that may follow.
  lemma AfterNotice(
    ds: seq<Def>, position: map<string, int>, done: seq<string>, waiting: seq<string>,
    queue: seq<string>, indegree: map<string, int>)
    requires WellShaped(ds) && PositionsFor(ds, position)
    requires waiting != [] && NoRepeats(waiting)
    requires forall k | k in waiting :: HasKey(ds, k) && k !in done
    requires KahnState(ds, position, done, waiting, queue, indegree)
    ensures waiting[0] in indegree
    ensures KahnState(ds, position, done, waiting[1..],
              if indegree[waiting[0]] - 1 == 0 then Enqueue(position, queue, waiting[0]) else queue,
              indegree[waiting[0] := indegree[waiting[0]] - 1])
  {
    FirstOfRest(waiting);
    hide KahnState, WellShaped, PositionsFor, NoRepeats, Enqueue, HasKey;
    NoticeOne(ds, position, done, waiting[0], waiting[1..], waiting, queue, indegree);
  }

  lemma NoticeOne(
    ds: seq<Def>, position: map<string, int>, done: seq<string>, next: string, rest: seq<string>,
    waiting: seq<string>, queue: seq<string>, indegree: map<string, int>)
    requires PositionsFor(ds, position) && KahnState(ds, position, done, waiting, queue, indegree)
    requires HasKey(ds, next) && next !in done && next !in rest
    requires forall k :: k in waiting <==> k == next || k in rest
    ensures next in indegree
    ensures KahnState(ds, position, done, rest,
              if indegree[next] - 1 == 0 then Enqueue(position, queue, next) else queue,
              indegree[next := indegree[next] - 1])
  {
    hide Free, Missing, DepsOf, HasKey, Enqueue, Ascending;
    FreeIffNothingMissing(ds, done, next);
    CountersAfterNotice(ds, done, next, rest, waiting, indegree);
    QueueAfterNotice(ds, position, done, next, rest, waiting, queue, indegree[next] - 1 == 0);
  }

  lemma FirstOfRest(waiting: seq<string>)
    requires waiting != [] && NoRepeats(waiting)
    ensures waiting[0] !in waiting[1..]
    ensures forall k :: k in waiting <==> k == waiting[0] || k in waiting[1..]
  {
    assert forall t | 0 <= t < |waiting[1..]| :: waiting[1..][t] == waiting[t + 1] != waiting[0];
    assert waiting == [waiting[0]] + waiting[1..];
  }

  lemma QueueAfterNotice(
    ds: seq<Def>, position: map<string, int>, done: seq<string>, next: string, rest: seq<string>,
    waiting: seq<string>, queue: seq<string>, free: bool)
    requires PositionsFor(ds, position) && HasKey(ds, next) && next !in rest
    requires forall k :: k in waiting <==> k == next || k in rest
    requires free == Free(ds, done, next)
    requires Ascending(position, queue) && forall k :: k in queue <==> Free(ds, done, k) && k !in waiting
    ensures var after := if free then Enqueue(position, queue, next) else queue;
      Ascending(position, after) && forall k :: k in after <==> Free(ds, done, k) && k !in rest
  {
    hide Ascending, Free, Enqueue;
    assert next !in queue;
    if free { EnqueueKeepsOrder(position, queue, next); }
  }

  lemma CountersAfterNotice(
    ds: seq<Def>, done: seq<string>, next: string, rest: seq<string>, waiting: seq<string>,
    indegree: map<string, int>)
    requires HasKey(ds, next) && next !in rest
    requires forall k :: k in waiting <==> k == next || k in rest
    requires forall k :: k in indegree <==> HasKey(ds, k)
    requires forall k | k in indegree ::
      indegree[k] == Missing(DepsOf(ds, k), done) + (if k in waiting then 1 else 0)
    ensures var after := indegree[next := indegree[next] - 1];
      && (forall k :: k in after <==> HasKey(ds, k))
      && (forall k | k in after ::
            after[k] == Missing(DepsOf(ds, k), done) + (if k in rest then 1 else 0))
  {
  }

  // The queue before anything is removed: nodes that list nothing, in order.
  method Sources(ds: seq<Def>, position: map<string, int>, indegree: map<string, int>)
    returns (queue: seq<string>)
    requires WellShaped(ds) && PositionsFor(ds, position)
    requires forall k :: k in indegree <==> HasKey(ds, k)
    requires forall k | k in indegree :: indegree[k] == |DepsOf(ds, k)|
    ensures KahnState(ds, position, [], [], queue, indegree)
  {
    queue := [];
    forall i | 0 <= i < |ds| ensures HasKey(ds, ds[i].key) {}
    hide KahnState, Ascending, HasKey, DepsOf;
    for n := 0 to |ds|
      invariant Ascending(position, queue)
      invariant forall k :: k in queue <==> exists i :: 0 <= i < n && ds[i].key == k && indegree[k] == 0
    {
      if indegree[ds[n].key] == 0 {
        assert ds[n].key !in queue;
        EnqueueKeepsOrder(position, queue, ds[n].key);
        queue := Enqueue(position, queue, ds[n].key);
      }
    }
    SourcesAreFree(ds, position, indegree, queue);
  }

  lemma SourcesAreFree(ds: seq<Def>, position: map<string, int>, indegree: map<string, int>, queue: seq<string>)
    requires PositionsFor(ds, position) && Ascending(position, queue)
    requires forall k :: k in indegree <==> HasKey(ds, k)
    requires forall k | k in indegree :: indegree[k] == |DepsOf(ds, k)|
    requires forall k :: k in queue <==> exists i :: 0 <= i < |ds| && ds[i].key == k && indegree[k] == 0
    ensures KahnState(ds, position, [], [], queue, indegree)
  {
    hide Ascending, Missing;
    forall k ensures k in queue <==> Free(ds, [], k) {
      if HasKey(ds, k) {
        FreeIffNothingMissing(ds, [], k);
        MissingNothing(DepsOf(ds, k));
        assert ds[IndexOf(ds, k)].key == k;
      }
    }
    forall k | k in indegree ensures indegree[k] == Missing(DepsOf(ds, k), []) {
      MissingNothing(DepsOf(ds, k));
    }
  }

  // `for (const next of dependents.get(key))`.
  method Notify(
    ds: seq<Def>, position: map<string, int>, ghost done: seq<string>, dependents: seq<string>,
    queue0: seq<string>, indegree0: map<string, int>)
    returns (queue: seq<string>, indegree: map<string, int>)
    requires WellShaped(ds) && PositionsFor(ds, position)
    requires NoRepeats(dependents) && forall k | k in dependents :: HasKey(ds, k) && k !in done
    requires KahnState(ds, position, done, dependents, queue0, indegree0)
    ensures KahnState(ds, position, done, [], queue, indegree)
  {
    queue, indegree := queue0, indegree0;
    var waiting := dependents;
    while waiting != []
      invariant NoRepeats(waiting)
      invariant forall k | k in waiting :: HasKey(ds, k) && k !in done
      invariant KahnState(ds, position, done, waiting, queue, indegree)
      decreases |waiting|
    {
      AfterNotice(ds, position, done, waiting, queue, indegree);
      var next := waiting[0];
      var remaining := indegree[next] - 1;
      indegree := indegree[next := remaining];
      if remaining == 0 {
        queue := Enqueue(position, queue, next);
      }
      assert NoRepeats(waiting[1..]) by {
        assert forall t | 0 <= t < |waiting[1..]| :: waiting[1..][t] == waiting[t + 1];
      }
      waiting := waiting[1..];
    }
  }

  method Peel(ds: seq<Def>, position: map<string, int>)
    returns (ordered: seq<string>, indegree: map<string, int>)
    requires WellShaped(ds) && PositionsFor(ds, position)
    ensures Greedy(ds, position, ordered) && Finished(ds, ordered)
    ensures forall k :: k in indegree <==> HasKey(ds, k)
    ensures forall k | k in indegree :: indegree[k] > 0 <==> k !in ordered
  {
    indegree := IndegreeTable(ds);
    var dependents := DependentsTable(ds);
    var queue := Sources(ds, position, indegree);
    ordered := [];
    while queue != []
      invariant KahnState(ds, position, ordered, [], queue, indegree)
      invariant Greedy(ds, position, ordered)
      decreases |ds| - |ordered|
    {
      var key := queue[0];
      assert Free(ds, ordered, key) by { assert key in queue; }
      RemovalIsGreedy(ds, position, ordered, queue);
      AfterRemoval(ds, position, ordered, queue, indegree);
      DependentsByKey(ds, key);
      forall k | k in Dependents(ds, key) ensures k !in ordered + [key] {
        LaterThanDependency(ds, position, ordered, key, k);
      }
      queue := queue[1..];
      ordered := ordered + [key];
      queue, indegree := Notify(ds, position, ordered, dependents[key], queue, indegree);
    }
    forall k | k in indegree ensures indegree[k] > 0 <==> k !in ordered {
      FreeIffNothingMissing(ds, ordered, k);
      if k in ordered {
        var t :| 0 <= t < |ordered| && ordered[t] == k;
        assert Free(ds, ordered[..t], k);
        MissingZero(DepsOf(ds, k), ordered);
      }
    }
  }

  lemma RemovalIsGreedy(ds: seq<Def>, position: map<string, int>, done: seq<string>, queue: seq<string>)
    requires WellShaped(ds) && PositionsFor(ds, position) && Ascending(position, queue) && queue != []
    requires Greedy(ds, position, done)
    requires forall k :: k in queue <==> Free(ds, done, k)
    ensures Greedy(ds, position, done + [queue[0]]) && |done| < |ds|
  {
    assert queue[0] in queue;
    forall k | Free(ds, done, k) ensures k == queue[0] || Before(position, queue[0], k) {
      var t :| 0 <= t < |queue| && queue[t] == k;
    }
    ExtendGreedy(ds, position, done, queue[0]);
    PlacedAtMostAll(ds, position, done + [queue[0]]);
  }

  lemma ExtendGreedy(ds: seq<Def>, position: map<string, int>, done: seq<string>, key: string)
    requires PositionsFor(ds, position) && Greedy(ds, position, done) && Free(ds, done, key)
    requires forall k | Free(ds, done, k) :: k == key || Before(position, key, k)
    ensures Greedy(ds, position, done + [key])
  {
    var ordered := done + [key];
    forall t | 0 <= t < |ordered|
      ensures Free(ds, ordered[..t], ordered[t])
      ensures forall k | Free(ds, ordered[..t], k) :: k == ordered[t] || Before(position, ordered[t], k)
    {
      if t < |done| { assert ordered[..t] == done[..t]; } else { assert ordered[..t] == done; }
    }
  }

  lemma PlacedAtMostAll(ds: seq<Def>, position: map<string, int>, ordered: seq<string>)
    requires WellShaped(ds) && PositionsFor(ds, position) && Greedy(ds, position, ordered)
    ensures |ordered| <= |ds|
    ensures forall k | k in ordered :: HasKey(ds, k)
  {
    GreedyNoRepeats(ds, position, ordered);
    forall k | k in ordered ensures HasKey(ds, k) {
      var t :| 0 <= t < |ordered| && ordered[t] == k;
      assert Free(ds, ordered[..t], k);
    }
    var placed := ElementsOf(ordered);
    KeySetSize(ds);
    SubsetSize(placed, KeySet(ds));
  }

  // A node listing `key` cannot have been placed before `key` was.
  lemma LaterThanDependency(ds: seq<Def>, position: map<string, int>, done: seq<string>, key: string, k: string)
    requires WellShaped(ds) && PositionsFor(ds, position) && Greedy(ds, position, done)
    requires key !in done && HasKey(ds, k) && key in DepsOf(ds, k)
    ensures k !in done + [key]
  {
    forall t | 0 <= t < |done| ensures done[t] != k {
      assert Free(ds, done[..t], done[t]);
      assert key !in done[..t];
    }
    assert ds[IndexOf(ds, k)].key == k;
  }

  // ---- Acyclicity ---------------------------------------------------------

  // Whatever order the queue is kept in, what remains is what meets a cycle.
  lemma UnplacedMeetsCycle(ds: seq<Def>, position: map<string, int>, ordered: seq<string>, u: nat)
    requires WellShaped(ds) && PositionsFor(ds, position) && u < |ds|
    requires Greedy(ds, position, ordered) && Finished(ds, ordered)
    ensures ds[u].key !in ordered <==> MeetsCycle(ds, u)
  {
    if ds[u].key !in ordered {
      var unplaced := set i: nat | i in Upto(|ds|) && ds[i].key !in ordered;
      assert Trapped(ds, unplaced) by {
        forall i {:trigger DependsInto(ds, unplaced, i)} | i in unplaced ensures DependsInto(ds, unplaced, i) {
          IndexOfKey(ds, i);
          assert !Free(ds, ordered, ds[i].key);
          var d :| d in ds[i].deps && d !in ordered;
          assert HasKey(ds, d);
          var j: nat :| j < |ds| && ds[j].key == d;
          assert DepOf(ds, i, j);
        }
      }
      ClosedSetMeetsCycle(ds, unplaced, u);
    }
    if ds[u].key in ordered {
      forall p, t | 0 <= t < |p| - 1 && Walk(ds, p) && p[0] == u ensures p[t] != p[|p| - 1] {
        var places := PlacesAlong(ds, position, ordered, p);
        GreedyNoRepeats(ds, position, ordered);
        assert ordered[places[t]] != ordered[places[|p| - 1]];
      }
    }
  }

  // Along a walk that starts at a placed node, places strictly decrease.
  lemma {:induction false} PlacesAlong(ds: seq<Def>, position: map<string, int>, ordered: seq<string>, p: seq<nat>)
    returns (places: seq<nat>)
    requires WellShaped(ds) && PositionsFor(ds, position) && Greedy(ds, position, ordered)
    requires Walk(ds, p) && p != [] && ds[p[0]].key in ordered
    ensures |places| == |p|
    ensures forall t | 0 <= t < |p| :: places[t] < |ordered| && ordered[places[t]] == ds[p[t]].key
    ensures forall a, b | 0 <= a < b < |p| :: places[a] > places[b]
  {
    hide PositionsFor, Before, Ascending;
    var init := p[..|p| - 1];
    if |p| == 1 {
      var here: nat :| here < |ordered| && ordered[here] == ds[p[0]].key;
      places := [here];
    } else {
      assert Walk(ds, init) by {
        forall t | 0 <= t < |init| - 1 ensures DepOf(ds, init[t], init[t + 1]) { assert DepOf(ds, p[t], p[t + 1]); }
      }
      places := PlacesAlong(ds, position, ordered, init);
      var last, prev := p[|p| - 1], p[|p| - 2];
      assert DepOf(ds, p[|p| - 2], p[|p| - 2 + 1]);
      var at := places[|p| - 2];
      assert Free(ds, ordered[..at], ordered[at]);
      IndexOfKey(ds, prev);
      var here: nat :| here < at && ordered[..at][here] == ds[last].key;
      places := places + [here];
    }
  }

  method AssertAcyclic(ds: seq<Def>) returns (r: Result<(), seq<string>>)
    requires WellShaped(ds)
    ensures r.Ok? <==> Acyclic(ds)
    ensures r.Err? ==> forall u: nat | u < |ds| :: ds[u].key in r.error <==> MeetsCycle(ds, u)
    ensures r.Err? ==> forall k | k in r.error :: HasKey(ds, k)
    ensures r.Err? ==> r.error != []
    ensures r.Err? ==> forall a, b | 0 <= a < b < |r.error| :: TextLess(r.error[a], r.error[b])
  {
    var position := map n | 0 <= n < |ds| :: ds[n].key := 0;
    assert PositionsFor(ds, position);
    var ordered, indegree := Peel(ds, position);
    GreedyNoRepeats(ds, position, ordered);
    PlacedAtMostAll(ds, position, ordered);
    AllPlacedIffFull(ds, ordered);
    AcyclicIffNothingMeetsCycle(ds);
    forall u: nat | u < |ds| ensures ds[u].key !in ordered <==> MeetsCycle(ds, u) {
      UnplacedMeetsCycle(ds, position, ordered, u);
    }
    forall u: nat | u < |ds| ensures HasKey(ds, ds[u].key) {}
    if |ordered| == |ds| {
      return Ok(());
    }
    var stuck := Stuck(ds, position, ordered, indegree);
    assert exists u: nat :: u < |ds| && MeetsCycle(ds, u);
    r := Err(stuck);
  }

  method Stuck(ds: seq<Def>, position: map<string, int>, ghost ordered: seq<string>, indegree: map<string, int>)
    returns (stuck: seq<string>)
    requires DistinctKeys(ds) && PositionsFor(ds, position)
    requires forall k :: k in indegree <==> HasKey(ds, k)
    requires forall k | k in indegree :: indegree[k] > 0 <==> k !in ordered
    ensures Ascending(position, stuck)
    ensures forall k :: k in stuck <==> HasKey(ds, k) && k !in ordered
  {
    stuck := [];
    forall i | 0 <= i < |ds| ensures HasKey(ds, ds[i].key) {}
    for n := 0 to |ds|
      invariant Ascending(position, stuck)
      invariant forall k :: k in stuck <==> exists i :: 0 <= i < n && ds[i].key == k && k !in ordered
    {
      if indegree[ds[n].key] > 0 {
        EnqueueKeepsOrder(position, stuck, ds[n].key);
        stuck := Enqueue(position, stuck, ds[n].key);
      }
    }
  }

  // ---- Shape --------------------------------------------------------------

  ghost predicate TrimmedKey(ds: seq<Def>, k: string) {
    exists i :: 0 <= i < |ds| && Trim(ds[i].key) == k
  }

  ghost predicate AcceptableShape(ds: seq<Def>) {
    && ds != []
    && (forall i | 0 <= i < |ds| :: Trim(ds[i].key) != "")
    && (forall i, j | 0 <= i < j < |ds| :: Trim(ds[i].key) != Trim(ds[j].key))
    && WellShaped(ds)
    && (forall i, k | 0 <= i < |ds| && k in ds[i].deps :: TrimmedKey(ds, k))
    && Acyclic(ds)
  }

  // What each refusal says about the nodes.
  ghost predicate Explains(ds: seq<Def>, e: ShapeError) {
    match e
    case NoNodes => ds == []
    case MissingKey => exists i :: 0 <= i < |ds| && Trim(ds[i].key) == ""
    case DuplicateKey(k) =>
      exists i, j :: 0 <= i < j < |ds| && Trim(ds[i].key) == Trim(ds[j].key) == k
    case SelfDependency(k) => exists i :: 0 <= i < |ds| && ds[i].key == k && k in ds[i].deps
    case UnknownDependency(k, d) =>
      !TrimmedKey(ds, d) && exists i :: 0 <= i < |ds| && ds[i].key == k && d in ds[i].deps
    case RepeatedDependency(k, d) =>
      exists i, a, b :: 0 <= i < |ds| && ds[i].key == k && 0 <= a < b < |ds[i].deps|
        && ds[i].deps[a] == ds[i].deps[b] == d
    case UnfiledDependency(d) => !HasKey(ds, d) && exists i :: 0 <= i < |ds| && d in ds[i].deps
    case DependencyCycle(keys) =>
      && keys != []
      && WellShaped(ds)
      && (forall k | k in keys :: HasKey(ds, k))
      && (forall u: nat | u < |ds| :: ds[u].key in keys <==> MeetsCycle(ds, u))
  }

  lemma ExplainedIsRefused(ds: seq<Def>, e: ShapeError)
    requires Explains(ds, e)
    ensures !AcceptableShape(ds)
  {
    match e
    case SelfDependency(k) => var i :| 0 <= i < |ds| && ds[i].key == k && k in ds[i].deps;
    case UnknownDependency(k, d) => var i :| 0 <= i < |ds| && ds[i].key == k && d in ds[i].deps;
    case RepeatedDependency(k, d) =>
      var i, a, b :| 0 <= i < |ds| && ds[i].key == k && 0 <= a < b < |ds[i].deps|
        && ds[i].deps[a] == ds[i].deps[b] == d;
      assert !NoRepeats(ds[i].deps);
    case UnfiledDependency(d) => var i :| 0 <= i < |ds| && d in ds[i].deps;
    case DependencyCycle(keys) =>
      AcyclicIffNothingMeetsCycle(ds);
      assert keys[0] in keys;
      assert HasKey(ds, keys[0]);
      var u: nat :| u < |ds| && ds[u].key == keys[0];
      assert ds[u].key in keys;
    case _ =>
  }

  method CheckDependencies(ds: seq<Def>, trimmed: set<string>, n: nat) returns (e: Option<ShapeError>)
    requires n < |ds| && forall k :: k in trimmed <==> TrimmedKey(ds, k)
    ensures e.Some? ==> Explains(ds, e.value)
    ensures e.None? ==> ds[n].key !in ds[n].deps && NoRepeats(ds[n].deps)
    ensures e.None? ==> forall k | k in ds[n].deps :: TrimmedKey(ds, k)
  {
    var node := ds[n];
    var seen := {};
    for t := 0 to |node.deps|
      invariant seen == set k | k in node.deps[..t]
      invariant node.key !in node.deps[..t] && NoRepeats(node.deps[..t])
      invariant forall k | k in node.deps[..t] :: TrimmedKey(ds, k)
    {
      var dep := node.deps[t];
      if dep == node.key { return Some(SelfDependency(node.key)); }
      if dep !in trimmed { return Some(UnknownDependency(node.key, dep)); }
      if dep in seen {
        var a :| 0 <= a < t && node.deps[a] == dep;
        return Some(RepeatedDependency(node.key, dep));
      }
      seen := seen + {dep};
      assert node.deps[..t + 1] == node.deps[..t] + [dep];
    }
    assert node.deps[..|node.deps|] == node.deps;
    return None;
  }

  method CollectKeys(ds: seq<Def>) returns (trimmed: set<string>, e: Option<ShapeError>)
    ensures e.Some? ==> Explains(ds, e.value)
    ensures e.None? ==> forall k :: k in trimmed <==> TrimmedKey(ds, k)
    ensures e.None? ==> forall i | 0 <= i < |ds| :: Trim(ds[i].key) != ""
    ensures e.None? ==> forall i, j | 0 <= i < j < |ds| :: Trim(ds[i].key) != Trim(ds[j].key)
  {
    trimmed := {};
    for n := 0 to |ds|
      invariant forall k :: k in trimmed <==> exists i :: 0 <= i < n && Trim(ds[i].key) == k
      invariant forall i | 0 <= i < n :: Trim(ds[i].key) != ""
      invariant forall i, j | 0 <= i < j < n :: Trim(ds[i].key) != Trim(ds[j].key)
    {
      var key := Trim(ds[n].key);
      if key == "" { return trimmed, Some(MissingKey); }
      if key in trimmed { return trimmed, Some(DuplicateKey(key)); }
      trimmed := trimmed + {key};
    }
    e := None;
  }

  method CheckFiled(ds: seq<Def>) returns (e: Option<ShapeError>)
    ensures e.Some? ==> Explains(ds, e.value)
    ensures e.None? ==> KnownDeps(ds)
  {
    for n := 0 to |ds|
      invariant forall i, k | 0 <= i < n && k in ds[i].deps :: HasKey(ds, k)
    {
      for t := 0 to |ds[n].deps|
        invariant forall s | 0 <= s < t :: HasKey(ds, ds[n].deps[s])
      {
        var filed := FindKey(ds, ds[n].deps[t]);
        if !filed { return Some(UnfiledDependency(ds[n].deps[t])); }
      }
    }
    e := None;
  }

  method AssertGraphShape(ds: seq<Def>) returns (r: Result<(), ShapeError>)
    ensures r.Ok? <==> AcceptableShape(ds)
    ensures r.Err? ==> Explains(ds, r.error)
  {
    if ds == [] { return Err(NoNodes); }
    var trimmed, bad := CollectKeys(ds);
    if bad.Some? { return Refuse(ds, bad.value); }
    for n := 0 to |ds|
      invariant forall i | 0 <= i < n :: ds[i].key !in ds[i].deps && NoRepeats(ds[i].deps)
      invariant forall i, k | 0 <= i < n && k in ds[i].deps :: TrimmedKey(ds, k)
    {
      var e := CheckDependencies(ds, trimmed, n);
      if e.Some? { return Refuse(ds, e.value); }
    }
    var unfiled := CheckFiled(ds);
    if unfiled.Some? { return Refuse(ds, unfiled.value); }
    assert WellShaped(ds);
    var acyclic := AssertAcyclic(ds);
    if acyclic.Err? {
      AcyclicIffNothingMeetsCycle(ds);
      return Refuse(ds, DependencyCycle(acyclic.error));
    }
    return Ok(());
  }

  method FindKey(ds: seq<Def>, k: string) returns (found: bool)
    ensures found <==> HasKey(ds, k)
  {
    for n := 0 to |ds|
      invariant forall i | 0 <= i < n :: ds[i].key != k
    {
      if ds[n].key == k { return true; }
    }
    return false;
  }

  function Refuse(ds: seq<Def>, e: ShapeError): (r: Result<(), ShapeError>)
    requires Explains(ds, e)
    ensures r == Err(e) && !AcceptableShape(ds)
  {
    ExplainedIsRefused(ds, e);
    Err(e)
  }

  // On keys without stray whitespace, as every stored graph has them, the shape
  // check is exactly well-shapedness plus acyclicity.
  lemma AcceptableShapeWhenTrimmed(ds: seq<Def>)
    requires forall i | 0 <= i < |ds| :: Trim(ds[i].key) == ds[i].key != ""
    ensures AcceptableShape(ds) <==> ds != [] && WellShaped(ds) && Acyclic(ds)
  {
    if WellShaped(ds) {
      forall i, k | 0 <= i < |ds| && k in ds[i].deps ensures TrimmedKey(ds, k) {
        assert HasKey(ds, k);
        var j :| 0 <= j < |ds| && ds[j].key == k;
        assert Trim(ds[j].key) == k;
      }
    }
  }

  // ---- Topological order --------------------------------------------------

  function PositionTable(ds: seq<Def>): (position: map<string, int>)
    requires DistinctKeys(ds)
    ensures PositionsFor(ds, position)
    ensures forall i | 0 <= i < |ds| :: position[ds[i].key] == ds[i].order
  {
    map n | 0 <= n < |ds| :: ds[n].key := ds[n].order
  }

  // The result is the least topological permutation under (position, key).
  method TopologicalOrder(ds: seq<Def>) returns (r: Result<seq<string>, ShapeError>)
    ensures r.Ok? <==> AcceptableShape(ds)
    ensures r.Err? ==> Explains(ds, r.error)
    ensures r.Ok? ==> Greedy(ds, PositionTable(ds), r.value) && Finished(ds, r.value)
    ensures r.Ok? ==> TopologicalPermutation(ds, r.value)
    ensures r.Ok? ==> forall other | TopologicalPermutation(ds, other) ::
              LexicographicallyNotAfter(PositionTable(ds), r.value, other)
  {
    var shape := AssertGraphShape(ds);
    if shape.Err? { return Err(shape.error); }
    var position := PositionTable(ds);
    var ordered, _ := Peel(ds, position);
    GreedyIsLeast(ds, position, ordered);
    return Ok(ordered);
  }

  // What the topological order does at each place: of all the nodes not placed yet whose
  // dependencies are, it places the one stored first, and of those stored at one place the
  // one whose key comes first.
  lemma {:induction false} PlacedFirst(ds: seq<Def>, ordered: seq<string>, t: nat, i: nat, j: nat)
    requires WellShaped(ds) && Greedy(ds, PositionTable(ds), ordered) && t < |ordered| && i < |ds| && j < |ds|
    requires ds[i].key == ordered[t] && i != j
    requires ds[j].key !in ordered[..t] && forall d | d in ds[j].deps :: d in ordered[..t]
    ensures forall d | d in ds[i].deps :: d in ordered[..t]
    ensures ds[i].order < ds[j].order || (ds[i].order == ds[j].order && TextLess(ds[i].key, ds[j].key))
  {
    hide TextLess;
    IndexOfOwn(ds, i);
    IndexOfOwn(ds, j);
    assert Free(ds, ordered[..t], ordered[t]);
    assert Free(ds, ordered[..t], ds[j].key);
    assert ds[i].key != ds[j].key;
  }

  lemma IndexOfOwn(ds: seq<Def>, i: nat)
    requires DistinctKeys(ds) && i < |ds|
    ensures HasKey(ds, ds[i].key) && IndexOf(ds, ds[i].key) == i
  {
    var x := IndexOf(ds, ds[i].key);
  }
}
