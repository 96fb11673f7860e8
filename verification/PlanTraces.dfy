// Plans with copies as well: exactly when every order the graph allows shows every
// barrier, and leaves at the end, what the list does (src/jev-planner.js, lines 132-216).

module PlanTraces {
  import opened Basics
  import opened Dag
  import opened Nodes
  import opened Scheduler
  import opened Paths
  import opened Workspaces
  import opened Planner
  import opened Commuting
  import opened PlanMeaning
  import opened Overlays
  import opened Stretches
  import opened Traces

  // The steps between the barrier at e, or the end, and the barrier before, in list order.
  function Part(t: TaskType, steps: seq<PlanStep>, e: nat): (o: seq<nat>)
    requires e <= |steps|
    ensures forall k | 0 <= k < |o| :: o[k] < |steps|
  {
    Counting(e)[StretchStart(t, steps, e)..]
  }

  function PartChanges(t: TaskType, steps: seq<PlanStep>, e: nat): seq<Change>
    requires e <= |steps|
  {
    ChangesOf(steps, Part(t, steps, e))
  }

  // The same steps in another order, none before one it waits for.
  ghost predicate Reorders(t: TaskType, steps: seq<PlanStep>, o: seq<nat>, e: nat) {
    && Cut(t, steps, e) && Ordering(Compiled(t, steps), o, StretchStart(t, steps, e), e)
    && (forall k | 0 <= k < |o| :: o[k] < |steps|)
  }

  // On some workspace, and with some barriers, the list gets this far.
  ghost predicate GetsTo(t: TaskType, steps: seq<PlanStep>, e: nat) {
    forall c: nat | c < e && Cut(t, steps, c) :: Shaped(PartChanges(t, steps, c))
  }

  // In every stretch the list can get through, all orders the graph allows have the
  // list's trace.
  ghost predicate TracesAgree(t: TaskType, steps: seq<PlanStep>) {
    forall e: nat, o | Reorders(t, steps, o, e) && GetsTo(t, steps, e) && Shaped(PartChanges(t, steps, e)) ::
      TraceOf(ChangesOf(steps, o)) == TraceOf(PartChanges(t, steps, e))
  }

  // ---- Enough --------------------------------------------------------------

  lemma PartReorders(t: TaskType, steps: seq<PlanStep>, e: nat)
    requires Cut(t, steps, e)
    ensures Reorders(t, steps, Part(t, steps, e), e)
  {
    hide LeadsTo, Compiled;
    CountingOrders(Compiled(t, steps), StretchStart(t, steps, e), e);
  }

  lemma SameSteps(t: TaskType, steps: seq<PlanStep>, o: seq<nat>, e: nat)
    requires Reorders(t, steps, o, e)
    ensures forall c :: c in ChangesOf(steps, o) <==> c in PartChanges(t, steps, e)
  {
    hide ChangeOf, LeadsTo, Compiled, Part, StretchStart;
    PartReorders(t, steps, e);
    ChangesIn(steps, o, StretchStart(t, steps, e), e);
    ChangesIn(steps, Part(t, steps, e), StretchStart(t, steps, e), e);
  }

  lemma ReorderedRun(t: TaskType, world: World, steps: seq<PlanStep>, o: seq<nat>, e: nat, v: Workspace)
    requires Plain(t, steps) && Reorders(t, steps, o, e)
    ensures Run(Doing(t, world, steps), o, v) == Applied(ChangesOf(steps, o), v)
  {
    hide Plain, Run, Applied, ChangeOf, LeadsTo, Compiled, IsBarrier;
    forall k | 0 <= k < |o| ensures !IsBarrier(t, steps[o[k]].kind) { assert o[k] in o; }
    RunIsApplied(t, world, steps, o, v);
  }

  lemma TracedAlike(t: TaskType, world: World, steps: seq<PlanStep>, o: seq<nat>, e: nat, v: Workspace)
    requires Plain(t, steps) && TracesAgree(t, steps) && Reorders(t, steps, o, e) && GetsTo(t, steps, e)
    ensures Run(Doing(t, world, steps), o, v) == Run(Doing(t, world, steps), Part(t, steps, e), v)
    ensures Run(Doing(t, world, steps), o, v).Some? ==> Shaped(PartChanges(t, steps, e))
  {
    hide Plain, Run, Applied, ChangesOf, Part, Shaped, TraceOf, Doing, GetsTo, LeadsTo, Compiled, StretchStart;
    PartReorders(t, steps, e);
    ReorderedRun(t, world, steps, o, e, v);
    ReorderedRun(t, world, steps, Part(t, steps, e), e, v);
    SameSteps(t, steps, o, e);
    SameEffect(PartChanges(t, steps, e), ChangesOf(steps, o), v);
    SucceedsIff(PartChanges(t, steps, e), v);
  }

  lemma GetsPast(t: TaskType, steps: seq<PlanStep>, b: nat, e: nat)
    requires Cut(t, steps, e) && StretchStart(t, steps, e) == b + 1
    requires GetsTo(t, steps, b) && Shaped(PartChanges(t, steps, b))
    ensures GetsTo(t, steps, e)
  {
    hide Shaped, PartChanges, StretchStart;
    forall c: nat | c < e && Cut(t, steps, c) ensures Shaped(PartChanges(t, steps, c)) {
      assert !(b < c);
    }
  }

  lemma {:induction false} SeenAlikeTraced(
    t: TaskType, world: World, steps: seq<PlanStep>, order: seq<nat>, w: Workspace, e: nat)
    requires Plain(t, steps) && TracesAgree(t, steps) && Allowed(Compiled(t, steps), order) && Cut(t, steps, e)
    ensures |order| == |steps|
    ensures Run(Doing(t, world, steps), order[..e], w) == Run(Doing(t, world, steps), Counting(e), w)
    ensures Run(Doing(t, world, steps), Counting(e), w).Some? ==>
      GetsTo(t, steps, e) && Shaped(PartChanges(t, steps, e))
    decreases e
  {
    hide Plain, TracesAgree, Allowed, Compiled, Run, Ordering, GetsTo, Shaped, PartChanges, Doing;
    var s, act := StretchStart(t, steps, e), Doing(t, world, steps);
    StretchOfOrder(t, steps, order, e);
    BeforeStretch(act, order, s, e, w);
    if s > 0 { SeenAlikeTraced(t, world, steps, order, w, s - 1); }
    var before := Run(act, Counting(s), w);
    if before.Some? {
      if s > 0 { GetsPast(t, steps, s - 1, e); } else { GetsToFirst(t, steps, e); }
      OrderReorders(t, steps, order, e);
      TracedAlike(t, world, steps, order[s..e], e, before.value);
    }
  }

  lemma GetsToFirst(t: TaskType, steps: seq<PlanStep>, e: nat)
    requires Cut(t, steps, e) && StretchStart(t, steps, e) == 0
    ensures GetsTo(t, steps, e)
  {
    hide Shaped, PartChanges;
    forall c: nat | c < e && Cut(t, steps, c) ensures Shaped(PartChanges(t, steps, c)) {}
  }

  lemma OrderReorders(t: TaskType, steps: seq<PlanStep>, order: seq<nat>, e: nat)
    requires Plain(t, steps) && Allowed(Compiled(t, steps), order) && Cut(t, steps, e)
    ensures |order| == |steps| && Reorders(t, steps, order[StretchStart(t, steps, e)..e], e)
  {
    hide Plain, Allowed, Compiled, LeadsTo, StretchStart;
    StretchOfOrder(t, steps, order, e);
    var o := order[StretchStart(t, steps, e)..e];
    forall k | 0 <= k < |o| ensures o[k] < |steps| { assert o[k] in o; }
  }

  lemma TracesSuffice(t: TaskType, world: World, steps: seq<PlanStep>, order: seq<nat>, w: Workspace)
    requires Plain(t, steps) && TracesAgree(t, steps) && Allowed(Compiled(t, steps), order)
    ensures AsListed(t, world, steps, order, w)
    ensures Run(Doing(t, world, steps), order, w) == InOrder(t, world, steps, w)
  {
    hide Plain, TracesAgree, Allowed, Compiled, Run, Doing;
    forall e | Cut(t, steps, e)
      ensures |order| == |steps|
      ensures Run(Doing(t, world, steps), order[..e], w) == Run(Doing(t, world, steps), Counting(e), w)
    {
      SeenAlikeTraced(t, world, steps, order, w, e);
    }
    SeenAlikeTraced(t, world, steps, order, w, |steps|);
    assert order[..|steps|] == order;
  }

  // ---- And no less: an order that differs in one stretch -------------------

  ghost function Around(o: seq<nat>, s: nat, e: nat, n: nat): seq<nat>
    requires e <= n
  {
    Counting(s) + o + Counting(n)[e..]
  }

  lemma OrderingLength(rs: seq<Request>, o: seq<nat>, s: nat, e: nat)
    requires Ordering(rs, o, s, e) && s <= e <= |rs|
    ensures |o| == e - s && NoRepeats(o)
  {
    forall a, b | 0 <= a < b < |o| ensures o[a] != o[b] {
      assert o[a] in o;
      WaitsForItself(rs, o[a]);
    }
    hide LeadsTo;
    var p := Counting(s) + o;
    forall a, b | 0 <= a < b < |p| ensures p[a] != p[b] {
      if b >= s { assert o[b - s] in o; }
    }
    forall i: nat ensures i in p <==> i < e {
      if i < s { assert p[i] == i; }
      assert i in p <==> i in Counting(s) || i in o;
    }
    assert p[..|p|] == p;
    PrefixLength(p, |p|, e);
  }

  // What stands where.
  lemma AroundAt(rs: seq<Request>, o: seq<nat>, s: nat, e: nat)
    requires Ordering(rs, o, s, e) && s <= e <= |rs|
    ensures var r := Around(o, s, e, |rs|);
      && |r| == |rs| && |o| == e - s
      && (forall k | 0 <= k < s || e <= k < |r| :: r[k] == k)
      && (forall k | s <= k < e :: r[k] == o[k - s] && s <= r[k] < e)
      && r[..s] == Counting(s) && r[..e] == Counting(s) + o
  {
    hide LeadsTo, Ordering;
    OrderingLength(rs, o, s, e);
    forall k | 0 <= k < |o| ensures s <= o[k] < e { InStretch(rs, o, s, e, k); }
  }

  lemma AroundPermutes(rs: seq<Request>, o: seq<nat>, s: nat, e: nat)
    requires Ordering(rs, o, s, e) && s <= e <= |rs|
    ensures Permutes(Around(o, s, e, |rs|), |rs|)
  {
    hide LeadsTo, Ordering, Around;
    OrderingLength(rs, o, s, e);
    AroundAt(rs, o, s, e);
  }

  // An order of one stretch, the list before and after it, is an order the graph allows.
  lemma AroundIsAllowed(rs: seq<Request>, o: seq<nat>, s: nat, e: nat)
    requires Backward(rs) && Ordering(rs, o, s, e) && s <= e <= |rs|
    ensures Allowed(rs, Around(o, s, e, |rs|))
  {
    hide LeadsTo, Around, Permutes;
    AroundPermutes(rs, o, s, e);
    AroundAt(rs, o, s, e);
    var r := Around(o, s, e, |rs|);
    forall a, j | 0 <= a < |r| && 0 <= j < |rs| && r[a] < |rs| && rs[j].key in rs[r[a]].deps ensures j in r[..a] {
      ListedEarlier(rs, o, s, e, a, j);
    }
  }

  lemma ListedEarlier(rs: seq<Request>, o: seq<nat>, s: nat, e: nat, a: nat, j: nat)
    requires Backward(rs) && Ordering(rs, o, s, e) && s <= e <= |rs|
    requires a < |Around(o, s, e, |rs|)| && j < |rs|
    requires Around(o, s, e, |rs|)[a] < |rs| && rs[j].key in rs[Around(o, s, e, |rs|)[a]].deps
    ensures j in Around(o, s, e, |rs|)[..a]
  {
    hide Around, Permutes;
    AroundAt(rs, o, s, e);
    var r := Around(o, s, e, |rs|);
    assert j < r[a];
    if j < s || e <= j {
      assert r[j] == j && j < a;
      assert r[..a][j] == j;
    } else {
      assert j in o;
      var c :| 0 <= c < |o| && o[c] == j;
      assert r[s + c] == j;
      if s <= a < e {
        WaitsForItself(rs, j);
        assert LeadsTo(rs, j, r[a]);
        assert !(a - s < c);
      }
      assert s + c < a;
      assert r[..a][s + c] == j;
    }
  }

  // ---- And a world that shows it -------------------------------------------

  // A workspace on which the changes succeed, if there is one.
  ghost function Suited(cs: seq<Change>): Workspace {
    if Apart(TraceOf(cs).needs) then Files(TraceOf(cs).needs, _ => "") else EMPTY
  }

  lemma SuitedSucceeds(cs: seq<Change>)
    requires Shaped(cs)
    ensures Applied(cs, Suited(cs)).Some?
  {
    hide Shaped, Applied, TraceOf, Reads, Files, Receives, Supplies;
    var fs := TraceOf(cs).needs;
    forall f | f in fs ensures exists c :: c in cs && Reads(c, f) { NeedsAreRead(cs, f); }
    SourcesAreApart(cs, fs);
    FilesAreReceived(cs, fs, _ => "");
    SucceedsIff(cs, Suited(cs));
  }

  // What the stretch that ends at c finds: at e the given workspace, elsewhere a suited one.
  ghost function Found(t: TaskType, steps: seq<PlanStep>, e: nat, w: Workspace, c: nat): Workspace
    requires c <= |steps|
  {
    if c == e then w else Suited(PartChanges(t, steps, c))
  }

  ghost function Handing(t: TaskType, steps: seq<PlanStep>, e: nat, w: Workspace): World {
    (n: nat, v: Workspace) => if n < |steps| then Some(Found(t, steps, e, w, NextCut(t, steps, n + 1))) else None
  }

  lemma NextCutOfStart(t: TaskType, steps: seq<PlanStep>, e: nat)
    requires Cut(t, steps, e)
    ensures NextCut(t, steps, StretchStart(t, steps, e)) == e
  {
    hide IsBarrier;
    var c := NextCut(t, steps, StretchStart(t, steps, e));
    assert !(c < e) && !(e < c);
  }

  lemma {:induction false} FoundThere(t: TaskType, steps: seq<PlanStep>, e: nat, w: Workspace, c: nat)
    requires Plain(t, steps) && Cut(t, steps, e) && GetsTo(t, steps, e) && Cut(t, steps, c) && c <= e
    ensures Run(Doing(t, Handing(t, steps, e, w), steps), Counting(StretchStart(t, steps, c)),
                Found(t, steps, e, w, NextCut(t, steps, 0))) == Some(Found(t, steps, e, w, c))
    decreases c
  {
    hide Plain, Run, Found, Doing, Handing, GetsTo, NextCut, StretchStart;
    var s := StretchStart(t, steps, c);
    NextCutOfStart(t, steps, c);
    if s > 0 {
      FoundThere(t, steps, e, w, s - 1);
      HandsOver(t, steps, e, w, s - 1);
    } else {
      BeforeStretch(Doing(t, Handing(t, steps, e, w), steps), [], 0, 0, Found(t, steps, e, w, NextCut(t, steps, 0)));
    }
  }

  // From the start of one stretch, through it and the barrier b, to the start of the next.
  lemma HandsOver(t: TaskType, steps: seq<PlanStep>, e: nat, w: Workspace, b: nat)
    requires Plain(t, steps) && GetsTo(t, steps, e) && Cut(t, steps, b) && b < e <= |steps|
    requires Run(Doing(t, Handing(t, steps, e, w), steps), Counting(StretchStart(t, steps, b)),
                 Found(t, steps, e, w, NextCut(t, steps, 0))) == Some(Found(t, steps, e, w, b))
    ensures Run(Doing(t, Handing(t, steps, e, w), steps), Counting(b + 1), Found(t, steps, e, w, NextCut(t, steps, 0)))
      == Some(Found(t, steps, e, w, NextCut(t, steps, b + 1)))
  {
    hide Plain, Run, Shaped, Suited, NextCut, StretchStart, Applied, ChangesOf;
    var act, s := Doing(t, Handing(t, steps, e, w), steps), StretchStart(t, steps, b);
    var v := Found(t, steps, e, w, NextCut(t, steps, 0));
    assert Counting(b) == Counting(s) + Part(t, steps, b);
    RunSplit(act, Counting(s), Part(t, steps, b), v);
    PartReorders(t, steps, b);
    ReorderedRun(t, Handing(t, steps, e, w), steps, Part(t, steps, b), b, Found(t, steps, e, w, b));
    SuitedSucceeds(PartChanges(t, steps, b));
    CountingOn(b + 1);
    RunLast(act, Counting(b), b, v);
  }

  lemma DifferenceSeen(t: TaskType, steps: seq<PlanStep>, o: seq<nat>, e: nat)
    returns (world: World, order: seq<nat>, w: Workspace)
    requires Plain(t, steps) && NoRepeats(Keys(steps)) && Reorders(t, steps, o, e) && GetsTo(t, steps, e)
    requires Shaped(PartChanges(t, steps, e))
    requires TraceOf(ChangesOf(steps, o)) != TraceOf(PartChanges(t, steps, e))
    ensures Allowed(Compiled(t, steps), order) && !AsListed(t, world, steps, order, w)
  {
    hide Plain, Run, Shaped, TraceOf, Doing, Handing, Found, GetsTo, Applied, Compiled, LeadsTo, Allowed, NextCut;
    hide StretchStart, Around, ChangesOf, Keys, Part, AsListed;
    var s, rs := StretchStart(t, steps, e), Compiled(t, steps);
    SameSteps(t, steps, o, e);
    var v := DifferenceShows(PartChanges(t, steps, e), ChangesOf(steps, o));
    world := Handing(t, steps, e, v);
    w := Found(t, steps, e, v, NextCut(t, steps, 0));
    order := Around(o, s, e, |steps|);
    CompiledIsBackward(t, steps);
    AroundIsAllowed(rs, o, s, e);
    AroundAt(rs, o, s, e);
    SeenAtCut(t, world, steps, o, e, v, w, order);
  }

  lemma SeenAtCut(
    t: TaskType, world: World, steps: seq<PlanStep>, o: seq<nat>, e: nat, v: Workspace, w: Workspace, order: seq<nat>)
    requires Plain(t, steps) && Reorders(t, steps, o, e) && GetsTo(t, steps, e)
    requires SeenApart(PartChanges(t, steps, e), ChangesOf(steps, o), v)
    requires world == Handing(t, steps, e, v) && w == Found(t, steps, e, v, NextCut(t, steps, 0))
    requires |order| == |steps| && order[..e] == Counting(StretchStart(t, steps, e)) + o
    ensures !AsListed(t, world, steps, order, w)
  {
    hide Plain, Run, Doing, Handing, GetsTo, Applied, LeadsTo, Compiled, NextCut, StretchStart, ChangesOf;
    var s, act := StretchStart(t, steps, e), Doing(t, world, steps);
    FoundThere(t, steps, e, v, e);
    RunSplit(act, Counting(s), o, w);
    assert Counting(e) == Counting(s) + Part(t, steps, e);
    RunSplit(act, Counting(s), Part(t, steps, e), w);
    PartReorders(t, steps, e);
    ReorderedRun(t, world, steps, o, e, v);
    ReorderedRun(t, world, steps, Part(t, steps, e), e, v);
    assert Run(act, order[..e], w) != Run(act, Counting(e), w);
  }

  // ---- Exactly -------------------------------------------------------------

  // Whatever barriers do, and whatever the workspace: every order the graph allows shows
  // each barrier, and leaves at the end, exactly what the list does, if and only if in
  // each stretch the list can get through all those orders have the list's trace.
  lemma PreservedIff(t: TaskType, steps: seq<PlanStep>)
    requires Plain(t, steps) && NoRepeats(Keys(steps))
    ensures TracesAgree(t, steps) <==>
      (forall world: World, order: seq<nat>, w: Workspace | Allowed(Compiled(t, steps), order) ::
         AsListed(t, world, steps, order, w))
  {
    hide Plain, Allowed, Compiled, Run, Keys, AsListed, Shaped, TraceOf, Ordering, GetsTo, PartChanges, ChangesOf;
    if TracesAgree(t, steps) {
      forall world: World, order: seq<nat>, w: Workspace | Allowed(Compiled(t, steps), order)
        ensures AsListed(t, world, steps, order, w)
      {
        TracesSuffice(t, world, steps, order, w);
      }
    } else {
      var e: nat, o :|
        && Reorders(t, steps, o, e) && GetsTo(t, steps, e) && Shaped(PartChanges(t, steps, e))
        && TraceOf(ChangesOf(steps, o)) != TraceOf(PartChanges(t, steps, e));
      var world, order, w := DifferenceSeen(t, steps, o, e);
    }
  }

  // ---- Conditions that can be checked step by step -------------------------

  lemma PrefixPermutes(t: TaskType, steps: seq<PlanStep>, order: seq<nat>, e: nat)
    requires Plain(t, steps) && Allowed(Compiled(t, steps), order) && Cut(t, steps, e)
    ensures |order| == |steps| && Permutes(order[..e], e)
  {
    hide Plain, Compiled, LeadsTo;
    CutsHold(t, steps, order, e);
  }

  lemma FaithfulAsListed(t: TaskType, world: World, steps: seq<PlanStep>, order: seq<nat>, w: Workspace)
    requires Plain(t, steps) && Faithful(t, steps) && Allowed(Compiled(t, steps), order)
    ensures AsListed(t, world, steps, order, w)
  {
    hide Plain, Faithful, Compiled, Run, Doing, Commute;
    InversionsAreIndependent(t, world, steps, order);
    forall e | Cut(t, steps, e)
      ensures |order| == |steps|
      ensures Run(Doing(t, world, steps), order[..e], w) == Run(Doing(t, world, steps), Counting(e), w)
    {
      PrefixPermutes(t, steps, order, e);
      SortByCommuting(Doing(t, world, steps), order[..e], e, w);
    }
  }

  // Where no two loose steps clash, the traces agree; without copies they agree exactly
  // when the final writes do.
  lemma StepByStep(t: TaskType, steps: seq<PlanStep>)
    requires Plain(t, steps) && NoRepeats(Keys(steps))
    ensures Faithful(t, steps) ==> TracesAgree(t, steps)
    ensures CopyFree(steps) ==> (FinalsAgree(t, steps) <==> TracesAgree(t, steps))
  {
    hide Plain, Faithful, Allowed, Compiled, Keys, AsListed, TracesAgree, FinalsAgree, CopyFree;
    PreservedIff(t, steps);
    if CopyFree(steps) { CopyFreePreservedIff(t, steps); }
    if Faithful(t, steps) {
      forall world: World, order: seq<nat>, w: Workspace | Allowed(Compiled(t, steps), order)
        ensures AsListed(t, world, steps, order, w)
      {
        FaithfulAsListed(t, world, steps, order, w);
      }
    }
  }
}
