// Plans whose writes read nothing, which all app plans are: exactly when every order the
// graph allows shows every barrier, and leaves at the end, what the list does
// (src/jev-planner.js, lines 132-216).

module Stretches {
  import opened Basics
  import opened Dag
  import opened GraphShape
  import opened Nodes
  import opened Scheduler
  import opened Paths
  import opened Workspaces
  import opened Planner
  import opened Commuting
  import opened PlanMeaning
  import opened Overlays

  predicate CopyFree(steps: seq<PlanStep>) {
    forall n | 0 <= n < |steps| :: !steps[n].kind.AssetCopy?
  }

  lemma AppPlansAreCopyFree(steps: seq<PlanStep>)
    requires Plain(App, steps)
    ensures CopyFree(steps)
  {
  }

  // Where a barrier, or the caller, sees the workspace.
  predicate Cut(t: TaskType, steps: seq<PlanStep>, e: int) {
    0 <= e <= |steps| && (e < |steps| ==> IsBarrier(t, steps[e].kind))
  }

  function NextCut(t: TaskType, steps: seq<PlanStep>, n: nat): (e: nat)
    requires n <= |steps|
    ensures n <= e && Cut(t, steps, e) && forall m | n <= m < e :: !IsBarrier(t, steps[m].kind)
    decreases |steps| - n
  {
    if n == |steps| || IsBarrier(t, steps[n].kind) then n else NextCut(t, steps, n + 1)
  }

  // Where the stretch ending at n began.
  function StretchStart(t: TaskType, steps: seq<PlanStep>, n: nat): (s: nat)
    requires n <= |steps|
    ensures s <= n && forall m | s <= m < n :: !IsBarrier(t, steps[m].kind)
    ensures s > 0 ==> Cut(t, steps, s - 1)
  {
    var b := LastBarrier(t, steps, n);
    if b.Some? then b.value + 1 else 0
  }

  // The orders in which every barrier, and the caller at the end, finds the workspace
  // it would find running the list.
  ghost predicate AsListed(t: TaskType, world: World, steps: seq<PlanStep>, order: seq<nat>, w: Workspace) {
    && |order| == |steps|
    && forall e | Cut(t, steps, e) ::
         Run(Doing(t, world, steps), order[..e], w) == Run(Doing(t, world, steps), Counting(e), w)
  }

  // ---- The condition ------------------------------------------------------

  // No two writes of one stretch before e make a file and a folder of one place, and none
  // leaves the workspace.
  ghost predicate Fitting(t: TaskType, steps: seq<PlanStep>, e: int) {
    && (forall m | 0 <= m < |steps| && m < e && !IsBarrier(t, steps[m].kind) :: Doable(ChangeOf(steps[m])))
    && (forall j, i | SameStretch(t, steps, j, i) && i < e ::
          Compatible(Writes(ChangeOf(steps[j])), Writes(ChangeOf(steps[i]))))
  }

  predicate SamePlace(c: Change, d: Change) {
    c.Put? && d.Put? && c.at == d.at
  }

  // A write of a file that no later write of the same file in its stretch waits for.
  ghost predicate Final(t: TaskType, steps: seq<PlanStep>, j: int) {
    && 0 <= j < |steps|
    && forall m | SameStretch(t, steps, j, m) && LeadsTo(Compiled(t, steps), j, m) ::
         !SamePlace(ChangeOf(steps[j]), ChangeOf(steps[m]))
  }

  // In every stretch the list can get through, two final writes of one file agree.
  ghost predicate FinalsAgree(t: TaskType, steps: seq<PlanStep>) {
    forall j, i |
      && SameStretch(t, steps, j, i) && Final(t, steps, j) && Final(t, steps, i)
      && SamePlace(ChangeOf(steps[j]), ChangeOf(steps[i])) && Fitting(t, steps, NextCut(t, steps, i)) ::
      ChangeOf(steps[j]) == ChangeOf(steps[i])
  }

  // Where no two loose steps clash, final writes agree.
  lemma FaithfulFinalsAgree(t: TaskType, steps: seq<PlanStep>)
    requires Faithful(t, steps)
    ensures FinalsAgree(t, steps)
  {
    forall j, i |
      && SameStretch(t, steps, j, i) && Final(t, steps, j) && Final(t, steps, i)
      && SamePlace(ChangeOf(steps[j]), ChangeOf(steps[i])) && Fitting(t, steps, NextCut(t, steps, i))
      ensures ChangeOf(steps[j]) == ChangeOf(steps[i])
    {
      assert !LeadsTo(Compiled(t, steps), j, i);
      assert Doable(ChangeOf(steps[j])) && Doable(ChangeOf(steps[i]));
    }
  }

  // ---- Barriers stay where they are ---------------------------------------

  lemma BarrierStays(t: TaskType, steps: seq<PlanStep>, order: seq<nat>, q: nat)
    requires Plain(t, steps) && Allowed(Compiled(t, steps), order)
    requires q < |order| && order[q] < |steps| && IsBarrier(t, steps[order[q]].kind)
    ensures forall i: nat :: i in order[..q] <==> i < order[q]
  {
    hide DependsOn, KeyOf, LeadsTo, PathOf, PathsInterfere;
    var b := order[q];
    forall i: nat | i < b ensures i in order[..q] {
      EarlierLeads(t, steps, i, b);
      LeadsToIsEarlier(Compiled(t, steps), order, q, i);
    }
    forall i: nat | i in order[..q] ensures i < b {
      var c :| 0 <= c < q && order[c] == i;
      assert i in order;
      if b < i {
        LaterWaits(t, steps, b, i);
        LeadsToIsEarlier(Compiled(t, steps), order, c, b);
        LaterIsNotEarlier(order, c, q);
      }
    }
  }

  lemma EarlierLeads(t: TaskType, steps: seq<PlanStep>, i: nat, b: nat)
    requires Plain(t, steps) && i < b < |steps| && IsBarrier(t, steps[b].kind)
    ensures LeadsTo(Compiled(t, steps), i, b)
  {
    hide LeadsTo;
    KeptUnlessApart(t, steps, b, i);
    KeptLeadsTo(Compiled(t, steps), b, i);
  }

  lemma LaterWaits(t: TaskType, steps: seq<PlanStep>, b: nat, i: nat)
    requires Plain(t, steps) && b < i < |steps| && IsBarrier(t, steps[b].kind)
    ensures LeadsTo(Compiled(t, steps), b, i)
  {
    hide LeadsTo;
    KeptUnlessApart(t, steps, i, b);
    KeptLeadsTo(Compiled(t, steps), i, b);
  }

  lemma AllPlaced(order: seq<nat>, n: nat)
    requires Permutes(order, n)
    ensures forall i: nat :: i in order <==> i < n
  {
    forall i: nat | i < n ensures i in order {
      if i !in order {
        forall k | 0 <= k < |order| ensures order[k] in Upto(n) - {i} { assert order[k] in order; }
        assert |Upto(n) - {i}| == n - 1;
        var a, b := Pigeonhole(order, Upto(n) - {i});
      }
    }
  }

  // A prefix without repeats that holds exactly 0, ..., b - 1 has length b.
  lemma PrefixLength(order: seq<nat>, q: nat, b: nat)
    requires NoRepeats(order) && q <= |order| && forall i: nat :: i in order[..q] <==> i < b
    ensures q == b
  {
    var p := order[..q];
    if q > b {
      forall k | 0 <= k < |p| ensures p[k] in Upto(b) { assert p[k] in p; }
      var x, y := Pigeonhole(p, Upto(b));
      assert false;
    }
    if q < b {
      var at := seq(b, i requires 0 <= i < b => PositionOf(p, i));
      var x, y := Pigeonhole(at, Upto(q));
      assert false;
    }
  }

  function PositionOf(p: seq<nat>, i: nat): (k: nat)
    requires i in p
    ensures k < |p| && p[k] == i
  {
    if p[0] == i then 0 else 1 + PositionOf(p[1..], i)
  }

  // An allowed order does the barriers at their own places in the list, and between two
  // of them the steps the list has there.
  lemma CutsHold(t: TaskType, steps: seq<PlanStep>, order: seq<nat>, e: nat)
    requires Plain(t, steps) && Allowed(Compiled(t, steps), order) && Cut(t, steps, e)
    ensures forall i: nat :: i in order[..e] <==> i < e
    ensures e < |steps| ==> order[e] == e
  {
    hide Plain, Compiled, LeadsTo;
    AllPlaced(order, |steps|);
    if e == |steps| {
      assert order[..e] == order;
    } else {
      assert e in order;
      var q :| 0 <= q < |order| && order[q] == e;
      BarrierStays(t, steps, order, q);
      PrefixLength(order, q, e);
    }
  }

  // ---- One stretch ---------------------------------------------------------

  // Steps s, ..., e - 1 lie between two barriers.
  ghost predicate Stretch(t: TaskType, steps: seq<PlanStep>, s: int, e: int) {
    0 <= s <= e && Cut(t, steps, e) && forall m | s <= m < e :: !IsBarrier(t, steps[m].kind)
  }

  // An order of exactly these steps, none before one it waits for.
  ghost predicate Ordering(rs: seq<Request>, o: seq<nat>, s: int, e: int) {
    && (forall i: nat :: i in o <==> s <= i < e)
    && (forall a, b | 0 <= a < b < |o| :: !LeadsTo(rs, o[b], o[a]))
  }

  function ChangesOf(steps: seq<PlanStep>, o: seq<nat>): (cs: seq<Change>)
    requires forall k | 0 <= k < |o| :: o[k] < |steps|
    ensures |cs| == |o| && forall k | 0 <= k < |o| :: cs[k] == ChangeOf(steps[o[k]])
  {
    seq(|o|, k requires 0 <= k < |o| => ChangeOf(steps[o[k]]))
  }

  lemma ChangesIn(steps: seq<PlanStep>, o: seq<nat>, s: int, e: int)
    requires 0 <= s <= e <= |steps| && forall i: nat :: i in o <==> s <= i < e
    requires forall k | 0 <= k < |o| :: o[k] < |steps|
    ensures forall c :: c in ChangesOf(steps, o) <==> exists i :: s <= i < e && c == ChangeOf(steps[i])
  {
    hide ChangeOf;
    forall c ensures c in ChangesOf(steps, o) <==> exists i :: s <= i < e && c == ChangeOf(steps[i]) {
      if i :| s <= i < e && c == ChangeOf(steps[i]) {
        var n: nat := i;
        assert n in o;
        var k :| 0 <= k < |o| && o[k] == n;
        assert ChangesOf(steps, o)[k] == c;
      }
      if c in ChangesOf(steps, o) {
        var k :| 0 <= k < |o| && ChangesOf(steps, o)[k] == c;
        assert o[k] in o;
      }
    }
  }

  lemma WriteHasNoCopy(step: PlanStep)
    requires !step.kind.AssetCopy?
    ensures !ChangeOf(step).Copy?
  {
  }

  lemma {:induction false} RunIsApplied(t: TaskType, world: World, steps: seq<PlanStep>, o: seq<nat>, w: Workspace)
    requires Plain(t, steps)
    requires forall k | 0 <= k < |o| :: o[k] < |steps| && !IsBarrier(t, steps[o[k]].kind)
    ensures Run(Doing(t, world, steps), o, w) == Applied(ChangesOf(steps, o), w)
  {
    hide ChangeOf, ApplyChange, IsBarrier, Recognised;
    if o != [] {
      var init, last := o[..|o| - 1], o[|o| - 1];
      RunIsApplied(t, world, steps, init, w);
      assert ChangesOf(steps, o)[..|o| - 1] == ChangesOf(steps, init);
    }
  }

  // The last write of a file, in any order of the stretch, is a final one.
  lemma LastIsFinal(t: TaskType, steps: seq<PlanStep>, o: seq<nat>, s: int, e: int, p: Location, k: int)
    requires Stretch(t, steps, s, e) && Ordering(Compiled(t, steps), o, s, e)
    requires forall k | 0 <= k < |o| :: o[k] < |steps|
    requires LastToWrite(ChangesOf(steps, o), p, k) && Writes(ChangesOf(steps, o)[k])[p].File?
    ensures Final(t, steps, o[k]) && ChangeOf(steps[o[k]]).Put? && ChangeOf(steps[o[k]]).at == p
  {
    hide ChangeOf, Writes, LeadsTo;
    var j, cs := o[k], ChangesOf(steps, o);
    assert o[k] in o;
    WrittenHere(cs[k], p);
    forall m | SameStretch(t, steps, j, m) && LeadsTo(Compiled(t, steps), j, m)
      ensures !SamePlace(ChangeOf(steps[j]), ChangeOf(steps[m]))
    {
      assert m < e;
      assert m in o;
      var q :| 0 <= q < |o| && o[q] == m;
      if SamePlace(ChangeOf(steps[j]), ChangeOf(steps[m])) {
        assert k < q;
        WritesItsPlace(cs[q]);
      }
    }
  }

  lemma WritesItsPlace(c: Change)
    requires c.Put?
    ensures c.at in Writes(c)
  {
  }

  lemma NextCutOfStretch(t: TaskType, steps: seq<PlanStep>, s: int, e: int, i: nat)
    requires Stretch(t, steps, s, e) && s <= i < e
    ensures NextCut(t, steps, i) == e
  {
    var c := NextCut(t, steps, i);
    assert !(c < e) && !(e < c);
  }

  // Two orders of one stretch agree on every file.
  lemma LastsAgree(
    t: TaskType, steps: seq<PlanStep>, o: seq<nat>, u: seq<nat>, s: int, e: int, p: Location, a: int, b: int)
    requires FinalsAgree(t, steps) && Fitting(t, steps, e) && Stretch(t, steps, s, e)
    requires Ordering(Compiled(t, steps), o, s, e) && Ordering(Compiled(t, steps), u, s, e)
    requires forall k | 0 <= k < |o| :: o[k] < |steps|
    requires forall k | 0 <= k < |u| :: u[k] < |steps|
    requires LastToWrite(ChangesOf(steps, o), p, a) && LastToWrite(ChangesOf(steps, u), p, b)
    ensures Writes(ChangesOf(steps, o)[a])[p] == Writes(ChangesOf(steps, u)[b])[p]
  {
    hide ChangeOf, Writes, LeadsTo, Ordering, Final, Doable, NextCut;
    var c, d := ChangesOf(steps, o)[a], ChangesOf(steps, u)[b];
    InStretch(Compiled(t, steps), o, s, e, a);
    InStretch(Compiled(t, steps), u, s, e, b);
    FitAtAll(t, steps, s, e, o[a], u[b]);
    assert Writes(c)[p].Folder? == Writes(d)[p].Folder?;
    if Writes(c)[p].File? {
      LastIsFinal(t, steps, o, s, e, p, a);
      LastIsFinal(t, steps, u, s, e, p, b);
      NextCutOfStretch(t, steps, s, e, o[a]);
      NextCutOfStretch(t, steps, s, e, u[b]);
    }
  }

  lemma InStretch(rs: seq<Request>, o: seq<nat>, s: int, e: int, a: int)
    requires Ordering(rs, o, s, e) && 0 <= a < |o|
    ensures s <= o[a] < e
  {
    assert o[a] in o;
  }

  lemma FitAtAll(t: TaskType, steps: seq<PlanStep>, s: int, e: int, j: nat, i: nat)
    requires Fitting(t, steps, e) && Stretch(t, steps, s, e) && s <= j < e && s <= i < e
    ensures Compatible(Writes(ChangeOf(steps[j])), Writes(ChangeOf(steps[i])))
  {
    hide ChangeOf, Writes, Doable;
    if j < i { assert SameStretch(t, steps, j, i); }
    if i < j { assert SameStretch(t, steps, i, j); }
  }

  // ---- Enough --------------------------------------------------------------

  lemma StretchOfOrder(t: TaskType, steps: seq<PlanStep>, order: seq<nat>, e: nat)
    requires Plain(t, steps) && Allowed(Compiled(t, steps), order) && Cut(t, steps, e)
    ensures var s := StretchStart(t, steps, e);
      && Stretch(t, steps, s, e) && |order| == |steps| && Ordering(Compiled(t, steps), order[s..e], s, e)
      && (s > 0 ==> order[s - 1] == s - 1)
  {
    hide Plain, LeadsTo, Compiled;
    var s, rs := StretchStart(t, steps, e), Compiled(t, steps);
    CutsHold(t, steps, order, e);
    if s > 0 { CutsHold(t, steps, order, s - 1); }
    if s > 0 { assert order[..s] == order[..s - 1] + [s - 1]; }
    Slice(order, s, e);
    var o := order[s..e];
    forall a, b | 0 <= a < b < |o| ensures !LeadsTo(rs, o[b], o[a]) {
      LaterIsNotEarlier(order, s + a, s + b);
      if LeadsTo(rs, o[b], o[a]) { LeadsToIsEarlier(rs, order, s + a, order[s + b]); }
    }
  }

  lemma Slice(order: seq<nat>, s: nat, e: nat)
    requires NoRepeats(order) && s <= e <= |order|
    requires forall i: nat :: i in order[..e] <==> i < e
    requires forall i: nat :: i in order[..s] <==> i < s
    ensures forall i: nat :: i in order[s..e] <==> s <= i < e
  {
    var x, y := order[..s], order[s..e];
    assert order[..e] == x + y;
    forall i: nat ensures i in y <==> s <= i < e {
      assert i in x + y <==> i in x || i in y;
      if i in y {
        var k :| 0 <= k < e - s && y[k] == i;
        assert order[s + k] == i;
      }
    }
  }

  lemma CountingOrders(rs: seq<Request>, s: nat, e: nat)
    requires s <= e
    ensures Ordering(rs, Counting(e)[s..], s, e)
  {
    var o := Counting(e)[s..];
    forall i: nat | s <= i < e ensures i in o { assert o[i - s] == i; }
  }

  // What one stretch does to a workspace, in either order.
  lemma StretchAlike(
    t: TaskType, world: World, steps: seq<PlanStep>, o: seq<nat>, u: seq<nat>, s: int, e: int, v: Workspace)
    requires Plain(t, steps) && CopyFree(steps) && FinalsAgree(t, steps) && Stretch(t, steps, s, e)
    requires Ordering(Compiled(t, steps), o, s, e) && Ordering(Compiled(t, steps), u, s, e)
    requires s > 0 ==> Cut(t, steps, s - 1) && Fitting(t, steps, s - 1)
    ensures Run(Doing(t, world, steps), o, v) == Run(Doing(t, world, steps), u, v)
    ensures Run(Doing(t, world, steps), u, v).Some? ==> Fitting(t, steps, e)
  {
    hide Run, Applied, Overlaid, ChangeOf, Writes, LeadsTo, Compatible, Plain, FinalsAgree;
    forall k | 0 <= k < |o| ensures s <= o[k] < e { assert o[k] in o; }
    forall k | 0 <= k < |u| ensures s <= u[k] < e { assert u[k] in u; }
    RunIsApplied(t, world, steps, o, v);
    RunIsApplied(t, world, steps, u, v);
    var cs, ds := ChangesOf(steps, o), ChangesOf(steps, u);
    ChangesIn(steps, o, s, e);
    ChangesIn(steps, u, s, e);
    assert forall c | c in cs :: !c.Copy? by { CopyFreeChanges(steps, o); }
    assert forall c | c in ds :: !c.Copy? by { CopyFreeChanges(steps, u); }
    AppliedIs(cs, v);
    AppliedIs(ds, v);
    SameSuccess(cs, ds, v);
    if Together(ds) && Welcome(v, ds) {
      FittingOn(t, steps, u, s, e);
      forall p, a, b | LastToWrite(cs, p, a) && LastToWrite(ds, p, b) ensures Writes(cs[a])[p] == Writes(ds[b])[p] {
        LastsAgree(t, steps, o, u, s, e, p, a, b);
      }
      SameOverlay(cs, ds, v);
    }
  }

  lemma CopyFreeChanges(steps: seq<PlanStep>, o: seq<nat>)
    requires CopyFree(steps) && forall k | 0 <= k < |o| :: o[k] < |steps|
    ensures forall c | c in ChangesOf(steps, o) :: !c.Copy?
  {
    hide ChangeOf;
    forall k | 0 <= k < |o| ensures !ChangesOf(steps, o)[k].Copy? { WriteHasNoCopy(steps[o[k]]); }
  }

  lemma FittingOn(t: TaskType, steps: seq<PlanStep>, u: seq<nat>, s: int, e: int)
    requires Stretch(t, steps, s, e) && (s > 0 ==> Cut(t, steps, s - 1) && Fitting(t, steps, s - 1))
    requires Ordering(Compiled(t, steps), u, s, e) && forall k | 0 <= k < |u| :: u[k] < |steps|
    requires Together(ChangesOf(steps, u))
    ensures Fitting(t, steps, e)
  {
    hide ChangeOf, Writes, LeadsTo, Compatible, Doable;
    ChangesIn(steps, u, s, e);
    var ds := ChangesOf(steps, u);
    forall j, i | SameStretch(t, steps, j, i) && i < e
      ensures Compatible(Writes(ChangeOf(steps[j])), Writes(ChangeOf(steps[i])))
    {
      if j >= s {
        assert ChangeOf(steps[j]) in ds && ChangeOf(steps[i]) in ds;
      } else {
        assert i < s - 1;
      }
    }
  }

  // The orders the graph allows show every barrier, and the caller, what the list shows.
  lemma {:induction false} SeenAlike(
    t: TaskType, world: World, steps: seq<PlanStep>, order: seq<nat>, w: Workspace, e: nat)
    requires Plain(t, steps) && CopyFree(steps) && FinalsAgree(t, steps)
    requires Allowed(Compiled(t, steps), order) && Cut(t, steps, e)
    ensures |order| == |steps|
    ensures Run(Doing(t, world, steps), order[..e], w) == Run(Doing(t, world, steps), Counting(e), w)
    ensures Run(Doing(t, world, steps), Counting(e), w).Some? ==> Fitting(t, steps, e)
    decreases e
  {
    hide Plain, CopyFree, FinalsAgree, Allowed, Compiled, Run, Ordering, Fitting;
    var s, act := StretchStart(t, steps, e), Doing(t, world, steps);
    StretchOfOrder(t, steps, order, e);
    CountingOrders(Compiled(t, steps), s, e);
    BeforeStretch(act, order, s, e, w);
    if s > 0 {
      SeenAlike(t, world, steps, order, w, s - 1);
    }
    var before := Run(act, Counting(s), w);
    if before.Some? {
      StretchAlike(t, world, steps, order[s..e], Counting(e)[s..], s, e, before.value);
    }
  }

  // A run up to the end of a stretch: up to the barrier before it, the barrier, the stretch.
  lemma BeforeStretch<S>(act: (nat, S) -> Option<S>, order: seq<nat>, s: nat, e: nat, w: S)
    requires s <= e <= |order| && (s > 0 ==> order[s - 1] == s - 1)
    ensures Run(act, Counting(0), w) == Some(w) == Run(act, order[..0], w)
    ensures s > 0 ==> Run(act, order[..s], w) == Chain(act, Run(act, order[..s - 1], w), s - 1)
    ensures s > 0 ==> Run(act, Counting(s), w) == Chain(act, Run(act, Counting(s - 1), w), s - 1)
    ensures Run(act, order[..e], w) ==
      if Run(act, order[..s], w).None? then None else Run(act, order[s..e], Run(act, order[..s], w).value)
    ensures Run(act, Counting(e), w) ==
      if Run(act, Counting(s), w).None? then None else Run(act, Counting(e)[s..], Run(act, Counting(s), w).value)
  {
    assert order[..e] == order[..s] + order[s..e];
    RunSplit(act, order[..s], order[s..e], w);
    assert Counting(e) == Counting(s) + Counting(e)[s..];
    RunSplit(act, Counting(s), Counting(e)[s..], w);
    if s > 0 {
      assert order[..s] == order[..s - 1] + [s - 1];
      RunLast(act, order[..s - 1], s - 1, w);
      CountingOn(s);
      RunLast(act, Counting(s - 1), s - 1, w);
    }
  }

  // ---- And no less ---------------------------------------------------------

  // Step z and what waits for it, held back to the end of the stretch.
  ghost function Rank(rs: seq<Request>, z: nat, s: nat, e: nat, i: nat): nat {
    if i < s then 0 else if i >= e then 3 else if LeadsTo(rs, z, i) then 2 else 1
  }

  ghost function Ranking(rs: seq<Request>, z: nat, s: nat, e: nat): nat -> nat {
    (i: nat) => Rank(rs, z, s, e, i)
  }

  ghost function Delaying(rs: seq<Request>, z: nat, s: nat, e: nat): (o: seq<nat>) {
    RankByRank(Ranking(rs, z, s, e), |rs|)
  }

  lemma {:induction false} LeadsToTransitive(rs: seq<Request>, x: int, y: int, z: int)
    requires LeadsTo(rs, x, y) && LeadsTo(rs, y, z)
    ensures LeadsTo(rs, x, z)
    decreases z
  {
    if y != z {
      var d :| y <= d < z && rs[d].key in rs[z].deps && LeadsTo(rs, y, d);
      LeadsToTransitive(rs, x, y, d);
    }
  }

  // Each step lists only earlier ones.
  ghost predicate Backward(rs: seq<Request>) {
    forall i, j | 0 <= i < |rs| && 0 <= j < |rs| && rs[j].key in rs[i].deps :: j < i
  }

  lemma CompiledIsBackward(t: TaskType, steps: seq<PlanStep>)
    requires Plain(t, steps) && NoRepeats(Keys(steps))
    ensures Backward(Compiled(t, steps))
  {
    hide PathsInterfere, PathOf, KeyOf, DependsOn, Plain;
    var rs := Compiled(t, steps);
    forall i, j | 0 <= i < |rs| && 0 <= j < |rs| && rs[j].key in rs[i].deps ensures j < i {
      ListedExactly(t, steps, i, rs[j].key);
      var x :| Listed(t, steps, i, x) && rs[j].key == KeyOf(steps, x);
      SameKeySameStep(steps, j, x);
    }
  }

  lemma ListedRanksLower(rs: seq<Request>, z: nat, s: nat, e: nat, j: nat, i: nat)
    requires Backward(rs) && i < |rs| && j < |rs| && rs[j].key in rs[i].deps
    ensures j < i && Rank(rs, z, s, e, j) <= Rank(rs, z, s, e, i)
  {
    assert LeadsTo(rs, j, j);
    assert LeadsTo(rs, j, i);
    if LeadsTo(rs, z, j) { LeadsToTransitive(rs, z, j, i); }
    hide LeadsTo;
  }

  lemma DelayingIsAllowed(rs: seq<Request>, z: nat, s: nat, e: nat)
    requires Backward(rs)
    ensures Allowed(rs, Delaying(rs, z, s, e))
  {
    hide LeadsTo;
    var rank := Ranking(rs, z, s, e);
    var order := Delaying(rs, z, s, e);
    RankByRankPermutes(rank, |rs|);
    AllPlaced(order, |rs|);
    hide Rank, Permutes, Backward;
    forall a, j | 0 <= a < |order| && 0 <= j < |rs| && order[a] < |rs| && rs[j].key in rs[order[a]].deps
      ensures j in order[..a]
    {
      ListedRanksLower(rs, z, s, e, j, order[a]);
      RankedEarlier(rank, order, a, j);
    }
  }

  // Up to the end of the stretch: the list up to its start, the steps let through, and
  // those held back.
  lemma DelayingUpTo(rs: seq<Request>, z: nat, s: nat, e: nat)
    requires s <= e <= |rs|
    ensures var order, rank := Delaying(rs, z, s, e), Ranking(rs, z, s, e);
      && |order| == |rs| && order[..s] == Counting(s)
      && order[s..e] == Ranked(rank, 1, |rs|) + Ranked(rank, 2, |rs|)
  {
    hide LeadsTo;
    var rank, n := Ranking(rs, z, s, e), |rs|;
    RankedCount(rank, n);
    LowestRank(rank, s, n);
    HighestRank(rank, e, n);
    hide Ranking;
    InParts(Ranked(rank, 0, n), Ranked(rank, 1, n), Ranked(rank, 2, n), Ranked(rank, 3, n), s, e);
  }

  lemma InParts(a: seq<nat>, b: seq<nat>, c: seq<nat>, d: seq<nat>, s: nat, e: nat)
    requires |a| == s <= e && |a + b + c| == e
    ensures (a + b + c + d)[..s] == a && (a + b + c + d)[s..e] == b + c
  {
  }

  lemma WaitsForItself(rs: seq<Request>, z: nat)
    requires z < |rs|
    ensures LeadsTo(rs, z, z)
  {
  }

  lemma InSecondPart(x: seq<nat>, y: seq<nat>, q: nat)
    requires q < |y| && forall a, b | 0 <= a < b < |y| :: y[a] < y[b]
    ensures (x + y)[|x| + q] == y[q]
    ensures forall m | 0 <= m < |x + y| :: (x + y)[m] in x || (x + y)[m] in y
    ensures forall m | |x| + q < m < |x + y| :: (x + y)[m] in y && (x + y)[m] > y[q]
  {
    forall m | |x| + q < m < |x + y| ensures (x + y)[m] in y && (x + y)[m] > y[q] {
      assert (x + y)[m] == y[m - |x|];
    }
  }

  lemma RanksOfStretch(rs: seq<Request>, z: nat, s: nat, e: nat)
    requires s <= z < e <= |rs|
    ensures z in Ranked(Ranking(rs, z, s, e), 2, |rs|)
    ensures forall i | i in Ranked(Ranking(rs, z, s, e), 1, |rs|) :: s <= i < e
    ensures forall i | i in Ranked(Ranking(rs, z, s, e), 2, |rs|) :: s <= i < e && LeadsTo(rs, z, i)
  {
    WaitsForItself(rs, z);
    hide LeadsTo, Ranked;
  }

  // Where the held back step comes in its stretch; what follows waits for it.
  lemma HeldBackAt(rs: seq<Request>, z: nat, s: nat, e: nat) returns (k: nat)
    requires s <= z < e <= |rs|
    ensures var o := Delaying(rs, z, s, e);
      && |o| == |rs| && k < e - s && o[s..e][k] == z
      && (forall i | i in o[s..e] :: s <= i < e)
      && (forall m | k < m < e - s :: z < o[s..e][m] && LeadsTo(rs, z, o[s..e][m]))
  {
    hide LeadsTo, Ranked, Ranking, Delaying;
    RanksOfStretch(rs, z, s, e);
    DelayingUpTo(rs, z, s, e);
    var ones, twos := Ranked(Ranking(rs, z, s, e), 1, |rs|), Ranked(Ranking(rs, z, s, e), 2, |rs|);
    var q :| 0 <= q < |twos| && twos[q] == z;
    InSecondPart(ones, twos, q);
    k := |ones| + q;
    assert forall i | i in ones + twos :: i in ones || i in twos;
  }

  // The held back step is the last of its stretch to write its file.
  lemma HeldBackIsLast(t: TaskType, steps: seq<PlanStep>, z: nat, s: nat, e: nat) returns (k: nat)
    requires Stretch(t, steps, s, e) && s <= z < e && Fitting(t, steps, e)
    requires Final(t, steps, z) && ChangeOf(steps[z]).Put?
    ensures var o := Delaying(Compiled(t, steps), z, s, e);
      && |o| == |steps| && (forall m | 0 <= m < e - s :: s <= o[s..e][m] < e)
      && k < e - s && o[s..e][k] == z
      && LastToWrite(ChangesOf(steps, o[s..e]), ChangeOf(steps[z]).at, k)
  {
    var rs := Compiled(t, steps);
    hide ChangeOf, Writes, LeadsTo, Delaying, Fitting, Final, Compiled, CompiledNode;
    k := HeldBackAt(rs, z, s, e);
    var o := Delaying(rs, z, s, e)[s..e];
    assert forall m | 0 <= m < e - s :: o[m] in o;
    var cs := ChangesOf(steps, o);
    PutLeavesFile(cs[k]);
    forall m | k < m < |o| ensures ChangeOf(steps[z]).at !in Writes(cs[m]) {
      NotWrittenAfter(t, steps, z, s, e, o[m]);
    }
  }

  lemma NotWrittenAfter(t: TaskType, steps: seq<PlanStep>, z: nat, s: nat, e: nat, i: nat)
    requires Stretch(t, steps, s, e) && s <= z < i < e && Fitting(t, steps, e)
    requires Final(t, steps, z) && ChangeOf(steps[z]).Put? && LeadsTo(Compiled(t, steps), z, i)
    ensures ChangeOf(steps[z]).at !in Writes(ChangeOf(steps[i]))
  {
    hide ChangeOf, LeadsTo, Doable, Wanted;
    var c, d := ChangeOf(steps[z]), ChangeOf(steps[i]);
    assert SameStretch(t, steps, z, i);
    FitAtAll(t, steps, s, e, z, i);
    if c.at in Writes(d) {
      PutLeavesFile(c);
      assert Writes(d)[c.at].File?;
      WrittenHere(d, c.at);
    }
  }

  lemma PutLeavesFile(c: Change)
    requires c.Put?
    ensures c.at in Writes(c) && Writes(c)[c.at] == File(c.content)
  {
  }

  // ---- A world that always hands back an empty workspace ------------------

  function Blank(n: nat, w: Workspace): Option<Workspace> { Some(EMPTY) }

  lemma FittingTogether(t: TaskType, steps: seq<PlanStep>, o: seq<nat>, s: nat, e: nat)
    requires Stretch(t, steps, s, e) && Fitting(t, steps, e)
    requires forall k | 0 <= k < |o| :: s <= o[k] < e
    ensures Together(ChangesOf(steps, o)) && Welcome(EMPTY, ChangesOf(steps, o))
  {
    hide ChangeOf, Writes, Doable;
    var cs := ChangesOf(steps, o);
    forall c, d | c in cs && d in cs ensures Compatible(Writes(c), Writes(d)) {
      var a :| 0 <= a < |cs| && cs[a] == c;
      var b :| 0 <= b < |cs| && cs[b] == d;
      FitAtAll(t, steps, s, e, o[a], o[b]);
    }
  }

  lemma StretchFromEmpty(t: TaskType, steps: seq<PlanStep>, o: seq<nat>, s: nat, e: nat)
    requires Plain(t, steps) && CopyFree(steps) && Stretch(t, steps, s, e) && Fitting(t, steps, e)
    requires forall k | 0 <= k < |o| :: s <= o[k] < e
    ensures Run(Doing(t, Blank, steps), o, EMPTY) == Some(Overlaid(ChangesOf(steps, o), EMPTY))
  {
    hide ChangeOf, Writes, Applied, Run, Together, Welcome, Fitting, Plain, Overlaid;
    RunIsApplied(t, Blank, steps, o, EMPTY);
    CopyFreeChanges(steps, o);
    FittingTogether(t, steps, o, s, e);
    AppliedIs(ChangesOf(steps, o), EMPTY);
  }

  lemma FittingBefore(t: TaskType, steps: seq<PlanStep>, b: int, e: int)
    requires Fitting(t, steps, e) && b <= e
    ensures Fitting(t, steps, b)
  {
    hide ChangeOf, Writes, Doable, Compatible;
  }

  lemma {:induction false} EmptyAtStart(t: TaskType, steps: seq<PlanStep>, e: nat)
    requires Plain(t, steps) && CopyFree(steps) && Cut(t, steps, e) && Fitting(t, steps, e)
    ensures Run(Doing(t, Blank, steps), Counting(StretchStart(t, steps, e)), EMPTY) == Some(EMPTY)
    decreases e
  {
    hide CopyFree, Run, Fitting, Plain, Doing, StretchStart;
    var s := StretchStart(t, steps, e);
    if s > 0 {
      FittingBefore(t, steps, s - 1, e);
      EmptyAtStart(t, steps, s - 1);
      ThroughStretch(t, steps, s - 1);
      EmptyAfterBarrier(t, steps, s - 1);
    } else {
      BeforeStretch(Doing(t, Blank, steps), [], 0, 0, EMPTY);
    }
  }

  lemma ThroughStretch(t: TaskType, steps: seq<PlanStep>, e: nat)
    requires Plain(t, steps) && CopyFree(steps) && Cut(t, steps, e) && Fitting(t, steps, e)
    requires Run(Doing(t, Blank, steps), Counting(StretchStart(t, steps, e)), EMPTY) == Some(EMPTY)
    ensures Run(Doing(t, Blank, steps), Counting(e), EMPTY).Some?
  {
    hide CopyFree, Run, Fitting, Plain, Doing, StretchStart;
    var s := StretchStart(t, steps, e);
    assert Counting(e) == Counting(s) + Counting(e)[s..];
    RunSplit(Doing(t, Blank, steps), Counting(s), Counting(e)[s..], EMPTY);
    StretchFromEmpty(t, steps, Counting(e)[s..], s, e);
  }

  lemma EmptyAfterBarrier(t: TaskType, steps: seq<PlanStep>, b: nat)
    requires b < |steps| && IsBarrier(t, steps[b].kind)
    requires Run(Doing(t, Blank, steps), Counting(b), EMPTY).Some?
    ensures Run(Doing(t, Blank, steps), Counting(b + 1), EMPTY) == Some(EMPTY)
  {
    hide Run;
    CountingOn(b + 1);
    RunLast(Doing(t, Blank, steps), Counting(b), b, EMPTY);
  }

  lemma StretchLeavesFile(t: TaskType, steps: seq<PlanStep>, order: seq<nat>, s: nat, e: nat, z: nat, k: nat)
    requires Plain(t, steps) && CopyFree(steps) && Stretch(t, steps, s, e) && Fitting(t, steps, e)
    requires |order| == |steps| && order[..s] == Counting(s) && z < |steps| && ChangeOf(steps[z]).Put?
    requires Run(Doing(t, Blank, steps), Counting(s), EMPTY) == Some(EMPTY)
    requires forall m | 0 <= m < e - s :: s <= order[s..e][m] < e
    requires k < e - s && order[s..e][k] == z
    requires LastToWrite(ChangesOf(steps, order[s..e]), ChangeOf(steps[z]).at, k)
    ensures FileAt(Run(Doing(t, Blank, steps), order[..e], EMPTY), ChangeOf(steps[z]).at, ChangeOf(steps[z]).content)
  {
    hide Plain, CopyFree, Fitting, ChangeOf, Run, Overlaid, Writes, Doing, LastToWrite;
    var o, c := order[s..e], ChangeOf(steps[z]);
    assert order[..e] == Counting(s) + o;
    RunSplit(Doing(t, Blank, steps), Counting(s), o, EMPTY);
    StretchFromEmpty(t, steps, o, s, e);
    FromLast(ChangesOf(steps, o), EMPTY, c.at, k);
    PutLeavesFile(c);
  }

  // An order the graph allows after whose stretch the file holds what step z wrote.
  lemma HeldBackWins(t: TaskType, steps: seq<PlanStep>, z: nat, e: nat)
    requires Plain(t, steps) && CopyFree(steps) && NoRepeats(Keys(steps))
    requires Cut(t, steps, e) && Fitting(t, steps, e) && StretchStart(t, steps, e) <= z < e
    requires Final(t, steps, z) && ChangeOf(steps[z]).Put?
    ensures var order := Delaying(Compiled(t, steps), z, StretchStart(t, steps, e), e);
      && Allowed(Compiled(t, steps), order) && |order| == |steps|
      && FileAt(Run(Doing(t, Blank, steps), order[..e], EMPTY), ChangeOf(steps[z]).at, ChangeOf(steps[z]).content)
  {
    hide Plain, CopyFree, Fitting, ChangeOf, Final, Allowed, Compiled, Delaying, Run, FileAt, Doing, StretchStart;
    hide LastToWrite, Keys, NoRepeats;
    var s, rs := StretchStart(t, steps, e), Compiled(t, steps);
    CompiledIsBackward(t, steps);
    DelayingIsAllowed(rs, z, s, e);
    DelayingUpTo(rs, z, s, e);
    var k := HeldBackIsLast(t, steps, z, s, e);
    EmptyAtStart(t, steps, e);
    StretchLeavesFile(t, steps, Delaying(rs, z, s, e), s, e, z, k);
  }

  // ---- Exactly -------------------------------------------------------------

  // Two final writes that disagree: held back in turn, each leaves its own content, and
  // the list leaves at most one of them.
  lemma DisagreementShows(t: TaskType, steps: seq<PlanStep>, j: nat, i: nat) returns (order: seq<nat>)
    requires Plain(t, steps) && CopyFree(steps) && NoRepeats(Keys(steps))
    requires SameStretch(t, steps, j, i) && Final(t, steps, j) && Final(t, steps, i)
    requires SamePlace(ChangeOf(steps[j]), ChangeOf(steps[i])) && ChangeOf(steps[j]) != ChangeOf(steps[i])
    requires Fitting(t, steps, NextCut(t, steps, i))
    ensures Allowed(Compiled(t, steps), order) && !AsListed(t, Blank, steps, order, EMPTY)
  {
    hide Plain, CopyFree, Fitting, ChangeOf, Final, Allowed, Compiled, Delaying, Run, Keys, NoRepeats;
    var e := NextCut(t, steps, i);
    StretchOf(t, steps, j, i);
    var s, rs, act := StretchStart(t, steps, e), Compiled(t, steps), Doing(t, Blank, steps);
    HeldBackWins(t, steps, j, e);
    HeldBackWins(t, steps, i, e);
    order := if Run(act, Delaying(rs, j, s, e)[..e], EMPTY) != Run(act, Counting(e), EMPTY)
             then Delaying(rs, j, s, e) else Delaying(rs, i, s, e);
  }

  lemma StretchOf(t: TaskType, steps: seq<PlanStep>, j: nat, i: nat)
    requires SameStretch(t, steps, j, i)
    ensures StretchStart(t, steps, NextCut(t, steps, i)) <= j < i < NextCut(t, steps, i)
  {
    var s := StretchStart(t, steps, NextCut(t, steps, i));
    assert !(i < s - 1);
    assert !(j <= s - 1 <= i);
  }

  // Whatever barriers do, and whatever the workspace: every order the graph allows shows
  // each barrier, and leaves at the end, exactly what the list does, if and only if the
  // final writes of each file agree.
  lemma CopyFreePreservedIff(t: TaskType, steps: seq<PlanStep>)
    requires Plain(t, steps) && CopyFree(steps) && NoRepeats(Keys(steps))
    ensures FinalsAgree(t, steps) <==>
      (forall world: World, order: seq<nat>, w: Workspace | Allowed(Compiled(t, steps), order) ::
         AsListed(t, world, steps, order, w))
  {
    hide Plain, CopyFree, Fitting, ChangeOf, Final, Allowed, Compiled, Delaying, Run, Keys, NoRepeats;
    if FinalsAgree(t, steps) {
      forall world: World, order: seq<nat>, w: Workspace | Allowed(Compiled(t, steps), order)
        ensures AsListed(t, world, steps, order, w)
      {
        FinalsAgreeSuffices(t, world, steps, order, w);
      }
    } else {
      var j, i :|
        && SameStretch(t, steps, j, i) && Final(t, steps, j) && Final(t, steps, i)
        && SamePlace(ChangeOf(steps[j]), ChangeOf(steps[i])) && Fitting(t, steps, NextCut(t, steps, i))
        && ChangeOf(steps[j]) != ChangeOf(steps[i]);
      var order := DisagreementShows(t, steps, j, i);
    }
  }

  lemma FinalsAgreeSuffices(t: TaskType, world: World, steps: seq<PlanStep>, order: seq<nat>, w: Workspace)
    requires Plain(t, steps) && CopyFree(steps) && FinalsAgree(t, steps) && Allowed(Compiled(t, steps), order)
    ensures AsListed(t, world, steps, order, w)
    ensures Run(Doing(t, world, steps), order, w) == InOrder(t, world, steps, w)
  {
    hide Plain, CopyFree, FinalsAgree, Allowed, Compiled, Run;
    forall e | Cut(t, steps, e)
      ensures |order| == |steps|
      ensures Run(Doing(t, world, steps), order[..e], w) == Run(Doing(t, world, steps), Counting(e), w)
    {
      SeenAlike(t, world, steps, order, w, e);
    }
    SeenAlike(t, world, steps, order, w, |steps|);
    assert order[..|steps|] == order;
  }

  lemma PairReversed(t: TaskType, steps: seq<PlanStep>)
    requires Plain(t, steps) && NoRepeats(Keys(steps)) && |steps| == 2 && !LeadsTo(Compiled(t, steps), 0, 1)
    ensures Allowed(Compiled(t, steps), [1, 0])
  {
    hide Plain, Compiled, Keys;
    var rs := Compiled(t, steps);
    CompiledIsBackward(t, steps);
    WaitsForItself(rs, 0);
    assert rs[0].key !in rs[1].deps;
  }

  lemma ClashingPair(t: TaskType, steps: seq<PlanStep>)
    requires |steps| == 2 && !Faithful(t, steps)
    ensures SameStretch(t, steps, 0, 1) && !LeadsTo(Compiled(t, steps), 0, 1)
    ensures Clash(ChangeOf(steps[0]), ChangeOf(steps[1]))
  {
    hide Clash, ChangeOf, LeadsTo, Compiled, IsBarrier;
    var j, i :| SameStretch(t, steps, j, i) && !LeadsTo(Compiled(t, steps), j, i)
      && Clash(ChangeOf(steps[j]), ChangeOf(steps[i]));
    assert j == 0 && i == 1;
  }

  lemma ClashingPairShows(t: TaskType, steps: seq<PlanStep>) returns (w: Workspace)
    requires Plain(t, steps) && NoRepeats(Keys(steps)) && |steps| == 2 && !Faithful(t, steps)
    ensures Allowed(Compiled(t, steps), [1, 0])
    ensures Run(Doing(t, Blank, steps), [1, 0], w) != InOrder(t, Blank, steps, w)
  {
    hide Faithful, Clash, ChangeOf, LeadsTo, Allowed, Compiled, Run, ApplyChange, Keys, InOrder, Doing;
    ClashingPair(t, steps);
    w := ClashTold(ChangeOf(steps[0]), ChangeOf(steps[1]));
    PairReversed(t, steps);
    RunTwo(t, Blank, steps, w);
  }

  // With copies, for two steps: the orders the graph allows come to the same as the list
  // on every workspace exactly when the two are kept in order or do not clash.
  lemma PairPreservedIff(t: TaskType, steps: seq<PlanStep>)
    requires Plain(t, steps) && NoRepeats(Keys(steps)) && |steps| == 2
    ensures Faithful(t, steps) <==>
      (forall world: World, order: seq<nat>, w: Workspace | Allowed(Compiled(t, steps), order) ::
         Run(Doing(t, world, steps), order, w) == InOrder(t, world, steps, w))
  {
    hide Plain, Faithful, Allowed, Compiled, Run, InOrder, Doing, Keys;
    if Faithful(t, steps) {
      forall world: World, order: seq<nat>, w: Workspace | Allowed(Compiled(t, steps), order)
        ensures Run(Doing(t, world, steps), order, w) == InOrder(t, world, steps, w)
      {
        CompilingPreservesMeaning(t, world, steps, order, w);
      }
    } else {
      var w := ClashingPairShows(t, steps);
    }
  }
}
