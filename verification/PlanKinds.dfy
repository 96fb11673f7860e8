// Which steps wait for which, by the kinds written in the plan, whatever else the plan
// holds; and what a step's node is asked for (src/jev-planner.js, lines 32-53 and
// 132-216).

module PlanKinds {
  import opened Basics
  import opened Dag
  import opened GraphShape
  import opened Nodes
  import opened Scheduler
  import opened Invariants
  import opened Paths
  import opened Planner
  import opened PlanMeaning

  // The kinds that wait for everything before them and hold everything after them back.
  const SETTLING_IN_APPS: set<StepKind> := {Command, Service, BrowserSmoke, Deploy, Package}
  const SETTLING_IN_GAMES: set<StepKind> := {ProjectInit, Command, EngineAction, Playtest, Build, Package}

  const WRITING: set<StepKind> := {WorkspaceWriteFile, WorkspaceMkdir, AssetWrite, AssetCopy}

  function Settling(t: TaskType): set<StepKind> {
    if t.Game? then SETTLING_IN_GAMES else SETTLING_IN_APPS
  }

  // No step says itself what it depends on.
  predicate NoneDeclared(steps: seq<PlanStep>) {
    forall n | 0 <= n < |steps| :: steps[n].dependsOn.None?
  }

  // None of the steps strictly between j and i settles.
  predicate NoneBetween(t: TaskType, steps: seq<PlanStep>, j: int, i: int) {
    forall m | 0 <= m < |steps| && j < m < i :: steps[m].kind !in Settling(t)
  }

  // Where a step writes, as the compiler compares it: a copy writes its destination.
  function Target(step: PlanStep): string {
    NormalizePath(if step.kind == AssetCopy then step.destination else step.path)
  }

  // The key of the n-th step's node.
  function Name(steps: seq<PlanStep>, n: nat): string
    requires n < |steps|
  {
    if steps[n].id == "" then "step-" + Dec(n + 1) else steps[n].id
  }

  lemma KindsAre(t: TaskType, kind: StepKind)
    ensures IsBarrier(t, kind) <==> kind in Settling(t)
    ensures IsWrite(kind) <==> kind in WRITING
  {
  }

  // Step i waits for step j directly.
  ghost predicate Waits(t: TaskType, steps: seq<PlanStep>, i: int, j: int)
    requires 0 <= j < i < |steps|
  {
    || steps[i].kind !in WRITING
    || (steps[j].kind in Settling(t) && NoneBetween(t, steps, j, i))
    || (&& steps[j].kind in WRITING && NoneBetween(t, steps, j, i)
        && PathsInterfere(Target(steps[j]), Target(steps[i])))
  }

  // Without declared dependencies a step lists exactly the steps before it that it waits
  // for: all of them, if it does not write; else the latest that settles, and the writes
  // since then whose place interferes with its own.
  lemma {:induction false} ListsByKind(t: TaskType, steps: seq<PlanStep>, i: nat)
    requires NoneDeclared(steps) && i < |steps|
    requires forall a, b | 0 <= a < b < |steps| :: Name(steps, a) != Name(steps, b)
    ensures Compiled(t, steps)[i].key == Name(steps, i)
    ensures forall j: nat | j < i :: Name(steps, j) in Compiled(t, steps)[i].deps <==> Waits(t, steps, i, j)
    ensures forall k | k in Compiled(t, steps)[i].deps :: exists j: nat :: j < i && Name(steps, j) == k
  {
    hide IsWrite, PathsInterfere, NormalizePath, Settling, DependsOn, Dec;
    forall j: nat | j < i ensures Name(steps, j) in DependsOn(t, steps, i) <==> Waits(t, steps, i, j) {
      if Waits(t, steps, i, j) { WaitsIsListed(t, steps, i, j); }
      if Name(steps, j) in DependsOn(t, steps, i) { ListedIsWaited(t, steps, i, j); }
    }
    forall k | k in DependsOn(t, steps, i) ensures exists j: nat :: j < i && Name(steps, j) == k {
      var j := SomeStepListed(t, steps, i, k);
    }
  }

  lemma {:induction false} WaitsIsListed(t: TaskType, steps: seq<PlanStep>, i: nat, j: nat)
    requires NoneDeclared(steps) && j < i < |steps| && Waits(t, steps, i, j)
    ensures Name(steps, j) in DependsOn(t, steps, i)
  {
    hide IsWrite, IsBarrier, PathsInterfere, NormalizePath, Settling, DependsOn, Dec;
    forall m: nat | m < |steps| ensures IsBarrier(t, steps[m].kind) <==> steps[m].kind in Settling(t) {
      KindsAre(t, steps[m].kind);
    }
    KindsAre(t, steps[i].kind);
    KindsAre(t, steps[j].kind);
    WritesDoNotSettle(t, steps[i].kind);
    WritesDoNotSettle(t, steps[j].kind);
    if steps[i].kind !in WRITING {
      ObserverListsAll(t, steps, i, j);
    } else if steps[j].kind in Settling(t) {
      WriteListsBarrier(t, steps, i, j);
    } else {
      WriteListsConflict(t, steps, i, j);
    }
  }

  lemma WritesDoNotSettle(t: TaskType, kind: StepKind)
    ensures kind in WRITING ==> kind !in Settling(t)
  {
  }

  lemma {:induction false} SomeStepListed(t: TaskType, steps: seq<PlanStep>, i: nat, k: string) returns (j: nat)
    requires NoneDeclared(steps) && i < |steps| && k in DependsOn(t, steps, i)
    ensures j < i && Name(steps, j) == k && Waits(t, steps, i, j)
  {
    hide IsWrite, IsBarrier, PathsInterfere, NormalizePath, Settling, Dec, ConflictingWrites, LastBarrier;
    KindsAre(t, steps[i].kind);
    forall m: nat | m < |steps| ensures IsBarrier(t, steps[m].kind) <==> steps[m].kind in Settling(t) {
      KindsAre(t, steps[m].kind);
    }
    if steps[i].kind !in WRITING {
      j :| 0 <= j < i && Keys(steps)[..i][j] == k;
    } else if k in BarrierKey(t, steps, i) {
      j := LastBarrier(t, steps, i).value;
    } else {
      WritesDoNotSettle(t, steps[i].kind);
      WriteLists(t, steps, i, k);
      j := ConflictsOnly(t, steps, i, PathOf(steps[i]), k);
      KindsAre(t, steps[j].kind);
    }
  }

  lemma WriteLists(t: TaskType, steps: seq<PlanStep>, i: nat, k: string)
    requires NoneDeclared(steps) && i < |steps| && k in DependsOn(t, steps, i)
    requires IsWrite(steps[i].kind) && !IsBarrier(t, steps[i].kind)
    ensures k in BarrierKey(t, steps, i) || k in ConflictingWrites(t, steps, i, PathOf(steps[i]))
  {
    hide IsWrite, IsBarrier, PathOf, ConflictingWrites, BarrierKey;
  }

  lemma {:induction false} ListedIsWaited(t: TaskType, steps: seq<PlanStep>, i: nat, j: nat)
    requires NoneDeclared(steps) && j < i < |steps| && Name(steps, j) in DependsOn(t, steps, i)
    requires forall a, b | 0 <= a < b < |steps| :: Name(steps, a) != Name(steps, b)
    ensures Waits(t, steps, i, j)
  {
    hide DependsOn, Waits, Name;
    var m := SomeStepListed(t, steps, i, Name(steps, j));
    assert m == j;
  }

  // A step that settles waits for every earlier step, and every later step for it,
  // through others if not directly, whatever the other steps are.
  lemma {:induction false} SettlingStepsHold(t: TaskType, steps: seq<PlanStep>, j: nat, i: nat)
    requires NoneDeclared(steps) && j < i < |steps|
    requires steps[j].kind in Settling(t) || steps[i].kind in Settling(t)
    ensures LeadsTo(Compiled(t, steps), j, i)
  {
    hide IsWrite, IsBarrier, Settling, DependsOn, LeadsTo, KeyOf;
    WritesDoNotSettle(t, steps[i].kind);
    var rs := Compiled(t, steps);
    if Waits(t, steps, i, j) {
      ListedLeads(t, steps, i, j);
    } else {
      var b := LatestSettling(t, steps, j, i);
      ListedLeads(t, steps, i, b);
      if j < b {
        WritesDoNotSettle(t, steps[b].kind);
        ListedLeads(t, steps, b, j);
        ChainLeads(rs, j, b, i);
      }
    }
  }

  lemma LatestSettling(t: TaskType, steps: seq<PlanStep>, j: nat, i: nat) returns (b: nat)
    requires j < i < |steps| && steps[j].kind in Settling(t)
    ensures j <= b < i && steps[b].kind in Settling(t) && NoneBetween(t, steps, b, i)
    decreases i - j
  {
    hide Settling;
    if m: nat :| j < m < i && steps[m].kind in Settling(t) {
      b := LatestSettling(t, steps, m, i);
    } else {
      b := j;
    }
  }

  lemma ListedLeads(t: TaskType, steps: seq<PlanStep>, i: nat, j: nat)
    requires NoneDeclared(steps) && j < i < |steps| && Waits(t, steps, i, j)
    ensures LeadsTo(Compiled(t, steps), j, i) && Compiled(t, steps)[j].key in Compiled(t, steps)[i].deps
  {
    hide Waits, DependsOn;
    WaitsIsListed(t, steps, i, j);
    assert Compiled(t, steps)[j].key == Name(steps, j);
    assert LeadsTo(Compiled(t, steps), j, j);
  }

  lemma ChainLeads(rs: seq<Request>, j: nat, b: nat, i: nat)
    requires j < b < i < |rs| && rs[b].key in rs[i].deps && LeadsTo(rs, j, b)
    ensures LeadsTo(rs, j, i)
  {
  }

  // A write of a stretch that interferes with none of the writes from step j on is left
  // loose: it does not wait for j, directly or through others.
  lemma {:induction false} WritesAreLoose(t: TaskType, steps: seq<PlanStep>, j: nat, i: nat)
    requires NoneDeclared(steps) && j < i < |steps|
    requires forall a, b | 0 <= a < b < |steps| :: Name(steps, a) != Name(steps, b)
    requires forall m | j <= m <= i :: steps[m].kind in WRITING
    requires forall m | j <= m < i :: !PathsInterfere(Target(steps[m]), Target(steps[i]))
    ensures !LeadsTo(Compiled(t, steps), j, i)
  {
    hide PathsInterfere, NormalizePath, DependsOn, Dec, Settling;
    ListsByKind(t, steps, i);
    var rs := Compiled(t, steps);
    forall d: nat | j <= d < i ensures rs[d].key !in rs[i].deps {
      WritesDoNotSettle(t, steps[d].kind);
      assert rs[d].key == Name(steps, d);
    }
  }

  // A plan that says itself what a step depends on is taken at its word: empty names
  // are dropped, repeated ones kept once.
  lemma DeclaredIsListed(t: TaskType, steps: seq<PlanStep>, i: nat)
    requires i < |steps| && steps[i].dependsOn.Some?
    ensures NoRepeats(Compiled(t, steps)[i].deps)
    ensures forall k :: k in Compiled(t, steps)[i].deps <==> k in steps[i].dependsOn.value && k != ""
  {
  }

  // ---- Which plans compile ------------------------------------------------

  // The names of the steps, once white space around them is cut, differ and are not blank.
  ghost predicate WellNamed(steps: seq<PlanStep>) {
    && (forall n | 0 <= n < |steps| :: !Blank(Name(steps, n)))
    && (forall a, b | 0 <= a < b < |steps| :: Trim(Name(steps, a)) != Trim(Name(steps, b)))
  }

  // No step waits for one with white space around its name.
  ghost predicate WaitsForTidy(t: TaskType, steps: seq<PlanStep>) {
    forall i, j | 0 <= j < i < |steps| && Waits(t, steps, i, j) :: Trim(Name(steps, j)) == Name(steps, j)
  }

  // A plan that declares no dependencies compiles exactly when it has steps, their names
  // are not blank and differ by more than white space around them, and no step waits for
  // one whose name has any.
  lemma {:induction false} CompilesIff(t: TaskType, steps: seq<PlanStep>)
    requires NoneDeclared(steps)
    ensures Compilable(t, steps) <==> steps != [] && WellNamed(steps) && WaitsForTidy(t, steps)
  {
    hide Dec, Trim, DependsOn, Name, IsWrite, IsBarrier, WellShaped, Acyclic, TrimmedKey, Waits;
    var ds := RawDefs(Compiled(t, steps));
    RawKeys(t, steps);
    forall n | 0 <= n < |steps| ensures Trim(ds[n].key) == "" <==> Blank(Name(steps, n)) {
      TrimIsBlank(Name(steps, n));
    }
    if Compilable(t, steps) {
      assert forall a, b | 0 <= a < b < |steps| :: Trim(ds[a].key) != Trim(ds[b].key);
      assert WellNamed(steps);
      NamesDiffer(steps);
      forall i, j | 0 <= j < i < |steps| && Waits(t, steps, i, j) ensures Trim(Name(steps, j)) == Name(steps, j) {
        ListsByKind(t, steps, i);
        assert Name(steps, j) in ds[i].deps;
        TrimmedIsTidy(t, steps, j);
      }
    }
    if WellNamed(steps) {
      NamesDiffer(steps);
      PlainIsShaped(t, steps);
      if WaitsForTidy(t, steps) {
        forall i, k | 0 <= i < |ds| && k in ds[i].deps ensures TrimmedKey(ds, k) {
          ListsByKind(t, steps, i);
          var j: nat :| j < i && Name(steps, j) == k;
          IsTrimmed(ds, j);
        }
      }
    }
  }

  lemma RawKeys(t: TaskType, steps: seq<PlanStep>)
    ensures var ds := RawDefs(Compiled(t, steps));
      && |ds| == |steps|
      && forall n | 0 <= n < |steps| ::
           ds[n].key == Name(steps, n) == Keys(steps)[n] && ds[n].deps == Compiled(t, steps)[n].deps
  {
    hide DependsOn, Dec;
  }

  lemma NamesDiffer(steps: seq<PlanStep>)
    requires WellNamed(steps)
    ensures forall a, b | 0 <= a < b < |steps| :: Name(steps, a) != Name(steps, b)
  {
    hide Name, Trim;
  }

  lemma TrimmedIsTidy(t: TaskType, steps: seq<PlanStep>, j: nat)
    requires j < |steps| && WellNamed(steps) && TrimmedKey(RawDefs(Compiled(t, steps)), Name(steps, j))
    ensures Trim(Name(steps, j)) == Name(steps, j)
  {
    hide Name, Trim, DependsOn, Dec;
    RawKeys(t, steps);
    var ds := RawDefs(Compiled(t, steps));
    var m :| 0 <= m < |ds| && Trim(ds[m].key) == Name(steps, j);
    TrimTwice(ds[m].key);
    assert Trim(Name(steps, m)) == Trim(Name(steps, j));
  }

  lemma IsTrimmed(ds: seq<Def>, j: nat)
    requires j < |ds| && Trim(ds[j].key) == ds[j].key
    ensures TrimmedKey(ds, ds[j].key)
  {
  }

  lemma {:induction false} PlainIsShaped(t: TaskType, steps: seq<PlanStep>)
    requires NoneDeclared(steps) && forall a, b | 0 <= a < b < |steps| :: Name(steps, a) != Name(steps, b)
    ensures NoRepeats(Keys(steps)) && WellShaped(RawDefs(Compiled(t, steps))) && Acyclic(RawDefs(Compiled(t, steps)))
  {
    hide Name, DependsOn, Dec, Waits, Acyclic;
    var ds := RawDefs(Compiled(t, steps));
    RawKeys(t, steps);
    forall i, k | 0 <= i < |ds| && k in ds[i].deps ensures exists j: nat :: j < i && ds[j].key == k {
      ListsByKind(t, steps, i);
      var j: nat :| j < i && Name(steps, j) == k;
      assert ds[j].key == k;
    }
    forall i: nat | i < |ds| ensures NoRepeats(ds[i].deps) { DepsOnce(t, steps, i); }
    EarlierIsAcyclic(ds);
  }

  lemma DepsOnce(t: TaskType, steps: seq<PlanStep>, i: nat)
    requires NoneDeclared(steps) && i < |steps|
    requires forall a, b | 0 <= a < b < |steps| :: Name(steps, a) != Name(steps, b)
    ensures NoRepeats(Compiled(t, steps)[i].deps)
  {
    hide Dec, IsWrite, IsBarrier, ConflictingWrites, BarrierKey;
    forall a, b | 0 <= a < b < i ensures Keys(steps)[..i][a] != Keys(steps)[..i][b] {
      assert Keys(steps)[a] == Name(steps, a) && Keys(steps)[b] == Name(steps, b);
    }
  }

  lemma {:induction false} EarlierIsAcyclic(ds: seq<Def>)
    requires DistinctKeys(ds)
    requires forall i, k | 0 <= i < |ds| && k in ds[i].deps :: exists j: nat :: j < i && ds[j].key == k
    ensures Acyclic(ds)
  {
    forall i: nat, j: nat | DepOf(ds, i, j) ensures j < i {
      var x: nat :| x < i && ds[x].key == ds[j].key;
    }
    forall p | Walk(ds, p) && |p| >= 2 ensures p[0] != p[|p| - 1] { WalkDescends(ds, p); }
  }

  lemma {:induction false} WalkDescends(ds: seq<Def>, p: seq<nat>)
    requires Walk(ds, p) && |p| >= 2 && forall i: nat, j: nat | DepOf(ds, i, j) :: j < i
    ensures p[|p| - 1] < p[0]
  {
    assert DepOf(ds, p[|p| - 2], p[|p| - 2 + 1]);
    if |p| > 2 {
      var q := p[..|p| - 1];
      forall t | 0 <= t < |q| - 1 ensures DepOf(ds, q[t], q[t + 1]) { assert DepOf(ds, p[t], p[t + 1]); }
      WalkDescends(ds, q);
    }
  }
}
