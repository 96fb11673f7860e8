// Compiling a plan to a graph preserves its meaning: whatever order the graph's
// dependencies allow, the workspace comes out as running the list in order leaves
// it (src/jev-planner.js, lines 5-31 and 132-216).

module PlanMeaning {
  import opened Basics
  import opened Dag
  import opened GraphShape
  import opened Nodes
  import opened Scheduler
  import opened Paths
  import opened Workspaces
  import opened Planner
  import opened Commuting

  // What the barrier at each place of the list does to the workspace: anything at all,
  // and it may fail.
  type World = (nat, Workspace) -> Option<Workspace>

  function ChangeOf(step: PlanStep): Change {
    match Locate(if step.kind.AssetCopy? then step.destination else step.path)
    case None => Hopeless
    case Some(at) =>
      if step.kind.WorkspaceMkdir? then Make(at)
      else if step.kind.AssetCopy? then
        match Locate(step.source)
        case None => Hopeless
        case Some(from) => Copy(at, from)
      else Put(at, step.content)
  }

  // The runtimes refuse a kind they do not know.
  function Perform(t: TaskType, world: World, steps: seq<PlanStep>, n: nat, w: Workspace): Option<Workspace>
    requires n < |steps|
  {
    if IsBarrier(t, steps[n].kind) then world(n, w)
    else if Recognised(t, steps[n].kind) then ApplyChange(ChangeOf(steps[n]), w)
    else None
  }

  function Doing(t: TaskType, world: World, steps: seq<PlanStep>): (nat, Workspace) -> Option<Workspace> {
    (i: nat, w: Workspace) => if i < |steps| then Perform(t, world, steps, i, w) else None
  }

  // Running the list in order.
  function InOrder(t: TaskType, world: World, steps: seq<PlanStep>, w: Workspace): Option<Workspace> {
    Run(Doing(t, world, steps), Counting(|steps|), w)
  }

  // Every step once, none before a step it depends on: the orders in which the
  // graph's nodes can succeed.
  ghost predicate Allowed(rs: seq<Request>, order: seq<nat>) {
    && Permutes(order, |rs|)
    && (forall a, j | 0 <= a < |order| && 0 <= j < |rs| && order[a] < |rs| && rs[j].key in rs[order[a]].deps ::
          j in order[..a])
  }

  // ---- The plans the claim is about ---------------------------------------

  // Kinds as normalisation leaves them, and no declared dependencies.
  predicate Plain(t: TaskType, steps: seq<PlanStep>) {
    forall n | 0 <= n < |steps| :: Recognised(t, steps[n].kind) && steps[n].dependsOn.None?
  }

  predicate SameStretch(t: TaskType, steps: seq<PlanStep>, j: int, i: int) {
    && 0 <= j < i < |steps|
    && (forall m | j <= m <= i :: !IsBarrier(t, steps[m].kind))
  }

  // Step m waits for step j, through any number of steps in between.
  ghost predicate LeadsTo(rs: seq<Request>, j: int, m: int)
    decreases m
  {
    && 0 <= j <= m < |rs|
    && (j == m || exists d :: j <= d < m && rs[d].key in rs[m].deps && LeadsTo(rs, j, d))
  }

  // Two steps of which neither waits for the other do not clash.
  ghost predicate Faithful(t: TaskType, steps: seq<PlanStep>) {
    forall j, i | SameStretch(t, steps, j, i) && !LeadsTo(Compiled(t, steps), j, i) ::
      !Clash(ChangeOf(steps[j]), ChangeOf(steps[i]))
  }

  // Sufficient, and checkable step by step: no copies, and every written path in
  // canonical form.
  predicate CanonicalWrites(t: TaskType, steps: seq<PlanStep>) {
    forall n | 0 <= n < |steps| && !IsBarrier(t, steps[n].kind) ::
      !steps[n].kind.AssetCopy? && Canonical(steps[n].path)
  }

  // ---- What the compiled dependencies keep in order -----------------------

  lemma {:induction false} ConflictsListed(t: TaskType, steps: seq<PlanStep>, n: nat, here: string, j: nat)
    requires j < n <= |steps| && IsWrite(steps[j].kind) && PathsInterfere(PathOf(steps[j]), here)
    requires forall m | j <= m < n :: !IsBarrier(t, steps[m].kind)
    ensures KeyOf(steps, j) in ConflictingWrites(t, steps, n, here)
  {
    hide PathsInterfere, PathOf, KeyOf;
    if j < n - 1 { ConflictsListed(t, steps, n - 1, here, j); }
  }

  // A step that is not a write lists everything before it.
  lemma ObserverListsAll(t: TaskType, steps: seq<PlanStep>, i: nat, j: nat)
    requires j < i < |steps| && steps[i].dependsOn.None?
    requires IsBarrier(t, steps[i].kind) || !IsWrite(steps[i].kind)
    ensures KeyOf(steps, j) in DependsOn(t, steps, i)
  {
    assert Keys(steps)[..i][j] == KeyOf(steps, j);
  }

  // A write lists the latest barrier before it.
  lemma WriteListsBarrier(t: TaskType, steps: seq<PlanStep>, i: nat, b: nat)
    requires b < i < |steps| && steps[i].dependsOn.None? && !IsBarrier(t, steps[i].kind) && IsWrite(steps[i].kind)
    requires IsBarrier(t, steps[b].kind) && forall m | b < m < i :: !IsBarrier(t, steps[m].kind)
    ensures KeyOf(steps, b) in DependsOn(t, steps, i)
  {
    assert LastBarrier(t, steps, i) == Some(b);
    assert BarrierKey(t, steps, i)[0] == KeyOf(steps, b);
  }

  lemma WriteListsConflict(t: TaskType, steps: seq<PlanStep>, i: nat, j: nat)
    requires SameStretch(t, steps, j, i) && steps[i].dependsOn.None?
    requires IsWrite(steps[i].kind) && IsWrite(steps[j].kind)
    requires PathsInterfere(PathOf(steps[j]), PathOf(steps[i]))
    ensures KeyOf(steps, j) in DependsOn(t, steps, i)
  {
    ConflictsListed(t, steps, i, PathOf(steps[i]), j);
  }

  lemma {:induction false} LatestBarrier(t: TaskType, steps: seq<PlanStep>, j: nat, i: nat) returns (b: nat)
    requires j < i <= |steps| && exists m :: j <= m < i && IsBarrier(t, steps[m].kind)
    ensures j <= b < i && IsBarrier(t, steps[b].kind)
    ensures forall m | b < m < i :: !IsBarrier(t, steps[m].kind)
  {
    var m :| j <= m < i && IsBarrier(t, steps[m].kind);
    b := LastBarrier(t, steps, i).value;
  }

  // Step i depends on step j, at most one barrier removed.
  ghost predicate Kept(rs: seq<Request>, i: int, j: int) {
    && 0 <= j < i < |rs|
    && (|| rs[j].key in rs[i].deps
        || exists b :: j < b < i && rs[b].key in rs[i].deps && rs[j].key in rs[b].deps)
  }

  // Every pair the list's order matters for is kept in order: only two writes of
  // one stretch, with paths that do not interfere, are let loose.
  lemma {:induction false} KeptUnlessApart(t: TaskType, steps: seq<PlanStep>, i: nat, j: nat)
    requires Plain(t, steps) && j < i < |steps|
    requires !(SameStretch(t, steps, j, i) && !PathsInterfere(PathOf(steps[j]), PathOf(steps[i])))
    ensures Kept(Compiled(t, steps), i, j)
  {
    if IsBarrier(t, steps[i].kind) {
      ObserverListsAll(t, steps, i, j);
    } else if SameStretch(t, steps, j, i) {
      WriteListsConflict(t, steps, i, j);
    } else {
      KeptByBarrier(t, steps, i, j);
    }
  }

  lemma {:induction false} KeptByBarrier(t: TaskType, steps: seq<PlanStep>, i: nat, j: nat)
    requires Plain(t, steps) && j < i < |steps| && !IsBarrier(t, steps[i].kind)
    requires exists m :: j <= m < i && IsBarrier(t, steps[m].kind)
    ensures Kept(Compiled(t, steps), i, j)
  {
    hide IsBarrier, IsWrite, DependsOn, KeyOf, PathOf, PathsInterfere;
    var b := LatestBarrier(t, steps, j, i);
    PlainIsWrite(t, steps, i);
    WriteListsBarrier(t, steps, i, b);
    var rs := Compiled(t, steps);
    assert rs[b].key in rs[i].deps;
    if j < b {
      ObserverListsAll(t, steps, b, j);
      assert rs[j].key in rs[b].deps;
    }
  }

  lemma PlainIsWrite(t: TaskType, steps: seq<PlanStep>, i: nat)
    requires Plain(t, steps) && i < |steps|
    ensures steps[i].dependsOn.None? && (!IsBarrier(t, steps[i].kind) ==> IsWrite(steps[i].kind))
  {
  }

  lemma KeptLeadsTo(rs: seq<Request>, i: nat, j: nat)
    requires Kept(rs, i, j)
    ensures LeadsTo(rs, j, i)
  {
    assert LeadsTo(rs, j, j);
    if rs[j].key !in rs[i].deps {
      var b :| j < b < i && rs[b].key in rs[i].deps && rs[j].key in rs[b].deps;
      assert LeadsTo(rs, j, b);
    }
  }

  // What a step waits for comes before it in every allowed order.
  lemma {:induction false} LeadsToIsEarlier(rs: seq<Request>, order: seq<nat>, a: nat, j: nat)
    requires Allowed(rs, order) && a < |order| && LeadsTo(rs, j, order[a]) && j != order[a]
    ensures j in order[..a]
    decreases order[a]
  {
    var d :| j <= d < order[a] && rs[d].key in rs[order[a]].deps && LeadsTo(rs, j, d);
    assert d in order[..a];
    var c :| 0 <= c < a && order[..a][c] == d;
    if j != d { LeadsToIsEarlier(rs, order, c, j); }
  }

  lemma LaterIsNotEarlier(order: seq<nat>, a: nat, b: nat)
    requires NoRepeats(order) && a < b < |order|
    ensures order[b] !in order[..a]
  {
  }

  // Two steps of which the later does not wait for the earlier are writes of one
  // stretch whose paths do not interfere.
  lemma {:induction false} LooseIsApart(t: TaskType, steps: seq<PlanStep>, i: nat, j: nat)
    requires Plain(t, steps) && j < i < |steps| && !LeadsTo(Compiled(t, steps), j, i)
    ensures SameStretch(t, steps, j, i) && !PathsInterfere(PathOf(steps[j]), PathOf(steps[i]))
  {
    if !(SameStretch(t, steps, j, i) && !PathsInterfere(PathOf(steps[j]), PathOf(steps[i]))) {
      KeptUnlessApart(t, steps, i, j);
      KeptLeadsTo(Compiled(t, steps), i, j);
    }
  }

  lemma CanonicalIsFaithful(t: TaskType, steps: seq<PlanStep>)
    requires Plain(t, steps) && CanonicalWrites(t, steps)
    ensures Faithful(t, steps)
  {
    forall j, i | SameStretch(t, steps, j, i) && !LeadsTo(Compiled(t, steps), j, i)
      ensures !Clash(ChangeOf(steps[j]), ChangeOf(steps[i]))
    {
      LooseIsApart(t, steps, i, j);
      CanonicalInterference(steps[j].path, steps[i].path);
    }
  }

  lemma InversionsAreIndependent(t: TaskType, world: World, steps: seq<PlanStep>, order: seq<nat>)
    requires Plain(t, steps) && Faithful(t, steps) && Allowed(Compiled(t, steps), order)
    ensures InversionsCommute(Doing(t, world, steps), order)
  {
    hide PathsInterfere, PathOf, ChangeOf, LeadsTo;
    forall a, b | 0 <= a < b < |order| && order[a] > order[b]
      ensures Commute(Doing(t, world, steps), order[a], order[b])
    {
      var i, j := order[a], order[b];
      assert i in order && j in order;
      LaterIsNotEarlier(order, a, b);
      if LeadsTo(Compiled(t, steps), j, i) {
        LeadsToIsEarlier(Compiled(t, steps), order, a, j);
      } else {
        LooseIsApart(t, steps, i, j);
        UnclashedActions(t, world, steps, j, i);
      }
    }
  }

  lemma UnclashedActions(t: TaskType, world: World, steps: seq<PlanStep>, j: nat, i: nat)
    requires Plain(t, steps) && SameStretch(t, steps, j, i)
    requires !Clash(ChangeOf(steps[j]), ChangeOf(steps[i]))
    ensures Commute(Doing(t, world, steps), i, j)
  {
    hide Clash, ApplyChange, ChangeOf;
    var act := Doing(t, world, steps);
    var c, d := ChangeOf(steps[i]), ChangeOf(steps[j]);
    forall w ensures Chain(act, act(i, w), j) == Chain(act, act(j, w), i) {
      UnclashedCommute(d, c, w);
      assert act(i, w) == ApplyChange(c, w) && act(j, w) == ApplyChange(d, w);
    }
  }

  // Where no two loose steps clash, every order the graph allows gives exactly what the
  // list gives, workspace or failure.
  lemma CompilingPreservesMeaning(t: TaskType, world: World, steps: seq<PlanStep>, order: seq<nat>, w: Workspace)
    requires Plain(t, steps) && Faithful(t, steps) && Allowed(Compiled(t, steps), order)
    ensures Run(Doing(t, world, steps), order, w) == InOrder(t, world, steps, w)
  {
    InversionsAreIndependent(t, world, steps, order);
    SortByCommuting(Doing(t, world, steps), order, |steps|, w);
  }

  // ---- Exactly what is listed ---------------------------------------------

  lemma {:induction false} ConflictsOnly(t: TaskType, steps: seq<PlanStep>, n: nat, here: string, k: string)
    returns (j: nat)
    requires n <= |steps| && k in ConflictingWrites(t, steps, n, here)
    ensures j < n && k == KeyOf(steps, j) && IsWrite(steps[j].kind) && PathsInterfere(PathOf(steps[j]), here)
    ensures forall m | j <= m < n :: !IsBarrier(t, steps[m].kind)
  {
    hide PathsInterfere, PathOf, KeyOf;
    if k in ConflictingWrites(t, steps, n - 1, here) {
      j := ConflictsOnly(t, steps, n - 1, here, k);
    } else {
      j := n - 1;
    }
  }

  // A step lists the key of an earlier one exactly when it is a barrier, or that
  // one is the latest barrier, or both are writes of one stretch whose paths
  // interfere; and it lists nothing else.
  lemma {:induction false} ListedExactly(t: TaskType, steps: seq<PlanStep>, i: nat, k: string)
    requires Plain(t, steps) && NoRepeats(Keys(steps)) && i < |steps|
    ensures k in DependsOn(t, steps, i) <==> exists j :: Listed(t, steps, i, j) && k == KeyOf(steps, j)
  {
    if k in DependsOn(t, steps, i) {
      var j := ListedStep(t, steps, i, k);
    }
    if j :| Listed(t, steps, i, j) && k == KeyOf(steps, j) {
      if IsBarrier(t, steps[i].kind) {
        ObserverListsAll(t, steps, i, j);
      } else if SameStretch(t, steps, j, i) {
        WriteListsConflict(t, steps, i, j);
      } else {
        WriteListsBarrier(t, steps, i, j);
      }
    }
  }

  ghost predicate Listed(t: TaskType, steps: seq<PlanStep>, i: int, j: int) {
    && 0 <= j < i < |steps|
    && (|| IsBarrier(t, steps[i].kind)
        || (SameStretch(t, steps, j, i) && PathsInterfere(PathOf(steps[j]), PathOf(steps[i])))
        || (IsBarrier(t, steps[j].kind) && forall m | j < m < i :: !IsBarrier(t, steps[m].kind)))
  }

  lemma {:induction false} ListedStep(t: TaskType, steps: seq<PlanStep>, i: nat, k: string) returns (j: nat)
    requires Plain(t, steps) && i < |steps| && k in DependsOn(t, steps, i)
    ensures Listed(t, steps, i, j) && k == KeyOf(steps, j)
  {
    hide PathsInterfere, PathOf, DependsOn, ConflictingWrites, KeyOf, LastBarrier;
    if IsBarrier(t, steps[i].kind) {
      j := ListedByBarrier(t, steps, i, k);
    } else {
      ListedByWrite(t, steps, i, k);
      if k in BarrierKey(t, steps, i) {
        j := LastBarrier(t, steps, i).value;
      } else {
        j := ConflictsOnly(t, steps, i, PathOf(steps[i]), k);
      }
    }
  }

  lemma ListedByBarrier(t: TaskType, steps: seq<PlanStep>, i: nat, k: string) returns (j: nat)
    requires Plain(t, steps) && i < |steps| && k in DependsOn(t, steps, i) && IsBarrier(t, steps[i].kind)
    ensures j < i && k == KeyOf(steps, j)
  {
    hide KeyOf;
    j :| 0 <= j < i && Keys(steps)[..i][j] == k;
  }

  lemma ListedByWrite(t: TaskType, steps: seq<PlanStep>, i: nat, k: string)
    requires Plain(t, steps) && i < |steps| && k in DependsOn(t, steps, i) && !IsBarrier(t, steps[i].kind)
    ensures k in BarrierKey(t, steps, i) || k in ConflictingWrites(t, steps, i, PathOf(steps[i]))
  {
    hide PathsInterfere, PathOf, ConflictingWrites, KeyOf, BarrierKey;
  }

  // ---- Where the claim fails ----------------------------------------------

  function WriteStep(id: string, kind: StepKind, path: string, content: string): PlanStep {
    PlanStep(id, kind, path, "", "", content, None, 0, 0, 0, "", false)
  }

  function CopyStep(id: string, source: string, destination: string): PlanStep {
    PlanStep(id, AssetCopy, "", source, destination, "", None, 0, 0, 0, "", false)
  }

  // Two steps of which neither lists the other.
  lemma LooseOrders(t: TaskType, steps: seq<PlanStep>)
    requires |steps| == 2 && steps[0].id != "" && steps[1].id != "" && steps[0].id != steps[1].id
    requires IsWrite(steps[0].kind) && IsWrite(steps[1].kind)
    requires !IsBarrier(t, steps[0].kind) && !IsBarrier(t, steps[1].kind)
    requires steps[0].dependsOn.None? && steps[1].dependsOn.None?
    requires !PathsInterfere(PathOf(steps[0]), PathOf(steps[1]))
    ensures Allowed(Compiled(t, steps), [1, 0])
  {
    hide DependsOn, IsWrite, IsBarrier, PathsInterfere, PathOf, Dec;
    NothingListed(t, steps);
    assert Compiled(t, steps)[0].deps == [] && Compiled(t, steps)[1].deps == [];
    hide KeyOf;
  }

  lemma NothingListed(t: TaskType, steps: seq<PlanStep>)
    requires |steps| == 2 && IsWrite(steps[0].kind) && IsWrite(steps[1].kind)
    requires !IsBarrier(t, steps[0].kind) && !IsBarrier(t, steps[1].kind)
    requires steps[0].dependsOn.None? && steps[1].dependsOn.None?
    requires !PathsInterfere(PathOf(steps[0]), PathOf(steps[1]))
    ensures DependsOn(t, steps, 0) == [] && DependsOn(t, steps, 1) == []
  {
    hide PathsInterfere, PathOf, IsBarrier, IsWrite, KeyOf;
    assert BarrierKey(t, steps, 0) == [] && BarrierKey(t, steps, 1) == [];
    assert ConflictingWrites(t, steps, 0, PathOf(steps[0])) == [];
    assert ConflictingWrites(t, steps, 1, PathOf(steps[1])) == [];
  }

  lemma RunTwo(t: TaskType, world: World, steps: seq<PlanStep>, w: Workspace)
    requires |steps| == 2 && Recognised(t, steps[0].kind) && Recognised(t, steps[1].kind)
    requires !IsBarrier(t, steps[0].kind) && !IsBarrier(t, steps[1].kind)
    ensures var c, d := ChangeOf(steps[0]), ChangeOf(steps[1]);
      && Run(Doing(t, world, steps), [1, 0], w) == Then(ApplyChange(d, w), c)
      && InOrder(t, world, steps, w) == Then(ApplyChange(c, w), d)
  {
    hide ChangeOf, ApplyChange, IsBarrier, Recognised, Run;
    var act := Doing(t, world, steps);
    RunPair(act, 1, 0, w);
    RunPair(act, 0, 1, w);
    assert [0, 1] == Counting(2);
  }

  lemma PlainName(name: string)
    requires name == "a" || name == "b"
    ensures Split(name) == [name] && Canonical(name)
  {
    assert name[1..] == "" && [name[0]] + "" == name;
    assert Split(name[1..]) == [""];
  }

  lemma PairIds()
    ensures "s1" != "" && "s2" != "" && "s1" != "s2"
  {
    assert "s1"[1] != "s2"[1];
  }

  // A copy is not ordered after the write of the file it copies: here the list
  // succeeds, and an order the graph allows fails.
  lemma CopyMayRunBeforeItsSource(world: World)
    ensures var steps := [WriteStep("s1", AssetWrite, "a", "x"), CopyStep("s2", "a", "b")];
      && Plain(Game, steps) && Allowed(Compiled(Game, steps), [1, 0])
      && InOrder(Game, world, steps, EMPTY).Some?
      && Run(Doing(Game, world, steps), [1, 0], EMPTY).None?
  {
    CopyParts();
    PairIds();
    var write, copy := WriteStep("s1", AssetWrite, "a", "x"), CopyStep("s2", "a", "b");
    WriteThenCopy(world, write, copy);
  }

  lemma WriteThenCopy(world: World, write: PlanStep, copy: PlanStep)
    requires write.kind.AssetWrite? && copy.kind.AssetCopy? && write.dependsOn.None? && copy.dependsOn.None?
    requires write.id != "" && copy.id != "" && write.id != copy.id && !PathsInterfere(PathOf(write), PathOf(copy))
    requires ApplyChange(ChangeOf(copy), EMPTY).None?
    requires Then(ApplyChange(ChangeOf(write), EMPTY), ChangeOf(copy)).Some?
    ensures Plain(Game, [write, copy]) && Allowed(Compiled(Game, [write, copy]), [1, 0])
    ensures InOrder(Game, world, [write, copy], EMPTY).Some?
    ensures Run(Doing(Game, world, [write, copy]), [1, 0], EMPTY).None?
  {
    hide Compiled, Allowed, Run, ApplyChange, ChangeOf, PathOf, PathsInterfere, InOrder;
    LooseOrders(Game, [write, copy]);
    RunTwo(Game, world, [write, copy], EMPTY);
  }

  lemma CopyParts()
    ensures var write, copy := WriteStep("s1", AssetWrite, "a", "x"), CopyStep("s2", "a", "b");
      && PathOf(write) == "a" && PathOf(copy) == "b" && !PathsInterfere("a", "b")
      && ApplyChange(ChangeOf(copy), EMPTY).None?
      && Then(ApplyChange(ChangeOf(write), EMPTY), ChangeOf(copy)).Some?
  {
    PlainName("a");
    PlainName("b");
    CanonicalLocates("a");
    CanonicalLocates("b");
    CopyAfterPut(["a"], "x", ["b"]);
  }

  lemma CopyAfterPut(from: Location, content: string, at: Location)
    requires |from| == 1 && |at| == 1 && from != at
    ensures ApplyChange(Copy(at, from), EMPTY).None?
    ensures Then(ApplyChange(Put(from, content), EMPTY), Copy(at, from)).Some?
  {
  }

  // Two spellings of one file are not ordered either: here the last write of the
  // list loses.
  lemma SpellingsAreNotCompared(world: World)
    ensures var steps :=
        [WriteStep("s1", WorkspaceWriteFile, "a//b", "x"), WriteStep("s2", WorkspaceWriteFile, "a/b", "y")];
      && Plain(App, steps) && Allowed(Compiled(App, steps), [1, 0])
      && FileAt(InOrder(App, world, steps, EMPTY), ["a", "b"], "y")
      && FileAt(Run(Doing(App, world, steps), [1, 0], EMPTY), ["a", "b"], "x")
  {
    var one, two := WriteStep("s1", WorkspaceWriteFile, "a//b", "x"), WriteStep("s2", WorkspaceWriteFile, "a/b", "y");
    SpelledParts(one, two);
    PairIds();
    LastPutWins(world, one, two, ["a", "b"], "x", "y");
  }

  lemma LastPutWins(world: World, one: PlanStep, two: PlanStep, at: Location, x: string, y: string)
    requires at != [] && one.kind.WorkspaceWriteFile? && two.kind.WorkspaceWriteFile?
    requires one.dependsOn.None? && two.dependsOn.None?
    requires one.id != "" && two.id != "" && one.id != two.id && !PathsInterfere(PathOf(one), PathOf(two))
    requires ChangeOf(one) == Put(at, x) && ChangeOf(two) == Put(at, y)
    ensures Plain(App, [one, two]) && Allowed(Compiled(App, [one, two]), [1, 0])
    ensures FileAt(InOrder(App, world, [one, two], EMPTY), at, y)
    ensures FileAt(Run(Doing(App, world, [one, two]), [1, 0], EMPTY), at, x)
  {
    hide Compiled, Allowed, Run, ApplyChange, ChangeOf, PathOf, PathsInterfere, InOrder;
    LooseOrders(App, [one, two]);
    RunTwo(App, world, [one, two], EMPTY);
    PutTwice(at, x, y);
    PutTwice(at, y, x);
  }

  predicate FileAt(w: Option<Workspace>, at: Location, content: string) {
    w.Some? && at in w.value && w.value[at] == File(content)
  }

  lemma PutTwice(at: Location, first: string, second: string)
    requires at != []
    ensures FileAt(Then(ApplyChange(Put(at, first), EMPTY), Put(at, second)), at, second)
  {
  }

  lemma SpelledParts(one: PlanStep, two: PlanStep)
    requires one == WriteStep("s1", WorkspaceWriteFile, "a//b", "x")
    requires two == WriteStep("s2", WorkspaceWriteFile, "a/b", "y")
    ensures PathOf(one) == "a//b" && PathOf(two) == "a/b" && !PathsInterfere("a//b", "a/b")
    ensures ChangeOf(one) == Put(["a", "b"], "x") && ChangeOf(two) == Put(["a", "b"], "y")
  {
    assert Slashed("a//b") == "a//b" && Slashed("a/b") == "a/b";
    SplitSpellings();
    WalkedSpellings();
  }

  lemma SplitSpellings()
    ensures Split("a/b") == ["a", "b"] && Split("a//b") == ["a", "", "b"]
  {
    PlainName("a");
    PlainName("b");
    assert "a/b" == "a" + "/" + "b" && "a//b" == "a" + "/" + "/b" && "/b" == "" + "/" + "b";
    SplitAtSlash("a", "b");
    SplitAtSlash("a", "/b");
    SplitAtSlash("", "b");
  }

  lemma WalkedSpellings()
    ensures Walked([], ["a", "b"]) == Some(["a", "b"])
    ensures Walked([], ["a", "", "b"]) == Some(["a", "b"])
  {
    assert "a"[0] == 'a' && "b"[0] == 'b' && |".."| == 2;
    WalkedPlain([], ["a", "b"]);
    assert [] + ["a", "b"] == ["a", "b"];
    WalkedOverGap("a", "b");
  }

  lemma WalkedOverGap(a: string, b: string)
    requires a != "" && a != "." && a != ".." && b != "" && b != "." && b != ".."
    ensures Walked([], [a, "", b]) == Some([a, b])
  {
    var gap := [a, "", b];
    assert gap[1..] == ["", b] && gap[1..][1..] == [b] && [] + [a] == [a];
    assert Walked([], gap) == Walked([a], gap[1..]) == Walked([a], [b]);
    WalkedPlain([a], [b]);
    assert [a] + [b] == [a, b];
  }

  // A step of a kind the compiler does not know waits for everything before it,
  // but a later write does not wait for it: only a real barrier holds writes back.
  lemma {:induction false} UnknownKindHoldsNothingBack(t: TaskType, steps: seq<PlanStep>, i: nat, j: nat)
    requires NoRepeats(Keys(steps)) && forall n | 0 <= n < |steps| :: steps[n].dependsOn.None?
    requires j < i < |steps| && IsWrite(steps[i].kind) && !IsWrite(steps[j].kind)
    requires forall m | j <= m <= i :: !IsBarrier(t, steps[m].kind)
    ensures KeyOf(steps, j) !in DependsOn(t, steps, i)
    ensures forall m | 0 <= m < j :: KeyOf(steps, m) in DependsOn(t, steps, j)
  {
    if KeyOf(steps, j) in ConflictingWrites(t, steps, i, PathOf(steps[i])) {
      var m := ConflictsOnly(t, steps, i, PathOf(steps[i]), KeyOf(steps, j));
      SameKeySameStep(steps, j, m);
    }
    var b := LastBarrier(t, steps, i);
    if b.Some? && KeyOf(steps, b.value) == KeyOf(steps, j) { SameKeySameStep(steps, j, b.value); }
    forall m: nat | m < j ensures KeyOf(steps, m) in DependsOn(t, steps, j) { ObserverListsAll(t, steps, j, m); }
  }

  lemma SameKeySameStep(steps: seq<PlanStep>, j: nat, m: nat)
    requires NoRepeats(Keys(steps)) && j < |steps| && m < |steps| && KeyOf(steps, j) == KeyOf(steps, m)
    ensures j == m
  {
    assert Keys(steps)[j] == Keys(steps)[m];
  }
}
