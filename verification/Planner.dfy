// From an ordered step list to graph nodes (src/jev-planner.js, lines 33-216).

module Planner {
  import opened Basics
  import opened Dag
  import opened GraphShape
  import opened Nodes
  import opened Scheduler
  import opened Paths

  datatype TaskType = App | Game

  // Steps after which the workspace must be fully settled.
  predicate IsBarrier(t: TaskType, kind: StepKind) {
    match t
    case App => kind.Command? || kind.Service? || kind.BrowserSmoke? || kind.Deploy? || kind.Package?
    case Game =>
      kind.ProjectInit? || kind.Command? || kind.EngineAction? || kind.Playtest? || kind.Build? || kind.Package?
  }

  predicate IsWrite(kind: StepKind) {
    kind.WorkspaceWriteFile? || kind.WorkspaceMkdir? || kind.AssetWrite? || kind.AssetCopy?
  }

  // The kinds a plan of this type may hold once it has been normalised.
  predicate Recognised(t: TaskType, kind: StepKind) {
    match t
    case App =>
      || kind.WorkspaceWriteFile? || kind.WorkspaceMkdir? || kind.Command? || kind.Service?
      || kind.BrowserSmoke? || kind.Deploy? || kind.Package?
    case Game =>
      || kind.ProjectInit? || kind.AssetWrite? || kind.AssetCopy? || kind.Command?
      || kind.EngineAction? || kind.Playtest? || kind.Build? || kind.Package?
  }

  function PathOf(step: PlanStep): string {
    if step.kind.AssetCopy? then NormalizePath(step.destination) else NormalizePath(step.path)
  }

  function KeyOf(steps: seq<PlanStep>, n: nat): string
    requires n < |steps|
  {
    if steps[n].id != "" then steps[n].id else "step-" + Dec(n + 1)
  }

  function Keys(steps: seq<PlanStep>): (ks: seq<string>)
    ensures |ks| == |steps| && forall n | 0 <= n < |steps| :: ks[n] == KeyOf(steps, n)
  {
    seq(|steps|, n requires 0 <= n < |steps| => KeyOf(steps, n))
  }

  // `[...new Set(names)]`
  function Unique(names: seq<string>): (r: seq<string>)
    ensures NoRepeats(r) && forall k :: k in r <==> k in names
  {
    if names == [] then []
    else
      var init := Unique(names[..|names| - 1]);
      var k := names[|names| - 1];
      assert names == names[..|names| - 1] + [k];
      if k in init then init else init + [k]
  }

  // `names.filter(Boolean)`
  function NonEmpty(names: seq<string>): (r: seq<string>)
    ensures forall k :: k in r <==> k in names && k != ""
  {
    if names == [] then []
    else if names[0] == "" then NonEmpty(names[1..])
    else [names[0]] + NonEmpty(names[1..])
  }

  // The latest barrier among the first n steps.
  function LastBarrier(t: TaskType, steps: seq<PlanStep>, n: nat): (b: Option<nat>)
    requires n <= |steps|
    ensures b.Some? ==> b.value < n && IsBarrier(t, steps[b.value].kind)
    ensures b.Some? ==> forall m | b.value < m < n :: !IsBarrier(t, steps[m].kind)
    ensures b.None? ==> forall m | 0 <= m < n :: !IsBarrier(t, steps[m].kind)
  {
    if n == 0 then None
    else if IsBarrier(t, steps[n - 1].kind) then Some(n - 1)
    else LastBarrier(t, steps, n - 1)
  }

  function BarrierKey(t: TaskType, steps: seq<PlanStep>, n: nat): seq<string>
    requires n <= |steps|
  {
    var b := LastBarrier(t, steps, n);
    if b.Some? then [KeyOf(steps, b.value)] else []
  }

  // The keys of the writes among the first n steps that come after the last
  // barrier and whose path interferes with `here`.
  function ConflictingWrites(t: TaskType, steps: seq<PlanStep>, n: nat, here: string): (r: seq<string>)
    requires n <= |steps|
  {
    if n == 0 || IsBarrier(t, steps[n - 1].kind) then []
    else ConflictingWrites(t, steps, n - 1, here)
         + (if IsWrite(steps[n - 1].kind) && PathsInterfere(PathOf(steps[n - 1]), here)
            then [KeyOf(steps, n - 1)] else [])
  }

  function DependsOn(t: TaskType, steps: seq<PlanStep>, n: nat): seq<string>
    requires n < |steps|
  {
    var step := steps[n];
    if step.dependsOn.Some? then Unique(NonEmpty(step.dependsOn.value))
    else if !IsBarrier(t, step.kind) && IsWrite(step.kind) then
      Unique(BarrierKey(t, steps, n) + ConflictingWrites(t, steps, n, PathOf(step)))
    else Keys(steps)[..n]
  }

  function CompiledNode(t: TaskType, steps: seq<PlanStep>, n: nat): Request
    requires n < |steps|
  {
    var step := steps[n];
    Request(KeyOf(steps, n), KindName(step.kind), DependsOn(t, steps, n), WhenSucceeded,
            Payload(step.expandsGraph, None),
            if step.resourceClass == "" then "cpu" else step.resourceClass,
            Max(1, step.retries + 1), Max(0, step.timeoutMs), Max(0, step.budgetMinor))
  }

  function Compiled(t: TaskType, steps: seq<PlanStep>): (rs: seq<Request>)
    ensures |rs| == |steps| && forall n | 0 <= n < |steps| :: rs[n] == CompiledNode(t, steps, n)
  {
    seq(|steps|, n requires 0 <= n < |steps| => CompiledNode(t, steps, n))
  }

  // A node as assertGraphShape is shown it, its key untrimmed.
  function RawDef(r: Request, order: int): Def {
    Def(r.key, r.kind, r.deps, r.mode, order, r.payload, r.resourceClass, Max(0, r.timeoutMs), Max(0, r.budgetMinor))
  }

  function RawDefs(rs: seq<Request>): (ds: seq<Def>)
    ensures |ds| == |rs| && forall n | 0 <= n < |rs| :: ds[n] == RawDef(rs[n], n)
  {
    seq(|rs|, n requires 0 <= n < |rs| => RawDef(rs[n], n))
  }

  datatype PlanError = NoSteps | DuplicateStep(id: string) | BadShape(shape: ShapeError)

  ghost predicate Compilable(t: TaskType, steps: seq<PlanStep>) {
    steps != [] && NoRepeats(Keys(steps)) && AcceptableShape(RawDefs(Compiled(t, steps)))
  }

  datatype Prior = Prior(key: string, path: string)

  // The writes since the last barrier, as the compiler's loop keeps them.
  function WritesSince(t: TaskType, steps: seq<PlanStep>, n: nat): seq<Prior>
    requires n <= |steps|
  {
    if n == 0 || IsBarrier(t, steps[n - 1].kind) then []
    else WritesSince(t, steps, n - 1)
         + (if IsWrite(steps[n - 1].kind) then [Prior(KeyOf(steps, n - 1), PathOf(steps[n - 1]))] else [])
  }

  function Filtered(writes: seq<Prior>, here: string): seq<string> {
    if writes == [] then []
    else Filtered(writes[..|writes| - 1], here)
         + (if PathsInterfere(writes[|writes| - 1].path, here) then [writes[|writes| - 1].key] else [])
  }

  lemma {:induction false} FilteredWrites(t: TaskType, steps: seq<PlanStep>, n: nat, here: string)
    requires n <= |steps|
    ensures Filtered(WritesSince(t, steps, n), here) == ConflictingWrites(t, steps, n, here)
  {
    if n > 0 && !IsBarrier(t, steps[n - 1].kind) {
      FilteredWrites(t, steps, n - 1, here);
      var init := WritesSince(t, steps, n - 1);
      if IsWrite(steps[n - 1].kind) {
        assert WritesSince(t, steps, n)[..|init|] == init;
      } else {
        assert WritesSince(t, steps, n) == init;
      }
    }
  }

  // `writesSinceBarrier.filter(...).map(...)`
  method Conflicting(writes: seq<Prior>, here: string) returns (r: seq<string>)
    ensures r == Filtered(writes, here)
  {
    r := [];
    for w := 0 to |writes|
      invariant r == Filtered(writes[..w], here)
    {
      assert writes[..w + 1][..w] == writes[..w];
      if PathsInterfere(writes[w].path, here) { r := r + [writes[w].key]; }
    }
    assert writes[..|writes|] == writes;
  }

  // What the loop knows once it has handled the first n steps.
  ghost predicate Progress(
    t: TaskType, steps: seq<PlanStep>, n: nat,
    nodes: seq<Request>, last: seq<string>, writes: seq<Prior>, all: seq<string>)
    requires n <= |steps|
  {
    && nodes == Compiled(t, steps)[..n]
    && last == BarrierKey(t, steps, n)
    && writes == WritesSince(t, steps, n)
    && all == Keys(steps)[..n]
  }

  // The body of the loop: step n's node, and the loop's variables afterwards.
  method CompileStep(
    t: TaskType, steps: seq<PlanStep>, n: nat, key: string,
    nodes0: seq<Request>, last0: seq<string>, writes0: seq<Prior>, all0: seq<string>)
    returns (nodes: seq<Request>, last: seq<string>, writes: seq<Prior>, all: seq<string>)
    requires n < |steps| && key == KeyOf(steps, n)
    requires Progress(t, steps, n, nodes0, last0, writes0, all0)
    ensures Progress(t, steps, n + 1, nodes, last, writes, all)
  {
    var step := steps[n];
    var isBarrier := IsBarrier(t, step.kind);
    var dependsOn;
    if step.dependsOn.Some? {
      dependsOn := Unique(NonEmpty(step.dependsOn.value));
    } else if isBarrier {
      dependsOn := all0;
    } else if IsWrite(step.kind) {
      var conflicting := Conflicting(writes0, PathOf(step));
      FilteredWrites(t, steps, n, PathOf(step));
      dependsOn := Unique(last0 + conflicting);
    } else {
      dependsOn := all0;
    }
    var node := Request(
      key, KindName(step.kind), dependsOn, WhenSucceeded, Payload(step.expandsGraph, None),
      if step.resourceClass == "" then "cpu" else step.resourceClass,
      Max(1, step.retries + 1), Max(0, step.timeoutMs), Max(0, step.budgetMinor));
    assert node == CompiledNode(t, steps, n);
    nodes := nodes0 + [node];
    all, last, writes := all0 + [key], last0, writes0;
    if isBarrier {
      last, writes := [key], [];
    } else if IsWrite(step.kind) {
      writes := writes + [Prior(key, PathOf(step))];
    }
    ExtendPrefix(nodes0, Compiled(t, steps), n);
    ExtendPrefix(all0, Keys(steps), n);
  }

  lemma ExtendPrefix<T>(a: seq<T>, s: seq<T>, n: nat)
    requires n < |s| && a == s[..n]
    ensures a + [s[n]] == s[..n + 1]
  {
  }

  method GraphFromExecutionPlan(t: TaskType, steps: seq<PlanStep>) returns (r: Result<seq<Request>, PlanError>)
    ensures r.Ok? <==> Compilable(t, steps)
    ensures r.Ok? ==> r.value == Compiled(t, steps)
    ensures r == Err(NoSteps) <==> steps == []
    ensures r.Err? && r.error.DuplicateStep? ==>
      exists a, b :: 0 <= a < b < |steps| && KeyOf(steps, a) == KeyOf(steps, b) == r.error.id
    ensures r.Err? && r.error.BadShape? ==> Explains(RawDefs(Compiled(t, steps)), r.error.shape)
  {
    if steps == [] { return Err(NoSteps); }
    var nodes, last, writes, all, seen := [], [], [], [], {};
    var ks := Keys(steps);
    for n := 0 to |steps|
      invariant Progress(t, steps, n, nodes, last, writes, all)
      invariant seen == set k | k in ks[..n]
      invariant NoRepeats(ks[..n])
    {
      var key := KeyOf(steps, n);
      if key in seen {
        var a :| 0 <= a < n && ks[a] == key;
        assert ks[a] == ks[n];
        return Err(DuplicateStep(key));
      }
      assert ks[..n + 1] == ks[..n] + [key];
      seen := seen + {key};
      nodes, last, writes, all := CompileStep(t, steps, n, key, nodes, last, writes, all);
    }
    assert nodes == Compiled(t, steps) && ks[..|ks|] == ks;
    var shape := AssertGraphShape(RawDefs(nodes));
    if shape.Err? { return Err(BadShape(shape.error)); }
    return Ok(nodes);
  }
}
