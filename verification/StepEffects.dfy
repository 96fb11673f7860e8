// What each kind of step does to the workspace, and exactly when it fails
// (src/app-web-executor.js, lines 15-67; src/game-executor.js, lines 17-25 and 160-181).

module StepEffects {
  import opened Basics
  import opened Nodes
  import opened Paths
  import opened Workspaces
  import opened Planner
  import opened PlanMeaning

  // Nothing stands in the way of an entry of this kind here: above it folders only, and
  // at its place nothing of the other kind.
  ghost predicate Clear(w: Workspace, at: Location, folder: bool) {
    && (forall p | p in w && p < at :: w[p].Folder?)
    && (at in w ==> (w[at].Folder? <==> folder))
  }

  // This entry is there, with folders above it, and everything else is as it was.
  ghost predicate Leaves(w: Workspace, v: Workspace, at: Location, entry: Entry) {
    && (forall p :: p in v <==> p in w || p <= at)
    && (forall p | p in v :: v[p] == if p == at then entry else if p < at then Folder else w[p])
  }

  lemma WrittenLeaves(w: Workspace, at: Location, entry: Entry)
    ensures Written(w, Wanted(at, entry)).Some? <==> Clear(w, at, entry.Folder?)
    ensures Clear(w, at, entry.Folder?) ==> Leaves(w, Written(w, Wanted(at, entry)).value, at, entry)
  {
    var m := Wanted(at, entry);
    if Clear(w, at, entry.Folder?) {
      forall p | p in m && p in w ensures w[p].Folder? == m[p].Folder? {}
    }
    if Compatible(w, m) {
      forall p | p in w && p < at ensures w[p].Folder? { assert p in m; }
      assert at in m;
    }
  }

  // A step that writes a file leaves its content at its path.
  lemma FileWritten(t: TaskType, world: World, steps: seq<PlanStep>, n: nat, w: Workspace)
    requires n < |steps| && steps[n].kind == (if t.Game? then AssetWrite else WorkspaceWriteFile)
    ensures var at, v := Locate(steps[n].path), Perform(t, world, steps, n, w);
      && (v.Some? <==> at.Some? && at.value != [] && Clear(w, at.value, false))
      && (v.Some? ==> Leaves(w, v.value, at.value, File(steps[n].content)))
  {
    hide Locate, Clear, Leaves;
    var at := Locate(steps[n].path);
    if at.Some? { WrittenLeaves(w, at.value, File(steps[n].content)); }
  }

  // A step that makes a folder leaves one at its path.
  lemma FolderMade(world: World, steps: seq<PlanStep>, n: nat, w: Workspace)
    requires n < |steps| && steps[n].kind == WorkspaceMkdir
    ensures var at, v := Locate(steps[n].path), Perform(App, world, steps, n, w);
      && (v.Some? <==> at.Some? && Clear(w, at.value, true))
      && (v.Some? ==> Leaves(w, v.value, at.value, Folder))
  {
    hide Locate, Clear, Leaves;
    var at := Locate(steps[n].path);
    if at.Some? { WrittenLeaves(w, at.value, Folder); }
  }

  // A copy leaves at its destination the file that is at its source.
  lemma FileCopied(world: World, steps: seq<PlanStep>, n: nat, w: Workspace)
    requires n < |steps| && steps[n].kind == AssetCopy
    ensures var from, at, v := Locate(steps[n].source), Locate(steps[n].destination), Perform(Game, world, steps, n, w);
      && (v.Some? <==>
            && from.Some? && from.value in w && w[from.value].File?
            && at.Some? && at.value != [] && at.value != from.value && Clear(w, at.value, false))
      && (v.Some? ==> Leaves(w, v.value, at.value, w[from.value]))
  {
    hide Locate, Clear, Leaves;
    var from, at := Locate(steps[n].source), Locate(steps[n].destination);
    if from.Some? && at.Some? && from.value in w { WrittenLeaves(w, at.value, w[from.value]); }
  }

  // A step of any other kind the runtime knows does what the world makes of it; a kind it
  // does not know fails.
  lemma OtherDone(t: TaskType, world: World, steps: seq<PlanStep>, n: nat, w: Workspace)
    requires n < |steps|
    ensures var kind, v := steps[n].kind, Perform(t, world, steps, n, w);
      && (t.App? && kind in {Command, Service, BrowserSmoke, Deploy, Package} ==> v == world(n, w))
      && (t.App? && kind !in {Command, Service, BrowserSmoke, Deploy, Package, WorkspaceWriteFile, WorkspaceMkdir} ==>
            v.None?)
      && (t.Game? && kind in {ProjectInit, Command, EngineAction, Playtest, Build, Package} ==> v == world(n, w))
      && (t.Game? && kind !in {ProjectInit, Command, EngineAction, Playtest, Build, Package, AssetWrite, AssetCopy} ==>
            v.None?)
  {
    hide ApplyChange, ChangeOf;
  }
}
