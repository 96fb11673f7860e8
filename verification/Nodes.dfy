// The stored records: a node of an execution graph, its statuses, and what a
// finished node hands back (src/jev-domain.js, lines 14-72; src/jev.js, lines
// 111-173).

module Nodes {
  import opened Basics
  import opened Dag

  datatype Status =
    | Pending | Ready | Running
    | Succeeded | Failed | Skipped | Cancelled | TimedOut

  predicate Terminal(s: Status) {
    s.Succeeded? || s.Failed? || s.Skipped? || s.Cancelled? || s.TimedOut?
  }

  // The step kinds of application and game plans; `command` and `package` are
  // shared.
  datatype StepKind =
    | WorkspaceWriteFile | WorkspaceMkdir | Command | Service | BrowserSmoke | Deploy | Package
    | ProjectInit | AssetWrite | AssetCopy | EngineAction | Playtest | Build
    | OtherKind(name: string)

  function KindName(k: StepKind): string {
    match k
    case WorkspaceWriteFile => "workspace_write_file"
    case WorkspaceMkdir => "workspace_mkdir"
    case Command => "command"
    case Service => "service"
    case BrowserSmoke => "browser_smoke"
    case Deploy => "deploy"
    case Package => "package"
    case ProjectInit => "project_init"
    case AssetWrite => "asset_write"
    case AssetCopy => "asset_copy"
    case EngineAction => "engine_action"
    case Playtest => "playtest"
    case Build => "build"
    case OtherKind(name) => name
  }

  // One entry of a planner's ordered step list.
  datatype PlanStep = PlanStep(
    id: string, kind: StepKind, path: string, source: string, destination: string, content: string,
    dependsOn: Option<seq<string>>, retries: int, timeoutMs: int, budgetMinor: int,
    resourceClass: string, expandsGraph: bool)

  datatype Decision = Pass | Revise | Block

  // The part of a node's output anything reads: a review's verdict, or the plan an
  // implementation produced.
  datatype Output = NoOutput | Output(decision: Option<Decision>, plan: Option<seq<PlanStep>>)

  datatype Node = Node(
    id: nat, def: Def, maxAttempts: nat,
    status: Status, attempt: nat,
    lease: Option<nat>, leaseOwner: Option<string>, leaseExpires: Option<int>, deadline: Option<int>,
    output: Output, skippedBecause: Option<string>)

  function Defs(ns: seq<Node>): (ds: seq<Def>)
    ensures |ds| == |ns|
    ensures forall i | 0 <= i < |ns| :: ds[i] == ns[i].def
  {
    seq(|ns|, i requires 0 <= i < |ns| => ns[i].def)
  }

  // Node i lists node j as a dependency.
  predicate Lists(ns: seq<Node>, i: int, j: int) {
    0 <= i < |ns| && 0 <= j < |ns| && ns[j].def.key in ns[i].def.deps
  }

  lemma ListsIsDepOf(ns: seq<Node>)
    ensures forall i: nat, j: nat :: Lists(ns, i, j) <==> DepOf(Defs(ns), i, j)
  {
  }

  function StatusOf(ns: seq<Node>, k: string): Status
    requires HasKey(Defs(ns), k)
  {
    ns[IndexOf(Defs(ns), k)].status
  }

  // Nothing but statuses and skip reasons differ.
  predicate SameApartFromStatus(ns: seq<Node>, ms: seq<Node>) {
    |ns| == |ms| && forall i | 0 <= i < |ns| ::
      ms[i] == ns[i].(status := ms[i].status, skippedBecause := ms[i].skippedBecause)
  }

  lemma SameDefs(ns: seq<Node>, ms: seq<Node>)
    requires SameApartFromStatus(ns, ms)
    ensures Defs(ns) == Defs(ms)
    ensures forall i, j :: Lists(ns, i, j) <==> Lists(ms, i, j)
  {
    forall i | 0 <= i < |ns| ensures ns[i].def == ms[i].def {
      assert ms[i] == ns[i].(status := ms[i].status, skippedBecause := ms[i].skippedBecause);
    }
  }
}
