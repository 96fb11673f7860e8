// One execution graph and the transitions src/jev.js makes on it. Each operation
// runs in one transaction, so each is one step of a state machine; what happens to
// a single graph in such a step is a `Move`.

module Scheduler {
  import opened Basics
  import opened Dag
  import opened GraphShape
  import opened Nodes
  import opened Readiness

  datatype GraphStatus = GraphPending | GraphRunning | GraphSucceeded | GraphFailed | GraphCancelled

  datatype Graph = Graph(
    id: nat, task: string, tenant: string, createdAt: int, status: GraphStatus, nodes: seq<Node>)

  predicate Active(g: Graph) {
    g.status.GraphPending? || g.status.GraphRunning?
  }

  // ---- Derived status -----------------------------------------------------

  // A succeeded node that owes the graph more work, which has not arrived.
  ghost predicate AwaitsExpansion(ns: seq<Node>, i: int) {
    && 0 <= i < |ns|
    && ns[i].def.payload.expandsGraph
    && ns[i].status.Succeeded?
    && forall j :: !Lists(ns, j, i)
  }

  ghost function Derive(ns: seq<Node>): GraphStatus {
    if ns == [] then GraphPending
    else if exists i :: AwaitsExpansion(ns, i) then GraphRunning
    else if forall i | 0 <= i < |ns| :: ns[i].status.Succeeded? then GraphSucceeded
    else if forall i | 0 <= i < |ns| :: Terminal(ns[i].status) then
      if exists i :: 0 <= i < |ns| && ns[i].status.Cancelled? then GraphCancelled else GraphFailed
    else if exists i :: 0 <= i < |ns| && (ns[i].status.Running? || Terminal(ns[i].status) || ns[i].attempt > 0) then
      GraphRunning
    else GraphPending
  }

  ghost function Refresh(g: Graph, ns: seq<Node>): Graph {
    g.(nodes := ns, status := Derive(ns))
  }

  // ---- Claiming -----------------------------------------------------------

  ghost predicate Claimable(ns: seq<Node>, i: int) {
    0 <= i < |ns| && ns[i].status.Ready? && UnblockedAt(ns, i)
  }

  // The resource filter; an empty class is the default class, an empty filter none.
  predicate ClassFits(n: Node, filter: Option<string>) {
    filter.None? || filter.value == ""
    || (if n.def.resourceClass == "" then "cpu" else n.def.resourceClass) == filter.value
  }

  predicate Earlier(a: Def, b: Def) {
    a.order < b.order || (a.order == b.order && TextLess(a.key, b.key))
  }

  // The node claimableNodes lists first.
  ghost predicate FirstClaimable(ns: seq<Node>, filter: Option<string>, i: int) {
    && Claimable(ns, i) && ClassFits(ns[i], filter)
    && forall j | Claimable(ns, j) && ClassFits(ns[j], filter) && j != i :: Earlier(ns[i].def, ns[j].def)
  }

  function Max(a: int, b: int): int { if a < b then b else a }

  function ClaimedNode(n: Node, lease: nat, owner: string, leaseMs: int, now: int): Node {
    n.(status := Running, attempt := n.attempt + 1, lease := Some(lease), leaseOwner := Some(owner),
       leaseExpires := Some(now + Max(1000, leaseMs)),
       deadline := if n.def.timeoutMs > 0
                   then Some(if n.deadline.Some? then n.deadline.value else now + n.def.timeoutMs)
                   else None)
  }

  function RenewedNode(n: Node, leaseMs: int, now: int): Node {
    n.(leaseExpires := Some(now + Max(1000, leaseMs)))
  }

  function Unleased(n: Node): Node {
    n.(lease := None, leaseOwner := None, leaseExpires := None)
  }

  function CompletedNode(n: Node, output: Output): Node {
    n.(status := Succeeded, output := output, leaseExpires := None)
  }

  predicate WillRetry(n: Node, retryable: bool) {
    retryable && n.attempt < n.maxAttempts
  }

  function FailedNode(n: Node, retryable: bool): Node {
    Unleased(n).(status := if WillRetry(n, retryable) then Ready else Failed)
  }

  function ReopenedNode(n: Node): Node {
    Unleased(n).(status := Pending, maxAttempts := n.maxAttempts + 1)
  }

  // A node another node's failure had skipped, once that node is reopened.
  function RevivedNode(n: Node, because: string): Node {
    if n.status.Skipped? && n.skippedBecause == Some(because)
    then n.(status := Pending, skippedBecause := None)
    else n
  }

  predicate PastDeadline(n: Node, now: int) { n.deadline.Some? && n.deadline.value <= now }

  predicate LostWorker(n: Node, now: int) { n.leaseExpires.Some? && n.leaseExpires.value <= now }

  predicate Stalled(n: Node, now: int) {
    n.status.Running? && (PastDeadline(n, now) || LostWorker(n, now))
  }

  function SweptNode(n: Node, now: int): Node {
    if !Stalled(n, now) then n
    else if PastDeadline(n, now) then Unleased(n).(status := TimedOut)
    else if n.attempt < n.maxAttempts then Unleased(n).(status := Ready)
    else Unleased(n).(status := Failed)
  }

  function CancelledNode(n: Node): Node {
    if Terminal(n.status) then n else Unleased(n).(status := Cancelled)
  }

  // ---- New nodes ----------------------------------------------------------

  // A node as a caller describes it to createTaskGraph or expandGraph.
  datatype Request = Request(
    key: string, kind: string, deps: seq<string>, mode: Mode, payload: Payload,
    resourceClass: string, maxAttempts: int, timeoutMs: int, budgetMinor: int)

  function PreparedDef(r: Request, order: int): Def {
    Def(Trim(r.key), r.kind, r.deps, r.mode, order, r.payload, r.resourceClass,
        Max(0, r.timeoutMs), Max(0, r.budgetMinor))
  }

  function NewNode(r: Request, order: int, id: nat): Node {
    Node(id, PreparedDef(r, order), Max(1, r.maxAttempts), Pending, 0,
         None, None, None, None, NoOutput, None)
  }

  function NewNodes(rs: seq<Request>, order: int, id: nat): (ns: seq<Node>)
    ensures |ns| == |rs| && forall t | 0 <= t < |rs| :: ns[t] == NewNode(rs[t], order + t, id + t)
  {
    seq(|rs|, t requires 0 <= t < |rs| => NewNode(rs[t], order + t, id + t))
  }

  // `reduce((max, item) => Math.max(max, item.order), -1)`
  function HighestOrder(ns: seq<Node>): (m: int)
    ensures m >= -1 && forall i | 0 <= i < |ns| :: ns[i].def.order <= m
  {
    if ns == [] then -1 else Max(ns[|ns| - 1].def.order, HighestOrder(ns[..|ns| - 1]))
  }

  function Union(ns: seq<Node>, rs: seq<Request>, id: nat): seq<Node> {
    ns + NewNodes(rs, HighestOrder(ns) + 1, id)
  }

  ghost predicate Creatable(rs: seq<Request>) {
    AcceptableShape(Defs(Union([], rs, 0)))
  }

  ghost predicate Expandable(g: Graph, rs: seq<Request>) {
    && !g.status.GraphFailed? && !g.status.GraphCancelled?
    && rs != []
    && AcceptableShape(Defs(Union(g.nodes, rs, 0)))
  }

  lemma UnionShape(ns: seq<Node>, rs: seq<Request>, a: nat, b: nat)
    ensures Defs(Union(ns, rs, a)) == Defs(Union(ns, rs, b))
  {
  }

  // ---- Moves --------------------------------------------------------------

  datatype Move =
    | Claim(i: nat, lease: nat, owner: string, leaseMs: int, now: int)
    | Renew(i: nat, leaseMs: int, now: int)
    | Complete(i: nat, output: Output)
    | Fail(i: nat, retryable: bool)
    | Reopen(i: nat)
    | Sweep(now: int)
    | Cancel
    | Expand(requests: seq<Request>, firstId: nat)

  ghost predicate Enabled(g: Graph, m: Move) {
    match m
    case Claim(i, _, _, _, _) => Active(g) && Claimable(g.nodes, i)
    case Renew(i, _, _) => i < |g.nodes| && g.nodes[i].status.Running?
    case Complete(i, _) => i < |g.nodes| && g.nodes[i].status.Running?
    case Fail(i, _) => i < |g.nodes| && g.nodes[i].status.Running?
    case Reopen(i) =>
      && i < |g.nodes| && (g.nodes[i].status.Failed? || g.nodes[i].status.TimedOut?)
      && !g.status.GraphCancelled?
    case Sweep(_) => true
    case Cancel => true
    case Expand(rs, _) => Expandable(g, rs)
  }

  // The nodes after the operation's own writes, before applyReadiness.
  ghost function Written(g: Graph, m: Move): (ns: seq<Node>)
    requires Enabled(g, m)
    ensures |ns| >= |g.nodes|
  {
    var ns := g.nodes;
    match m
    case Claim(i, lease, owner, leaseMs, now) => ns[i := ClaimedNode(ns[i], lease, owner, leaseMs, now)]
    case Renew(i, leaseMs, now) => ns[i := RenewedNode(ns[i], leaseMs, now)]
    case Complete(i, output) => ns[i := CompletedNode(ns[i], output)]
    case Fail(i, retryable) => ns[i := FailedNode(ns[i], retryable)]
    case Reopen(i) => AfterReopen(ns, i)
    case Sweep(now) => seq(|ns|, x requires 0 <= x < |ns| => SweptNode(ns[x], now))
    case Cancel => seq(|ns|, x requires 0 <= x < |ns| => CancelledNode(ns[x]))
    case Expand(rs, firstId) => Union(ns, rs, firstId)
  }

  function AfterReopen(ns: seq<Node>, i: nat): (ms: seq<Node>)
    requires i < |ns|
    ensures |ms| == |ns|
  {
    seq(|ns|, x requires 0 <= x < |ns| =>
      if x == i then ReopenedNode(ns[i]) else RevivedNode(ns[x], ns[i].def.key))
  }

  // Whether the operation goes on to call applyReadiness.
  ghost predicate Propagates(g: Graph, m: Move)
    requires Enabled(g, m)
  {
    match m
    case Complete(_, _) => true
    case Fail(i, retryable) => !WillRetry(g.nodes[i], retryable)
    case Reopen(_) => true
    case Expand(_, _) => true
    case Sweep(now) => exists x :: 0 <= x < |g.nodes| && Stalled(g.nodes[x], now)
    case _ => false
  }

  ghost function Apply(g: Graph, m: Move): Graph
    requires Enabled(g, m) && WellShaped(Defs(Written(g, m)))
  {
    var ns := Written(g, m);
    if m.Renew? || (m.Sweep? && !Propagates(g, m)) then g.(nodes := ns)
    else Refresh(g, if Propagates(g, m) then Settle(ns) else ns)
  }

  ghost function Created(id: nat, task: string, tenant: string, now: int, rs: seq<Request>): Graph
    requires Creatable(rs)
  {
    var ns := Union([], rs, id + 1);
    assert Defs(ns) == Defs(Union([], rs, 0));
    Refresh(Graph(id, task, tenant, now, GraphPending, []), Settle(ns))
  }
}
