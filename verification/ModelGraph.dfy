// The graph of model phases: what it is asked to grow into, and the reading of its
// own nodes that decides it (src/jev-model-graph.js, lines 48-500).

module ModelGraph {
  import opened Basics
  import opened Dag
  import opened GraphShape
  import opened Nodes
  import opened Scheduler
  import opened Planner
  import opened ModelKeys

  // ---- The nodes it asks for ----------------------------------------------

  function ModelNode(kind: string, key: string, deps: seq<string>, expands: bool): Request {
    Request(key, kind, deps, WhenSucceeded, Payload(expands, None), "cpu", 2, 0, 0)
  }

  const STARTING_NODES: seq<Request> := [
    ModelNode("model_plan", PLAN, [], false),
    ModelNode("model_implement", IMPLEMENT, [PLAN], true)]

  // A plan's node as cycle c's: its keys prefixed, and its sources waiting on the
  // producer of the plan.
  function Prefixed(prefix: string, deps: seq<string>): (r: seq<string>)
    ensures |r| == |deps| && forall d | 0 <= d < |deps| :: r[d] == prefix + deps[d]
  {
    seq(|deps|, d requires 0 <= d < |deps| => prefix + deps[d])
  }

  function ExecutionNode(c: nat, producer: string, r: Request): Request {
    r.(key := ExecPrefix(c) + r.key, deps := if r.deps == [] then [producer] else Prefixed(ExecPrefix(c), r.deps))
  }

  function ExecutionNodes(c: nat, producer: string, rs: seq<Request>): (es: seq<Request>)
    ensures |es| == |rs| && forall n | 0 <= n < |rs| :: es[n] == ExecutionNode(c, producer, rs[n])
  {
    seq(|rs|, n requires 0 <= n < |rs| => ExecutionNode(c, producer, rs[n]))
  }

  predicate SinkAt(es: seq<Request>, n: int) {
    0 <= n < |es| && forall m | 0 <= m < |es| :: es[n].key !in es[m].deps
  }

  // The keys, among the first n, that no node lists.
  function SinkKeys(es: seq<Request>, n: nat): (ks: seq<string>)
    requires n <= |es|
    ensures forall k :: k in ks <==> exists m :: 0 <= m < n && SinkAt(es, m) && es[m].key == k
  {
    if n == 0 then [] else SinkKeys(es, n - 1) + (if SinkAt(es, n - 1) then [es[n - 1].key] else [])
  }

  function ReviewNode(c: nat, es: seq<Request>): Request {
    ModelNode("model_review", ReviewKey(c), SinkKeys(es, |es|), true).(mode := WhenSettled)
  }

  // expandWithExecutionPlan, once the plan has compiled to `rs`.
  function ExecutionRequests(c: nat, producer: string, rs: seq<Request>): seq<Request> {
    var es := ExecutionNodes(c, producer, rs);
    es + [ReviewNode(c, es)]
  }

  // expandWithRepair, after a review or after a failed verification.
  function RepairRequests(c: nat, after: string): seq<Request> {
    [ModelNode("model_repair", RepairKey(c), [after], true)]
  }

  // expandWithVerify; the evidence travels with the node.
  function VerifyRequests(c: nat, passed: bool): seq<Request> {
    [ModelNode("model_verify", VerifyKey(c), [ReviewKey(c)], false).(payload := Payload(false, Some(passed)))]
  }

  // ---- Reading the nodes --------------------------------------------------

  function Find(ns: seq<Node>, key: string): (r: Option<nat>)
    ensures r.Some? ==> r.value < |ns| && ns[r.value].def.key == key
    ensures r.None? ==> forall i | 0 <= i < |ns| :: ns[i].def.key != key
  {
    if ns == [] then None
    else if ns[0].def.key == key then Some(0)
    else match Find(ns[1..], key)
      case None => None
      case Some(i) => Some(i + 1)
  }

  predicate Has(ns: seq<Node>, key: string) { Find(ns, key).Some? }

  predicate Done(ns: seq<Node>, key: string) {
    Find(ns, key).Some? && ns[Find(ns, key).value].status.Succeeded?
  }

  function DecisionOf(n: Node): Option<Decision> {
    if n.output.NoOutput? then None else n.output.decision
  }

  // The cycle numbers the keys carry.
  function ExecCycle(n: Node): Option<nat> { MatchExec(n.def.key) }

  function ProducerCycle(n: Node): Option<nat> {
    if MatchExec(n.def.key).Some? then None
    else if ProducerIndex(n.def.key).Some? then ProducerIndex(n.def.key)
    else if MatchTail(REVIEW, n.def.key).None? && n.def.key == IMPLEMENT then Some(0)
    else None
  }

  function ReviewCycle(n: Node): Option<nat> {
    if MatchExec(n.def.key).Some? || ProducerIndex(n.def.key).Some? then None else MatchTail(REVIEW, n.def.key)
  }

  datatype CycleSets = CycleSets(exec: set<nat>, producers: set<nat>, reviews: set<nat>)

  function Readings(ns: seq<Node>, read: Node -> Option<nat>): (vs: seq<Option<nat>>)
    ensures |vs| == |ns| && forall i | 0 <= i < |ns| :: vs[i] == read(ns[i])
  {
    seq(|ns|, i requires 0 <= i < |ns| => read(ns[i]))
  }

  ghost predicate Collects(vs: seq<Option<nat>>, s: set<nat>) {
    forall v :: v in s <==> Some(v) in vs
  }

  ghost predicate ReadsCycles(ns: seq<Node>, c: CycleSets) {
    && Collects(Readings(ns, ExecCycle), c.exec)
    && Collects(Readings(ns, ProducerCycle), c.producers)
    && Collects(Readings(ns, ReviewCycle), c.reviews)
  }

  // graphCycles
  method GraphCycles(ns: seq<Node>) returns (c: CycleSets)
    ensures ReadsCycles(ns, c)
  {
    var exec, producers, reviews := {}, {}, {};
    for n := 0 to |ns|
      invariant ReadsCycles(ns[..n], CycleSets(exec, producers, reviews))
    {
      var key := ns[n].def.key;
      ghost var before := CycleSets(exec, producers, reviews);
      if MatchExec(key).Some? {
        exec := exec + {MatchExec(key).value};
      } else if ProducerIndex(key).Some? {
        producers := producers + {ProducerIndex(key).value};
      } else if MatchTail(REVIEW, key).Some? {
        reviews := reviews + {MatchTail(REVIEW, key).value};
      } else if key == IMPLEMENT {
        producers := producers + {0};
      }
      ReadOneMore(ns, n, before, CycleSets(exec, producers, reviews));
    }
    assert ns[..|ns|] == ns;
    return CycleSets(exec, producers, reviews);
  }

  function With(s: set<nat>, v: Option<nat>): set<nat> {
    if v.Some? then s + {v.value} else s
  }

  lemma ReadOneMore(ns: seq<Node>, n: nat, c: CycleSets, c': CycleSets)
    requires n < |ns| && ReadsCycles(ns[..n], c)
    requires c' == CycleSets(
      With(c.exec, ExecCycle(ns[n])), With(c.producers, ProducerCycle(ns[n])), With(c.reviews, ReviewCycle(ns[n])))
    ensures ReadsCycles(ns[..n + 1], c')
  {
    CollectOneMore(ns, n, ExecCycle, c.exec);
    CollectOneMore(ns, n, ProducerCycle, c.producers);
    CollectOneMore(ns, n, ReviewCycle, c.reviews);
  }

  lemma CollectOneMore(ns: seq<Node>, n: nat, read: Node -> Option<nat>, s: set<nat>)
    requires n < |ns| && Collects(Readings(ns[..n], read), s)
    ensures Collects(Readings(ns[..n + 1], read), With(s, read(ns[n])))
  {
    assert Readings(ns[..n + 1], read) == Readings(ns[..n], read) + [read(ns[n])];
  }

  // `set.size === 0 ? 0 : Math.max(...set)`
  ghost predicate HighestIn(s: set<nat>, m: nat) {
    (forall v | v in s :: v <= m) && (if s == {} then m == 0 else m in s)
  }

  method HighestOf(s: set<nat>) returns (m: nat)
    ensures HighestIn(s, m)
  {
    m := 0;
    var left := s;
    while left != {}
      invariant left <= s && (forall v | v in s && v !in left :: v <= m) && (m == 0 || m in s)
      invariant s == left || (exists v :: v in s && v !in left)
      decreases |left|
    {
      var v :| v in left;
      if v > m { m := v; }
      left := left - {v};
    }
    if s != {} && m == 0 {
      var v :| v in s;
    }
  }

  // ---- What to do next ----------------------------------------------------

  datatype Action =
    | ExpandExecution(cycle: nat, producer: string)
    | RepairLimit(cycle: nat)
    | ExpandRepair(cycle: nat)
    | ExpandVerify(cycle: nat)
    | Verified(cycle: nat, passed: Option<bool>)
    | Blocked(cycle: nat)
    | Idle

  function ProducerKeyFor(ns: seq<Node>, cycle: nat): Option<string> {
    if cycle <= 1 then (if Has(ns, IMPLEMENT) then Some(IMPLEMENT) else None)
    else if Has(ns, RepairKey(cycle - 1)) then Some(RepairKey(cycle - 1))
    else if Has(ns, ReworkKey(cycle - 1)) then Some(ReworkKey(cycle - 1))
    else None
  }

  // What a succeeded review's verdict asks for.
  function OnVerdict(ns: seq<Node>, limit: nat, cycle: nat, decision: Option<Decision>): Action {
    match decision
    case Some(Revise) =>
      if Has(ns, RepairKey(cycle)) then Idle
      else if cycle >= limit then RepairLimit(cycle)
      else ExpandRepair(cycle)
    case Some(Pass) =>
      if !Has(ns, VerifyKey(cycle)) then ExpandVerify(cycle)
      else if Done(ns, VerifyKey(cycle)) then
        Verified(cycle, ns[Find(ns, VerifyKey(cycle)).value].def.payload.evidencePassed)
      else Idle
    case Some(Block) => Blocked(cycle)
    case None => Idle
  }

  // The latest review that has succeeded decides.
  function OnReviews(ns: seq<Node>, limit: nat, cycle: nat): Action {
    if cycle == 0 then Idle
    else if !Done(ns, ReviewKey(cycle)) then OnReviews(ns, limit, cycle - 1)
    else OnVerdict(ns, limit, cycle, DecisionOf(ns[Find(ns, ReviewKey(cycle)).value]))
  }

  ghost predicate DecidedFrom(ns: seq<Node>, limit: nat, c: CycleSets, exec: nat, review: nat, a: Action)
    requires HighestIn(c.exec, exec) && HighestIn(c.reviews, review)
  {
    var p := ProducerKeyFor(ns, exec + 1);
    a == (if p.Some? && Done(ns, p.value) && exec + 1 !in c.exec then ExpandExecution(exec + 1, p.value)
          else OnReviews(ns, limit, review))
  }

  // nextModelGraphAction, apart from reading the graph.
  ghost predicate Decides(ns: seq<Node>, limit: nat, a: Action) {
    exists c, exec, review ::
      ReadsCycles(ns, c) && HighestIn(c.exec, exec) && HighestIn(c.reviews, review)
      && DecidedFrom(ns, limit, c, exec, review, a)
  }

  method NextModelGraphAction(ns: seq<Node>, limit: nat) returns (a: Action)
    ensures Decides(ns, limit, a)
  {
    hide ReviewKey, VerifyKey, RepairKey, ReworkKey, Find, ProducerKeyFor, OnVerdict;
    hide DecisionOf, ReadsCycles, HighestIn;
    var c := GraphCycles(ns);
    var exec := HighestOf(c.exec);
    var cycle := HighestOf(c.reviews);
    ghost var review := cycle;
    var producer := ProducerKeyFor(ns, exec + 1);
    if producer.Some? && Done(ns, producer.value) && exec + 1 !in c.exec {
      a := ExpandExecution(exec + 1, producer.value);
      assert DecidedFrom(ns, limit, c, exec, review, a);
      return;
    }
    while cycle > 0
      invariant cycle <= review && OnReviews(ns, limit, review) == OnReviews(ns, limit, cycle)
    {
      if Done(ns, ReviewKey(cycle)) {
        a := OnVerdict(ns, limit, cycle, DecisionOf(ns[Find(ns, ReviewKey(cycle)).value]));
        assert DecidedFrom(ns, limit, c, exec, review, a);
        return;
      }
      cycle := cycle - 1;
    }
    a := Idle;
    assert DecidedFrom(ns, limit, c, exec, review, a);
  }

  // What the driver then asks the graph to grow by, if anything: expandExecution,
  // expandRepair, expandVerify and settleVerification in src/jev-model-loop.js,
  // lines 420-622. `passed` is the objective verifier's record.
  ghost function GrowthFor(t: TaskType, ns: seq<Node>, limit: nat, a: Action, passed: bool): Option<seq<Request>> {
    match a
    case ExpandExecution(c, producer) =>
      if !Has(ns, producer) then None
      else
        var output := ns[Find(ns, producer).value].output;
        if output.NoOutput? || output.plan.None? || !Compilable(t, output.plan.value) then None
        else Some(ExecutionRequests(c, producer, Compiled(t, output.plan.value)))
    case ExpandRepair(c) => Some(RepairRequests(c, ReviewKey(c)))
    case ExpandVerify(c) => Some(VerifyRequests(c, passed))
    case Verified(c, evidence) =>
      if evidence == Some(true) || Has(ns, RepairKey(c)) || c >= limit then None
      else Some(RepairRequests(c, VerifyKey(c)))
    case _ => None
  }
}
