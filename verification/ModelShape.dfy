// The shape a model graph keeps however it grows, as long as no change is replanned
// and no node is reopened: k cycles of work and reviews, r repairs, and everything
// wired to what it follows from. `roles` says what each node is for.

module ModelShape {
  import opened Basics
  import opened Dag
  import opened Nodes
  import opened Scheduler
  import opened Invariants
  import opened ModelKeys
  import opened ModelGraph

  predicate InRange(role: Role, k: nat, r: nat) {
    match role
    case Plan => true
    case Implement => true
    case Exec(n) => 1 <= n <= k
    case Review(n) => 1 <= n <= k
    case Repair(n) => 1 <= n <= r
    case Verify(n) => 1 <= n <= k
  }

  // Which node may list which.
  predicate MayList(a: Role, b: Role) {
    match b
    case Plan => a == Implement
    case Implement => a == Exec(1)
    case Exec(n) => a == Exec(n) || a == Review(n)
    case Review(n) => a == Repair(n) || a == Verify(n)
    case Repair(n) => a == Exec(n + 1)
    case Verify(n) => a == Repair(n)
  }

  // The only nodes nothing follows from yet.
  predicate AtFront(role: Role, k: nat, r: nat) {
    match role
    case Plan => false
    case Implement => k == 0
    case Exec(_) => false
    case Review(n) => n == k == r + 1
    case Repair(n) => n == r == k
    case Verify(n) => n == k == r + 1
  }

  predicate RightPayload(role: Role, d: Def) {
    match role
    case Implement => d.payload.expandsGraph && d.mode.WhenSucceeded?
    case Exec(_) => d.mode.WhenSucceeded?
    case Review(_) => d.payload.expandsGraph && d.mode.WhenSettled?
    case Repair(_) => d.payload.expandsGraph && d.mode.WhenSucceeded?
    case Verify(_) => !d.payload.expandsGraph && d.mode.WhenSucceeded?
    case Plan => d.mode.WhenSucceeded?
  }

  // The review of cycle n has succeeded with this verdict.
  ghost predicate Verdict(ns: seq<Node>, roles: seq<Role>, n: nat, d: Decision)
    requires |roles| == |ns|
  {
    exists j :: 0 <= j < |ns| && roles[j] == Review(n) && ns[j].status.Succeeded? && DecisionOf(ns[j]) == Some(d)
  }

  ghost predicate Roled(ns: seq<Node>, roles: seq<Role>) {
    |roles| == |ns| && forall i | 0 <= i < |ns| :: KeyIs(ns[i].def.key, roles[i])
  }

  ghost predicate Present(roles: seq<Role>, k: nat, r: nat) {
    && Plan in roles && Implement in roles
    && (forall n | 1 <= n <= k :: Exec(n) in roles && Review(n) in roles)
    && (forall n | 1 <= n <= r :: Repair(n) in roles)
  }

  // Who lists whom, as pairs of positions.
  ghost function Links(ns: seq<Node>): set<(int, int)> {
    set i, j | 0 <= i < |ns| && 0 <= j < |ns| && Lists(ns, i, j) :: (i, j)
  }

  ghost predicate Followed(links: set<(int, int)>, j: int) {
    exists i :: (i, j) in links
  }

  ghost predicate FollowsOn(links: set<(int, int)>, i: int) {
    exists j :: (i, j) in links
  }

  ghost predicate Wired(links: set<(int, int)>, roles: seq<Role>, k: nat, r: nat) {
    && (forall p | p in links ::
          0 <= p.0 < |roles| && 0 <= p.1 < |roles| && MayList(roles[p.0], roles[p.1]))
    && (forall j | 0 <= j < |roles| :: AtFront(roles[j], k, r) || Followed(links, j))
    && (forall i | 0 <= i < |roles| && (roles[i].Exec? || roles[i].Verify?) :: FollowsOn(links, i))
  }

  // Except for execution nodes, a role is one node's.
  ghost predicate OneEach(roles: seq<Role>) {
    forall i, j | 0 <= i < |roles| && 0 <= j < |roles| && roles[i] == roles[j] && !roles[i].Exec? :: i == j
  }

  // Why each verification and each repair is there.
  ghost predicate Justified(ns: seq<Node>, roles: seq<Role>)
    requires |roles| == |ns|
  {
    forall i | 0 <= i < |ns| ::
      && (roles[i].Verify? ==> Verdict(ns, roles, roles[i].cycle, Pass))
      && (roles[i].Repair? ==> Verdict(ns, roles, roles[i].cycle, Revise) || Verify(roles[i].cycle) in roles)
  }

  // The cycles there are.
  ghost predicate Counted(ns: seq<Node>, roles: seq<Role>, k: nat, r: nat) {
    && Roled(ns, roles)
    && (forall role | role in roles :: InRange(role, k, r))
    && Present(roles, k, r)
  }

  ghost predicate RightPayloads(ns: seq<Node>, roles: seq<Role>) {
    |roles| == |ns| && forall i | 0 <= i < |ns| :: RightPayload(roles[i], ns[i].def)
  }

  ghost predicate Grown(ns: seq<Node>, roles: seq<Role>, k: nat, r: nat) {
    && Counted(ns, roles, k, r)
    && RightPayloads(ns, roles)
    && r <= k <= r + 1
    && Wired(Links(ns), roles, k, r)
    && Justified(ns, roles)
  }

  // ---- Looking nodes up by role -------------------------------------------

  lemma RoleOfKey(ns: seq<Node>, roles: seq<Role>, i: nat, role: Role)
    requires Roled(ns, roles) && i < |ns| && KeyIs(ns[i].def.key, role)
    ensures roles[i] == role
  {
    OneRole(ns[i].def.key, roles[i], role);
  }

  lemma SameRoleSameNode(ns: seq<Node>, roles: seq<Role>, i: nat, j: nat)
    requires Roled(ns, roles) && DistinctKeys(Defs(ns)) && i < |ns| && j < |ns|
    requires roles[i] == roles[j] && !roles[i].Exec?
    ensures i == j
  {
    assert Defs(ns)[i].key == Defs(ns)[j].key;
  }

  lemma RolesAreUnique(ns: seq<Node>, roles: seq<Role>)
    requires Roled(ns, roles) && DistinctKeys(Defs(ns))
    ensures OneEach(roles)
  {
    forall i: nat, j: nat | i < |roles| && j < |roles| && roles[i] == roles[j] && !roles[i].Exec? ensures i == j {
      SameRoleSameNode(ns, roles, i, j);
    }
  }

  function KeyOfRole(role: Role): string
    requires !role.Exec?
  {
    match role
    case Plan => PLAN
    case Implement => IMPLEMENT
    case Review(n) => ReviewKey(n)
    case Repair(n) => RepairKey(n)
    case Verify(n) => VerifyKey(n)
  }

  // Finding a key is finding the node with that role.
  lemma FindByRole(ns: seq<Node>, roles: seq<Role>, role: Role)
    requires Roled(ns, roles) && !role.Exec?
    ensures Has(ns, KeyOfRole(role)) <==> role in roles
    ensures Has(ns, KeyOfRole(role)) ==> roles[Find(ns, KeyOfRole(role)).value] == role
  {
    var key := KeyOfRole(role);
    if Has(ns, key) { RoleOfKey(ns, roles, Find(ns, key).value, role); }
    if role in roles {
      var i :| 0 <= i < |roles| && roles[i] == role;
      assert ns[i].def.key == key;
    }
  }

  lemma {:induction false} NoRework(ns: seq<Node>, roles: seq<Role>, n: nat)
    requires Roled(ns, roles)
    ensures !Has(ns, ReworkKey(n))
  {
    if Has(ns, ReworkKey(n)) {
      var i := Find(ns, ReworkKey(n)).value;
      NotRework(ns[i].def.key, roles[i], n);
    }
  }

  // A review has one verdict.
  lemma OneVerdict(ns: seq<Node>, roles: seq<Role>, n: nat, a: Decision, b: Decision)
    requires Roled(ns, roles) && DistinctKeys(Defs(ns))
    requires Verdict(ns, roles, n, a) && Verdict(ns, roles, n, b)
    ensures a == b
  {
    var i :| 0 <= i < |ns| && roles[i] == Review(n) && ns[i].status.Succeeded? && DecisionOf(ns[i]) == Some(a);
    var j :| 0 <= j < |ns| && roles[j] == Review(n) && ns[j].status.Succeeded? && DecisionOf(ns[j]) == Some(b);
    SameRoleSameNode(ns, roles, i, j);
  }

  // ---- What the reading of the keys comes to ------------------------------

  lemma {:induction false} CyclesAreContiguous(ns: seq<Node>, roles: seq<Role>, k: nat, r: nat, c: CycleSets)
    requires Counted(ns, roles, k, r) && ReadsCycles(ns, c)
    ensures forall v :: v in c.exec <==> 1 <= v <= k
    ensures forall v :: v in c.reviews <==> 1 <= v <= k
    ensures forall v :: v in c.producers <==> 0 <= v <= r
  {
    ReadsRoles(ns, roles);
    RolesCount(roles, k, r);
    CollectedAre(Readings(ns, ExecCycle), c.exec, 1, k);
    CollectedAre(Readings(ns, ReviewCycle), c.reviews, 1, k);
    CollectedAre(Readings(ns, ProducerCycle), c.producers, 0, r);
  }

  lemma CollectedAre(vs: seq<Option<nat>>, s: set<nat>, lo: nat, hi: nat)
    requires Collects(vs, s) && forall v: nat :: Some(v) in vs <==> lo <= v <= hi
    ensures forall v :: v in s <==> lo <= v <= hi
  {
  }

  // The numbers read from the keys are the numbers of the roles.
  lemma {:induction false} ReadsRoles(ns: seq<Node>, roles: seq<Role>)
    requires Roled(ns, roles)
    ensures forall v: nat ::
      && (Some(v) in Readings(ns, ExecCycle) <==> Exec(v) in roles)
      && (Some(v) in Readings(ns, ReviewCycle) <==> Review(v) in roles)
      && (Some(v) in Readings(ns, ProducerCycle) <==> Repair(v) in roles || (v == 0 && Implement in roles))
  {
    forall i | 0 <= i < |ns|
      ensures Readings(ns, ExecCycle)[i] == ReadAs(roles[i]).0
      ensures Readings(ns, ReviewCycle)[i] == ReadAs(roles[i]).1
      ensures Readings(ns, ProducerCycle)[i] == ReadAs(roles[i]).2
    {
      NodeRead(ns[i], roles[i]);
    }
    ReadingsOfRoles(roles, Readings(ns, ExecCycle), Readings(ns, ReviewCycle), Readings(ns, ProducerCycle));
  }

  function ReadAs(role: Role): (Option<nat>, Option<nat>, Option<nat>) {
    match role
    case Exec(n) => (Some(n), None, None)
    case Review(n) => (None, Some(n), None)
    case Repair(n) => (None, None, Some(n))
    case Implement => (None, None, Some(0))
    case _ => (None, None, None)
  }

  lemma ReadingsOfRoles(roles: seq<Role>, a: seq<Option<nat>>, b: seq<Option<nat>>, c: seq<Option<nat>>)
    requires |a| == |b| == |c| == |roles|
    requires forall i | 0 <= i < |roles| ::
      a[i] == ReadAs(roles[i]).0 && b[i] == ReadAs(roles[i]).1 && c[i] == ReadAs(roles[i]).2
    ensures forall v: nat ::
      && (Some(v) in a <==> Exec(v) in roles)
      && (Some(v) in b <==> Review(v) in roles)
      && (Some(v) in c <==> Repair(v) in roles || (v == 0 && Implement in roles))
  {
    forall v: nat
      ensures Some(v) in a <==> Exec(v) in roles
      ensures Some(v) in b <==> Review(v) in roles
      ensures Some(v) in c <==> Repair(v) in roles || (v == 0 && Implement in roles)
    {
      if Exec(v) in roles { var i :| 0 <= i < |roles| && roles[i] == Exec(v); assert a[i] == Some(v); }
      if Review(v) in roles { var i :| 0 <= i < |roles| && roles[i] == Review(v); assert b[i] == Some(v); }
      if Repair(v) in roles { var i :| 0 <= i < |roles| && roles[i] == Repair(v); assert c[i] == Some(v); }
      if Implement in roles { var i :| 0 <= i < |roles| && roles[i] == Implement; assert c[i] == Some(0); }
    }
  }

  lemma RolesCount(roles: seq<Role>, k: nat, r: nat)
    requires (forall role | role in roles :: InRange(role, k, r)) && Present(roles, k, r)
    ensures forall v: nat ::
      && (Exec(v) in roles <==> 1 <= v <= k)
      && (Review(v) in roles <==> 1 <= v <= k)
      && (Repair(v) in roles || (v == 0 && Implement in roles) <==> v <= r)
  {
  }

  lemma {:induction false} NodeRead(n: Node, role: Role)
    requires KeyIs(n.def.key, role)
    ensures ExecCycle(n) == ReadAs(role).0 && ReviewCycle(n) == ReadAs(role).1 && ProducerCycle(n) == ReadAs(role).2
  {
    PatternsReadRole(n.def.key, role);
  }

  lemma HighestIs(s: set<nat>, k: nat, m: nat)
    requires (forall v :: v in s <==> 1 <= v <= k) && HighestIn(s, m)
    ensures m == k
  {
    if k > 0 { assert k in s; }
  }

  // ---- What the driver decides --------------------------------------------

  function ProducerRole(cycle: nat): Role {
    if cycle <= 1 then Implement else Repair(cycle - 1)
  }

  // The decision, in terms of roles: which growth is asked for, and that it is for
  // the cycle in hand.
  ghost predicate Sensible(ns: seq<Node>, roles: seq<Role>, k: nat, r: nat, limit: nat, a: Action)
    requires |roles| == |ns|
  {
    match a
    case ExpandExecution(c, producer) =>
      && c == k + 1 && r == k && !ProducerRole(c).Exec? && producer == KeyOfRole(ProducerRole(c))
      && Done(ns, producer)
    case ExpandRepair(c) => c == k == r + 1 && c < limit && Verdict(ns, roles, c, Revise)
    case ExpandVerify(c) => c == k == r + 1 && Verdict(ns, roles, c, Pass) && Verify(c) !in roles
    case Verified(c, passed) =>
      && 1 <= c <= k && Verify(c) in roles && Done(ns, VerifyKey(c))
      && (Repair(c) in roles || c == k == r + 1)
      && (forall i | 0 <= i < |ns| && roles[i] == Verify(c) :: ns[i].def.payload.evidencePassed == passed)
    case RepairLimit(c) => c == k == r + 1 && c >= limit
    case Blocked(c) => 1 <= c <= k && Verdict(ns, roles, c, Block)
    case Idle => true
  }

  lemma {:induction false} DecisionIsSensible(
    ns: seq<Node>, roles: seq<Role>, k: nat, r: nat, limit: nat, a: Action)
    requires Grown(ns, roles, k, r) && DistinctKeys(Defs(ns)) && Decides(ns, limit, a)
    ensures Sensible(ns, roles, k, r, limit, a)
  {
    var c, exec, review :| ReadsCycles(ns, c) && HighestIn(c.exec, exec) && HighestIn(c.reviews, review)
      && DecidedFrom(ns, limit, c, exec, review, a);
    CyclesAreContiguous(ns, roles, k, r, c);
    HighestIs(c.exec, k, exec);
    HighestIs(c.reviews, k, review);
    var deciding := DecidingReview(ns, limit, k);
    if deciding > 0 { VerdictIsSensible(ns, roles, k, r, limit, deciding); }
    ProducerForNext(ns, roles, k, r);
    FromHighest(ns, roles, k, r, limit, c, a);
  }

  lemma FromHighest(
    ns: seq<Node>, roles: seq<Role>, k: nat, r: nat, limit: nat, c: CycleSets, a: Action)
    requires |roles| == |ns| && HighestIn(c.exec, k) && HighestIn(c.reviews, k)
    requires DecidedFrom(ns, limit, c, k, k, a)
    requires Sensible(ns, roles, k, r, limit, OnReviews(ns, limit, k))
    requires ProducerKeyFor(ns, k + 1) == if r == k then Some(KeyOfRole(ProducerRole(k + 1))) else None
    ensures Sensible(ns, roles, k, r, limit, a)
  {
  }

  lemma {:induction false} ProducerForNext(ns: seq<Node>, roles: seq<Role>, k: nat, r: nat)
    requires Grown(ns, roles, k, r)
    ensures ProducerKeyFor(ns, k + 1) == if r == k then Some(KeyOfRole(ProducerRole(k + 1))) else None
  {
    FindByRole(ns, roles, Implement);
    if k > 0 {
      FindByRole(ns, roles, Repair(k));
      NoRework(ns, roles, k);
    }
  }

  // The verdict that decides is that of one succeeded review, if there is one.
  lemma {:induction false} DecidingReview(ns: seq<Node>, limit: nat, cycle: nat) returns (c: nat)
    ensures c <= cycle
    ensures c == 0 ==> OnReviews(ns, limit, cycle) == Idle
    ensures c > 0 ==>
      && Done(ns, ReviewKey(c))
      && OnReviews(ns, limit, cycle) == OnVerdict(ns, limit, c, DecisionOf(ns[Find(ns, ReviewKey(c)).value]))
  {
    if cycle == 0 {
      c := 0;
    } else if Done(ns, ReviewKey(cycle)) {
      c := cycle;
    } else {
      c := DecidingReview(ns, limit, cycle - 1);
    }
  }

  lemma {:induction false} VerdictIsSensible(
    ns: seq<Node>, roles: seq<Role>, k: nat, r: nat, limit: nat, cycle: nat)
    requires Grown(ns, roles, k, r) && DistinctKeys(Defs(ns)) && 1 <= cycle <= k && Done(ns, ReviewKey(cycle))
    ensures Sensible(ns, roles, k, r, limit,
                     OnVerdict(ns, limit, cycle, DecisionOf(ns[Find(ns, ReviewKey(cycle)).value])))
  {
    var decision := DecisionOf(ns[Find(ns, ReviewKey(cycle)).value]);
    FindByRole(ns, roles, Review(cycle));
    if decision.Some? {
      assert Verdict(ns, roles, cycle, decision.value);
      match decision.value
      case Revise => ReviseIsSensible(ns, roles, k, r, limit, cycle);
      case Pass => PassIsSensible(ns, roles, k, r, limit, cycle);
      case Block =>
    }
  }

  lemma {:induction false} ReviseIsSensible(
    ns: seq<Node>, roles: seq<Role>, k: nat, r: nat, limit: nat, cycle: nat)
    requires Roled(ns, roles) && Present(roles, k, r) && r <= k <= r + 1
    requires 1 <= cycle <= k && Verdict(ns, roles, cycle, Revise)
    ensures Sensible(ns, roles, k, r, limit, OnVerdict(ns, limit, cycle, Some(Revise)))
  {
    FindByRole(ns, roles, Repair(cycle));
  }

  lemma {:induction false} PassIsSensible(
    ns: seq<Node>, roles: seq<Role>, k: nat, r: nat, limit: nat, cycle: nat)
    requires Roled(ns, roles) && DistinctKeys(Defs(ns)) && Present(roles, k, r) && r <= k <= r + 1
    requires Justified(ns, roles)
    requires 1 <= cycle <= k && Verdict(ns, roles, cycle, Pass)
    ensures Sensible(ns, roles, k, r, limit, OnVerdict(ns, limit, cycle, Some(Pass)))
  {
    FindByRole(ns, roles, Verify(cycle));
    if cycle <= r { RepairNeedsReason(ns, roles, cycle); }
    if Done(ns, VerifyKey(cycle)) {
      var x := Find(ns, VerifyKey(cycle)).value;
      forall i: nat | i < |ns| && roles[i] == Verify(cycle) ensures i == x { SameRoleSameNode(ns, roles, i, x); }
    }
  }

  lemma RepairNeedsReason(ns: seq<Node>, roles: seq<Role>, n: nat)
    requires Roled(ns, roles) && DistinctKeys(Defs(ns)) && Justified(ns, roles)
    requires Repair(n) in roles && Verdict(ns, roles, n, Pass)
    ensures Verify(n) in roles
  {
    var i :| 0 <= i < |roles| && roles[i] == Repair(n);
    if Verdict(ns, roles, n, Revise) { OneVerdict(ns, roles, n, Revise, Pass); }
  }
}
