// How each growth wires into a grown graph, on roles and links alone.

module ModelWires {
  import opened Basics
  import opened Dag
  import opened ModelKeys
  import opened ModelShape

  // One new node follows on the node at j0.
  lemma {:induction false} VerifyWired(links: set<(int, int)>, roles: seq<Role>, k: nat, r: nat, j0: int)
    requires Wired(links, roles, k, r) && k == r + 1 && 0 <= j0 < |roles| && roles[j0] == Review(k)
    ensures Wired(links + {(|roles|, j0)}, roles + [Verify(k)], k, r)
  {
    var links', roles' := links + {(|roles|, j0)}, roles + [Verify(k)];
    assert (|roles|, j0) in links';
    forall j | 0 <= j < |roles'| ensures AtFront(roles'[j], k, r) || Followed(links', j) {
      if j < |roles| && Followed(links, j) { FollowedStays(links, links', j); }
    }
    forall i | 0 <= i < |roles'| && (roles'[i].Exec? || roles'[i].Verify?) ensures FollowsOn(links', i) {
      if i < |roles| { FollowsOnStays(links, links', i); }
    }
  }

  lemma FollowedStays(links: set<(int, int)>, links': set<(int, int)>, j: int)
    requires links <= links' && Followed(links, j)
    ensures Followed(links', j)
  {
    var i :| (i, j) in links;
    assert (i, j) in links';
  }

  lemma FollowsOnStays(links: set<(int, int)>, links': set<(int, int)>, i: int)
    requires links <= links' && FollowsOn(links, i)
    ensures FollowsOn(links', i)
  {
    var j :| (i, j) in links;
    assert (i, j) in links';
  }

  lemma {:induction false} RepairWired(links: set<(int, int)>, roles: seq<Role>, k: nat, r: nat, j0: int)
    requires Wired(links, roles, k, r) && OneEach(roles) && k == r + 1 && 0 <= j0 < |roles|
    requires (roles[j0] == Review(k) && Verify(k) !in roles) || roles[j0] == Verify(k)
    requires forall role | role in roles :: InRange(role, k, r)
    ensures Wired(links + {(|roles|, j0)}, roles + [Repair(k)], k, k)
  {
    var links', roles' := links + {(|roles|, j0)}, roles + [Repair(k)];
    assert (|roles|, j0) in links';
    forall j | 0 <= j < |roles'| ensures AtFront(roles'[j], k, k) || Followed(links', j) {
      if j < |roles| {
        if Followed(links, j) {
          FollowedStays(links, links', j);
        } else {
          assert roles[j] in roles;
          FrontIsLast(links, roles, k, r, j0, j);
        }
      }
    }
    forall i | 0 <= i < |roles'| && (roles'[i].Exec? || roles'[i].Verify?) ensures FollowsOn(links', i) {
      if i < |roles| { FollowsOnStays(links, links', i); }
    }
  }

  // The only node nothing follows is the one the repair will follow.
  lemma {:induction false} FrontIsLast(links: set<(int, int)>, roles: seq<Role>, k: nat, r: nat, j0: int, j: int)
    requires Wired(links, roles, k, r) && OneEach(roles) && k == r + 1 && 0 <= j0 < |roles| && 0 <= j < |roles|
    requires (roles[j0] == Review(k) && Verify(k) !in roles) || roles[j0] == Verify(k)
    requires InRange(roles[j], k, r) && !Followed(links, j)
    ensures j == j0
  {
    assert AtFront(roles[j], k, r);
    assert roles[j] in roles;
    if roles[j] == Review(k) && roles[j0] == Verify(k) { VerifyFollowsReview(links, roles, k, r, j0, j); }
  }

  lemma VerifyFollowsReview(links: set<(int, int)>, roles: seq<Role>, k: nat, r: nat, v: int, j: int)
    requires Wired(links, roles, k, r) && OneEach(roles) && 0 <= v < |roles| && 0 <= j < |roles|
    requires roles[v] == Verify(k) && roles[j] == Review(k)
    ensures Followed(links, j)
  {
    var y :| (v, y) in links;
    assert MayList(roles[v], roles[y]);
  }

  // A cycle of work: execution nodes at n, ..., n + m - 1 and their review at n + m,
  // with only such links as the compiled plan and the review make.
  ghost predicate CycleLinks(links: set<(int, int)>, links': set<(int, int)>, n: nat, m: nat, producer: int) {
    && links <= links'
    && (forall p | p in links' && p !in links ::
          || (n <= p.0 < n + m && (p.1 == producer || n <= p.1 < n + m))
          || (p.0 == n + m && n <= p.1 < n + m))
    && (forall j | n <= j < n + m :: Followed(links', j))
    && (forall i | n <= i < n + m :: FollowsOn(links', i))
    && Followed(links', producer)
  }

  function CycleRoles(c: nat, m: nat): (rs: seq<Role>)
    ensures |rs| == m + 1 && rs[m] == Review(c) && forall i | 0 <= i < m :: rs[i] == Exec(c)
  {
    seq(m, i => Exec(c)) + [Review(c)]
  }

  lemma {:induction false} CycleWired(
    links: set<(int, int)>, links': set<(int, int)>, roles: seq<Role>, k: nat, m: nat, producer: int)
    requires Wired(links, roles, k, k) && OneEach(roles)
    requires 0 <= producer < |roles| && roles[producer] == ProducerRole(k + 1)
    requires forall role | role in roles :: InRange(role, k, k)
    requires CycleLinks(links, links', |roles|, m, producer)
    ensures Wired(links', roles + CycleRoles(k + 1, m), k + 1, k)
  {
    hide OneEach, Followed, FollowsOn;
    var roles' := roles + CycleRoles(k + 1, m);
    CycleMayList(links, links', roles, roles', k, m, producer);
    forall j | 0 <= j < |roles'| ensures AtFront(roles'[j], k + 1, k) || Followed(links', j) {
      if j < |roles| {
        assert roles[j] in roles;
        CycleFront(links, links', roles, k, producer, j);
      }
    }
    forall i | 0 <= i < |roles'| && (roles'[i].Exec? || roles'[i].Verify?) ensures FollowsOn(links', i) {
      if i < |roles| { FollowsOnStays(links, links', i); }
    }
  }

  lemma CycleMayList(
    links: set<(int, int)>, links': set<(int, int)>, roles: seq<Role>, roles': seq<Role>, k: nat, m: nat, producer: int)
    requires Wired(links, roles, k, k) && roles' == roles + CycleRoles(k + 1, m)
    requires 0 <= producer < |roles| && roles[producer] == ProducerRole(k + 1)
    requires CycleLinks(links, links', |roles|, m, producer)
    ensures forall p | p in links' :: 0 <= p.0 < |roles'| && 0 <= p.1 < |roles'| && MayList(roles'[p.0], roles'[p.1])
  {
    forall p | p in links' ensures 0 <= p.0 < |roles'| && 0 <= p.1 < |roles'| && MayList(roles'[p.0], roles'[p.1]) {
      if p in links {
        assert 0 <= p.0 < |roles| && 0 <= p.1 < |roles| && MayList(roles[p.0], roles[p.1]);
        assert roles'[p.0] == roles[p.0] && roles'[p.1] == roles[p.1];
      }
    }
  }

  // Among the old nodes only the producer was at the front, and it is followed now.
  lemma CycleFront(links: set<(int, int)>, links': set<(int, int)>, roles: seq<Role>, k: nat, producer: int, j: int)
    requires Wired(links, roles, k, k) && OneEach(roles) && links <= links' && Followed(links', producer)
    requires 0 <= producer < |roles| && roles[producer] == ProducerRole(k + 1) && 0 <= j < |roles|
    requires InRange(roles[j], k, k)
    ensures Followed(links', j)
  {
    if Followed(links, j) {
      FollowedStays(links, links', j);
    } else {
      assert AtFront(roles[j], k, k);
      assert roles[j] == roles[producer];
    }
  }

  // ---- The counts ---------------------------------------------------------

  ghost predicate CountedRoles(roles: seq<Role>, k: nat, r: nat) {
    (forall role | role in roles :: InRange(role, k, r)) && Present(roles, k, r)
  }

  lemma CycleCounted(roles: seq<Role>, k: nat, m: nat)
    requires CountedRoles(roles, k, k) && m > 0
    ensures CountedRoles(roles + CycleRoles(k + 1, m), k + 1, k)
  {
    var more := CycleRoles(k + 1, m);
    assert more[0] in more && more[m] in more;
  }

  // The cycles with a verification.
  ghost function Verifications(roles: seq<Role>): set<nat> {
    set i | 0 <= i < |roles| && roles[i].Verify? :: roles[i].cycle
  }

  lemma VerificationsBounded(roles: seq<Role>, k: nat, r: nat)
    requires CountedRoles(roles, k, r)
    ensures |Verifications(roles)| <= k
  {
    forall v | v in Verifications(roles) ensures v in Upto(k + 1) - {0} {
      var i :| 0 <= i < |roles| && roles[i].Verify? && roles[i].cycle == v;
      assert roles[i] in roles;
    }
    GraphShapeSize(Verifications(roles), Upto(k + 1) - {0});
  }

  lemma {:induction false} GraphShapeSize(a: set<nat>, b: set<nat>)
    requires a <= b
    ensures |a| <= |b|
  {
    if a != {} {
      var x :| x in a;
      GraphShapeSize(a - {x}, b - {x});
    }
  }

  lemma VerificationsGrow(roles: seq<Role>, more: seq<Role>)
    ensures Verifications(roles + more) == Verifications(roles) + Verifications(more)
  {
    var all := roles + more;
    forall v ensures v in Verifications(all) <==> v in Verifications(roles) + Verifications(more) {
      if v in Verifications(roles) {
        var i :| 0 <= i < |roles| && roles[i].Verify? && roles[i].cycle == v;
        assert all[i] == roles[i];
      }
      if v in Verifications(more) {
        var i :| 0 <= i < |more| && more[i].Verify? && more[i].cycle == v;
        assert all[|roles| + i] == more[i];
      }
    }
  }
}
