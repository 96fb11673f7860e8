// Growing keeps the shape: the union of a grown graph and what the driver asks for
// is acceptable, whatever plan the model answered with, and is grown again.

module ModelGrowth {
  import opened Basics
  import opened Dag
  import opened GraphShape
  import opened Nodes
  import opened Scheduler
  import opened Invariants
  import opened Planner
  import opened ModelKeys
  import opened ModelGraph
  import opened ModelShape

  // ---- Acyclicity of a union ----------------------------------------------

  // A closed walk that starts among the new nodes stays there.
  lemma {:induction false} StaysOld(ds: seq<Def>, n: nat, p: seq<nat>, t: nat)
    requires n <= |ds| && Walk(ds, p) && t < |p| && p[t] < n
    requires forall i: nat, j: nat | i < n && DepOf(ds, i, j) :: j < n
    ensures forall s | t <= s < |p| :: p[s] < n
    decreases |p| - t
  {
    if t + 1 < |p| {
      assert DepOf(ds, p[t], p[t + 1]);
      StaysOld(ds, n, p, t + 1);
    }
  }

  ghost predicate Touches(p: seq<nat>, n: nat) {
    exists t :: 0 <= t < |p| && p[t] < n
  }

  // No closed walk keeps to the new nodes.
  ghost predicate NewAcyclic(ds: seq<Def>, n: nat) {
    forall p | Walk(ds, p) && |p| >= 2 && p[0] == p[|p| - 1] :: Touches(p, n)
  }

  lemma {:induction false} UnionAcyclic(was: seq<Def>, ds: seq<Def>)
    requires |was| <= |ds| && (forall i | 0 <= i < |was| :: ds[i] == was[i])
    requires Acyclic(was) && NewAcyclic(ds, |was|)
    requires forall i: nat, j: nat | i < |was| && DepOf(ds, i, j) :: j < |was|
    ensures Acyclic(ds)
  {
    var n := |was|;
    forall p | Walk(ds, p) && |p| >= 2 ensures p[0] != p[|p| - 1] {
      if t :| 0 <= t < |p| && p[t] < n {
        StaysOld(ds, n, p, t);
        if p[0] < n {
          StaysOld(ds, n, p, 0);
          OldWalk(was, ds, p);
        }
      }
    }
  }

  lemma OldWalk(was: seq<Def>, ds: seq<Def>, p: seq<nat>)
    requires |was| <= |ds| && (forall i | 0 <= i < |was| :: ds[i] == was[i])
    requires Walk(ds, p) && forall s | 0 <= s < |p| :: p[s] < |was|
    ensures Walk(was, p)
  {
    forall s | 0 <= s < |p| - 1 ensures DepOf(was, p[s], p[s + 1]) { assert DepOf(ds, p[s], p[s + 1]); }
  }

  // ---- One new node -------------------------------------------------------

  // The union with a single node that waits on one existing node.
  ghost predicate OneMore(was: seq<Def>, ds: seq<Def>, key: string, after: string) {
    && |ds| == |was| + 1 && (forall i | 0 <= i < |was| :: ds[i] == was[i])
    && ds[|was|].key == key && ds[|was|].deps == [after]
    && !HasKey(was, key) && HasKey(was, after)
  }

  lemma OldDepsOld(was: seq<Def>, ds: seq<Def>, i: nat, j: nat)
    requires |was| <= |ds| && (forall x | 0 <= x < |was| :: ds[x] == was[x])
    requires KnownDeps(was) && DistinctKeys(ds) && i < |was| && DepOf(ds, i, j)
    ensures j < |was|
  {
    assert HasKey(was, ds[j].key);
    var x :| 0 <= x < |was| && was[x].key == ds[j].key;
    assert ds[x].key == ds[j].key;
  }

  lemma {:induction false} OneMoreIsShaped(was: seq<Def>, ds: seq<Def>, key: string, after: string)
    requires WellShaped(was) && Acyclic(was) && OneMore(was, ds, key, after)
    ensures WellShaped(ds) && Acyclic(ds)
  {
    hide Acyclic;
    forall i, j | 0 <= i < j < |ds| ensures ds[i].key != ds[j].key { assert HasKey(was, ds[i].key); }
    KeysCarryOver(was, ds);
    forall i: nat, j: nat | i < |was| && DepOf(ds, i, j) ensures j < |was| { OldDepsOld(was, ds, i, j); }
    forall p | Walk(ds, p) && |p| >= 2 && p[0] == p[|p| - 1] ensures Touches(p, |was|) {
      assert DepOf(ds, p[0], p[0 + 1]);
      assert p[0] < |was| || p[1] < |was|;
    }
    UnionAcyclic(was, ds);
  }

  lemma KeysCarryOver(was: seq<Def>, ds: seq<Def>)
    requires |was| <= |ds| && (forall i | 0 <= i < |was| :: ds[i] == was[i])
    ensures forall k | HasKey(was, k) :: HasKey(ds, k)
  {
    forall k | HasKey(was, k) ensures HasKey(ds, k) {
      var i :| 0 <= i < |was| && was[i].key == k;
      assert ds[i].key == k;
    }
  }

  // ---- A cycle of work and its review -------------------------------------

  // The union with a compiled plan's nodes, as cycle c's, and their review.
  ghost predicate Appended(was: seq<Def>, ds: seq<Def>, c: nat, producer: string, rs: seq<Request>) {
    var es := ExecutionNodes(c, producer, rs);
    && |ds| == |was| + |rs| + 1 && (forall i | 0 <= i < |was| :: ds[i] == was[i])
    && (forall n | 0 <= n < |rs| :: ds[|was| + n].key == es[n].key && ds[|was| + n].deps == es[n].deps)
    && ds[|was| + |rs|].key == ReviewKey(c) && ds[|was| + |rs|].deps == SinkKeys(es, |rs|)
  }

  lemma PrefixCancels(prefix: string, a: string, b: string)
    requires prefix + a == prefix + b
    ensures a == b
  {
    assert (prefix + a)[|prefix|..] == a && (prefix + b)[|prefix|..] == b;
  }

  lemma {:induction false} ReviewIsNoExec(c: nat, id: string)
    ensures ReviewKey(c) != ExecPrefix(c) + id
  {
    assert ReviewKey(c)[0] == 'a' && (ExecPrefix(c) + id)[0] == 'e';
  }

  // One plan node lists another exactly when their prefixed forms do.
  lemma {:induction false} ListsPrefixed(c: nat, producer: string, rs: seq<Request>, n: nat, m: nat)
    requires n < |rs| && m < |rs| && forall id :: producer != ExecPrefix(c) + id
    ensures ExecutionNodes(c, producer, rs)[m].key in ExecutionNodes(c, producer, rs)[n].deps
      <==> rs[m].key in rs[n].deps
  {
    var prefix := ExecPrefix(c);
    var es := ExecutionNodes(c, producer, rs);
    if es[m].key in es[n].deps {
      var d :| 0 <= d < |es[n].deps| && es[n].deps[d] == es[m].key;
      if rs[n].deps != [] { PrefixCancels(prefix, rs[n].deps[d], rs[m].key); }
    }
    if rs[m].key in rs[n].deps {
      var d :| 0 <= d < |rs[n].deps| && rs[n].deps[d] == rs[m].key;
      assert es[n].deps[d] == es[m].key;
    }
  }

  // The new keys are new.
  ghost predicate Fresh(was: seq<Def>, c: nat) {
    !HasKey(was, ReviewKey(c)) && forall id :: !HasKey(was, ExecPrefix(c) + id)
  }

  lemma {:induction false} AppendedApart(
    was: seq<Def>, ds: seq<Def>, c: nat, producer: string, rs: seq<Request>, i: nat, j: nat)
    requires DistinctKeys(was) && DistinctKeys(RawDefs(rs)) && Fresh(was, c) && Appended(was, ds, c, producer, rs)
    requires i < j < |ds|
    ensures ds[i].key != ds[j].key
  {
    hide ExecPrefix, ReviewKey;
    var n := |was|;
    if j < n {
      assert was[i].key != was[j].key;
    } else if i < n {
      assert HasKey(was, ds[i].key);
      if j < n + |rs| { assert !HasKey(was, ExecPrefix(c) + rs[j - n].key); }
    } else if j < n + |rs| {
      assert RawDefs(rs)[i - n].key != RawDefs(rs)[j - n].key;
      if ds[i].key == ds[j].key { PrefixCancels(ExecPrefix(c), rs[i - n].key, rs[j - n].key); }
    } else {
      ReviewIsNoExec(c, rs[i - n].key);
    }
  }

  lemma {:induction false} AppendedDistinct(was: seq<Def>, ds: seq<Def>, c: nat, producer: string, rs: seq<Request>)
    requires DistinctKeys(was) && DistinctKeys(RawDefs(rs)) && Fresh(was, c) && Appended(was, ds, c, producer, rs)
    ensures DistinctKeys(ds)
  {
    forall i: nat, j: nat | i < j < |ds| ensures ds[i].key != ds[j].key {
      AppendedApart(was, ds, c, producer, rs, i, j);
    }
  }

  lemma {:induction false} SinkKeysNoRepeats(es: seq<Request>, n: nat)
    requires n <= |es| && forall i, j | 0 <= i < j < |es| :: es[i].key != es[j].key
    ensures NoRepeats(SinkKeys(es, n))
  {
    hide SinkAt;
    if n > 0 {
      SinkKeysNoRepeats(es, n - 1);
      assert es[n - 1].key !in SinkKeys(es, n - 1);
      OneMoreDistinct(SinkKeys(es, n - 1), es[n - 1].key);
    }
  }

  lemma OneMoreDistinct<T>(s: seq<T>, x: T)
    requires NoRepeats(s) && x !in s
    ensures NoRepeats(s + [x])
  {
  }

  lemma {:induction false} PrefixedNoRepeats(prefix: string, deps: seq<string>)
    requires NoRepeats(deps)
    ensures NoRepeats(Prefixed(prefix, deps))
  {
    var r := Prefixed(prefix, deps);
    forall a, b | 0 <= a < b < |r| ensures r[a] != r[b] {
      if r[a] == r[b] { PrefixCancels(prefix, deps[a], deps[b]); }
    }
  }

  // What a new node lists, among the new nodes: the plan's own edges, and never
  // the review.
  lemma {:induction false} ExecListsReview(c: nat, producer: string, rs: seq<Request>, n: nat)
    requires n < |rs| && producer != ReviewKey(c)
    ensures ReviewKey(c) !in ExecutionNodes(c, producer, rs)[n].deps
  {
    var deps := ExecutionNodes(c, producer, rs)[n].deps;
    forall d | 0 <= d < |deps| ensures deps[d] != ReviewKey(c) {
      if rs[n].deps != [] { ReviewIsNoExec(c, rs[n].deps[d]); }
    }
  }

  lemma {:induction false} ReviewListsExecs(c: nat, producer: string, rs: seq<Request>, k: string)
    requires k in SinkKeys(ExecutionNodes(c, producer, rs), |rs|)
    ensures exists m :: 0 <= m < |rs| && k == ExecPrefix(c) + rs[m].key
    ensures k != ReviewKey(c)
  {
    var es := ExecutionNodes(c, producer, rs);
    var m :| 0 <= m < |rs| && SinkAt(es, m) && es[m].key == k;
    ReviewIsNoExec(c, rs[m].key);
  }

  ghost predicate NewEdges(was: seq<Def>, ds: seq<Def>, raw: seq<Def>) {
    && |ds| == |was| + |raw| + 1
    && (forall i: nat, j: nat | |was| <= i < |was| + |raw| && |was| <= j < |was| + |raw| && DepOf(ds, i, j) ::
          DepOf(raw, i - |was|, j - |was|))
    && (forall i: nat, j: nat | |was| <= i && DepOf(ds, i, j) :: j < |was| + |raw|)
  }

  lemma {:induction false} ReviewUnlisted(
    was: seq<Def>, ds: seq<Def>, c: nat, producer: string, rs: seq<Request>, i: nat)
    requires Appended(was, ds, c, producer, rs) && producer != ReviewKey(c) && |was| <= i < |ds|
    ensures ReviewKey(c) !in ds[i].deps
  {
    if i < |was| + |rs| {
      ExecListsReview(c, producer, rs, i - |was|);
    } else if ReviewKey(c) in ds[i].deps {
      ReviewListsExecs(c, producer, rs, ReviewKey(c));
    }
  }

  lemma {:induction false} PlanEdge(
    was: seq<Def>, ds: seq<Def>, c: nat, producer: string, rs: seq<Request>, i: nat, j: nat)
    requires Appended(was, ds, c, producer, rs) && forall id :: producer != ExecPrefix(c) + id
    requires |was| <= i < |was| + |rs| && |was| <= j < |was| + |rs| && DepOf(ds, i, j)
    ensures DepOf(RawDefs(rs), i - |was|, j - |was|)
  {
    ListsPrefixed(c, producer, rs, i - |was|, j - |was|);
  }

  lemma {:induction false} AppendedEdges(was: seq<Def>, ds: seq<Def>, c: nat, producer: string, rs: seq<Request>)
    requires Appended(was, ds, c, producer, rs) && producer != ReviewKey(c)
    requires forall id :: producer != ExecPrefix(c) + id
    ensures NewEdges(was, ds, RawDefs(rs))
  {
    forall i: nat, j: nat | |was| <= i < |was| + |rs| && |was| <= j < |was| + |rs| && DepOf(ds, i, j)
      ensures DepOf(RawDefs(rs), i - |was|, j - |was|)
    {
      PlanEdge(was, ds, c, producer, rs, i, j);
    }
    forall i: nat, j: nat | |was| <= i && DepOf(ds, i, j) ensures j < |was| + |rs| {
      ReviewUnlisted(was, ds, c, producer, rs, i);
    }
  }

  // A closed walk among the new nodes is a closed walk of the plan.
  lemma {:induction false} NewWalkIsPlanWalk(was: seq<Def>, ds: seq<Def>, raw: seq<Def>, p: seq<nat>)
    returns (q: seq<nat>)
    requires NewEdges(was, ds, raw)
    requires Walk(ds, p) && |p| >= 2 && p[0] == p[|p| - 1] && !Touches(p, |was|)
    ensures |q| == |p| && Walk(raw, q) && q[0] == q[|q| - 1]
  {
    forall t | 0 <= t < |p| ensures |was| <= p[t] < |was| + |raw| {
      var s := if t == 0 then |p| - 2 else t - 1;
      assert DepOf(ds, p[s], p[s + 1]);
      assert !(p[s] < |was|) && !(p[t] < |was|);
    }
    q := seq(|p|, t requires 0 <= t < |p| => p[t] - |was|);
    forall t | 0 <= t < |q| - 1 ensures DepOf(raw, q[t], q[t + 1]) {
      assert DepOf(ds, p[t], p[t + 1]);
    }
  }

  lemma {:induction false} AppendedAcyclic(was: seq<Def>, ds: seq<Def>, raw: seq<Def>)
    requires |was| <= |ds| && (forall i | 0 <= i < |was| :: ds[i] == was[i])
    requires KnownDeps(was) && Acyclic(was) && Acyclic(raw) && NewEdges(was, ds, raw) && DistinctKeys(ds)
    ensures Acyclic(ds)
  {
    forall i: nat, j: nat | i < |was| && DepOf(ds, i, j) ensures j < |was| { OldDepsOld(was, ds, i, j); }
    forall p | Walk(ds, p) && |p| >= 2 && p[0] == p[|p| - 1] ensures Touches(p, |was|) {
      if !Touches(p, |was|) {
        var q := NewWalkIsPlanWalk(was, ds, raw, p);
      }
    }
    UnionAcyclic(was, ds);
  }

  // ---- The new nodes, one at a time ---------------------------------------

  lemma {:induction false} ExecNodeFits(was: seq<Def>, ds: seq<Def>, c: nat, producer: string, rs: seq<Request>, n: nat)
    requires Appended(was, ds, c, producer, rs) && HasKey(was, producer) && n < |rs|
    requires WellShaped(RawDefs(rs)) && forall id :: producer != ExecPrefix(c) + id
    ensures NoRepeats(ds[|was| + n].deps) && ds[|was| + n].key !in ds[|was| + n].deps
    ensures forall k | k in ds[|was| + n].deps :: HasKey(ds, k)
  {
    assert RawDefs(rs)[n].key !in RawDefs(rs)[n].deps && NoRepeats(RawDefs(rs)[n].deps);
    ListsPrefixed(c, producer, rs, n, n);
    PrefixedNoRepeats(ExecPrefix(c), rs[n].deps);
    ExecDepsKnown(was, ds, c, producer, rs, n);
  }

  lemma {:induction false} ExecDepsKnown(
    was: seq<Def>, ds: seq<Def>, c: nat, producer: string, rs: seq<Request>, n: nat)
    requires Appended(was, ds, c, producer, rs) && HasKey(was, producer) && n < |rs| && KnownDeps(RawDefs(rs))
    ensures forall k | k in ds[|was| + n].deps :: HasKey(ds, k)
  {
    KeysCarryOver(was, ds);
    forall k | k in ds[|was| + n].deps ensures HasKey(ds, k) {
      if rs[n].deps != [] {
        var d :| 0 <= d < |rs[n].deps| && ExecPrefix(c) + rs[n].deps[d] == k;
        assert rs[n].deps[d] in RawDefs(rs)[n].deps;
        var m := FindRaw(rs, rs[n].deps[d]);
        assert ds[|was| + m].key == k;
      }
    }
  }

  lemma FindRaw(rs: seq<Request>, key: string) returns (m: nat)
    requires HasKey(RawDefs(rs), key)
    ensures m < |rs| && rs[m].key == key
  {
    m :| 0 <= m < |rs| && RawDefs(rs)[m].key == key;
  }

  lemma {:induction false} ReviewNodeFits(was: seq<Def>, ds: seq<Def>, c: nat, producer: string, rs: seq<Request>)
    requires Appended(was, ds, c, producer, rs) && DistinctKeys(ds)
    ensures var d := ds[|was| + |rs|];
      NoRepeats(d.deps) && d.key !in d.deps && forall k | k in d.deps :: HasKey(ds, k)
  {
    var es := ExecutionNodes(c, producer, rs);
    forall a, b | 0 <= a < b < |rs| ensures es[a].key != es[b].key {
      assert ds[|was| + a].key != ds[|was| + b].key;
    }
    SinkKeysNoRepeats(es, |rs|);
    forall k | k in ds[|was| + |rs|].deps ensures HasKey(ds, k) && k != ReviewKey(c) {
      ReviewListsExecs(c, producer, rs, k);
      var m :| 0 <= m < |rs| && k == ExecPrefix(c) + rs[m].key;
      assert ds[|was| + m].key == k;
    }
  }

  lemma {:induction false} AppendedIsShaped(was: seq<Def>, ds: seq<Def>, c: nat, producer: string, rs: seq<Request>)
    requires WellShaped(was) && Acyclic(was) && HasKey(was, producer) && Fresh(was, c)
    requires WellShaped(RawDefs(rs)) && Acyclic(RawDefs(rs)) && Appended(was, ds, c, producer, rs)
    ensures WellShaped(ds) && Acyclic(ds)
  {
    ProducerIsApart(was, c, producer);
    AppendedDistinct(was, ds, c, producer, rs);
    AppendedEdges(was, ds, c, producer, rs);
    AppendedAcyclic(was, ds, RawDefs(rs));
    AppendedWellShaped(was, ds, c, producer, rs);
  }

  lemma ProducerIsApart(was: seq<Def>, c: nat, producer: string)
    requires HasKey(was, producer) && Fresh(was, c)
    ensures producer != ReviewKey(c) && forall id :: producer != ExecPrefix(c) + id
  {
  }

  lemma {:induction false} AppendedWellShaped(was: seq<Def>, ds: seq<Def>, c: nat, producer: string, rs: seq<Request>)
    requires WellShaped(was) && HasKey(was, producer) && Fresh(was, c) && DistinctKeys(ds)
    requires WellShaped(RawDefs(rs)) && Appended(was, ds, c, producer, rs)
    ensures WellShaped(ds)
  {
    ProducerIsApart(was, c, producer);
    KeysCarryOver(was, ds);
    forall i: nat | i < |ds|
      ensures NoRepeats(ds[i].deps) && ds[i].key !in ds[i].deps && forall k | k in ds[i].deps :: HasKey(ds, k)
    {
      if i < |was| {
        assert ds[i] == was[i];
      } else if i < |was| + |rs| {
        ExecNodeFits(was, ds, c, producer, rs, i - |was|);
      } else {
        ReviewNodeFits(was, ds, c, producer, rs);
      }
    }
  }
}
