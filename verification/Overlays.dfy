// Writes that read nothing, one after another: when they all succeed, and what they
// leave (src/app-web-executor.js, lines 56-67).

module Overlays {
  import opened Basics
  import opened Paths
  import opened Workspaces

  function Applied(cs: seq<Change>, w: Workspace): Option<Workspace> {
    if cs == [] then Some(w) else Then(Applied(cs[..|cs| - 1], w), cs[|cs| - 1])
  }

  predicate Doable(c: Change) {
    !c.Copy? && !Never(c)
  }

  // What a change that reads nothing writes.
  function Writes(c: Change): Workspace {
    match c
    case Make(at) => Wanted(at, Folder)
    case Put(at, content) => Wanted(at, File(content))
    case _ => EMPTY
  }

  // None makes a file of what another makes a folder.
  ghost predicate Together(cs: seq<Change>) {
    && (forall c | c in cs :: Doable(c))
    && (forall c, d | c in cs && d in cs :: Compatible(Writes(c), Writes(d)))
  }

  ghost predicate Welcome(w: Workspace, cs: seq<Change>) {
    forall c | c in cs :: Compatible(w, Writes(c))
  }

  function Overlaid(cs: seq<Change>, w: Entries): Entries {
    if cs == [] then w else Overlaid(cs[..|cs| - 1], w) + Writes(cs[|cs| - 1])
  }

  lemma ApplyWrites(c: Change, w: Workspace)
    requires !c.Copy?
    ensures ApplyChange(c, w) == if Doable(c) then Written(w, Writes(c)) else None
  {
  }

  lemma {:induction false} OverlaidCompatible(cs: seq<Change>, w: Workspace, n: Workspace)
    requires Together(cs) && Welcome(w, cs)
    ensures Compatible(Overlaid(cs, w), n) <==> Compatible(w, n) && forall c | c in cs :: Compatible(Writes(c), n)
  {
    hide Compatible, Doable, Writes;
    if cs != [] {
      var init, last := cs[..|cs| - 1], cs[|cs| - 1];
      assert forall c | c in init :: c in cs;
      OverlaidCompatible(init, w, n);
      OverlaidCompatible(init, w, Writes(last));
      CompatibleWithBoth(Overlaid(init, w), Writes(last), n);
      assert forall c | c in cs :: c in init || c == last;
    }
  }

  lemma TogetherWithLast(init: seq<Change>, last: Change)
    requires Together(init)
    ensures Together(init + [last]) <==> Doable(last) && forall c | c in init :: Compatible(Writes(c), Writes(last))
  {
    hide Doable, Writes;
    assert last in init + [last];
    assert forall c | c in init :: c in init + [last];
  }

  lemma WelcomeWithLast(w: Workspace, init: seq<Change>, last: Change)
    ensures Welcome(w, init + [last]) <==> Welcome(w, init) && Compatible(w, Writes(last))
  {
    hide Compatible, Writes;
    assert last in init + [last];
    assert forall c | c in init :: c in init + [last];
  }

  lemma OneMore(init: seq<Change>, last: Change, w: Workspace)
    requires Together(init) && Welcome(w, init)
    ensures Together(init + [last]) && Welcome(w, init + [last]) <==>
      Doable(last) && Compatible(Overlaid(init, w), Writes(last))
  {
    TogetherWithLast(init, last);
    WelcomeWithLast(w, init, last);
    OverlaidCompatible(init, w, Writes(last));
    hide Together, Welcome, Compatible, Doable, Writes, Overlaid;
  }

  lemma FewerTogether(init: seq<Change>, last: Change, w: Workspace)
    requires Together(init + [last]) && Welcome(w, init + [last])
    ensures Together(init) && Welcome(w, init)
  {
    hide Compatible, Doable, Writes;
    assert forall c | c in init :: c in init + [last];
  }

  // A run of such writes succeeds exactly when no two of them are at odds and none is
  // at odds with what is there; it then overlays them in turn.
  lemma {:induction false} AppliedIs(cs: seq<Change>, w: Workspace)
    requires forall c | c in cs :: !c.Copy?
    ensures Applied(cs, w).Some? <==> Together(cs) && Welcome(w, cs)
    ensures Applied(cs, w).Some? ==> Applied(cs, w).value == Overlaid(cs, w)
  {
    if cs != [] {
      var init, last := cs[..|cs| - 1], cs[|cs| - 1];
      assert cs == init + [last];
      assert forall c | c in init :: c in cs;
      assert last in cs;
      hide Together, Welcome, Compatible, Doable, Writes, ApplyChange;
      AppliedIs(init, w);
      if Applied(init, w).Some? {
        ApplyWrites(last, Applied(init, w).value);
        OneMore(init, last, w);
      } else if Together(cs) && Welcome(w, cs) {
        FewerTogether(init, last, w);
      }
    }
  }

  // ---- Where each entry comes from ----------------------------------------

  // The last of them to say something here is the k-th.
  ghost predicate LastToWrite(cs: seq<Change>, p: Location, k: int) {
    && 0 <= k < |cs| && p in Writes(cs[k])
    && forall m | k < m < |cs| :: p !in Writes(cs[m])
  }

  lemma {:induction false} FromLast(cs: seq<Change>, w: Entries, p: Location, k: nat)
    requires LastToWrite(cs, p, k)
    ensures p in Overlaid(cs, w) && Overlaid(cs, w)[p] == Writes(cs[k])[p]
  {
    hide Writes;
    if k < |cs| - 1 { FromLast(cs[..|cs| - 1], w, p, k); }
  }

  lemma {:induction false} FromBefore(cs: seq<Change>, w: Entries, p: Location)
    requires forall c | c in cs :: p !in Writes(c)
    ensures p in Overlaid(cs, w) <==> p in w
    ensures p in w ==> Overlaid(cs, w)[p] == w[p]
  {
    hide Writes;
    if cs != [] {
      assert cs[|cs| - 1] in cs;
      assert forall c | c in cs[..|cs| - 1] :: c in cs;
      FromBefore(cs[..|cs| - 1], w, p);
    }
  }

  lemma {:induction false} FindLast(cs: seq<Change>, p: Location) returns (k: nat)
    requires exists c :: c in cs && p in Writes(c)
    ensures LastToWrite(cs, p, k)
  {
    hide Writes;
    var last := |cs| - 1;
    if p in Writes(cs[last]) {
      k := last;
    } else {
      var c :| c in cs && p in Writes(c);
      assert c in cs[..last];
      k := FindLast(cs[..last], p);
    }
  }

  // Two orders of the same writes leave the same when they agree on who writes last.
  lemma SameOverlay(cs: seq<Change>, ds: seq<Change>, w: Entries)
    requires forall c :: c in cs <==> c in ds
    requires forall p, j, k | LastToWrite(cs, p, j) && LastToWrite(ds, p, k) :: Writes(cs[j])[p] == Writes(ds[k])[p]
    ensures Overlaid(cs, w) == Overlaid(ds, w)
  {
    var a, b := Overlaid(cs, w), Overlaid(ds, w);
    forall p ensures (p in a <==> p in b) && (p in a ==> a[p] == b[p]) { SameEntry(cs, ds, w, p); }
  }

  lemma SameEntry(cs: seq<Change>, ds: seq<Change>, w: Entries, p: Location)
    requires forall c :: c in cs <==> c in ds
    requires forall j, k | LastToWrite(cs, p, j) && LastToWrite(ds, p, k) :: Writes(cs[j])[p] == Writes(ds[k])[p]
    ensures p in Overlaid(cs, w) <==> p in Overlaid(ds, w)
    ensures p in Overlaid(cs, w) ==> Overlaid(cs, w)[p] == Overlaid(ds, w)[p]
  {
    hide Writes, Overlaid;
    if exists c :: c in cs && p in Writes(c) {
      var j := FindLast(cs, p);
      var k := FindLast(ds, p);
      FromLast(cs, w, p, j);
      FromLast(ds, w, p, k);
    } else {
      FromBefore(cs, w, p);
      FromBefore(ds, w, p);
    }
  }

  lemma SameSuccess(cs: seq<Change>, ds: seq<Change>, w: Workspace)
    requires forall c :: c in cs <==> c in ds
    ensures Together(cs) == Together(ds) && Welcome(w, cs) == Welcome(w, ds)
  {
    hide Compatible, Doable, Writes;
  }

  // Both leave a file here only when both put one here.
  lemma WrittenHere(c: Change, p: Location)
    requires p in Writes(c) && Writes(c)[p].File?
    ensures c.Put? && c.at == p && Writes(c)[p] == File(c.content)
  {
  }
}
