// Writes and copies, one after another, followed without a workspace: which files they
// must find, and what each file they leave comes from (src/game-executor.js, lines
// 160-181; src/app-web-executor.js, lines 56-67).

module Traces {
  import opened Basics
  import opened Paths
  import opened Workspaces
  import opened Overlays

  // The content of a file: given, or that of a file of the workspace before.
  datatype Term = Known(content: string) | Initially(at: Location)

  // `results` are the files left behind, `needs` the files that must be there.
  datatype Trace = Trace(results: map<Location, Term>, needs: set<Location>)

  function TermAt(t: Trace, p: Location): Term {
    if p in t.results then t.results[p] else Initially(p)
  }

  function Traced(t: Trace, c: Change): Trace {
    match c
    case Put(at, content) => t.(results := t.results[at := Known(content)])
    case Copy(at, from) =>
      Trace(t.results[at := TermAt(t, from)], if from in t.results then t.needs else t.needs + {from})
    case _ => t
  }

  function TraceOf(cs: seq<Change>): Trace {
    if cs == [] then Trace(map[], {}) else Traced(TraceOf(cs[..|cs| - 1]), cs[|cs| - 1])
  }

  // ---- What they make of each place ---------------------------------------

  // The place of a change, and the source of a copy, with the folders above it.
  function Place(c: Change): Workspace {
    match c
    case Hopeless => EMPTY
    case Make(at) => Wanted(at, Folder)
    case Put(at, _) => Wanted(at, File(""))
    case Copy(at, _) => Wanted(at, File(""))
  }

  ghost predicate Marks(c: Change, m: Workspace) {
    m == Place(c) || (c.Copy? && m == Wanted(c.from, File("")))
  }

  ghost predicate MarkOf(cs: seq<Change>, m: Workspace) {
    exists c :: c in cs && Marks(c, m)
  }

  // None needs a file where another needs a folder.
  ghost predicate Shaped(cs: seq<Change>) {
    && (forall c | c in cs :: !Never(c))
    && (forall m: Workspace, n: Workspace | MarkOf(cs, m) && MarkOf(cs, n) :: Compatible(m, n))
  }

  // Everything the mark says is so.
  ghost predicate Bears(v: Workspace, m: Workspace) {
    forall p | p in m :: p in v && v[p].Folder? == m[p].Folder?
  }

  lemma BornTogether(v: Workspace, m: Workspace, n: Workspace)
    requires Bears(v, m) && Bears(v, n)
    ensures Compatible(m, n)
  {
  }

  lemma FileBearsItsMark(v: Workspace, f: Location)
    requires f in v && v[f].File?
    ensures Bears(v, Wanted(f, File("")))
  {
    forall p: Location | p <= f ensures p in v && v[p].Folder? == (p != f) {
      if p != f { assert p < f; }
    }
  }

  lemma BearsOn(v: Workspace, u: Workspace, m: Workspace)
    requires Bears(v, m) && forall p | p in v :: p in u && u[p].Folder? == v[p].Folder?
    ensures Bears(u, m)
  {
  }

  lemma AppliedBearsPlace(c: Change, w: Workspace)
    requires ApplyChange(c, w).Some?
    ensures !Never(c) && Bears(ApplyChange(c, w).value, Place(c))
    ensures c.Copy? ==> Bears(w, Wanted(c.from, File("")))
  {
    if Never(c) { NeverFails(c, w); }
    ApplyByLast(c, w);
    if c.Copy? { FileBearsItsMark(w, c.from); }
  }

  // ---- A run that succeeds ------------------------------------------------

  lemma {:induction false} AppliedUnfolds(cs: seq<Change>, w: Workspace)
    requires cs != []
    ensures var init := Applied(cs[..|cs| - 1], w);
      Applied(cs, w) == if init.None? then None else ApplyChange(cs[|cs| - 1], init.value)
  {
  }

  lemma {:induction false} BearsAll(cs: seq<Change>, w: Workspace)
    requires Applied(cs, w).Some?
    ensures forall c | c in cs :: !Never(c)
    ensures forall m: Workspace | MarkOf(cs, m) :: Bears(Applied(cs, w).value, m)
    ensures forall p | p in w :: p in Applied(cs, w).value && Applied(cs, w).value[p].Folder? == w[p].Folder?
  {
    hide ApplyChange, Applied, Bears, Never, Place;
    if cs == [] {
      AppliedNothing(w);
    } else {
      var init, last := cs[..|cs| - 1], cs[|cs| - 1];
      AppliedUnfolds(cs, w);
      BearsAll(init, w);
      var v := Applied(init, w).value;
      AppliedBearsPlace(last, v);
      KindsStay(last, v);
      forall m: Workspace | MarkOf(cs, m) ensures Bears(Applied(cs, w).value, m) {
        var c :| c in cs && Marks(c, m);
        if c in init { assert MarkOf(init, m); }
        if Bears(v, m) { BearsOn(v, Applied(cs, w).value, m); }
      }
    }
  }

  lemma AppliedNothing(w: Workspace)
    ensures Applied([], w) == Some(w)
  {
  }

  // Only what they write, with the folders above it, is new.
  lemma {:induction false} NothingElse(cs: seq<Change>, w: Workspace, p: Location)
    requires Applied(cs, w).Some? && p in Applied(cs, w).value
    ensures p in w || exists c :: c in cs && p in Place(c)
  {
    hide ApplyChange, Applied, Place;
    if cs == [] {
      AppliedNothing(w);
    } else {
      var init, last := cs[..|cs| - 1], cs[|cs| - 1];
      AppliedUnfolds(cs, w);
      if p in Applied(init, w).value {
        NothingElse(init, w, p);
        if c :| c in init && p in Place(c) { assert c in cs; }
      } else {
        AppliedAdds(last, Applied(init, w).value, p);
        assert last in cs;
      }
    }
  }

  lemma AppliedAdds(c: Change, w: Workspace, p: Location)
    requires ApplyChange(c, w).Some? && p in ApplyChange(c, w).value
    ensures p in w || p in Place(c)
  {
    ApplyByLast(c, w);
  }

  // ---- What the files hold ------------------------------------------------

  predicate Supplies(w: Workspace, needs: set<Location>) {
    forall f | f in needs :: f in w && w[f].File?
  }

  function ContentOf(t: Term, w: Workspace): string {
    match t
    case Known(content) => content
    case Initially(at) => if at in w && w[at].File? then w[at].content else ""
  }

  // Every file of v is one the trace left, or one of w, untouched.
  ghost predicate Holds(v: Workspace, w: Workspace, t: Trace) {
    && (forall p | p in t.results :: p in v && v[p] == File(ContentOf(t.results[p], w)))
    && (forall p | p in v && v[p].File? && p !in t.results :: p in w && w[p] == v[p])
  }

  predicate LeavesFileAt(c: Change, p: Location) {
    (c.Put? || c.Copy?) && c.at == p
  }

  // A change touches no file but its own.
  lemma FilesAfter(c: Change, v: Workspace)
    requires ApplyChange(c, v).Some?
    ensures var u := ApplyChange(c, v).value;
      && (forall p | p in v && v[p].File? && !LeavesFileAt(c, p) :: p in u && u[p] == v[p])
      && (forall p | p in u && u[p].File? && !LeavesFileAt(c, p) :: p in v && v[p] == u[p])
      && (c.Put? ==> c.at in u && u[c.at] == File(c.content))
      && (c.Copy? ==> c.from in v && v[c.from].File? && c.at in u && u[c.at] == v[c.from])
  {
    ApplyByLast(c, v);
  }

  lemma TracedHolds(v: Workspace, w: Workspace, t: Trace, c: Change)
    requires Holds(v, w, t) && Supplies(w, t.needs) && ApplyChange(c, v).Some?
    ensures Holds(ApplyChange(c, v).value, w, Traced(t, c)) && Supplies(w, Traced(t, c).needs)
  {
    hide ApplyChange, Holds;
    FilesAfter(c, v);
    var u := ApplyChange(c, v).value;
    match c {
      case Put(at, content) => OneMoreResult(v, u, w, t, at, Known(content), t.needs);
      case Copy(at, from) =>
        SourceContent(v, w, t, from);
        OneMoreResult(v, u, w, t, at, TermAt(t, from), Traced(t, c).needs);
      case _ => SameFilesHold(v, u, w, t);
    }
  }

  lemma OneMoreResult(
    v: Workspace, u: Workspace, w: Workspace, t: Trace, at: Location, x: Term, needs: set<Location>)
    requires Holds(v, w, t) && at in u && u[at] == File(ContentOf(x, w))
    requires forall p | p in v && v[p].File? && p != at :: p in u && u[p] == v[p]
    requires forall p | p in u && u[p].File? && p != at :: p in v && v[p] == u[p]
    ensures Holds(u, w, Trace(t.results[at := x], needs))
  {
    hide ContentOf;
  }

  lemma SameFilesHold(v: Workspace, u: Workspace, w: Workspace, t: Trace)
    requires Holds(v, w, t)
    requires forall p | p in v && v[p].File? :: p in u && u[p] == v[p]
    requires forall p | p in u && u[p].File? :: p in v && v[p] == u[p]
    ensures Holds(u, w, t)
  {
    hide ContentOf;
  }

  lemma SourceContent(v: Workspace, w: Workspace, t: Trace, f: Location)
    requires Holds(v, w, t) && f in v && v[f].File?
    ensures v[f] == File(ContentOf(TermAt(t, f), w))
    ensures f !in t.results ==> f in w && w[f].File?
  {
  }

  lemma {:induction false} TraceHolds(cs: seq<Change>, w: Workspace)
    requires Applied(cs, w).Some?
    ensures Holds(Applied(cs, w).value, w, TraceOf(cs)) && Supplies(w, TraceOf(cs).needs)
  {
    hide ApplyChange, Applied, Holds, Traced, Supplies;
    if cs == [] {
      AppliedNothing(w);
      HoldsNothing(w);
    } else {
      AppliedUnfolds(cs, w);
      TraceHolds(cs[..|cs| - 1], w);
      TracedHolds(Applied(cs[..|cs| - 1], w).value, w, TraceOf(cs[..|cs| - 1]), cs[|cs| - 1]);
    }
  }

  lemma HoldsNothing(w: Workspace)
    ensures Holds(w, w, Trace(map[], {})) && Supplies(w, {})
  {
  }

  // ---- When it succeeds ---------------------------------------------------

  ghost predicate Receives(w: Workspace, cs: seq<Change>) {
    forall c | c in cs :: Compatible(w, Place(c))
  }

  lemma {:induction false} SuccessIsShaped(cs: seq<Change>, w: Workspace)
    requires Applied(cs, w).Some?
    ensures Shaped(cs) && Receives(w, cs) && Supplies(w, TraceOf(cs).needs)
  {
    hide Applied, Bears, Never, Place, TraceOf, Marks;
    BearsAll(cs, w);
    TraceHolds(cs, w);
    var v := Applied(cs, w).value;
    forall m: Workspace, n: Workspace | MarkOf(cs, m) && MarkOf(cs, n) ensures Compatible(m, n) {
      BornTogether(v, m, n);
    }
    forall c | c in cs ensures Compatible(w, Place(c)) {
      PlaceIsMark(cs, c);
      assert Bears(v, Place(c));
      BorneIsReceived(v, w, Place(c));
    }
  }

  lemma PlaceIsMark(cs: seq<Change>, c: Change)
    requires c in cs
    ensures MarkOf(cs, Place(c)) && (c.Copy? ==> MarkOf(cs, Wanted(c.from, File(""))))
  {
    hide Place;
    assert Marks(c, Place(c));
    assert c.Copy? ==> Marks(c, Wanted(c.from, File("")));
  }

  lemma BorneIsReceived(v: Workspace, w: Workspace, m: Workspace)
    requires Bears(v, m) && forall p | p in w :: p in v && v[p].Folder? == w[p].Folder?
    ensures Compatible(w, m)
  {
  }

  lemma ShapedInit(cs: seq<Change>)
    requires cs != [] && Shaped(cs)
    ensures Shaped(cs[..|cs| - 1])
  {
    hide Never, Marks;
    forall m: Workspace | MarkOf(cs[..|cs| - 1], m) ensures MarkOf(cs, m) {
      var c :| c in cs[..|cs| - 1] && Marks(c, m);
      assert c in cs;
    }
  }

  lemma {:induction false} ShapedSucceeds(cs: seq<Change>, w: Workspace)
    requires Shaped(cs) && Receives(w, cs) && Supplies(w, TraceOf(cs).needs)
    ensures Applied(cs, w).Some?
  {
    hide ApplyChange, Applied, Never, Place, Marks, Shaped, Supplies, Traced, Compatible;
    if cs == [] {
      AppliedNothing(w);
    } else {
      var init, last := cs[..|cs| - 1], cs[|cs| - 1];
      ShapedInit(cs);
      assert Receives(w, init) by { assert forall c | c in init :: c in cs; }
      NeedsGrow(TraceOf(init), last, w);
      ShapedSucceeds(init, w);
      AppliedUnfolds(cs, w);
      LastSucceeds(cs, w);
    }
  }

  lemma NeedsGrow(t: Trace, c: Change, w: Workspace)
    requires Supplies(w, Traced(t, c).needs)
    ensures Supplies(w, t.needs)
    ensures c.Copy? && c.from !in t.results ==> c.from in w && w[c.from].File?
  {
  }

  lemma {:induction false} LastSucceeds(cs: seq<Change>, w: Workspace)
    requires cs != [] && Shaped(cs) && Receives(w, cs) && Supplies(w, TraceOf(cs).needs)
    requires Applied(cs[..|cs| - 1], w).Some?
    ensures ApplyChange(cs[|cs| - 1], Applied(cs[..|cs| - 1], w).value).Some?
  {
    hide ApplyChange, Applied, Never, Place, Shaped, Supplies, Holds, Traced;
    var init, last := cs[..|cs| - 1], cs[|cs| - 1];
    var v, t := Applied(init, w).value, TraceOf(init);
    TraceHolds(init, w);
    BearsAll(init, w);
    NeedsGrow(t, last, w);
    if last.Copy? { SourceIsThere(v, w, t, last.from); }
    forall p | p in v && p in Place(last) ensures v[p].Folder? == Place(last)[p].Folder? {
      NothingElse(init, w, p);
      PlaceAgrees(cs, w, v, p);
    }
    assert last in cs;
    AppliesWhenReceived(cs, last, v);
  }

  lemma SourceIsThere(v: Workspace, w: Workspace, t: Trace, f: Location)
    requires Holds(v, w, t) && (f !in t.results ==> f in w && w[f].File?)
    requires forall p | p in w :: p in v && v[p].Folder? == w[p].Folder?
    ensures f in v && v[f].File?
  {
  }

  lemma {:induction false} PlaceAgrees(cs: seq<Change>, w: Workspace, v: Workspace, p: Location)
    requires cs != [] && Shaped(cs) && Receives(w, cs) && p in v && p in Place(cs[|cs| - 1])
    requires p in w || exists c :: c in cs[..|cs| - 1] && p in Place(c)
    requires forall m: Workspace | MarkOf(cs[..|cs| - 1], m) :: Bears(v, m)
    requires p in w ==> v[p].Folder? == w[p].Folder?
    ensures v[p].Folder? == Place(cs[|cs| - 1])[p].Folder?
  {
    hide Place, Never, Marks;
    var last := cs[|cs| - 1];
    assert last in cs;
    PlaceIsMark(cs, last);
    if p in w {
      assert Compatible(w, Place(last));
      assert w[p].Folder? == Place(last)[p].Folder?;
    } else {
      var c :| c in cs[..|cs| - 1] && p in Place(c);
      PlaceIsMark(cs[..|cs| - 1], c);
      PlaceIsMark(cs, c);
      assert Bears(v, Place(c)) && Compatible(Place(c), Place(last));
      assert v[p].Folder? == Place(c)[p].Folder?;
      assert Place(c)[p].Folder? == Place(last)[p].Folder?;
    }
  }

  lemma AppliesWhenReceived(cs: seq<Change>, c: Change, v: Workspace)
    requires Shaped(cs) && c in cs && Compatible(v, Place(c))
    requires c.Copy? ==> c.from in v && v[c.from].File?
    ensures ApplyChange(c, v).Some?
  {
    hide Marks;
    ApplyByLast(c, v);
    if Last(c, v).Some? { SameKinds(c, Last(c, v).value); }
  }

  lemma SameKinds(c: Change, x: Entry)
    requires !c.Hopeless? && (c.Make? <==> x.Folder?)
    ensures forall p :: p in Wanted(c.at, x) <==> p in Place(c)
    ensures forall p | p in Place(c) :: Wanted(c.at, x)[p].Folder? == Place(c)[p].Folder?
  {
  }

  // ---- Which files, and where they can come from ---------------------------

  lemma {:induction false} ResultsArePlaces(cs: seq<Change>, p: Location)
    ensures p in TraceOf(cs).results <==> exists c :: c in cs && LeavesFileAt(c, p)
  {
    if cs != [] {
      var init, last := cs[..|cs| - 1], cs[|cs| - 1];
      ResultsArePlaces(init, p);
      assert forall c :: c in cs <==> c in init || c == last;
      assert p in TraceOf(cs).results <==> p in TraceOf(init).results || LeavesFileAt(last, p);
    }
  }

  predicate Reads(c: Change, f: Location) {
    c.Copy? && c.from == f
  }

  lemma {:induction false} NeedsAreRead(cs: seq<Change>, f: Location)
    requires f in TraceOf(cs).needs
    ensures exists c :: c in cs && Reads(c, f)
  {
    if cs != [] {
      var init, last := cs[..|cs| - 1], cs[|cs| - 1];
      if f in TraceOf(init).needs {
        NeedsAreRead(init, f);
        var c :| c in init && Reads(c, f);
        assert c in cs;
      } else {
        assert last in cs && Reads(last, f);
      }
    }
  }

  lemma {:induction false} ContentIsNeeded(cs: seq<Change>, p: Location)
    requires p in TraceOf(cs).results && TraceOf(cs).results[p].Initially?
    ensures TraceOf(cs).results[p].at in TraceOf(cs).needs
  {
    if cs != [] {
      var init, last := cs[..|cs| - 1], cs[|cs| - 1];
      var q := if last.Copy? && last.at == p then last.from else p;
      if q in TraceOf(init).results && TraceOf(init).results[q].Initially? { ContentIsNeeded(init, q); }
    }
  }

  // ---- The same trace, the same effect -------------------------------------

  lemma SameChanges(cs: seq<Change>, ds: seq<Change>, w: Workspace)
    requires forall c :: c in cs <==> c in ds
    ensures Shaped(cs) == Shaped(ds) && Receives(w, cs) == Receives(w, ds)
  {
    hide Never, Place, Marks, Compatible;
    assert forall m: Workspace :: MarkOf(cs, m) <==> MarkOf(ds, m);
  }

  lemma SucceedsIff(cs: seq<Change>, w: Workspace)
    ensures Applied(cs, w).Some? <==> Shaped(cs) && Receives(w, cs) && Supplies(w, TraceOf(cs).needs)
  {
    hide Applied, Shaped, Receives, Supplies, TraceOf;
    if Applied(cs, w).Some? { SuccessIsShaped(cs, w); }
    if Shaped(cs) && Receives(w, cs) && Supplies(w, TraceOf(cs).needs) { ShapedSucceeds(cs, w); }
  }

  lemma SameKindsLeft(cs: seq<Change>, ds: seq<Change>, w: Workspace, p: Location)
    requires forall c :: c in cs <==> c in ds
    requires Applied(cs, w).Some? && Applied(ds, w).Some? && p in Applied(cs, w).value
    ensures p in Applied(ds, w).value && Applied(ds, w).value[p].Folder? == Applied(cs, w).value[p].Folder?
  {
    hide Applied, Place;
    NothingElse(cs, w, p);
    BearsAll(cs, w);
    BearsAll(ds, w);
    if p !in w {
      var c :| c in cs && p in Place(c);
      PlaceIsMark(cs, c);
      PlaceIsMark(ds, c);
      assert Bears(Applied(cs, w).value, Place(c)) && Bears(Applied(ds, w).value, Place(c));
    }
  }

  lemma SameFileLeft(v: Workspace, u: Workspace, w: Workspace, t: Trace, p: Location)
    requires Holds(v, w, t) && Holds(u, w, t) && p in v && p in u && v[p].Folder? == u[p].Folder?
    ensures v[p] == u[p]
  {
  }

  lemma SameLeft(cs: seq<Change>, ds: seq<Change>, w: Workspace)
    requires (forall c :: c in cs <==> c in ds) && TraceOf(cs) == TraceOf(ds)
    requires Applied(cs, w).Some? && Applied(ds, w).Some?
    ensures Applied(cs, w) == Applied(ds, w)
  {
    hide Applied, Holds, TraceOf, Supplies;
    var v, u := Applied(cs, w).value, Applied(ds, w).value;
    TraceHolds(cs, w);
    TraceHolds(ds, w);
    forall p ensures (p in v <==> p in u) && (p in v ==> v[p] == u[p]) {
      if p in v { SameKindsLeft(cs, ds, w, p); SameFileLeft(v, u, w, TraceOf(cs), p); }
      if p in u { SameKindsLeft(ds, cs, w, p); }
    }
    assert v == u;
  }

  lemma SameEffect(cs: seq<Change>, ds: seq<Change>, w: Workspace)
    requires forall c :: c in cs <==> c in ds
    requires Shaped(cs) ==> TraceOf(cs) == TraceOf(ds)
    ensures Applied(cs, w) == Applied(ds, w)
  {
    hide Applied, Shaped, Receives, Supplies, TraceOf;
    SameChanges(cs, ds, w);
    SucceedsIff(cs, w);
    SucceedsIff(ds, w);
    if Applied(cs, w).Some? { SameLeft(cs, ds, w); }
  }

  // ---- A workspace of given files ------------------------------------------

  ghost predicate Apart(fs: set<Location>) {
    forall f, g | f in fs && g in fs :: !(f < g)
  }

  ghost predicate Leads(fs: set<Location>, p: Location) {
    exists f :: f in fs && p <= f
  }

  // These and the folders above them.
  ghost function Upwards(fs: set<Location>): (all: set<Location>)
    ensures forall p :: p in all <==> Leads(fs, p)
  {
    var all := set f, k | f in fs && 0 <= k <= |f| :: f[..k];
    assert forall p | p in all :: Leads(fs, p) by {
      forall p | p in all ensures Leads(fs, p) {
        var f, k :| f in fs && 0 <= k <= |f| && p == f[..k];
        assert p <= f;
      }
    }
    assert forall p | Leads(fs, p) :: p in all by {
      forall p | Leads(fs, p) ensures p in all {
        var f :| f in fs && p <= f;
        assert p == f[..|p|];
      }
    }
    all
  }

  // Exactly these files, with these contents.
  ghost function Files(fs: set<Location>, content: Location -> string): (w: Workspace)
    requires Apart(fs)
    ensures forall p :: p in w <==> Leads(fs, p)
    ensures forall p | p in w :: w[p] == if p in fs then File(content(p)) else Folder
  {
    var w := map p | p in Upwards(fs) :: if p in fs then File(content(p)) else Folder;
    assert Rooted(w) by {
      forall p, q | p in w && q < p ensures q in w && w[q].Folder? { FolderAbove(fs, p, q); }
    }
    w
  }

  lemma FolderAbove(fs: set<Location>, p: Location, q: Location)
    requires Apart(fs) && Leads(fs, p) && q < p
    ensures Leads(fs, q) && q !in fs
  {
    var f :| f in fs && p <= f;
    assert q < f;
  }

  lemma FileOfFiles(fs: set<Location>, content: Location -> string, f: Location)
    requires Apart(fs) && f in fs
    ensures f in Files(fs, content) && Files(fs, content)[f] == File(content(f))
  {
    assert f <= f;
    assert Leads(fs, f);
  }

  lemma SourceIsMark(cs: seq<Change>, f: Location)
    requires exists c :: c in cs && Reads(c, f)
    ensures MarkOf(cs, Wanted(f, File("")))
  {
    var c :| c in cs && Reads(c, f);
    PlaceIsMark(cs, c);
  }

  lemma SourcesAreApart(cs: seq<Change>, fs: set<Location>)
    requires Shaped(cs) && forall f | f in fs :: exists c :: c in cs && Reads(c, f)
    ensures Apart(fs)
  {
    hide Never, Marks;
    forall f, g | f in fs && g in fs ensures !(f < g) {
      SourceIsMark(cs, f);
      SourceIsMark(cs, g);
      KindsAlike(Wanted(f, File("")), Wanted(g, File("")), f);
    }
  }

  lemma FilesAreReceived(cs: seq<Change>, fs: set<Location>, content: Location -> string)
    requires Shaped(cs) && (forall f | f in fs :: exists c :: c in cs && Reads(c, f)) && Apart(fs)
    ensures Receives(Files(fs, content), cs) && Supplies(Files(fs, content), fs)
  {
    hide Never, Marks, Place, Reads, Files, Compatible, Apart;
    var w := Files(fs, content);
    forall c | c in cs ensures Compatible(w, Place(c)) {
      forall f | f in fs ensures Compatible(Wanted(f, File("")), Place(c)) {
        PlaceIsMark(cs, c);
        SourceIsMark(cs, f);
      }
      FilesTake(fs, content, Place(c));
    }
    forall f | f in fs ensures f in w && w[f].File? { FileOfFiles(fs, content, f); }
  }

  lemma FilesTake(fs: set<Location>, content: Location -> string, m: Workspace)
    requires Apart(fs) && forall f | f in fs :: Compatible(Wanted(f, File("")), m)
    ensures Compatible(Files(fs, content), m)
  {
    hide Compatible, Apart, Wanted, Files;
    var w := Files(fs, content);
    forall p | p in m && p in w ensures w[p].Folder? == m[p].Folder? {
      if p in fs {
        KindsAlike(Wanted(p, File("")), m, p);
      } else {
        var f :| f in fs && p <= f;
        KindsAlike(Wanted(f, File("")), m, p);
      }
    }
    AllAlike(w, m);
  }

  lemma KindsAlike(m: Entries, n: Entries, p: Location)
    requires Compatible(m, n)
    ensures p in m && p in n ==> m[p].Folder? == n[p].Folder?
  {
  }

  lemma AllAlike(m: Entries, n: Entries)
    requires forall p | p in n && p in m :: m[p].Folder? == n[p].Folder?
    ensures Compatible(m, n)
  {
  }

  // ---- Different traces told apart -----------------------------------------

  ghost predicate SeenApart(cs: seq<Change>, ds: seq<Change>, w: Workspace) {
    Applied(cs, w) != Applied(ds, w)
  }

  // One needs a file the other does not.
  lemma NeedShows(cs: seq<Change>, ds: seq<Change>, f: Location) returns (w: Workspace)
    requires (forall c :: c in cs <==> c in ds) && Shaped(cs)
    requires f in TraceOf(cs).needs && f !in TraceOf(ds).needs
    ensures SeenApart(cs, ds, w)
  {
    hide Applied, TraceOf, Shaped, Receives, Files, Apart, Reads, Leads;
    var fs := TraceOf(ds).needs;
    forall g | g in fs + {f} ensures exists c :: c in cs && Reads(c, g) {
      if g == f { NeedsAreRead(cs, f); } else { NeedsAreRead(ds, g); }
    }
    SourcesAreApart(cs, fs + {f});
    FewerApart(fs, f);
    w := Files(fs, _ => "");
    FilesAreReceived(cs, fs, _ => "");
    SameChanges(cs, ds, w);
    SucceedsIff(ds, w);
    SucceedsIff(cs, w);
  }

  lemma FewerApart(fs: set<Location>, f: Location)
    requires Apart(fs + {f}) && f !in fs
    ensures Apart(fs) && !Leads(fs, f)
  {
    assert f in fs + {f};
    forall g | g in fs ensures !(f <= g) {
      assert g in fs + {f};
      assert f != g;
    }
  }

  // Contents under which the two terms differ.
  function TellingApart(x: Term, y: Term): Location -> string {
    match (x, y)
    case (Known(a), Initially(_)) => _ => a + "."
    case (Initially(_), Known(b)) => _ => b + "."
    case (Initially(l), Initially(_)) => p => if p == l then "." else ""
    case _ => _ => ""
  }

  lemma TermsDiffer(x: Term, y: Term, fs: set<Location>)
    requires x != y && Apart(fs) && (x.Initially? ==> x.at in fs) && (y.Initially? ==> y.at in fs)
    ensures var w := Files(fs, TellingApart(x, y)); ContentOf(x, w) != ContentOf(y, w)
  {
    hide Files, Apart;
    if x.Initially? { FileOfFiles(fs, TellingApart(x, y), x.at); }
    if y.Initially? { FileOfFiles(fs, TellingApart(x, y), y.at); }
  }

  // They need the same files, and one of the files they leave comes from elsewhere.
  lemma ResultShows(cs: seq<Change>, ds: seq<Change>, p: Location) returns (w: Workspace)
    requires (forall c :: c in cs <==> c in ds) && Shaped(cs) && TraceOf(cs).needs == TraceOf(ds).needs
    requires p in TraceOf(cs).results && p in TraceOf(ds).results
    requires TraceOf(cs).results[p] != TraceOf(ds).results[p]
    ensures SeenApart(cs, ds, w)
  {
    hide Applied, TraceOf, Shaped, Receives, Supplies, ContentOf, TellingApart;
    var fs, x, y := TraceOf(cs).needs, TraceOf(cs).results[p], TraceOf(ds).results[p];
    forall g | g in fs ensures exists c :: c in cs && Reads(c, g) { NeedsAreRead(cs, g); }
    SourcesAreApart(cs, fs);
    if x.Initially? { ContentIsNeeded(cs, p); }
    if y.Initially? { ContentIsNeeded(ds, p); }
    w := Files(fs, TellingApart(x, y));
    TermsDiffer(x, y, fs);
    FilesAreReceived(cs, fs, TellingApart(x, y));
    SameChanges(cs, ds, w);
    SucceedsIff(cs, w);
    SucceedsIff(ds, w);
    TraceHolds(cs, w);
    TraceHolds(ds, w);
  }

  lemma DifferenceShows(cs: seq<Change>, ds: seq<Change>) returns (w: Workspace)
    requires (forall c :: c in cs <==> c in ds) && Shaped(cs) && TraceOf(cs) != TraceOf(ds)
    ensures SeenApart(cs, ds, w)
  {
    hide TraceOf, Shaped, Applied;
    var a, b := TraceOf(cs), TraceOf(ds);
    if f :| f in a.needs && f !in b.needs {
      w := NeedShows(cs, ds, f);
    } else if f :| f in b.needs && f !in a.needs {
      SameChanges(cs, ds, EMPTY);
      w := NeedShows(ds, cs, f);
    } else {
      forall p ensures p in a.results <==> p in b.results {
        ResultsArePlaces(cs, p);
        ResultsArePlaces(ds, p);
      }
      assert a.needs == b.needs;
      assert a.results != b.results;
      var p :| p in a.results && a.results[p] != b.results[p];
      w := ResultShows(cs, ds, p);
    }
  }

  // Two orders of the same changes come to the same on every workspace exactly when they
  // fail on every workspace or have one trace.
  lemma SameEffectIff(cs: seq<Change>, ds: seq<Change>)
    requires forall c :: c in cs <==> c in ds
    ensures (forall w: Workspace :: Applied(cs, w) == Applied(ds, w)) <==> (Shaped(cs) ==> TraceOf(cs) == TraceOf(ds))
  {
    hide Applied, Shaped, TraceOf;
    if Shaped(cs) && TraceOf(cs) != TraceOf(ds) {
      var w := DifferenceShows(cs, ds);
      assert Applied(cs, w) != Applied(ds, w);
    } else {
      forall w: Workspace ensures Applied(cs, w) == Applied(ds, w) { SameEffect(cs, ds, w); }
    }
  }
}
