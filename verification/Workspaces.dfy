// What a write step does to the workspace (src/app-web-executor.js, lines 56-67;
// src/game-executor.js, lines 160-181), and exactly when two of them can change
// places.

module Workspaces {
  import opened Basics
  import opened Paths

  datatype Entry = File(content: string) | Folder

  type Location = seq<string>

  type Entries = map<Location, Entry>

  // What lies below something lies in a folder.
  ghost predicate Rooted(m: Entries) {
    forall p, q | p in m && q < p :: q in m && m[q].Folder?
  }

  type Workspace = m: Entries | Rooted(m) witness map[]

  const EMPTY: Workspace := map[]

  // mkdir -p, or mkdir -p of the parent followed by a write or a copy. `Hopeless`
  // is a step whose path leaves the workspace.
  datatype Change =
    | Hopeless
    | Make(at: Location)
    | Put(at: Location, content: string)
    | Copy(at: Location, from: Location)

  // The entries a change brings about; at every other location it changes nothing.
  function Wanted(at: Location, last: Entry): (m: Workspace)
    ensures forall p :: p in m <==> p <= at
    ensures forall p | p in m :: m[p] == if p == at then last else Folder
  {
    assert forall p: Location | p <= at :: p == at[..|p|];
    map n | 0 <= n <= |at| :: at[..n] := if at[..n] == at then last else Folder
  }

  // A file cannot become a folder, nor a folder a file.
  predicate Compatible(w: Entries, m: Entries) {
    forall p | p in m && p in w :: w[p].Folder? == m[p].Folder?
  }

  function Written(w: Workspace, m: Workspace): Option<Workspace> {
    if Compatible(w, m) then
      assert Rooted(w + m) by {
        forall p, q | p in w + m && q < p ensures q in w + m && (w + m)[q].Folder? {
          if p in m { assert q in m; } else { assert q in w; }
        }
      }
      Some(w + m)
    else None
  }

  // The workspace root is a folder.
  function ApplyChange(c: Change, w: Workspace): Option<Workspace> {
    match c
    case Hopeless => None
    case Make(at) => Written(w, Wanted(at, Folder))
    case Put(at, content) => if at == [] then None else Written(w, Wanted(at, File(content)))
    case Copy(at, from) =>
      if from !in w || w[from].Folder? || at == [] || at == from then None
      else Written(w, Wanted(at, w[from]))
  }

  function Then(w: Option<Workspace>, c: Change): Option<Workspace> {
    if w.None? then None else ApplyChange(c, w.value)
  }

  // ---- What a change writes once it can -----------------------------------

  function Last(c: Change, w: Workspace): Option<Entry> {
    match c
    case Hopeless => None
    case Make(_) => Some(Folder)
    case Put(at, content) => if at == [] then None else Some(File(content))
    case Copy(at, from) =>
      if from !in w || w[from].Folder? || at == [] || at == from then None else Some(w[from])
  }

  lemma ApplyByLast(c: Change, w: Workspace)
    ensures ApplyChange(c, w) == if Last(c, w).None? then None else Written(w, Wanted(c.at, Last(c, w).value))
  {
  }

  // One lies below the other.
  predicate Nested(a: Location, b: Location) {
    a != b && Overlap(a, b)
  }

  // Changes that fail on every workspace.
  predicate Never(c: Change) {
    match c
    case Hopeless => true
    case Make(_) => false
    case Put(at, _) => at == []
    case Copy(at, from) => at == [] || Overlap(at, from)
  }

  lemma NeverFails(c: Change, w: Workspace)
    requires Never(c)
    ensures ApplyChange(c, w).None?
  {
    if c.Copy? && Last(c, w).Some? {
      if c.from < c.at { assert c.from in Wanted(c.at, w[c.from]); }
      if c.at < c.from { assert c.at in w && w[c.at].Folder?; }
    }
  }

  // ---- When two changes clash ---------------------------------------------

  predicate Clash(c: Change, d: Change) {
    !Never(c) && !Never(d) && match (c, d)
      case (Put(a, x), Put(b, y)) => a == b && x != y
      case (Put(a, _), Copy(b, g)) => a == b || a == g
      case (Copy(b, g), Put(a, _)) => a == b || a == g
      case (Copy(a, f), Copy(b, g)) =>
        if a == b then !Overlap(f, g)
        else (b == f && !Nested(a, g)) || (a == g && !Nested(b, f))
      case _ => false
  }

  lemma CompatibleWithBoth(w: Entries, m: Entries, n: Entries)
    requires Compatible(w, m)
    ensures Compatible(w + m, n) <==> Compatible(w, n) && Compatible(m, n)
  {
    if p :| p in n && p in w && w[p].Folder? != n[p].Folder? {
      assert p in w + m && (w + m)[p].Folder? == w[p].Folder?;
    } else if p :| p in n && p in m && m[p].Folder? != n[p].Folder? {
      assert p in w + m && (w + m)[p] == m[p];
    }
  }

  lemma OverlaysCommute(w: Entries, m: Entries, n: Entries)
    requires forall p | p in m && p in n :: m[p] == n[p]
    ensures w + m + n == w + n + m
  {
  }

  // Two writes that agree wherever both leave a file, or both leave a folder.
  lemma WritesCommute(w: Workspace, m: Workspace, n: Workspace)
    requires forall p | p in m && p in n && m[p].Folder? == n[p].Folder? :: m[p] == n[p]
    ensures (if Written(w, m).None? then None else Written(Written(w, m).value, n))
      == (if Written(w, n).None? then None else Written(Written(w, n).value, m))
  {
    assert Compatible(m, n) == Compatible(n, m);
    assert Compatible(m, n) ==> forall p | p in m && p in n :: m[p] == n[p];
    hide Compatible;
    if Compatible(w, m) { CompatibleWithBoth(w, m, n); }
    if Compatible(w, n) { CompatibleWithBoth(w, n, m); }
    if Compatible(m, n) { OverlaysCommute(w, m, n); }
  }

  // d reads what c writes.
  predicate Feeds(c: Change, d: Change) {
    d.Copy? && (c.Put? || c.Copy?) && c.at == d.from
  }

  lemma LastKept(d: Change, w: Workspace, c: Change, x: Entry)
    requires !c.Hopeless? && Last(c, w) == Some(x) && Compatible(w, Wanted(c.at, x)) && !Feeds(c, d)
    ensures Last(d, Written(w, Wanted(c.at, x)).value) == Last(d, w)
  {
    if d.Copy? && d.from in Wanted(c.at, x) {
      assert d.from in w ==> w[d.from].Folder? == Wanted(c.at, x)[d.from].Folder?;
    }
  }

  // Neither reads what the other writes: the writes themselves decide.
  lemma CommuteUnfed(c: Change, d: Change, w: Workspace)
    requires !Clash(c, d) && !Never(c) && !Never(d) && !Feeds(c, d) && !Feeds(d, c)
    ensures Then(ApplyChange(c, w), d) == Then(ApplyChange(d, w), c)
  {
    ApplyByLast(c, w);
    ApplyByLast(d, w);
    var x, y := Last(c, w), Last(d, w);
    if x.Some? && Compatible(w, Wanted(c.at, x.value)) {
      LastKept(d, w, c, x.value);
      ApplyByLast(d, Written(w, Wanted(c.at, x.value)).value);
    }
    if y.Some? && Compatible(w, Wanted(d.at, y.value)) {
      LastKept(c, w, d, y.value);
      ApplyByLast(c, Written(w, Wanted(d.at, y.value)).value);
    }
    if x.Some? && y.Some? {
      SameWhereEqual(c, d, w);
      WritesCommute(w, Wanted(c.at, x.value), Wanted(d.at, y.value));
    }
  }

  lemma FilesAreApart(w: Workspace, p: Location, q: Location)
    requires p in w && q in w && w[p].File? && w[q].File?
    ensures !Nested(p, q)
  {
    assert !(p < q) && !(q < p);
  }

  lemma SameWhereEqual(c: Change, d: Change, w: Workspace)
    requires !Clash(c, d) && !Never(c) && !Never(d) && Last(c, w).Some? && Last(d, w).Some?
    ensures var m, n := Wanted(c.at, Last(c, w).value), Wanted(d.at, Last(d, w).value);
      forall p | p in m && p in n && m[p].Folder? == n[p].Folder? :: m[p] == n[p]
  {
    if c.Copy? && d.Copy? { FilesAreApart(w, c.from, d.from); }
  }

  // What is there stays, a file a file and a folder a folder.
  lemma KindsStay(c: Change, w: Workspace)
    requires ApplyChange(c, w).Some?
    ensures forall p | p in w :: p in ApplyChange(c, w).value && ApplyChange(c, w).value[p].Folder? == w[p].Folder?
  {
    ApplyByLast(c, w);
  }

  lemma CopyJoinsFiles(c: Change, w: Workspace)
    requires c.Copy? && ApplyChange(c, w).Some?
    ensures c.from in w && w[c.from].File?
    ensures c.at in ApplyChange(c, w).value && ApplyChange(c, w).value[c.at].File?
  {
  }

  // A copy reads what the other copy writes, and yet they never clash: no workspace
  // holds both the place of the one and the source of the other.
  lemma FedNeverBoth(c: Change, d: Change, w: Workspace)
    requires c.Copy? && d.Copy? && Nested(d.at, c.from)
    ensures Then(ApplyChange(c, w), d).None? && Then(ApplyChange(d, w), c).None?
  {
    hide ApplyChange, Nested;
    if ApplyChange(c, w).Some? {
      CopyJoinsFiles(c, w);
      KindsStay(c, w);
      NotOverThat(d, ApplyChange(c, w).value, c.from);
    }
    if ApplyChange(d, w).Some? {
      CopyJoinsFiles(d, w);
      NotFromThat(c, ApplyChange(d, w).value, d.at);
    }
  }

  lemma NotOverThat(d: Change, v: Workspace, f: Location)
    requires d.Copy? && f in v && v[f].File? && Nested(d.at, f)
    ensures ApplyChange(d, v).None?
  {
    hide ApplyChange, Nested;
    if ApplyChange(d, v).Some? {
      CopyJoinsFiles(d, v);
      KindsStay(d, v);
      FilesAreApart(ApplyChange(d, v).value, d.at, f);
    }
  }

  lemma NotFromThat(c: Change, v: Workspace, b: Location)
    requires c.Copy? && b in v && v[b].File? && Nested(b, c.from)
    ensures ApplyChange(c, v).None?
  {
    hide ApplyChange, Nested;
    if ApplyChange(c, v).Some? {
      CopyJoinsFiles(c, v);
      FilesAreApart(v, b, c.from);
    }
  }

  // Without a clash the two orders come to the same on every workspace.
  lemma UnclashedCommute(c: Change, d: Change, w: Workspace)
    requires !Clash(c, d)
    ensures Then(ApplyChange(c, w), d) == Then(ApplyChange(d, w), c)
  {
    if Never(c) || Never(d) {
      if Never(c) { NeverFails(c, w); if ApplyChange(d, w).Some? { NeverFails(c, ApplyChange(d, w).value); } }
      if Never(d) { NeverFails(d, w); if ApplyChange(c, w).Some? { NeverFails(d, ApplyChange(c, w).value); } }
    } else if Feeds(c, d) {
      FedNeverBoth(c, d, w);
    } else if Feeds(d, c) {
      FedNeverBoth(d, c, w);
    } else {
      CommuteUnfed(c, d, w);
    }
  }

  // ---- Where they clash, some workspace tells the orders apart --------------

  ghost predicate ToldApart(c: Change, d: Change, w: Workspace) {
    Then(ApplyChange(c, w), d) != Then(ApplyChange(d, w), c)
  }

  // A file can be written here: nothing is in the way.
  ghost predicate Takes(w: Workspace, at: Location) {
    at != [] && (at in w ==> w[at].File?) && forall p | p in w && p < at :: w[p].Folder?
  }

  lemma TakenIsThere(w: Workspace, at: Location, x: string)
    requires Takes(w, at)
    ensures var r := Written(w, Wanted(at, File(x)));
      && r.Some? && at in r.value && r.value[at] == File(x) && Takes(r.value, at)
      && (forall p | !Overlap(p, at) :: (p in r.value <==> p in w) && (p in w ==> r.value[p] == w[p]))
  {
  }

  lemma TakesBeside(w: Workspace, at: Location, x: string, b: Location)
    requires Takes(w, at) && Takes(w, b) && !Overlap(at, b)
    ensures Written(w, Wanted(at, File(x))).Some? && Takes(Written(w, Wanted(at, File(x))).value, b)
  {
  }

  // The smallest workspace with a file here.
  lemma AloneTakes(g: Location, x: string, b: Location)
    requires g != [] && b != [] && !Overlap(g, b)
    ensures g in Wanted(g, File(x)) && Wanted(g, File(x))[g] == File(x) && b !in Wanted(g, File(x))
    ensures Takes(Wanted(g, File(x)), b)
  {
  }

  lemma PutsClash(a: Location, x: string, y: string)
    requires a != [] && x != y
    ensures ToldApart(Put(a, x), Put(a, y), EMPTY)
  {
    hide Written;
    TakenIsThere(EMPTY, a, x);
    TakenIsThere(EMPTY, a, y);
    TakenIsThere(Written(EMPTY, Wanted(a, File(x))).value, a, y);
    TakenIsThere(Written(EMPTY, Wanted(a, File(y))).value, a, x);
  }

  // The copy needs the file the put brings.
  lemma PutFeedsCopy(a: Location, x: string, b: Location)
    requires a != [] && b != [] && !Overlap(a, b)
    ensures ToldApart(Put(a, x), Copy(b, a), EMPTY)
  {
    hide Written;
    TakenIsThere(EMPTY, a, x);
    TakesBeside(EMPTY, a, x, b);
    TakenIsThere(Written(EMPTY, Wanted(a, File(x))).value, b, x);
  }

  lemma PutOverCopy(a: Location, x: string, g: Location) returns (w: Workspace)
    requires a != [] && g != [] && !Overlap(a, g)
    ensures ToldApart(Put(a, x), Copy(a, g), w)
  {
    hide Written;
    var y := x + ".";
    w := Wanted(g, File(y));
    AloneTakes(g, y, a);
    TakenIsThere(w, a, x);
    TakenIsThere(w, a, y);
    TakenIsThere(Written(w, Wanted(a, File(x))).value, a, y);
    TakenIsThere(Written(w, Wanted(a, File(y))).value, a, x);
  }

  // Two files of different content, and nothing else.
  lemma TwoFiles(f: Location, g: Location) returns (w: Workspace)
    requires f != [] && g != [] && !Overlap(f, g)
    ensures f in w && w[f] == File("") && g in w && w[g] == File(".")
    ensures Takes(w, f) && Takes(w, g)
    ensures forall b | b != [] && !Overlap(f, b) && !Overlap(g, b) :: Takes(w, b)
  {
    hide Written;
    var v := Wanted(f, File(""));
    AloneTakes(f, "", g);
    TakenIsThere(v, g, ".");
    w := Written(v, Wanted(g, File("."))).value;
    TakesBeside(v, g, ".", f);
    forall b | b != [] && !Overlap(f, b) && !Overlap(g, b) ensures Takes(w, b) {
      AloneTakes(f, "", b);
      TakesBeside(v, g, ".", b);
    }
  }

  lemma CopiesToOnePlace(a: Location, f: Location, g: Location) returns (w: Workspace)
    requires a != [] && f != [] && g != [] && !Overlap(a, f) && !Overlap(a, g) && !Overlap(f, g)
    ensures ToldApart(Copy(a, f), Copy(a, g), w)
  {
    hide Written;
    w := TwoFiles(f, g);
    TakenIsThere(w, a, "");
    TakenIsThere(w, a, ".");
    TakenIsThere(Written(w, Wanted(a, File(""))).value, a, ".");
    TakenIsThere(Written(w, Wanted(a, File("."))).value, a, "");
  }

  lemma CopiesSwap(a: Location, b: Location) returns (w: Workspace)
    requires a != [] && b != [] && !Overlap(a, b)
    ensures ToldApart(Copy(a, b), Copy(b, a), w)
  {
    hide Written;
    w := TwoFiles(a, b);
    TakenIsThere(w, a, ".");
    TakenIsThere(w, b, "");
    TakesBeside(w, a, ".", b);
    TakesBeside(w, b, "", a);
    TakenIsThere(Written(w, Wanted(a, File("."))).value, b, ".");
    TakenIsThere(Written(w, Wanted(b, File(""))).value, a, "");
  }

  // The first copy needs the file the second brings.
  lemma CopyFeedsCopy(a: Location, b: Location, g: Location) returns (w: Workspace)
    requires a != [] && b != [] && g != [] && !Overlap(a, b) && !Overlap(b, g) && !Overlap(a, g)
    ensures ToldApart(Copy(a, b), Copy(b, g), w)
  {
    hide Written;
    w := Wanted(g, File(""));
    AloneTakes(g, "", a);
    AloneTakes(g, "", b);
    TakenIsThere(w, b, "");
    TakesBeside(w, b, "", a);
    TakenIsThere(Written(w, Wanted(b, File(""))).value, a, "");
  }

  lemma PutAndCopyClash(c: Change, d: Change) returns (w: Workspace)
    requires Clash(c, d) && c.Put? && d.Copy?
    ensures ToldApart(c, d, w)
  {
    if c.at == d.at {
      w := PutOverCopy(c.at, c.content, d.from);
    } else {
      PutFeedsCopy(c.at, c.content, d.at);
      w := EMPTY;
    }
  }

  lemma CopiesClash(c: Change, d: Change) returns (w: Workspace)
    requires Clash(c, d) && c.Copy? && d.Copy?
    ensures ToldApart(c, d, w)
  {
    hide ApplyChange;
    if c.at == d.at {
      w := CopiesToOnePlace(c.at, c.from, d.from);
    } else if d.at == c.from && c.at == d.from {
      w := CopiesSwap(c.at, d.at);
    } else if d.at == c.from && !Nested(c.at, d.from) {
      w := CopyFeedsCopy(c.at, d.at, d.from);
    } else {
      w := CopyFeedsCopy(d.at, c.at, c.from);
    }
  }

  lemma ClashTold(c: Change, d: Change) returns (w: Workspace)
    requires Clash(c, d)
    ensures ToldApart(c, d, w)
  {
    hide ApplyChange;
    if c.Put? && d.Put? {
      PutsClash(c.at, c.content, d.content);
      w := EMPTY;
    } else if c.Put? {
      w := PutAndCopyClash(c, d);
    } else if d.Put? {
      w := PutAndCopyClash(d, c);
    } else {
      w := CopiesClash(c, d);
    }
  }

  // Two changes come to the same in either order, on every workspace, exactly when
  // their places, contents and sources do not clash.
  lemma ChangesCommuteIff(c: Change, d: Change)
    ensures (forall w: Workspace :: Then(ApplyChange(c, w), d) == Then(ApplyChange(d, w), c)) <==> !Clash(c, d)
  {
    hide Then, ApplyChange, Clash;
    if Clash(c, d) {
      var w := ClashTold(c, d);
      assert Then(ApplyChange(c, w), d) != Then(ApplyChange(d, w), c);
    } else {
      forall w: Workspace ensures Then(ApplyChange(c, w), d) == Then(ApplyChange(d, w), c) {
        UnclashedCommute(c, d, w);
      }
    }
  }
}
