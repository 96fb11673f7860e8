// Paths as the plan compiler compares them (src/jev-planner.js, lines 110-119) and
// as the runtimes resolve them (src/app-web-executor.js, lines 15-24).

module Paths {
  import opened Basics

  // ---- Comparing strings --------------------------------------------------

  function Slashed(s: string): (t: string)
    ensures |t| == |s|
    ensures forall i | 0 <= i < |s| :: t[i] == (if s[i] == '\\' then '/' else s[i])
  {
    seq(|s|, i requires 0 <= i < |s| => if s[i] == '\\' then '/' else s[i])
  }

  function DropDot(s: string): string {
    if "./" <= s then s[2..] else s
  }

  function DropTrailing(s: string): string {
    if s != [] && s[|s| - 1] == '/' then DropTrailing(s[..|s| - 1]) else s
  }

  function NormalizePath(s: string): string {
    DropTrailing(DropDot(Slashed(s)))
  }

  predicate PathsInterfere(earlier: string, later: string) {
    && earlier != "" && later != ""
    && (earlier == later || earlier + "/" <= later || later + "/" <= earlier)
  }

  // ---- Segments -----------------------------------------------------------

  function Split(s: string): (r: seq<string>)
    ensures r != []
  {
    if s == [] then [""]
    else
      var rest := Split(s[1..]);
      if s[0] == '/' then [""] + rest else [[s[0]] + rest[0]] + rest[1..]
  }

  function Join(segments: seq<string>): string
    requires segments != []
  {
    if |segments| == 1 then segments[0] else segments[0] + "/" + Join(segments[1..])
  }

  predicate NoSlash(s: string) {
    forall i | 0 <= i < |s| :: s[i] != '/'
  }

  lemma {:induction false} SplitHasNoSlash(s: string)
    ensures forall t | 0 <= t < |Split(s)| :: NoSlash(Split(s)[t])
  {
    if s != [] { SplitHasNoSlash(s[1..]); }
  }

  lemma {:induction false} JoinOfSplit(s: string)
    ensures Join(Split(s)) == s
  {
    if s != [] {
      JoinOfSplit(s[1..]);
      var rest := Split(s[1..]);
      if s[0] == '/' {
        assert ([""] + rest)[1..] == rest;
        assert s == "/" + s[1..];
      } else {
        var r := [[s[0]] + rest[0]] + rest[1..];
        assert r[1..] == rest[1..];
        if |rest| > 1 { assert Join(r) == [s[0]] + rest[0] + "/" + Join(rest[1..]); }
        assert Join(r) == [s[0]] + Join(rest);
      }
    }
  }

  lemma PushOntoFirst(a: seq<string>, b: seq<string>, c: string)
    requires a != []
    ensures [""] + (a + b) == ([""] + a) + b
    ensures [c + (a + b)[0]] + (a + b)[1..] == ([c + a[0]] + a[1..]) + b
  {
  }

  // Splitting at a slash is splitting both sides.
  lemma {:induction false} SplitAtSlash(a: string, b: string)
    ensures Split(a + "/" + b) == Split(a) + Split(b)
  {
    var s := a + "/" + b;
    if a == [] {
      assert s[1..] == b;
      assert Split(s) == [""] + Split(b);
    } else {
      SplitAtSlash(a[1..], b);
      assert s[1..] == a[1..] + "/" + b;
      PushOntoFirst(Split(a[1..]), Split(b), [a[0]]);
    }
  }

  lemma {:induction false} JoinAppend(a: seq<string>, b: seq<string>)
    requires a != [] && b != []
    ensures Join(a + b) == Join(a) + "/" + Join(b)
  {
    if |a| == 1 {
      assert (a + b)[1..] == b;
    } else {
      JoinAppend(a[1..], b);
      assert (a + b)[1..] == a[1..] + b;
    }
  }

  // One location is the other, or lies below it.
  predicate Overlap(a: seq<string>, b: seq<string>) {
    a <= b || b <= a
  }

  // The string comparison is exactly the comparison of locations.
  lemma InterfereIffOverlap(a: string, b: string)
    ensures PathsInterfere(a, b) <==> a != "" && b != "" && Overlap(Split(a), Split(b))
  {
    JoinOfSplit(a);
    JoinOfSplit(b);
    PrefixIffBelow(a, b);
    PrefixIffBelow(b, a);
  }

  lemma PrefixIffBelow(a: string, b: string)
    ensures a == b || a + "/" <= b <==> Split(a) <= Split(b)
  {
    if a + "/" <= b {
      assert b == a + "/" + b[|a| + 1..];
      SplitAtSlash(a, b[|a| + 1..]);
    }
    if Split(a) <= Split(b) { BelowIsPrefix(a, b); }
  }

  lemma BelowIsPrefix(a: string, b: string)
    requires Split(a) <= Split(b)
    ensures a == b || a + "/" <= b
  {
    JoinOfSplit(a);
    JoinOfSplit(b);
    if Split(a) != Split(b) {
      var rest := Split(b)[|Split(a)|..];
      assert Split(b) == Split(a) + rest;
      JoinAppend(Split(a), rest);
      assert b == a + "/" + Join(rest);
    }
  }

  // ---- Resolving ----------------------------------------------------------

  // Where path.resolve puts a relative path, from the segments already walked;
  // None when it leaves the workspace.
  function Walked(at: seq<string>, segments: seq<string>): Option<seq<string>>
    decreases |segments|
  {
    if segments == [] then Some(at)
    else if segments[0] == "" || segments[0] == "." then Walked(at, segments[1..])
    else if segments[0] == ".." then
      (if at == [] then None else Walked(at[..|at| - 1], segments[1..]))
    else Walked(at + [segments[0]], segments[1..])
  }

  // Whatever begins with two dots counts as outside, a name such as "..a" included.
  function Locate(path: string): Option<seq<string>> {
    if path != "" && path[0] == '/' then None
    else
      var at := Walked([], Split(path));
      if at.Some? && at.value != [] && ".." <= at.value[0] then None else at
  }

  // Already in the form both sides agree on: forward slashes, no empty, "." or
  // ".." segment, and not beginning with two dots.
  predicate Canonical(path: string) {
    && !(".." <= path)
    && (forall i | 0 <= i < |path| :: path[i] != '\\')
    && (forall t | 0 <= t < |Split(path)| :: Split(path)[t] != "" && Split(path)[t] != "." && Split(path)[t] != "..")
  }

  lemma {:induction false} WalkedPlain(at: seq<string>, segments: seq<string>)
    requires forall t | 0 <= t < |segments| :: segments[t] != "" && segments[t] != "." && segments[t] != ".."
    ensures Walked(at, segments) == Some(at + segments)
    decreases |segments|
  {
    if segments == [] {
      assert at + segments == at;
    } else {
      WalkedPlain(at + [segments[0]], segments[1..]);
      assert at + [segments[0]] + segments[1..] == at + segments;
    }
  }

  // What the first and last segments say about the two ends of a path.
  lemma SplitEnds(path: string)
    ensures path == "" || path[0] == '/' ==> Split(path)[0] == ""
    ensures "./" <= path ==> Split(path)[0] == "."
    ensures path != "" && path[|path| - 1] == '/' ==> Split(path)[|Split(path)| - 1] == ""
  {
    if "./" <= path {
      assert path == "." + "/" + path[2..];
      SplitAtSlash(".", path[2..]);
      assert "."[1..] == "" && Split(".") == [['.'] + ""];
    }
    if path != "" && path[|path| - 1] == '/' {
      assert path == path[..|path| - 1] + "/" + "";
      SplitAtSlash(path[..|path| - 1], "");
    }
  }

  // A canonical path is located where it says and is left alone by normalisation.
  lemma CanonicalLocates(path: string)
    requires Canonical(path)
    ensures path != "" && Locate(path) == Some(Split(path)) && NormalizePath(path) == path
  {
    WalkedPlain([], Split(path));
    assert [] + Split(path) == Split(path);
    JoinOfSplit(path);
    SplitEnds(path);
    assert Slashed(path) == path;
  }

  // For canonical paths the compiler's test is exactly whether the locations
  // overlap.
  lemma CanonicalInterference(a: string, b: string)
    requires Canonical(a) && Canonical(b)
    ensures Locate(a).Some? && Locate(b).Some?
    ensures PathsInterfere(NormalizePath(a), NormalizePath(b)) <==> Overlap(Locate(a).value, Locate(b).value)
  {
    CanonicalLocates(a);
    CanonicalLocates(b);
    InterfereIffOverlap(a, b);
  }

  // ---- Spellings ------------------------------------------------------------

  function Slashes(k: nat): (s: string)
    ensures |s| == k && forall i | 0 <= i < k :: s[i] == '/'
  {
    seq(k, i => '/')
  }

  lemma {:induction false} DropTrailingDrops(s: string, p: string)
    requires p == "" || p[|p| - 1] != '/'
    ensures DropTrailing(s) == p <==> exists k :: k >= 0 && s == p + Slashes(k)
  {
    if s != [] && s[|s| - 1] == '/' {
      var init := s[..|s| - 1];
      DropTrailingDrops(init, p);
      if k: nat :| init == p + Slashes(k) { assert s == p + Slashes(k + 1); }
      if k: nat :| s == p + Slashes(k) {
        assert k > 0;
        assert init == p + Slashes(k - 1);
      }
    } else {
      if s == p { assert s == p + Slashes(0); }
      if k: nat :| s == p + Slashes(k) {
        assert k == 0;
      }
    }
  }

  // The spellings the compiler takes for one path: with either slash, with "./" before it
  // or not, and with any number of slashes after it.
  lemma {:induction false} SpellingsOf(s: string, p: string)
    requires p != "" && p != "." && !("./" <= p) && p[|p| - 1] != '/'
    ensures NormalizePath(s) == p <==>
      exists k :: k >= 0 && (Slashed(s) == p + Slashes(k) || Slashed(s) == "./" + (p + Slashes(k)))
  {
    var u := Slashed(s);
    DropTrailingDrops(DropDot(u), p);
    hide DropTrailing;
    if "./" <= u {
      assert u == "./" + u[2..];
      forall k: nat ensures u != p + Slashes(k) { NoDotBefore(p, k); }
      forall k: nat ensures u == "./" + (p + Slashes(k)) <==> u[2..] == p + Slashes(k) {}
    } else {
      forall k: nat ensures u != "./" + (p + Slashes(k)) {}
    }
  }

  lemma NoDotBefore(p: string, k: nat)
    requires p != "" && p != "." && !("./" <= p)
    ensures !("./" <= p + Slashes(k))
  {
    var w := p + Slashes(k);
    assert w[0] == p[0];
    if |p| > 1 { assert w[1] == p[1]; }
  }

  // How far below the start a walk gets: a name goes down, ".." up.
  function Depth(segments: seq<string>): int {
    if segments == [] then 0
    else
      var last := segments[|segments| - 1];
      Depth(segments[..|segments| - 1]) + (if last == "" || last == "." then 0 else if last == ".." then -1 else 1)
  }

  lemma {:induction false} DepthSplits(a: seq<string>, b: seq<string>)
    ensures Depth(a + b) == Depth(a) + Depth(b)
  {
    if b == [] {
      assert a + b == a;
    } else {
      DepthSplits(a, b[..|b| - 1]);
      assert (a + b)[..|a + b| - 1] == a + b[..|b| - 1];
    }
  }

  // Some way into the walk there have been more ".." than names.
  ghost predicate Surfaces(from: nat, segments: seq<string>) {
    exists n :: 0 <= n <= |segments| && from + Depth(segments[..n]) < 0
  }

  lemma {:induction false} WalkedLeaves(at: seq<string>, segments: seq<string>)
    ensures Walked(at, segments).None? <==> Surfaces(|at|, segments)
    ensures Walked(at, segments).Some? ==> |Walked(at, segments).value| == |at| + Depth(segments)
    decreases |segments|
  {
    if segments == [] {
      assert forall n | 0 <= n <= |segments| :: segments[..n] == [];
    } else {
      var one, rest := [segments[0]], segments[1..];
      var step := Depth(one);
      assert one[..0] == [] && Depth([]) == 0;
      forall n | 1 <= n <= |segments| ensures Depth(segments[..n]) == step + Depth(rest[..n - 1]) {
        assert segments[..n] == one + rest[..n - 1];
        DepthSplits(one, rest[..n - 1]);
      }
      assert segments[..|segments|] == segments && rest[..|rest|] == rest;
      if |at| + step < 0 {
        assert segments[..1] == one;
        assert Surfaces(|at|, segments);
      } else {
        SurfacesOn(|at|, step, segments);
        var next := if step == 0 then at else if step == -1 then at[..|at| - 1] else at + one;
        WalkedLeaves(next, rest);
      }
    }
  }

  lemma SurfacesOn(from: nat, step: int, segments: seq<string>)
    requires segments != [] && from + step >= 0
    requires forall n | 1 <= n <= |segments| :: Depth(segments[..n]) == step + Depth(segments[1..][..n - 1])
    ensures Surfaces(from, segments) <==> Surfaces(from + step, segments[1..])
  {
    hide Depth;
    var rest := segments[1..];
    if n :| 0 <= n <= |segments| && from + Depth(segments[..n]) < 0 {
      DepthOfNothing(segments);
      assert n >= 1;
      assert from + step + Depth(rest[..n - 1]) < 0;
    }
    if n :| 0 <= n <= |rest| && from + step + Depth(rest[..n]) < 0 {
      assert from + Depth(segments[..n + 1]) < 0;
    }
  }

  lemma DepthOfNothing(segments: seq<string>)
    ensures Depth(segments[..0]) == 0
  {
  }

  // A path is refused exactly when it is absolute, or rises above the workspace anywhere
  // on its way, or ends at something whose first name begins with two dots.
  lemma LocateRefuses(path: string)
    ensures Locate(path).None? <==>
      || (path != "" && path[0] == '/')
      || Surfaces(0, Split(path))
      || (Walked([], Split(path)).Some? && Walked([], Split(path)).value != []
          && ".." <= Walked([], Split(path)).value[0])
  {
    WalkedLeaves([], Split(path));
  }
}
