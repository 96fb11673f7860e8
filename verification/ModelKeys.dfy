// The keys a model graph's nodes carry, and reading a cycle number back out of one
// (src/jev-model-graph.js, lines 71-117).

module ModelKeys {
  import opened Basics

  // What a node is for, as its key tells.
  datatype Role = Plan | Implement | Exec(cycle: nat) | Review(cycle: nat) | Repair(cycle: nat) | Verify(cycle: nat)

  const EXEC := "exec"
  const REPAIR := "fable-repair-"
  const REWORK := "fable-rework-"
  const REVIEW := "astra-review-"
  const VERIFY := "model-verify-"
  const PLAN := "astra-plan"
  const IMPLEMENT := "fable-implement"

  function ExecPrefix(n: nat): string { EXEC + Dec(n) + ":" }
  function ReviewKey(n: nat): string { REVIEW + Dec(n) }
  function RepairKey(n: nat): string { REPAIR + Dec(n) }
  function ReworkKey(n: nat): string { REWORK + Dec(n) }
  function VerifyKey(n: nat): string { VERIFY + Dec(n) }

  // The run of digits a string starts with.
  function Digits(s: string): (n: nat)
    ensures n <= |s| && AllDigits(s[..n])
    ensures n < |s| ==> !IsDigit(s[n])
  {
    if s == [] || !IsDigit(s[0]) then 0
    else
      assert s[..1 + Digits(s[1..])] == [s[0]] + s[1..][..Digits(s[1..])];
      1 + Digits(s[1..])
  }

  // /^exec(\d+):/
  function MatchExec(key: string): Option<nat> {
    if !(EXEC <= key) then None
    else
      var rest := key[|EXEC|..];
      var n := Digits(rest);
      if n > 0 && n < |rest| && rest[n] == ':' then Some(ParseDec(rest[..n])) else None
  }

  // /^<prefix>(\d+)$/
  function MatchTail(prefix: string, key: string): Option<nat> {
    if prefix <= key && key[|prefix|..] != "" && AllDigits(key[|prefix|..]) then Some(ParseDec(key[|prefix|..]))
    else None
  }

  lemma {:induction false} DigitsThen(d: string, s: string)
    requires AllDigits(d) && (s == "" || !IsDigit(s[0]))
    ensures Digits(d + s) == |d|
  {
    if d == [] {
      assert d + s == s;
    } else {
      assert (d + s)[1..] == d[1..] + s;
      DigitsThen(d[1..], s);
    }
  }

  // A key is read as work of cycle n exactly when it is "exec", digits that spell n, a
  // colon, and anything at all.
  lemma MatchExecIs(key: string, n: nat)
    ensures MatchExec(key) == Some(n) <==>
      exists d, rest :: d != "" && AllDigits(d) && ParseDec(d) == n && key == "exec" + d + ":" + rest
  {
    if MatchExec(key) == Some(n) {
      var rest := key[|EXEC|..];
      var m := Digits(rest);
      assert key == "exec" + rest[..m] + ":" + rest[m + 1..];
    }
    if d, rest :| d != "" && AllDigits(d) && ParseDec(d) == n && key == "exec" + d + ":" + rest {
      var tail := ":" + rest;
      assert key == EXEC + (d + tail);
      assert key[|EXEC|..] == d + tail;
      DigitsThen(d, tail);
      assert (d + tail)[..|d|] == d;
    }
  }

  // Any other family: the prefix, and digits that spell n to the end.
  lemma MatchTailIs(prefix: string, key: string, n: nat)
    ensures MatchTail(prefix, key) == Some(n) <==>
      exists d :: d != "" && AllDigits(d) && ParseDec(d) == n && key == prefix + d
  {
    if MatchTail(prefix, key) == Some(n) { assert key == prefix + key[|prefix|..]; }
    if d :| d != "" && AllDigits(d) && ParseDec(d) == n && key == prefix + d { assert key[|prefix|..] == d; }
  }

  lemma MatchExecOfKey(n: nat, id: string)
    ensures MatchExec(ExecPrefix(n) + id) == Some(n)
  {
    var key, tail := ExecPrefix(n) + id, ":" + id;
    assert key == EXEC + (Dec(n) + tail);
    assert key[|EXEC|..] == Dec(n) + tail;
    assert !IsDigit(tail[0]);
    DigitsThen(Dec(n), tail);
    assert (Dec(n) + tail)[..|Dec(n)|] == Dec(n);
    ParseOfDec(n);
  }

  lemma MatchTailOfKey(prefix: string, n: nat)
    ensures MatchTail(prefix, prefix + Dec(n)) == Some(n)
  {
    assert (prefix + Dec(n))[|prefix|..] == Dec(n);
    ParseOfDec(n);
  }

  predicate KeyIs(key: string, role: Role) {
    match role
    case Plan => key == PLAN
    case Implement => key == IMPLEMENT
    case Exec(n) => MatchExec(key) == Some(n)
    case Review(n) => key == ReviewKey(n)
    case Repair(n) => key == RepairKey(n)
    case Verify(n) => key == VerifyKey(n)
  }

  // The letters that tell the families apart: the first, and the seventh.
  function Letters(role: Role): (char, char) {
    match role
    case Plan => ('a', 'p')
    case Implement => ('f', 'i')
    case Exec(_) => ('e', ' ')
    case Review(_) => ('a', 'r')
    case Repair(_) => ('f', 'r')
    case Verify(_) => ('m', 'v')
  }

  lemma LettersOfKey(key: string, role: Role)
    requires KeyIs(key, role)
    ensures |key| > 6 || role.Exec?
    ensures key != "" && key[0] == Letters(role).0
    ensures !role.Exec? ==> key[6] == Letters(role).1
  {
  }

  // A key has at most one role.
  lemma {:induction false} OneRole(key: string, a: Role, b: Role)
    requires KeyIs(key, a) && KeyIs(key, b)
    ensures a == b
  {
    LettersOfKey(key, a);
    LettersOfKey(key, b);
    if a.Review? && b.Review? { SameTail(REVIEW, a.cycle, b.cycle); }
    if a.Repair? && b.Repair? { SameTail(REPAIR, a.cycle, b.cycle); }
    if a.Verify? && b.Verify? { SameTail(VERIFY, a.cycle, b.cycle); }
  }

  lemma SameTail(prefix: string, m: nat, n: nat)
    requires prefix + Dec(m) == prefix + Dec(n)
    ensures m == n
  {
    MatchTailOfKey(prefix, m);
    MatchTailOfKey(prefix, n);
  }

  // A key with a role is never a rework's.
  lemma {:induction false} NotRework(key: string, role: Role, n: nat)
    requires KeyIs(key, role)
    ensures key != ReworkKey(n)
  {
    LettersOfKey(key, role);
    assert ReworkKey(n)[0] == 'f' && ReworkKey(n)[6] == 'r' && ReworkKey(n)[8] == 'w';
    if role.Repair? { assert key[8] == 'p'; }
  }

  // ---- What the key patterns read from a key with a role -------------------

  function ProducerIndex(key: string): Option<nat> {
    if MatchTail(REPAIR, key).Some? then MatchTail(REPAIR, key) else MatchTail(REWORK, key)
  }

  lemma {:induction false} PatternsReadRole(key: string, role: Role)
    requires KeyIs(key, role)
    ensures MatchExec(key) == if role.Exec? then Some(role.cycle) else None
    ensures !role.Exec? ==> ProducerIndex(key) == if role.Repair? then Some(role.cycle) else None
    ensures !role.Exec? ==> MatchTail(REVIEW, key) == if role.Review? then Some(role.cycle) else None
    ensures key == IMPLEMENT <==> role.Implement?
  {
    LettersOfKey(key, role);
    if role.Repair? { MatchTailOfKey(REPAIR, role.cycle); }
    if role.Review? { MatchTailOfKey(REVIEW, role.cycle); }
    assert EXEC[0] == 'e';
    assert REPAIR[0] == REWORK[0] == 'f' && REPAIR[6] == REWORK[6] == 'r';
    assert REVIEW[0] == 'a' && REVIEW[6] == 'r';
  }
}
