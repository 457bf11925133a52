/** The scanner that stands in for look-behind and look-ahead around a fixed-length pattern, in the two
    rules that redact an account number: sixteen digits, and twenty-four account characters. Text is a
    sequence of runes. */
module Redact {
  import opened Support

  /** `alphabet{length}` with no `blocked` rune on either side. */
  datatype Rule = Rule(alphabet: set<char>, length: nat, blocked: set<char>, marker: string)

  const REDACTED_ACCOUNT := "[redacted:accountNumber]"

  predicate IsDigit(c: char) {
    '0' <= c <= '9'
  }

  predicate IsAsciiAlnum(c: char) {
    IsDigit(c) || 'A' <= c <= 'Z' || 'a' <= c <= 'z'
  }

  /** [0-9A-HJKMNP-TV-Z] */
  predicate IsAccountRune(c: char) {
    IsDigit(c) || 'A' <= c <= 'H' || c in "JKMN" || 'P' <= c <= 'T' || 'V' <= c <= 'Z'
  }

  const ALNUM := set c: char | IsAsciiAlnum(c)
  const SIXTEEN_DIGITS := Rule(set c: char | IsDigit(c), 16, ALNUM, REDACTED_ACCOUNT)
  const ACCOUNT_NUMBER := Rule(set c: char | IsAccountRune(c), 24, ALNUM, REDACTED_ACCOUNT)

  ghost predicate Wellformed(r: Rule) {
    r.length > 0 && r.alphabet <= r.blocked
  }

  // ---- What a rule is for ----

  /** Where the run of blocked runes at `i` ends. */
  function RunEnd(r: Rule, s: string, i: nat): (e: nat)
    requires i <= |s|
    ensures i <= e <= |s| && (forall k :: i <= k < e ==> s[k] in r.blocked)
    ensures e < |s| ==> s[e] !in r.blocked
    ensures i < |s| && s[i] in r.blocked ==> i < e
    decreases |s| - i
  {
    if i == |s| || s[i] !in r.blocked then i else RunEnd(r, s, i + 1)
  }

  /** The pattern matches at `i`, whatever stands on either side. */
  predicate MatchesAt(r: Rule, s: string, i: nat) {
    i + r.length <= |s| && forall k :: i <= k < i + r.length ==> s[k] in r.alphabet
  }

  /** What becomes of the run that starts at `i`. */
  function Piece(r: Rule, s: string, i: nat): string
    requires i <= |s|
  {
    var e := RunEnd(r, s, i);
    if e == i + r.length && MatchesAt(r, s, i) then r.marker else s[i..e]
  }

  /** The text from `i` on, where no run is under way: every maximal run of the right length and alphabet
      is replaced, and all else is kept. */
  function Redacted(r: Rule, s: string, i: nat): string
    decreases |s| - i
  {
    if i >= |s| then ""
    else if s[i] !in r.blocked then [s[i]] + Redacted(r, s, i + 1)
    else Piece(r, s, i) + Redacted(r, s, RunEnd(r, s, i))
  }

  lemma RedactedStep(r: Rule, s: string, i: nat)
    requires i < |s|
    ensures s[i] !in r.blocked ==> Redacted(r, s, i) == [s[i]] + Redacted(r, s, i + 1)
    ensures s[i] in r.blocked ==> Redacted(r, s, i) == Piece(r, s, i) + Redacted(r, s, RunEnd(r, s, i))
  {
  }

  predicate BlockedAt(r: Rule, s: string, at: nat)
    requires at <= |s|
  {
    at > 0 && s[at - 1] in r.blocked
  }

  predicate FollowsAt(r: Rule, s: string, at: nat)
    requires at <= |s|
  {
    at < |s| ==> s[at] !in r.blocked
  }

  /** A number stands readable at `i`: it matches, and nothing on either side makes it part of more. */
  ghost predicate ReadableAt(r: Rule, s: string, i: nat) {
    MatchesAt(r, s, i) && !BlockedAt(r, s, i) && FollowsAt(r, s, i + r.length)
  }

  // ---- The scanner ----

  /** The first position from `at` on that may start a match, or the end. */
  ghost function NextFree(r: Rule, s: string, at: nat): (p: nat)
    requires at <= |s|
    ensures at <= p <= |s| && (p == |s| || !BlockedAt(r, s, p))
    ensures forall i: nat :: at <= i < p ==> BlockedAt(r, s, i)
    decreases |s| - at
  {
    if at == |s| || !BlockedAt(r, s, at) then at else NextFree(r, s, at + 1)
  }

  method SkipBlocked(r: Rule, s: string, from: nat) returns (at: nat)
    requires from <= |s|
    ensures at == NextFree(r, s, from)
  {
    at := from;
    while at < |s| && BlockedAt(r, s, at)
      invariant from <= at <= |s| && NextFree(r, s, at) == NextFree(r, s, from)
    {
      at := at + 1;
    }
  }

  /** Where the pattern first matches from `at` on, as the regular expression engine answers. */
  function FindFrom(r: Rule, s: string, at: nat): (found: Option<nat>)
    requires at <= |s|
    ensures found.Some? ==> at <= found.value && MatchesAt(r, s, found.value)
    ensures forall i: nat :: at <= i <= |s| && MatchesAt(r, s, i) ==> found.Some? && found.value <= i
    decreases |s| - at
  {
    if MatchesAt(r, s, at) then Some(at)
    else if at == |s| then None
    else FindFrom(r, s, at + 1)
  }

  /** Replaces exactly the maximal runs, though a rejected match skips its whole run unread. */
  method Apply(r: Rule, s: string) returns (out: string)
    requires Wellformed(r)
    ensures out == Redacted(r, s, 0)
  {
    hide Redacted;
    assert Redacted(r, s, |s|) == "" by { NothingLeft(r, s); }
    var b: string, last: nat, at: nat, changed := "", 0, 0, false;
    while at < |s|
      invariant last <= at <= |s| && (!changed ==> b == "" && last == 0)
      invariant Progress(r, s, b, last, NextFree(r, s, at))
      decreases |s| - at
    {
      at := SkipBlocked(r, s, at);
      var found := FindFrom(r, s, at);
      if found.None? {
        RestIsKept(r, s, b, last, at);
        at := |s|;
        break;
      }
      var start, end := found.value, found.value + r.length;
      if BlockedAt(r, s, start) || !FollowsAt(r, s, end) {
        RejectedIsKept(r, s, b, last, at, start);
        at := start + 1;
        continue;
      }
      AcceptedIsReplaced(r, s, b, last, at, start);
      b := b + s[last..start] + r.marker;
      last, at, changed := end, end, true;
    }
    Finished(r, s, b, last);
    if !changed {
      return s;
    }
    out := b + s[last..];
  }

  lemma NothingLeft(r: Rule, s: string)
    ensures Redacted(r, s, |s|) == ""
  {
  }

  /** What is written so far, the text since, and the rest redacted are the redacted text. */
  ghost predicate Progress(r: Rule, s: string, b: string, last: nat, p: nat) {
    last <= p <= |s| && Redacted(r, s, 0) == b + s[last..p] + Redacted(r, s, p)
  }

  lemma Finished(r: Rule, s: string, b: string, last: nat)
    requires Progress(r, s, b, last, |s|)
    ensures Redacted(r, s, 0) == b + s[last..] && s[0..] == s
  {
    NothingLeft(r, s);
    hide Redacted;
    assert s[last..|s|] == s[last..];
  }

  ghost predicate Free(r: Rule, s: string, p: nat) {
    p <= |s| && (p == |s| || !BlockedAt(r, s, p))
  }

  /** Text in which nothing stands readable is kept as it is. */
  lemma {:induction false} CopiedUpTo(r: Rule, s: string, a: nat, p: nat)
    requires Wellformed(r) && Free(r, s, a) && Free(r, s, p) && a <= p
    requires forall i: nat :: a <= i < p ==> !ReadableAt(r, s, i)
    ensures Redacted(r, s, a) == s[a..p] + Redacted(r, s, p)
    decreases |s| - a
  {
    hide Redacted;
    if a == p {
      assert s[a..p] == "";
    } else {
      assert !ReadableAt(r, s, a);
      var q := CopiedRun(r, s, a);
      if q <= p {
        CopiedUpTo(r, s, q, p);
        assert s[a..p] == s[a..q] + s[q..p];
      }
    }
  }

  lemma Join(s: string, a: nat, e: nat, q: nat, rest: string)
    requires a <= e <= q <= |s|
    ensures s[a..e] + (s[e..q] + rest) == s[a..q] + rest
  {
    assert s[a..q] == s[a..e] + s[e..q];
  }

  lemma KeptRun(r: Rule, s: string, a: nat)
    requires Wellformed(r) && a <= |s| && !BlockedAt(r, s, a) && !ReadableAt(r, s, a)
    ensures var e := RunEnd(r, s, a); Redacted(r, s, a) == s[a..e] + Redacted(r, s, e)
  {
    var e := RunEnd(r, s, a);
    if a == e {
      assert s[a..e] == "";
    } else {
      RedactedStep(r, s, a);
      hide Redacted, RunEnd;
      assert Piece(r, s, a) == s[a..e];
    }
  }

  lemma KeptRune(r: Rule, s: string, e: nat)
    requires e < |s| && s[e] !in r.blocked
    ensures Redacted(r, s, e) == s[e..e + 1] + Redacted(r, s, e + 1)
  {
    assert s[e..e + 1] == [s[e]];
  }

  /** One rune that blocks nothing, or one whole run and the rune after it. */
  lemma CopiedRun(r: Rule, s: string, a: nat) returns (q: nat)
    requires Wellformed(r) && a < |s| && !BlockedAt(r, s, a) && !ReadableAt(r, s, a)
    ensures a < q && Free(r, s, q) && forall i: nat :: a < i < q ==> BlockedAt(r, s, i)
    ensures Redacted(r, s, a) == s[a..q] + Redacted(r, s, q)
  {
    var e := RunEnd(r, s, a);
    KeptRun(r, s, a);
    q := e;
    if e < |s| {
      q := e + 1;
      KeptRune(r, s, e);
      Join(s, a, e, q, Redacted(r, s, q));
    }
    hide Redacted, RunEnd;
  }

  lemma ReplacedAt(r: Rule, s: string, i: nat)
    requires Wellformed(r) && ReadableAt(r, s, i)
    ensures Redacted(r, s, i) == r.marker + Redacted(r, s, i + r.length)
  {
    assert s[i] in r.blocked;
    assert forall k :: i <= k < i + r.length ==> s[k] in r.blocked;
    assert RunEnd(r, s, i) == i + r.length;
  }

  lemma ProgressCopies(r: Rule, s: string, b: string, last: nat, a: nat, p: nat)
    requires Progress(r, s, b, last, a) && a <= p <= |s|
    requires Redacted(r, s, a) == s[a..p] + Redacted(r, s, p)
    ensures Progress(r, s, b, last, p)
  {
    hide Redacted;
    assert s[last..p] == s[last..a] + s[a..p];
  }

  lemma RestIsKept(r: Rule, s: string, b: string, last: nat, a: nat)
    requires Wellformed(r) && Free(r, s, a) && Progress(r, s, b, last, a)
    requires FindFrom(r, s, a).None?
    ensures Progress(r, s, b, last, |s|)
  {
    CopiedUpTo(r, s, a, |s|);
    ProgressCopies(r, s, b, last, a, |s|);
  }

  lemma RejectedIsKept(r: Rule, s: string, b: string, last: nat, a: nat, start: nat)
    requires Wellformed(r) && Free(r, s, a) && Progress(r, s, b, last, a)
    requires FindFrom(r, s, a) == Some(start) && !ReadableAt(r, s, start)
    ensures start < |s| && Progress(r, s, b, last, NextFree(r, s, start + 1))
  {
    var p := NextFree(r, s, start + 1);
    hide Redacted, Progress;
    forall i: nat | a <= i < p ensures !ReadableAt(r, s, i) {
      assert i < start ==> !MatchesAt(r, s, i);
    }
    CopiedUpTo(r, s, a, p);
    ProgressCopies(r, s, b, last, a, p);
  }

  lemma AcceptedIsReplaced(r: Rule, s: string, b: string, last: nat, a: nat, start: nat)
    requires Wellformed(r) && Free(r, s, a) && Progress(r, s, b, last, a)
    requires FindFrom(r, s, a) == Some(start) && ReadableAt(r, s, start)
    ensures var end := start + r.length;
      last <= start && Progress(r, s, b + s[last..start] + r.marker, end, NextFree(r, s, end))
  {
    hide Redacted;
    CopiedUpTo(r, s, a, start);
    ProgressCopies(r, s, b, last, a, start);
    ReplacedAt(r, s, start);
    ProgressReplaces(r, s, b, last, start, start + r.length);
    OneMore(r, s, start + r.length);
    ProgressCopies(r, s, b + s[last..start] + r.marker, start + r.length, start + r.length, NextFree(r, s, start + r.length));
  }

  lemma ProgressReplaces(r: Rule, s: string, b: string, last: nat, start: nat, end: nat)
    requires Progress(r, s, b, last, start) && start <= end <= |s|
    requires Redacted(r, s, start) == r.marker + Redacted(r, s, end)
    ensures Progress(r, s, b + s[last..start] + r.marker, end, end)
  {
    hide Redacted;
    assert s[end..end] == "";
  }

  /** After a run the scan is free again past the rune that ends it. */
  lemma OneMore(r: Rule, s: string, end: nat)
    requires end <= |s| && FollowsAt(r, s, end)
    ensures var p := NextFree(r, s, end); Redacted(r, s, end) == s[end..p] + Redacted(r, s, p)
  {
    var p := NextFree(r, s, end);
    if p > end {
      assert !BlockedAt(r, s, end + 1);
      assert s[end..p] == [s[end]];
    } else {
      assert s[end..p] == "";
    }
  }

  /** Only a readable number changes the text. */
  lemma CleanTextIsKept(r: Rule, s: string)
    requires Wellformed(r) && forall i: nat :: i < |s| ==> !ReadableAt(r, s, i)
    ensures Redacted(r, s, 0) == s
  {
    CopiedUpTo(r, s, 0, |s|);
    NothingLeft(r, s);
    assert s[0..|s|] == s;
  }

  // ---- Redacting twice ----

  /** A marker that no neighbour can join to a run, and that redacts to itself. */
  ghost predicate Inert(r: Rule) {
    r.marker != "" && r.marker[0] !in r.blocked && r.marker[|r.marker| - 1] !in r.blocked && Redacted(r, r.marker, 0) == r.marker
  }

  lemma {:induction false} Shifted(r: Rule, a: string, b: string, j: nat)
    requires j <= |b|
    ensures Redacted(r, a + b, |a| + j) == Redacted(r, b, j)
    decreases |b| - j
  {
    hide Redacted, RunEnd;
    if j < |b| {
      ShiftedStep(r, a, b, j);
      Shifted(r, a, b, if b[j] in r.blocked then RunEnd(r, b, j) else j + 1);
    } else {
      NothingLeft(r, a + b);
      NothingLeft(r, b);
    }
  }

  lemma ShiftedStep(r: Rule, a: string, b: string, j: nat)
    requires j < |b|
    ensures var k := if b[j] in r.blocked then RunEnd(r, b, j) else j + 1;
      Redacted(r, a + b, |a| + k) == Redacted(r, b, k) ==> Redacted(r, a + b, |a| + j) == Redacted(r, b, j)
  {
    hide Redacted, RunEnd, Piece;
    var u := a + b;
    assert u[|a| + j] == b[j];
    RedactedStep(r, u, |a| + j);
    RedactedStep(r, b, j);
    ShiftedRun(r, a, b, j);
  }

  lemma ShiftedRun(r: Rule, a: string, b: string, j: nat)
    requires j < |b|
    ensures RunEnd(r, a + b, |a| + j) == |a| + RunEnd(r, b, j)
    ensures Piece(r, a + b, |a| + j) == Piece(r, b, j)
  {
    var u := a + b;
    assert forall k :: 0 <= k < |b| ==> u[|a| + k] == b[k];
    assert forall k :: |a| <= k < |u| ==> u[k] == b[k - |a|];
    var e := RunEnd(r, b, j);
    assert RunEnd(r, u, |a| + j) == |a| + e;
    assert u[|a| + j..|a| + e] == b[j..e];
  }

  /** Text cut beside a rune that blocks nothing can be redacted piece by piece. */
  lemma {:induction false} RedactedInPieces(r: Rule, a: string, b: string, i: nat)
    requires a == "" || b == "" || a[|a| - 1] !in r.blocked || b[0] !in r.blocked
    requires i <= |a|
    ensures Redacted(r, a + b, i) == Redacted(r, a, i) + Redacted(r, b, 0)
    decreases |a| - i
  {
    if i == |a| {
      Shifted(r, a, b, 0);
      NothingLeft(r, a);
    } else {
      assert (a + b)[i] == a[i];
      SamePiece(r, a, b, i);
      RedactedStep(r, a + b, i);
      RedactedStep(r, a, i);
      RedactedInPieces(r, a, b, if a[i] in r.blocked then RunEnd(r, a, i) else i + 1);
      Assoc([a[i]], Redacted(r, a, i + 1), Redacted(r, b, 0));
      Assoc(Piece(r, a, i), Redacted(r, a, RunEnd(r, a, i)), Redacted(r, b, 0));
      hide Redacted, RunEnd, Piece;
    }
  }

  lemma Assoc(x: string, y: string, z: string)
    ensures x + (y + z) == (x + y) + z
  {
  }

  lemma SamePiece(r: Rule, a: string, b: string, i: nat)
    requires b == "" || a == "" || a[|a| - 1] !in r.blocked || b[0] !in r.blocked
    requires i < |a|
    ensures RunEnd(r, a + b, i) == RunEnd(r, a, i) && Piece(r, a + b, i) == Piece(r, a, i)
  {
    var u := a + b;
    assert forall k :: 0 <= k < |a| ==> u[k] == a[k];
    assert b != "" ==> u[|a|] == b[0];
    var e := RunEnd(r, a, i);
    assert RunEnd(r, u, i) == e;
    assert u[i..e] == a[i..e];
  }

  /** Redacting keeps a first rune that blocks nothing. */
  lemma StartsFree(r: Rule, s: string, i: nat)
    requires i <= |s| && FollowsAt(r, s, i)
    ensures Redacted(r, s, i) == "" || Redacted(r, s, i)[0] !in r.blocked
  {
  }

  /** A run that is not replaced redacts to itself. */
  lemma RunAlone(r: Rule, s: string, i: nat)
    requires i < |s| && s[i] in r.blocked
    ensures Inert(r) ==> Redacted(r, Piece(r, s, i), 0) == Piece(r, s, i)
  {
    var e := RunEnd(r, s, i);
    var t := s[i..e];
    assert forall k :: 0 <= k < |t| ==> t[k] == s[i + k];
    assert RunEnd(r, t, 0) == |t|;
    if MatchesAt(r, t, 0) && |t| == r.length {
      assert MatchesAt(r, s, i) by { assert forall k :: i <= k < e ==> s[k] == t[k - i]; }
    }
    assert Redacted(r, t, |t|) == "";
  }

  lemma {:induction false} RedactedTwice(r: Rule, s: string, i: nat)
    requires Wellformed(r) && Inert(r)
    ensures var out := Redacted(r, s, i); Redacted(r, out, 0) == out
    decreases |s| - i
  {
    if i < |s| {
      if s[i] !in r.blocked {
        RedactedTwice(r, s, i + 1);
        RedactedInPieces(r, [s[i]], Redacted(r, s, i + 1), 0);
        assert Redacted(r, [s[i]], 0) == [s[i]] + Redacted(r, [s[i]], 1);
      } else {
        var e := RunEnd(r, s, i);
        RedactedTwice(r, s, e);
        StartsFree(r, s, e);
        RunAlone(r, s, i);
        RedactedInPieces(r, Piece(r, s, i), Redacted(r, s, e), 0);
      }
    }
  }

  /** Text that redacting leaves alone has no readable number. */
  lemma {:induction false} FixedTextIsClean(r: Rule, s: string, i: nat, at: nat)
    requires Wellformed(r) && Inert(r) && i <= |s| && Redacted(r, s, i) == s[i..]
    requires i <= at
    ensures !ReadableAt(r, s, at)
    decreases |s| - i
  {
    if ReadableAt(r, s, at) {
      var n := FixedHead(r, s, i, at);
      FixedTextIsClean(r, s, n, at);
    }
  }

  /** A run in text that redacting leaves alone is no number. */
  lemma PieceIsKept(r: Rule, s: string, i: nat)
    requires Inert(r) && i < |s| && s[i] in r.blocked
    requires Piece(r, s, i) + Redacted(r, s, RunEnd(r, s, i)) == s[i..]
    ensures Piece(r, s, i) == s[i..RunEnd(r, s, i)]
  {
    hide Redacted, RunEnd;
    assert s[i..][0] == s[i] && s[i] != r.marker[0];
  }

  lemma FixedHead(r: Rule, s: string, i: nat, at: nat) returns (n: nat)
    requires Wellformed(r) && Inert(r) && i <= at && ReadableAt(r, s, at) && Redacted(r, s, i) == s[i..]
    ensures i < n <= at && Redacted(r, s, n) == s[n..]
  {
    hide Redacted, RunEnd;
    RedactedStep(r, s, i);
    assert s[at] in r.blocked;
    assert s[i..][0] == s[i];
    if s[i] !in r.blocked {
      n := i + 1;
      assert s[i..][1..] == s[n..];
    } else {
      n := RunEnd(r, s, i);
      assert s[i..] == s[i..n] + s[n..];
      PieceIsKept(r, s, i);
      assert forall k :: at <= k < at + r.length ==> s[k] in r.blocked;
    }
  }

  // ---- The two rules ----

  lemma MarkerIsInert(r: Rule)
    requires Wellformed(r) && r.marker == REDACTED_ACCOUNT
    requires '[' !in r.blocked && ']' !in r.blocked && ':' !in r.blocked && r.length > 14
    ensures Inert(r)
  {
    var m := r.marker;
    assert |m| == 24 && m[0] == '[' && m[9] == ':' && m[23] == ']';
    forall i: nat | i < |m| ensures !ReadableAt(r, m, i) {
      assert MatchesAt(r, m, i) ==> i <= 9 < i + r.length;
    }
    CopiedUpTo(r, m, 0, |m|);
    NothingLeft(r, m);
    assert m[0..|m|] == m;
  }

  lemma RulesAreSound()
    ensures Wellformed(SIXTEEN_DIGITS) && Inert(SIXTEEN_DIGITS)
    ensures Wellformed(ACCOUNT_NUMBER) && Inert(ACCOUNT_NUMBER)
  {
    hide Inert;
    MarkerIsInert(SIXTEEN_DIGITS);
    MarkerIsInert(ACCOUNT_NUMBER);
  }

  /** Either account rule changes nothing the second time, and leaves no number of its kind readable. */
  lemma AccountRulesAreIdempotent(r: Rule, s: string, at: nat)
    requires r == SIXTEEN_DIGITS || r == ACCOUNT_NUMBER
    ensures var out := Redacted(r, s, 0); Redacted(r, out, 0) == out && !ReadableAt(r, out, at)
  {
    RulesAreSound();
    RedactedTwice(r, s, 0);
    var out := Redacted(r, s, 0);
    assert out[0..] == out;
    FixedTextIsClean(r, out, 0, at);
  }

  /** The two rules: sixteen digits, and twenty-four of the digits and capitals that are not easily
      mistaken for another; either with no ASCII letter or digit on either side. */
  lemma AccountRulesAre(c: char)
    ensures c in SIXTEEN_DIGITS.alphabet <==> c in "0123456789"
    ensures c in ACCOUNT_NUMBER.alphabet <==> c in "0123456789" || ('A' <= c <= 'Z' && c !in "ILOU")
    ensures c in SIXTEEN_DIGITS.blocked <==> c in "0123456789" || 'A' <= c <= 'Z' || 'a' <= c <= 'z'
    ensures ACCOUNT_NUMBER.blocked == SIXTEEN_DIGITS.blocked
    ensures SIXTEEN_DIGITS.length == 16 && ACCOUNT_NUMBER.length == 24
    ensures SIXTEEN_DIGITS.marker == ACCOUNT_NUMBER.marker == "[redacted:accountNumber]"
  {
    var digits := "0123456789";
    assert IsDigit(c) <==> c in digits by {
      if IsDigit(c) {
        assert digits[c as int - '0' as int] == c;
      }
    }
    if 'I' < c <= 'N' {
      assert "JKMN"[if c == 'J' then 0 else if c == 'K' then 1 else if c == 'M' then 2 else 3] == c || c == 'L';
    }
    assert "ILOU"[0] == 'I' && "ILOU"[1] == 'L' && "ILOU"[2] == 'O' && "ILOU"[3] == 'U';
  }
}
