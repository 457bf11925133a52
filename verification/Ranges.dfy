/** Excluded IPv4 ranges: the parser of what the user typed, and the printer of what was stored. An
    address is a number below 2^32, so shifting in an octet is times 256 plus the octet. */
module Ranges {
  import opened Support

  const MAX_ENTRIES := 32
  const MIN_PREFIX := 8
  const ADDRESSES := 0x1_0000_0000

  datatype Entry = Range(value: string) | NotIPv4 | PrefixTooShort

  /** A checked token: a network and its prefix length, or why it was refused. */
  datatype Parsed = Network(base: nat, bits: nat) | Refused(entry: Entry)

  datatype RangesError = RangesError(notIPv4: seq<string>, prefixTooShort: seq<string>, tooMany: bool)

  /** Unicode as the platform knows it: digits of other scripts fold to ASCII ones, and white space. */
  datatype Unicode = Unicode(fold: char -> char, isSpace: char -> bool)

  predicate IsDigit(c: char) {
    '0' <= c <= '9'
  }

  predicate InAddress(c: char) {
    IsDigit(c) || c == '.' || c == '/'
  }

  ghost predicate Sane(u: Unicode) {
    (forall c :: InAddress(c) ==> u.fold(c) == c && !u.isSpace(c)) && u.isSpace(' ')
  }

  // ---- Text ----

  function Fold(u: Unicode, s: string): (r: string)
    ensures |r| == |s| && forall i :: 0 <= i < |s| ==> r[i] == u.fold(s[i])
  {
    if s == "" then "" else [u.fold(s[0])] + Fold(u, s[1..])
  }

  /** The parts between separators, empty ones included. */
  function Split(s: string, sep: char): (parts: seq<string>)
    ensures parts != []
  {
    if s == "" then [""]
    else
      var rest := Split(s[1..], sep);
      if s[0] == sep then [""] + rest else [[s[0]] + rest[0]] + rest[1..]
  }

  function Join(parts: seq<string>, sep: string): string {
    if parts == [] then ""
    else if |parts| == 1 then parts[0]
    else parts[0] + sep + Join(parts[1..], sep)
  }

  /** Commas of other keyboards: Arabic, full-width and ideographic. */
  predicate IsSeparator(u: Unicode, c: char) {
    u.isSpace(c) || c in {',', ';', '\U{060C}', '\U{FF0C}', '\U{3001}'}
  }

  /** The parts between separators, empty ones left out; `word` is the part under way. */
  function TokensFrom(u: Unicode, word: string, s: string): seq<string>
    decreases |s|
  {
    if s == "" then if word == "" then [] else [word]
    else if IsSeparator(u, s[0]) then (if word == "" then [] else [word]) + TokensFrom(u, "", s[1..])
    else TokensFrom(u, word + [s[0]], s[1..])
  }

  function Tokens(u: Unicode, text: string): seq<string> {
    TokensFrom(u, "", text)
  }

  function Digits(n: nat): (s: string)
    ensures s != "" && forall i :: 0 <= i < |s| ==> IsDigit(s[i])
  {
    if n < 10 then [DigitChar(n)] else Digits(n / 10) + [DigitChar(n % 10)]
  }

  function DigitOf(c: char): nat
    requires IsDigit(c)
  {
    c as int - '0' as int
  }

  function DigitChar(d: nat): (c: char)
    requires d < 10
    ensures IsDigit(c) && DigitOf(c) == d
    ensures c == '0' <==> d == 0
  {
    ('0' as int + d) as char
  }

  function ValueOf(s: string): nat
    requires forall i :: 0 <= i < |s| ==> IsDigit(s[i])
  {
    if s == "" then 0 else 10 * ValueOf(s[..|s| - 1]) + DigitOf(s[|s| - 1])
  }

  /** Leading zeros are refused. */
  function Number(s: string, maxDigits: nat): Option<nat> {
    if s == "" || |s| > maxDigits || !(forall i :: 0 <= i < |s| ==> IsDigit(s[i])) || (s != "0" && s[0] == '0') then None
    else Some(ValueOf(s))
  }

  // ---- Addresses ----

  function Address(text: string): (r: Option<nat>)
    ensures r.Some? ==> r.value < ADDRESSES
  {
    var octets := Split(text, '.');
    if |octets| != 4 then None
    else
      var a, b, c, d := Number(octets[0], 3), Number(octets[1], 3), Number(octets[2], 3), Number(octets[3], 3);
      if a.None? || b.None? || c.None? || d.None? then None
      else if a.value > 255 || b.value > 255 || c.value > 255 || d.value > 255 then None
      else Some(((a.value * 256 + b.value) * 256 + c.value) * 256 + d.value)
  }

  function Octets(v: nat): (octets: (nat, nat, nat, nat))
    requires v < ADDRESSES
    ensures octets.0 < 256 && octets.1 < 256 && octets.2 < 256 && octets.3 < 256
    ensures ((octets.0 * 256 + octets.1) * 256 + octets.2) * 256 + octets.3 == v
  {
    var high := v / 256;
    var higher := high / 256;
    (higher / 256, higher % 256, high % 256, v % 256)
  }

  function Dotted(v: nat): string
    requires v < ADDRESSES
  {
    var o := Octets(v);
    Join([Digits(o.0), Digits(o.1), Digits(o.2), Digits(o.3)], ".")
  }

  /** The lowest `k` bits cleared. */
  function ClearLow(v: nat, k: nat): (r: nat)
    ensures r <= v
    decreases k
  {
    if k == 0 then v else 2 * ClearLow(v / 2, k - 1)
  }

  /** Bit `i` of `v`. */
  function Bit(v: nat, i: nat): bool
    decreases i
  {
    if i == 0 then v % 2 == 1 else Bit(v / 2, i - 1)
  }

  function ParsedToken(u: Unicode, token: string): (p: Parsed)
    ensures p.Network? ==> p.base < ADDRESSES && MIN_PREFIX <= p.bits <= 32
    ensures p.Refused? ==> !p.entry.Range?
  {
    var parts := Split(Fold(u, token), '/');
    var base := Address(parts[0]);
    if |parts| > 2 || base.None? then Refused(NotIPv4)
    else
      var bits := if |parts| == 2 then Number(parts[1], 2) else Some(32);
      if bits.None? || bits.value > 32 then Refused(NotIPv4)
      else if bits.value < MIN_PREFIX then Refused(PrefixTooShort)
      else Network(ClearLow(base.value, 32 - bits.value), bits.value)
  }

  function Shown(base: nat, bits: nat): string
    requires base < ADDRESSES
  {
    Dotted(base) + "/" + Digits(bits)
  }

  function Normalize(u: Unicode, token: string): Entry {
    var p := ParsedToken(u, token);
    match p
    case Network(base, bits) => Range(Shown(base, bits))
    case Refused(entry) => entry
  }

  // ---- The list ----

  function Unique(items: seq<string>): (r: seq<string>)
    ensures Distinct(r) && forall x :: x in r <==> x in items
  {
    if items == [] then []
    else
      var before, last := items[..|items| - 1], items[|items| - 1];
      assert items == before + [last];
      var r := Unique(before);
      if last in r then r else r + [last]
  }

  function Values(u: Unicode, tokens: seq<string>): seq<string> {
    if tokens == [] then []
    else
      var entry := Normalize(u, tokens[0]);
      (if entry.Range? then [entry.value] else []) + Values(u, tokens[1..])
  }

  function RefusedAs(u: Unicode, tokens: seq<string>, entry: Entry): seq<string> {
    if tokens == [] then []
    else (if Normalize(u, tokens[0]) == entry then [tokens[0]] else []) + RefusedAs(u, tokens[1..], entry)
  }

  function Parse(u: Unicode, text: string): Result<seq<string>, RangesError> {
    var tokens := Tokens(u, text);
    var ranges := Unique(Values(u, tokens));
    var error := RangesError(
      Unique(RefusedAs(u, tokens, NotIPv4)), Unique(RefusedAs(u, tokens, PrefixTooShort)), |ranges| > MAX_ENTRIES);
    if error.notIPv4 == [] && error.prefixTooShort == [] && !error.tooMany then Ok(ranges) else Err(error)
  }

  function Text(ranges: seq<string>): string {
    Join(ranges, ", ")
  }

  // ---- Printing an address and reading it back ----

  lemma {:induction false} DigitsRead(n: nat, k: nat)
    requires 0 < k <= 3 && (n < 10 || (k >= 2 && n < 100) || (k == 3 && n < 1000))
    ensures Number(Digits(n), k) == Some(n)
  {
    if n >= 10 {
      var head := Digits(n / 10);
      DigitsRead(n / 10, k - 1);
      ReadAppend(head, DigitChar(n % 10), k - 1);
    } else {
      var s := Digits(n);
      assert s[..0] == "" && ValueOf(s) == DigitOf(s[0]);
    }
  }

  lemma ReadAppend(head: string, c: char, k: nat)
    requires Number(head, k).Some? && head != "0" && IsDigit(c)
    ensures Number(head + [c], k + 1) == Some(10 * Number(head, k).value + DigitOf(c))
  {
    var s := head + [c];
    assert s[..|s| - 1] == head && s[0] == head[0] && s[|s| - 1] == c;
    assert forall i :: 0 <= i < |s| ==> s[i] == if i < |head| then head[i] else c;
  }

  predicate Free(s: string, sep: char) {
    sep !in s
  }

  lemma {:induction false} SplitOne(s: string, sep: char)
    requires Free(s, sep)
    ensures Split(s, sep) == [s]
    decreases |s|
  {
    if s != "" {
      assert s == [s[0]] + s[1..];
      SplitOne(s[1..], sep);
    }
  }

  lemma {:induction false} SplitFirst(a: string, sep: char, rest: string)
    requires Free(a, sep)
    ensures Split(a + [sep] + rest, sep) == [a] + Split(rest, sep)
    decreases |a|
  {
    var s := a + [sep] + rest;
    if a == "" {
      assert s[1..] == rest;
    } else {
      assert s[1..] == a[1..] + [sep] + rest && s[0] == a[0];
      assert a == [a[0]] + a[1..];
      SplitFirst(a[1..], sep, rest);
    }
  }

  lemma DigitsAreFree(n: nat, sep: char)
    requires !IsDigit(sep)
    ensures Free(Digits(n), sep)
  {
  }

  lemma FourParts(a: string, b: string, c: string, d: string)
    requires Free(a, '.') && Free(b, '.') && Free(c, '.') && Free(d, '.')
    ensures Split(Join([a, b, c, d], "."), '.') == [a, b, c, d]
  {
    JoinFour(a, b, c, d);
    SplitFirst(a, '.', b + "." + (c + "." + d));
    SplitFirst(b, '.', c + "." + d);
    SplitFirst(c, '.', d);
    SplitOne(d, '.');
  }

  lemma JoinFour(a: string, b: string, c: string, d: string)
    ensures Join([a, b, c, d], ".") == a + "." + (b + "." + (c + "." + d))
  {
    assert [a, b, c, d][1..] == [b, c, d] && [b, c, d][1..] == [c, d] && [c, d][1..] == [d];
    assert Join([c, d], ".") == c + "." + d;
    assert Join([b, c, d], ".") == b + "." + (c + "." + d);
  }

  /** Every address is read back from its dotted form. */
  lemma AddressOfDotted(v: nat)
    requires v < ADDRESSES
    ensures Address(Dotted(v)) == Some(v)
  {
    var o := Octets(v);
    DigitsRead(o.0, 3);
    DigitsRead(o.1, 3);
    DigitsRead(o.2, 3);
    DigitsRead(o.3, 3);
    DigitsAreFree(o.0, '.');
    DigitsAreFree(o.1, '.');
    DigitsAreFree(o.2, '.');
    DigitsAreFree(o.3, '.');
    FourParts(Digits(o.0), Digits(o.1), Digits(o.2), Digits(o.3));
    hide Digits, Octets, Split, Join, Number;
  }

  // ---- Host bits ----

  /** Exactly the host bits are cleared. */
  lemma {:induction false} HostBitsAreCleared(v: nat, k: nat, i: nat)
    ensures Bit(ClearLow(v, k), i) == if i < k then false else Bit(v, i)
    decreases k
  {
    if k > 0 {
      var low := ClearLow(v / 2, k - 1);
      assert ClearLow(v, k) / 2 == low && ClearLow(v, k) % 2 == 0;
      if i > 0 {
        HostBitsAreCleared(v / 2, k - 1, i - 1);
      }
    }
  }

  lemma {:induction false} ClearedStaysCleared(v: nat, k: nat)
    ensures ClearLow(ClearLow(v, k), k) == ClearLow(v, k)
    decreases k
  {
    if k > 0 {
      ClearedStaysCleared(v / 2, k - 1);
      assert 2 * ClearLow(v / 2, k - 1) / 2 == ClearLow(v / 2, k - 1);
    }
  }

  // ---- Reading a printed range ----

  predicate Plain(s: string) {
    forall i :: 0 <= i < |s| ==> InAddress(s[i])
  }

  lemma {:induction false} FoldIsPlain(u: Unicode, s: string)
    requires Sane(u) && Plain(s)
    ensures Fold(u, s) == s
    decreases |s|
  {
    if s != "" {
      FoldIsPlain(u, s[1..]);
      assert s == [s[0]] + s[1..];
    }
  }

  lemma DottedIsPlain(v: nat)
    requires v < ADDRESSES
    ensures Plain(Dotted(v)) && Free(Dotted(v), '/')
  {
    var o := Octets(v);
    JoinFour(Digits(o.0), Digits(o.1), Digits(o.2), Digits(o.3));
    PlainJoin(Digits(o.0), ".", Digits(o.1) + "." + (Digits(o.2) + "." + Digits(o.3)));
    PlainJoin(Digits(o.1), ".", Digits(o.2) + "." + Digits(o.3));
    PlainJoin(Digits(o.2), ".", Digits(o.3));
    hide Digits, Octets, Join;
  }

  /** Without a slash, and made of address characters. */
  predicate Dots(s: string) {
    forall i :: 0 <= i < |s| ==> IsDigit(s[i]) || s[i] == '.'
  }

  lemma PlainJoin(a: string, dot: string, b: string)
    requires Dots(a) && Dots(dot)
    ensures Dots(b) ==> Dots(a + dot + b) && Plain(a + dot + b) && Free(a + dot + b, '/')
  {
  }

  /** What the printer shows of a network, the parser reads back as that network. */
  lemma ShownIsRead(u: Unicode, base: nat, bits: nat)
    requires Sane(u) && base < ADDRESSES && MIN_PREFIX <= bits <= 32 && ClearLow(base, 32 - bits) == base
    ensures ParsedToken(u, Shown(base, bits)) == Network(base, bits)
    ensures Plain(Shown(base, bits)) && Shown(base, bits) != ""
  {
    var s := Shown(base, bits);
    DottedIsPlain(base);
    DigitsRead(bits, 2);
    AddressOfDotted(base);
    DigitsAreFree(bits, '/');
    PlainPair(Dotted(base), Digits(bits));
    FoldIsPlain(u, s);
    SplitFirst(Dotted(base), '/', Digits(bits));
    SplitOne(Digits(bits), '/');
    hide Digits, Dotted, Split, Fold, Number, Address, ClearLow, Plain;
  }

  lemma PlainPair(a: string, b: string)
    requires Plain(a) && forall i :: 0 <= i < |b| ==> IsDigit(b[i])
    ensures Plain(a + "/" + b)
  {
  }

  /** A normalized range normalizes to itself. */
  lemma NormalizeIsIdempotent(u: Unicode, token: string)
    requires Sane(u) && Normalize(u, token).Range?
    ensures var r := Normalize(u, token).value; Normalize(u, r) == Range(r) && Plain(r) && r != ""
  {
    var p := ParsedToken(u, token);
    NetworkIsCleared(u, token);
    ShownIsRead(u, p.base, p.bits);
    hide ParsedToken, Shown;
  }

  lemma NetworkIsCleared(u: Unicode, token: string)
    requires ParsedToken(u, token).Network?
    ensures var p := ParsedToken(u, token); ClearLow(p.base, 32 - p.bits) == p.base
  {
    var address := Address(Split(Fold(u, token), '/')[0]).value;
    var p := ParsedToken(u, token);
    ClearedStaysCleared(address, 32 - p.bits);
    hide Split, Fold, Address, ClearLow, Number;
  }

  // ---- Reading a printed list ----

  lemma {:induction false} TokenIsTaken(u: Unicode, word: string, t: string, rest: string)
    requires Sane(u) && Plain(t)
    ensures TokensFrom(u, word, t + rest) == TokensFrom(u, word + t, rest)
    decreases |t|
  {
    if t == "" {
      assert t + rest == rest && word + t == word;
    } else {
      assert (t + rest)[1..] == t[1..] + rest && (t + rest)[0] == t[0];
      assert word + t == word + [t[0]] + t[1..];
      TokenIsTaken(u, word + [t[0]], t[1..], rest);
    }
  }

  ghost predicate Ranges(ranges: seq<string>) {
    forall i :: 0 <= i < |ranges| ==> Plain(ranges[i]) && ranges[i] != ""
  }

  lemma {:induction false} TextIsRead(u: Unicode, ranges: seq<string>)
    requires Sane(u) && Ranges(ranges)
    ensures Tokens(u, Text(ranges)) == ranges
    decreases |ranges|
  {
    if ranges != [] {
      var r := ranges[0];
      if |ranges| == 1 {
        TokenIsTaken(u, "", r, "");
        assert r + "" == r && "" + r == r;
      } else {
        var rest := Text(ranges[1..]);
        TextIsRead(u, ranges[1..]);
        assert r + ", " + rest == r + (", " + rest);
        TokenIsTaken(u, "", r, ", " + rest);
        assert "" + r == r;
        AfterComma(u, r, rest);
        assert ranges == [r] + ranges[1..];
      }
    }
  }

  lemma AfterComma(u: Unicode, r: string, rest: string)
    requires Sane(u) && r != ""
    ensures TokensFrom(u, r, ", " + rest) == [r] + TokensFrom(u, "", rest)
  {
    assert (", " + rest)[1..] == " " + rest && (" " + rest)[1..] == rest;
  }

  ghost predicate Normalized(u: Unicode, ranges: seq<string>) {
    forall i :: 0 <= i < |ranges| ==> Normalize(u, ranges[i]) == Range(ranges[i])
  }

  lemma {:induction false} ValuesOfRanges(u: Unicode, ranges: seq<string>)
    requires Normalized(u, ranges)
    ensures Values(u, ranges) == ranges
    decreases |ranges|
  {
    hide Normalize;
    if ranges != [] {
      ValuesOfRanges(u, ranges[1..]);
      assert Normalize(u, ranges[0]) == Range(ranges[0]);
      assert ranges == [ranges[0]] + ranges[1..];
    }
  }

  lemma {:induction false} NoneRefused(u: Unicode, ranges: seq<string>, entry: Entry)
    requires Normalized(u, ranges) && !entry.Range?
    ensures RefusedAs(u, ranges, entry) == []
    decreases |ranges|
  {
    hide Normalize;
    if ranges != [] {
      NoneRefused(u, ranges[1..], entry);
      assert Normalize(u, ranges[0]) == Range(ranges[0]);
    }
  }

  lemma {:induction false} UniqueOfDistinct(items: seq<string>)
    requires Distinct(items)
    ensures Unique(items) == items
    decreases |items|
  {
    if items != [] {
      UniqueOfDistinct(items[..|items| - 1]);
    }
  }

  lemma {:induction false} ValuesAreNormalized(u: Unicode, tokens: seq<string>, x: string)
    requires Sane(u) && x in Values(u, tokens)
    ensures Normalize(u, x) == Range(x) && Plain(x) && x != ""
    decreases |tokens|
  {
    if Normalize(u, tokens[0]) == Range(x) {
      NormalizeIsIdempotent(u, tokens[0]);
    } else {
      ValuesAreNormalized(u, tokens[1..], x);
    }
  }

  /** Whatever list the parser accepts, it reads back from its own text. */
  lemma AcceptedListRoundTrips(u: Unicode, text: string)
    requires Sane(u) && Parse(u, text).Ok?
    ensures var r := Parse(u, text).value; Parse(u, Text(r)) == Ok(r) && Distinct(r) && |r| <= MAX_ENTRIES
  {
    var tokens := Tokens(u, text);
    var r := Parse(u, text).value;
    forall i | 0 <= i < |r| ensures Normalize(u, r[i]) == Range(r[i]) && Plain(r[i]) && r[i] != "" {
      ValuesAreNormalized(u, tokens, r[i]);
    }
    TextIsRead(u, r);
    ValuesOfRanges(u, r);
    NoneRefused(u, r, NotIPv4);
    NoneRefused(u, r, PrefixTooShort);
    UniqueOfDistinct(r);
    hide Tokens, Values, RefusedAs, Text, Normalize;
  }

  /** A list is refused exactly when some token is, or more than 32 different ranges are left. */
  lemma RefusedExactlyWhen(u: Unicode, text: string)
    ensures Parse(u, text).Ok? <==>
      (forall t :: t in Tokens(u, text) ==> Normalize(u, t).Range?) && |Unique(Values(u, Tokens(u, text)))| <= MAX_ENTRIES
  {
    var tokens := Tokens(u, text);
    RefusedMembers(u, tokens, NotIPv4);
    RefusedMembers(u, tokens, PrefixTooShort);
    forall t | t in tokens && !Normalize(u, t).Range?
      ensures t in Unique(RefusedAs(u, tokens, NotIPv4)) || t in Unique(RefusedAs(u, tokens, PrefixTooShort))
    {
    }
    if Parse(u, text).Err? && |Unique(Values(u, tokens))| <= MAX_ENTRIES {
      var refused := Unique(RefusedAs(u, tokens, NotIPv4)) + Unique(RefusedAs(u, tokens, PrefixTooShort));
      assert refused[0] in refused && refused[0] in tokens;
    }
  }

  lemma {:induction false} RefusedMembers(u: Unicode, tokens: seq<string>, entry: Entry)
    ensures forall t :: t in RefusedAs(u, tokens, entry) <==> t in tokens && Normalize(u, t) == entry
    decreases |tokens|
  {
    if tokens != [] {
      RefusedMembers(u, tokens[1..], entry);
      assert tokens == [tokens[0]] + tokens[1..];
    }
  }

  // ---- Exactly what is read ----

  lemma {:induction false} NumberIsPrinted(s: string, k: nat)
    requires Number(s, k).Some?
    ensures s == Digits(Number(s, k).value)
    decreases |s|
  {
    var head, c := s[..|s| - 1], s[|s| - 1];
    var n := Number(s, k).value;
    if |s| == 1 {
      assert ValueOf(s[..0]) == 0 && n == DigitOf(c);
      assert s == [DigitChar(n)];
    } else {
      assert head[0] == s[0];
      assert Number(head, k) == Some(ValueOf(head));
      NumberIsPrinted(head, k);
      LeadingDigitCounts(head);
      assert n / 10 == ValueOf(head) && n % 10 == DigitOf(c);
      assert s == head + [c];
    }
  }

  lemma {:induction false} LeadingDigitCounts(s: string)
    requires s != "" && s[0] != '0' && forall i :: 0 <= i < |s| ==> IsDigit(s[i])
    ensures ValueOf(s) > 0
    decreases |s|
  {
    if |s| > 1 {
      LeadingDigitCounts(s[..|s| - 1]);
    }
  }

  lemma {:induction false} SplitJoins(s: string, sep: char)
    ensures Join(Split(s, sep), [sep]) == s
    decreases |s|
  {
    if s != "" {
      var rest := Split(s[1..], sep);
      SplitJoins(s[1..], sep);
      assert s == [s[0]] + s[1..];
      if s[0] == sep {
        assert ([""] + rest)[1..] == rest;
      } else {
        assert ([[s[0]] + rest[0]] + rest[1..])[1..] == rest[1..];
      }
    }
  }

  lemma OctetsAre(a: nat, b: nat, c: nat, d: nat)
    requires a < 256 && b < 256 && c < 256 && d < 256
    ensures ((a * 256 + b) * 256 + c) * 256 + d < ADDRESSES
    ensures Octets(((a * 256 + b) * 256 + c) * 256 + d) == (a, b, c, d)
  {
  }

  /** An address is read from its dotted form and from no other text: four decimal octets of at most 255
      without leading zeros. */
  lemma AddressIsDotted(text: string, v: nat)
    ensures Address(text) == Some(v) <==> v < ADDRESSES && text == Dotted(v)
  {
    if v < ADDRESSES && text == Dotted(v) {
      AddressOfDotted(v);
    }
    if Address(text) == Some(v) {
      var o := Split(text, '.');
      var a, b, c, d := Number(o[0], 3), Number(o[1], 3), Number(o[2], 3), Number(o[3], 3);
      NumberIsPrinted(o[0], 3);
      NumberIsPrinted(o[1], 3);
      NumberIsPrinted(o[2], 3);
      NumberIsPrinted(o[3], 3);
      SplitJoins(text, '.');
      assert o == [o[0], o[1], o[2], o[3]];
      OctetsAre(a.value, b.value, c.value, d.value);
      hide Digits, Number, Split, Join, Octets;
    }
  }

  lemma SlashParts(text: string)
    ensures var parts := Split(text, '/');
      && (|parts| == 1 ==> parts[0] == text)
      && (|parts| == 2 ==> text == parts[0] + "/" + parts[1])
  {
    var parts := Split(text, '/');
    SplitJoins(text, '/');
    if |parts| == 1 {
      assert parts == [parts[0]];
    } else if |parts| == 2 {
      assert parts == [parts[0], parts[1]] && parts[1..] == [parts[1]];
    }
  }

  /** A token names a network exactly when it is an address, or an address, a slash and a length from 8 to
      32; the network is the address with its host bits cleared. A shorter length is told apart from
      everything else that is no network. */
  lemma TokenIsRead(u: Unicode, token: string, v: nat, bits: nat)
    requires v < ADDRESSES
    ensures Fold(u, token) == Dotted(v) ==> ParsedToken(u, token) == Network(v, 32)
    ensures Fold(u, token) == Dotted(v) + "/" + Digits(bits) ==>
      ParsedToken(u, token) ==
        if 8 <= bits <= 32 then Network(ClearLow(v, 32 - bits), bits)
        else if bits < 8 then Refused(PrefixTooShort)
        else Refused(NotIPv4)
  {
    DottedIsPlain(v);
    DigitsAreFree(bits, '/');
    SplitFirst(Dotted(v), '/', Digits(bits));
    SplitOne(Digits(bits), '/');
    SplitOne(Dotted(v), '/');
    AddressOfDotted(v);
    if bits < 100 {
      DigitsRead(bits, 2);
    } else {
      LongDigits(bits);
    }
    assert ClearLow(v, 0) == v;
    hide Digits, Dotted, Split, Fold, Number, Address, ClearLow, Plain;
  }

  lemma LongDigits(n: nat)
    requires n >= 100
    ensures Number(Digits(n), 2).None?
  {
    assert |Digits(n / 10)| >= 2;
  }

  /** Any other token is no network, and of these only one with a short length is told apart. */
  lemma ReadTokenIs(u: Unicode, token: string) returns (v: nat, bits: nat)
    requires ParsedToken(u, token) != Refused(NotIPv4)
    ensures v < ADDRESSES && bits <= 32
    ensures Fold(u, token) == Dotted(v) || Fold(u, token) == Dotted(v) + "/" + Digits(bits)
  {
    hide Digits, Dotted, Split, Fold, Number, Address, ClearLow;
    var text := Fold(u, token);
    var parts := Split(text, '/');
    SlashParts(text);
    v := Address(parts[0]).value;
    AddressIsDotted(parts[0], v);
    bits := 32;
    if |parts| == 2 {
      NumberIsPrinted(parts[1], 2);
      bits := Number(parts[1], 2).value;
    }
  }

  /** White space and the commas and semicolons of any keyboard part the tokens, and nothing else does. */
  lemma {:induction false} TokensArePartedBy(u: Unicode, word: string, before: string, c: char, rest: string)
    requires u.isSpace(c) || c in {',', ';', '\U{060C}', '\U{FF0C}', '\U{3001}'}
    ensures TokensFrom(u, word, before + [c] + rest) == TokensFrom(u, word, before) + Tokens(u, rest)
    decreases |before|
  {
    var s := before + [c] + rest;
    if before == "" {
      assert s[0] == c && s[1..] == rest;
    } else {
      assert s[0] == before[0] && s[1..] == before[1..] + [c] + rest;
      TokensArePartedBy(u, if IsSeparator(u, before[0]) then "" else word + [before[0]], before[1..], c, rest);
    }
  }

  lemma {:induction false} UnpartedIsOneToken(u: Unicode, word: string, s: string)
    requires forall i :: 0 <= i < |s| ==> !u.isSpace(s[i]) && s[i] !in {',', ';', '\U{060C}', '\U{FF0C}', '\U{3001}'}
    ensures TokensFrom(u, word, s) == if word + s == "" then [] else [word + s]
    decreases |s|
  {
    if s != "" {
      UnpartedIsOneToken(u, word + [s[0]], s[1..]);
      assert word + s == word + [s[0]] + s[1..];
    } else {
      assert word + s == word;
    }
  }

  /** What is kept is kept in the order it first came in. */
  lemma {:induction false} UniqueKeepsTheFirst(items: seq<string>, i: nat, j: nat)
    requires i < j < |Unique(items)|
    ensures exists p :: 0 <= p < |items| && items[p] == Unique(items)[i] && Unique(items)[j] !in items[..p + 1]
  {
    var before, last := items[..|items| - 1], items[|items| - 1];
    assert items == before + [last];
    var r := Unique(before);
    if j < |r| {
      UniqueKeepsTheFirst(before, i, j);
      var p :| 0 <= p < |before| && before[p] == r[i] && r[j] !in before[..p + 1];
      assert items[p] == Unique(items)[i] && items[..p + 1] == before[..p + 1];
    } else {
      assert r[i] in before;
      var p :| 0 <= p < |before| && before[p] == r[i];
      assert items[p] == Unique(items)[i] && items[..p + 1] == before[..p + 1];
    }
  }

  lemma {:induction false} ValuesComeFromTokens(u: Unicode, tokens: seq<string>, x: string)
    ensures x in Values(u, tokens) <==> exists t :: t in tokens && Normalize(u, t) == Range(x)
    decreases |tokens|
  {
    hide Normalize;
    if tokens != [] {
      assert tokens == [tokens[0]] + tokens[1..];
      ValuesComeFromTokens(u, tokens[1..], x);
      if Normalize(u, tokens[0]) == Range(x) {
        assert tokens[0] in tokens;
      }
    }
  }

  /** An accepted list holds the networks its tokens name, each once, and a refusal names the tokens of
      either kind that were refused, and whether more than 32 networks were left. */
  lemma ParseHoldsWhatWasTyped(u: Unicode, text: string, x: string)
    ensures var tokens := Tokens(u, text);
      match Parse(u, text) {
        case Ok(ranges) => x in ranges <==> exists t :: t in tokens && Normalize(u, t) == Range(x)
        case Err(e) =>
          && (x in e.notIPv4 <==> x in tokens && Normalize(u, x) == NotIPv4)
          && (x in e.prefixTooShort <==> x in tokens && Normalize(u, x) == PrefixTooShort)
          && (e.tooMany <==> |Unique(Values(u, tokens))| > 32)
      }
  {
    var tokens := Tokens(u, text);
    ValuesComeFromTokens(u, tokens, x);
    RefusedMembers(u, tokens, NotIPv4);
    RefusedMembers(u, tokens, PrefixTooShort);
    hide Tokens, Values, RefusedAs, Normalize;
  }
}
