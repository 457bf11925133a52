/** The size budget of an anonymous diagnostics report. Section text is its UTF-8 bytes, one character
    a byte; the sender's fields and note are runes. */
module Diagnostics {
  import opened Support

  const TOTAL_MAX := 262_144
  const MAX_INNER := 700_000
  const MAX_NOTE := 500
  const MAX_META := 64
  const HALVINGS := 3
  const OMIT_BELOW := 256

  datatype Section = Section(name: string, bytes: nat, text: string)

  function NewSection(name: string, text: string): Section {
    Section(name, |text|, text)
  }

  // ---- Fitting the sections ----

  predicate RuneStart(b: char) {
    !('\U{80}' <= b <= '\U{BF}')
  }

  /** A byte starts no rune exactly when its first two bits are 10. */
  lemma RuneStartIsByItsBits(b: char)
    requires b as int < 256
    ensures RuneStart(b) <==> b as int / 64 != 2
  {
  }

  method RuneStartFrom(text: string, from: nat) returns (at: nat)
    requires from <= |text|
    ensures at == CutAt(text, from)
  {
    at := from;
    while at < |text| && !RuneStart(text[at])
      invariant from <= at <= |text| && CutAt(text, at) == CutAt(text, from)
    {
      at := at + 1;
    }
  }

  /** The first rune start from `from` on. */
  function CutAt(text: string, from: nat): (at: nat)
    requires from <= |text|
    ensures from <= at <= |text| && (at < |text| ==> RuneStart(text[at]))
    ensures forall i :: from <= i < at ==> !RuneStart(text[i])
    decreases |text| - from
  {
    if from == |text| || RuneStart(text[from]) then from else CutAt(text, from + 1)
  }

  /** What a report does with a section: all of it, its text from a byte on, or nothing. */
  datatype Fate = Whole | TailFrom(at: nat) | Omitted

  function TruncatedNotice(): (notice: string)
    ensures |notice| == 33
  {
    "[...truncated to fit the report]\n"
  }

  function OmittedNotice(name: string): (notice: string)
    ensures |notice| == |name| + 38
  {
    "<" + name + " omitted: payload size limit reached>"
  }

  function Shown(s: Section, fate: Fate): (shown: Section)
    requires fate.TailFrom? ==> fate.at <= |s.text|
    ensures shown.name == s.name
  {
    match fate
    case Whole => NewSection(s.name, s.text)
    case TailFrom(at) => NewSection(s.name, TruncatedNotice() + s.text[at..])
    case Omitted => NewSection(s.name, OmittedNotice(s.name))
  }

  /** How many of a section's own bytes it keeps. */
  function Retained(s: Section, fate: Fate): int {
    match fate
    case Whole => |s.text|
    case TailFrom(at) => |s.text| - at
    case Omitted => 0
  }

  function FateOf(s: Section, remaining: nat): (fate: Fate)
    ensures fate.TailFrom? ==> fate.at <= |s.text|
  {
    if |s.text| <= remaining then Whole
    else if remaining < OMIT_BELOW then Omitted
    else TailFrom(CutAt(s.text, |s.text| - remaining))
  }

  /** What is left of the budget for section `i`: one that overflows leaves nothing for those after it. */
  function Remaining(sections: seq<Section>, budget: nat, i: nat): nat
    requires i <= |sections|
  {
    if i == 0 then budget
    else
      var before := Remaining(sections, budget, i - 1);
      if |sections[i - 1].text| <= before then before - |sections[i - 1].text| else 0
  }

  function FateAt(sections: seq<Section>, budget: nat, i: nat): (fate: Fate)
    requires i < |sections|
    ensures fate.TailFrom? ==> fate.at <= |sections[i].text|
  {
    FateOf(sections[i], Remaining(sections, budget, i))
  }

  ghost function Capped(sections: seq<Section>, budget: nat): (out: seq<Section>)
    ensures |out| == |sections|
  {
    seq(|sections|, i requires 0 <= i < |sections| => Shown(sections[i], FateAt(sections, budget, i)))
  }

  method Cap(section: Section, remaining: nat) returns (shown: Section, left: nat)
    ensures shown == Shown(section, FateOf(section, remaining))
    ensures left == if |section.text| <= remaining then remaining - |section.text| else 0
  {
    hide TruncatedNotice, OmittedNotice, RuneStart;
    var size := |section.text|;
    if size <= remaining {
      return NewSection(section.name, section.text), remaining - size;
    }
    left := 0;
    if remaining < OMIT_BELOW {
      shown := NewSection(section.name, OmittedNotice(section.name));
    } else {
      var at := RuneStartFrom(section.text, size - remaining);
      shown := NewSection(section.name, TruncatedNotice() + section.text[at..]);
    }
  }

  method CapSections(sections: seq<Section>, budget: nat) returns (out: seq<Section>)
    ensures out == Capped(sections, budget)
  {
    hide Shown, FateOf;
    var remaining: nat := budget;
    out := [];
    for i := 0 to |sections|
      invariant remaining == Remaining(sections, budget, i)
      invariant out == Capped(sections, budget)[..i]
    {
      var shown: Section;
      shown, remaining := Cap(sections[i], remaining);
      out := out + [shown];
    }
  }

  function RetainedBefore(sections: seq<Section>, budget: nat, i: nat): int
    requires i <= |sections|
  {
    if i == 0 then 0 else RetainedBefore(sections, budget, i - 1) + Retained(sections[i - 1], FateAt(sections, budget, i - 1))
  }

  /** At most the budget is retained. */
  lemma {:induction false} BudgetIsKept(sections: seq<Section>, budget: nat, i: nat)
    requires i <= |sections|
    ensures 0 <= RetainedBefore(sections, budget, i) <= budget - Remaining(sections, budget, i)
  {
    if i > 0 {
      BudgetIsKept(sections, budget, i - 1);
    }
  }

  /** Names and order are kept, and a section that is cut shows a tail of its text from a rune start on. */
  lemma SectionsKeepTheirPlace(sections: seq<Section>, budget: nat, i: nat)
    requires i < |sections|
    ensures var shown := Capped(sections, budget)[i];
      && shown.name == sections[i].name
      && (shown.text == sections[i].text || shown.text == OmittedNotice(sections[i].name)
          || exists at :: 0 <= at <= |sections[i].text| && shown.text == TruncatedNotice() + sections[i].text[at..]
               && (at < |sections[i].text| ==> RuneStart(sections[i].text[at])))
  {
    hide TruncatedNotice, OmittedNotice, RuneStart;
  }

  function TextBefore(sections: seq<Section>, i: nat): nat
    requires i <= |sections|
  {
    if i == 0 then 0 else TextBefore(sections, i - 1) + |sections[i - 1].text|
  }

  lemma {:induction false} WholeBefore(sections: seq<Section>, budget: nat, i: nat)
    requires i <= |sections| && forall k :: 0 <= k < i ==> FateAt(sections, budget, k) == Whole
    ensures Remaining(sections, budget, i) == budget - TextBefore(sections, i)
  {
    if i > 0 {
      WholeBefore(sections, budget, i - 1);
      assert FateAt(sections, budget, i - 1) == Whole;
    }
  }

  lemma {:induction false} NothingAfter(sections: seq<Section>, budget: nat, i: nat, k: nat)
    requires i < k < |sections| && FateAt(sections, budget, i) != Whole
    ensures Remaining(sections, budget, k) == 0
  {
    if k > i + 1 {
      NothingAfter(sections, budget, i, k - 1);
    }
  }

  /** Sections fill the budget in order: the first that overflows keeps the longest tail within the
      budget that starts a rune, or is omitted when fewer than 256 bytes are left. */
  lemma FilledInOrder(sections: seq<Section>, budget: nat, i: nat)
    requires i < |sections| && forall k :: 0 <= k < i ==> FateAt(sections, budget, k) == Whole
    requires FateAt(sections, budget, i) != Whole
    ensures TextBefore(sections, i) <= budget < TextBefore(sections, i) + |sections[i].text|
    ensures var left := budget - TextBefore(sections, i);
      FateAt(sections, budget, i) ==
        if left < OMIT_BELOW then Omitted else TailFrom(CutAt(sections[i].text, |sections[i].text| - left))
  {
    hide Remaining, CutAt;
    WholeBefore(sections, budget, i);
  }

  /** After the first section that overflows only empty text is kept. */
  lemma NothingKeptAfter(sections: seq<Section>, budget: nat, i: nat, k: nat)
    requires i < k < |sections| && FateAt(sections, budget, i) != Whole
    ensures FateAt(sections, budget, k) == if sections[k].text == "" then Whole else Omitted
  {
    hide Remaining, CutAt;
    NothingAfter(sections, budget, i, k);
  }

  // ---- What the report carries, in the sections' own words ----

  lemma {:induction false} FitsSoFar(sections: seq<Section>, budget: nat, i: nat)
    requires i <= |sections| && TextBefore(sections, i) <= budget
    ensures Remaining(sections, budget, i) == budget - TextBefore(sections, i)
  {
    if i > 0 {
      FitsSoFar(sections, budget, i - 1);
    }
  }

  /** A section that fits, with all before it, is carried as it is. */
  lemma FittingTextIsCarried(sections: seq<Section>, budget: nat, i: nat)
    requires i < |sections| && TextBefore(sections, i + 1) <= budget
    ensures Capped(sections, budget)[i] == Section(sections[i].name, |sections[i].text|, sections[i].text)
  {
    FitsSoFar(sections, budget, i);
  }

  ghost predicate TailShown(shown: Section, text: string, left: nat, at: nat) {
    && |text| - left <= at <= |text| && (at < |text| ==> RuneStart(text[at]))
    && (forall k :: 0 <= k && |text| - left <= k < at ==> !RuneStart(text[k]))
    && shown.text == "[...truncated to fit the report]\n" + text[at..]
  }

  /** The first section that does not fit shows that it was left out when fewer than 256 bytes are left,
      and else its longest tail of at most what is left that starts a rune, after a notice. */
  lemma OverflowIsCut(sections: seq<Section>, budget: nat, i: nat)
    requires i < |sections| && TextBefore(sections, i) <= budget < TextBefore(sections, i + 1)
    ensures var left := budget - TextBefore(sections, i);
      var shown := Capped(sections, budget)[i];
      && shown.name == sections[i].name && shown.bytes == |shown.text|
      && (if left < 256 then shown.text == "<" + sections[i].name + " omitted: payload size limit reached>"
          else exists at: nat :: TailShown(shown, sections[i].text, left, at))
  {
    FitsSoFar(sections, budget, i);
    var left := budget - TextBefore(sections, i);
    var text := sections[i].text;
    assert |text| > left;
    if left >= 256 {
      hide Remaining;
      var at: nat := CutAt(text, |text| - left);
      assert FateAt(sections, budget, i) == TailFrom(at);
      assert TailShown(Capped(sections, budget)[i], text, left, at);
    } else {
      assert FateAt(sections, budget, i) == Omitted;
    }
  }

  lemma {:induction false} NothingLeftAfter(sections: seq<Section>, budget: nat, i: nat, k: nat)
    requires i < k <= |sections| && TextBefore(sections, i) <= budget < TextBefore(sections, i + 1)
    ensures Remaining(sections, budget, k) == 0
  {
    FitsSoFar(sections, budget, i);
    if k > i + 1 {
      NothingLeftAfter(sections, budget, i, k - 1);
    }
  }

  /** After the first section that does not fit, every one with any text is left out. */
  lemma RestIsLeftOut(sections: seq<Section>, budget: nat, i: nat, k: nat)
    requires i < k < |sections| && TextBefore(sections, i) <= budget < TextBefore(sections, i + 1)
    ensures var shown := Capped(sections, budget)[k];
      && shown.name == sections[k].name && shown.bytes == |shown.text|
      && shown.text == if sections[k].text == "" then "" else "<" + sections[k].name + " omitted: payload size limit reached>"
  {
    NothingLeftAfter(sections, budget, i, k);
  }

  // ---- The sender's fields ----

  function TrimLeft(s: string, isSpace: char -> bool): string {
    if s == "" || !isSpace(s[0]) then s else TrimLeft(s[1..], isSpace)
  }

  function TrimRight(s: string, isSpace: char -> bool): string {
    if s == "" || !isSpace(s[|s| - 1]) then s else TrimRight(s[..|s| - 1], isSpace)
  }

  function MetaField(value: string, isSpace: char -> bool): (r: string)
    ensures 0 < |r| <= MAX_META
  {
    TrimRightIsShorter(TrimLeft(value, isSpace), isSpace);
    var trimmed := TrimRight(TrimLeft(value, isSpace), isSpace);
    if trimmed == "" then "unknown"
    else if |trimmed| > MAX_META then trimmed[..MAX_META] else trimmed
  }

  const MARKER_HEAD := "[redacted:"

  predicate IsPrefix(a: string, b: string) {
    |a| <= |b| && b[..|a|] == a
  }

  /** The last position of `c`, if any. */
  function LastIndex(s: string, c: char): (r: Option<nat>)
    ensures r.Some? ==> r.value < |s| && s[r.value] == c && c !in s[r.value + 1..]
    ensures r.None? ==> c !in s
  {
    if s == "" then None
    else if s[|s| - 1] == c then Some(|s| - 1)
    else
      assert s == s[..|s| - 1] + [s[|s| - 1]];
      var r := LastIndex(s[..|s| - 1], c);
      assert r.Some? ==> s[r.value + 1..] == s[..|s| - 1][r.value + 1..] + [s[|s| - 1]];
      r
  }

  /** A marker the cut ran through is dropped. */
  function DropCutMarker(cut: string): (r: string)
    ensures IsPrefix(r, cut)
  {
    var open := LastIndex(cut, '[');
    if open.None? || ']' in cut[open.value..] then cut
    else
      var tail := cut[open.value..];
      if IsPrefix(MARKER_HEAD, tail) || IsPrefix(tail, MARKER_HEAD) then cut[..open.value] else cut
  }

  lemma TrimRightIsShorter(s: string, isSpace: char -> bool)
    ensures |TrimRight(s, isSpace)| <= |s|
  {
  }

  function NormalizeNote(note: string, isSpace: char -> bool, redact: string -> string): (r: string)
    ensures |r| <= MAX_NOTE
  {
    var trimmed := TrimRight(TrimLeft(note, isSpace), isSpace);
    if trimmed == "" then ""
    else
      var redacted := redact(trimmed);
      if |redacted| <= MAX_NOTE then redacted
      else
        var cut := DropCutMarker(redacted[..MAX_NOTE]);
        TrimRightIsShorter(cut, isSpace);
        TrimRight(cut, isSpace)
  }

  /** `value` without the white space around it is its part from `i` to `j`. */
  ghost predicate TrimsTo(value: string, isSpace: char -> bool, i: nat, j: nat) {
    && i <= j <= |value|
    && (forall k :: 0 <= k < i ==> isSpace(value[k])) && (forall k :: j <= k < |value| ==> isSpace(value[k]))
    && (i < j ==> !isSpace(value[i]) && !isSpace(value[j - 1]))
  }

  lemma {:induction false} TrimLeftIs(value: string, isSpace: char -> bool) returns (i: nat)
    ensures i <= |value| && TrimLeft(value, isSpace) == value[i..]
    ensures (forall k :: 0 <= k < i ==> isSpace(value[k])) && (i < |value| ==> !isSpace(value[i]))
    decreases |value|
  {
    i := 0;
    if value != "" && isSpace(value[0]) {
      var rest := TrimLeftIs(value[1..], isSpace);
      i := rest + 1;
      assert value[1..][rest..] == value[i..];
      assert forall k :: 1 <= k < i ==> value[k] == value[1..][k - 1];
    }
  }

  lemma {:induction false} TrimRightIs(value: string, isSpace: char -> bool) returns (j: nat)
    ensures j <= |value| && TrimRight(value, isSpace) == value[..j]
    ensures (forall k :: j <= k < |value| ==> isSpace(value[k])) && (j > 0 ==> !isSpace(value[j - 1]))
    decreases |value|
  {
    j := |value|;
    if value != "" && isSpace(value[|value| - 1]) {
      j := TrimRightIs(value[..|value| - 1], isSpace);
      assert value[..|value| - 1][..j] == value[..j];
    }
  }

  lemma TrimmedIs(value: string, isSpace: char -> bool) returns (i: nat, j: nat)
    ensures TrimsTo(value, isSpace, i, j) && TrimRight(TrimLeft(value, isSpace), isSpace) == value[i..j]
  {
    i := TrimLeftIs(value, isSpace);
    var right := TrimRightIs(value[i..], isSpace);
    j := i + right;
    assert value[i..][..right] == value[i..j];
    assert forall k :: i <= k < |value| ==> value[k] == value[i..][k - i];
  }

  ghost predicate FieldOf(r: string, value: string, isSpace: char -> bool, i: nat, j: nat) {
    TrimsTo(value, isSpace, i, j) && r == if i == j then "unknown" else value[i..if j <= i + MAX_META then j else i + MAX_META]
  }

  /** A field keeps the first 64 runes of its value without the white space around it, or is "unknown"
      where the value is nothing but white space. */
  lemma MetaFieldKeepsItsValue(value: string, isSpace: char -> bool)
    ensures exists i, j :: FieldOf(MetaField(value, isSpace), value, isSpace, i, j)
  {
    var i, j := TrimmedIs(value, isSpace);
    if j > i + MAX_META {
      assert value[i..j][..MAX_META] == value[i..i + MAX_META];
    }
    assert FieldOf(MetaField(value, isSpace), value, isSpace, i, j);
  }

  ghost predicate NoteOf(r: string, note: string, isSpace: char -> bool, redact: string -> string, i: nat, j: nat) {
    && TrimsTo(note, isSpace, i, j)
    && (if i == j then r == ""
        else IsPrefix(r, redact(note[i..j])) && (|redact(note[i..j])| <= MAX_NOTE ==> r == redact(note[i..j])))
  }

  /** The whole note is redacted before any of it is cut: what is kept is the head of the redacted text,
      all of it when it is short enough. */
  lemma NoteIsRedactedFirst(note: string, isSpace: char -> bool, redact: string -> string)
    ensures exists i, j :: NoteOf(NormalizeNote(note, isSpace, redact), note, isSpace, redact, i, j)
  {
    var i, j := TrimmedIs(note, isSpace);
    if i < j {
      var redacted := redact(note[i..j]);
      if |redacted| > MAX_NOTE {
        var cut := DropCutMarker(redacted[..MAX_NOTE]);
        var end := TrimRightIs(cut, isSpace);
        assert TrimRight(cut, isSpace) == redacted[..end];
      }
    }
    assert NoteOf(NormalizeNote(note, isSpace, redact), note, isSpace, redact, i, j);
  }

  ghost predicate MarkerAt(redacted: string, at: nat, name: string) {
    && '[' !in name && ']' !in name
    && at + |MARKER_HEAD| + |name| < |redacted|
    && redacted[at..at + |MARKER_HEAD| + |name| + 1] == MARKER_HEAD + name + "]"
  }

  /** A cut that runs through a marker takes the whole marker with it. */
  lemma CutMarkerIsDropped(redacted: string, at: nat, name: string, n: nat)
    requires MarkerAt(redacted, at, name) && at < n < at + |MARKER_HEAD| + |name| + 1
    ensures DropCutMarker(redacted[..n]) == redacted[..at]
  {
    var cut := redacted[..n];
    var marker := MARKER_HEAD + name + "]";
    assert |MARKER_HEAD| == 10 && MARKER_HEAD[0] == '[' && forall k :: 0 < k < 10 ==> MARKER_HEAD[k] != '[' && MARKER_HEAD[k] != ']';
    assert forall k :: at <= k < n ==> cut[k] == marker[k - at];
    assert cut[at] == '[' && forall k :: at < k < n ==> cut[k] != '[' && cut[k] != ']';
    LastIndexIs(cut, '[', at);
    var tail := cut[at..];
    assert tail == marker[..n - at];
    assert ']' !in tail;
    assert IsPrefix(MARKER_HEAD, tail) || IsPrefix(tail, MARKER_HEAD) by {
      HeadOrTail(MARKER_HEAD, name + "]", n - at);
      assert marker == MARKER_HEAD + (name + "]");
    }
    assert cut[..at] == redacted[..at];
  }

  /** So a note cut within a marker ends before it. */
  lemma NoteEndsBeforeACutMarker(note: string, isSpace: char -> bool, redact: string -> string, at: nat, name: string)
    requires var trimmed := TrimRight(TrimLeft(note, isSpace), isSpace);
      trimmed != "" && MarkerAt(redact(trimmed), at, name) && at < MAX_NOTE < at + |MARKER_HEAD| + |name| + 1
    ensures var redacted := redact(TrimRight(TrimLeft(note, isSpace), isSpace));
      NormalizeNote(note, isSpace, redact) == TrimRight(redacted[..at], isSpace)
  {
    CutMarkerIsDropped(redact(TrimRight(TrimLeft(note, isSpace), isSpace)), at, name, MAX_NOTE);
  }

  /** The text ends in a marker under way from `at` on. */
  ghost predicate OpenMarker(cut: string, at: nat) {
    && at < |cut| && (forall k :: at < k < |cut| ==> cut[k] != '[' && cut[k] != ']')
    && (forall k :: at <= k < |cut| && k - at < 10 ==> cut[k] == "[redacted:"[k - at])
  }

  /** Nothing is dropped but a marker under way. */
  lemma OnlyAnOpenMarkerIsDropped(cut: string, at: nat)
    ensures OpenMarker(cut, at) ==> DropCutMarker(cut) == cut[..at]
    ensures (forall i: nat :: !OpenMarker(cut, i)) ==> DropCutMarker(cut) == cut
  {
    hide OpenMarker;
    if OpenMarker(cut, at) {
      OpenMarkerIsDropped(cut, at);
    }
    if DropCutMarker(cut) != cut {
      DroppedWasOpen(cut);
    }
  }

  lemma OpenMarkerIsDropped(cut: string, at: nat)
    requires OpenMarker(cut, at)
    ensures DropCutMarker(cut) == cut[..at]
  {
    assert cut[at] == '[';
    LastIndexIs(cut, '[', at);
    var tail := cut[at..];
    assert forall k :: 0 <= k < |tail| ==> tail[k] == cut[at + k];
    hide LastIndex;
    assert ']' !in tail;
    CommonHead(MARKER_HEAD, tail);
  }

  lemma CommonHead(a: string, b: string)
    ensures IsPrefix(a, b) || IsPrefix(b, a) <==> forall k :: 0 <= k < |a| && k < |b| ==> a[k] == b[k]
  {
  }

  lemma DroppedWasOpen(cut: string)
    requires DropCutMarker(cut) != cut
    ensures LastIndex(cut, '[').Some? && OpenMarker(cut, LastIndex(cut, '[').value)
  {
    var i := LastIndex(cut, '[').value;
    hide LastIndex;
    var tail := cut[i..];
    CommonHead(MARKER_HEAD, tail);
    forall k | i < k < |cut| ensures cut[k] != '[' && cut[k] != ']' {
      assert cut[k] == cut[i + 1..][k - i - 1] && cut[k] == tail[k - i];
    }
    assert forall k :: i <= k < |cut| ==> cut[k] == tail[k - i];
  }

  /** A long note is its first 500 runes but for a marker they end in, and the white space before that. */
  lemma LongNoteIsCut(note: string, isSpace: char -> bool, redact: string -> string, i: nat, j: nat, at: nat) returns (n: nat)
    requires TrimsTo(note, isSpace, i, j) && i < j && |redact(note[i..j])| > 500
    requires OpenMarker(redact(note[i..j])[..500], at) || (at == 500 && forall k: nat :: !OpenMarker(redact(note[i..j])[..500], k))
    ensures n <= at <= 500 && NormalizeNote(note, isSpace, redact) == redact(note[i..j])[..n]
    ensures n > 0 ==> !isSpace(redact(note[i..j])[n - 1])
    ensures forall k :: n <= k < at ==> isSpace(redact(note[i..j])[k])
  {
    var a, b := TrimmedIs(note, isSpace);
    TrimIsUnique(note, isSpace, a, b, i, j);
    hide TrimLeft, TrimRight, TrimsTo, DropCutMarker;
    var cut := redact(note[i..j])[..500];
    OnlyAnOpenMarkerIsDropped(cut, at);
    assert at <= 500;
    hide OpenMarker;
    var kept := cut[..at];
    assert DropCutMarker(cut) == kept;
    n := TrimRightIs(kept, isSpace);
    assert kept[..n] == redact(note[i..j])[..n];
    assert forall k :: 0 <= k < at ==> kept[k] == redact(note[i..j])[k];
  }

  lemma TrimIsUnique(value: string, isSpace: char -> bool, a: nat, b: nat, i: nat, j: nat)
    requires TrimsTo(value, isSpace, a, b) && TrimsTo(value, isSpace, i, j) && i < j
    ensures a == i && b == j
  {
  }

  lemma HeadOrTail(head: string, rest: string, n: nat)
    requires n <= |head| + |rest|
    ensures IsPrefix(head, (head + rest)[..n]) || IsPrefix((head + rest)[..n], head)
  {
    if n >= |head| {
      assert (head + rest)[..n][..|head|] == head;
    } else {
      assert (head + rest)[..n] == head[..n];
    }
  }

  lemma LastIndexIs(s: string, c: char, at: nat)
    requires at < |s| && s[at] == c && forall k :: at < k < |s| ==> s[k] != c
    ensures LastIndex(s, c) == Some(at)
  {
    var r := LastIndex(s, c);
    assert s[at] in s;
  }

  // ---- The body ----

  datatype Meta = Meta(appVersion: string, platform: string, arch: string, osRelease: string, createdAt: string)

  datatype Payload = Payload(meta: Meta, note: string, sections: seq<Section>)

  /** What the JSON encoder makes of a string: of bytes, and of runes. */
  datatype Encoder = Encoder(ofBytes: string -> nat, ofRunes: string -> nat)

  /** At most six bytes for a byte, and a rune is at most four. */
  ghost predicate Bounded(e: Encoder) {
    && (forall s {:trigger e.ofBytes(s)} :: e.ofBytes(s) <= 6 * |s|)
    && (forall s {:trigger e.ofRunes(s)} :: e.ofRunes(s) <= 24 * |s|)
  }

  function Digits(n: nat): (d: nat)
    ensures d > 0
    ensures n < 1_000_000 ==> d <= 6
  {
    if n < 10 then 1
    else if n < 100 then 2
    else if n < 1000 then 3
    else if n < 10_000 then 4
    else if n < 100_000 then 5
    else if n < 1_000_000 then 6
    else 6 + Digits(n / 1_000_000)
  }

  function PowerOfTen(d: nat): nat {
    if d == 0 then 1 else 10 * PowerOfTen(d - 1)
  }

  /** A number is printed in as many digits as it has. */
  lemma {:induction false} DigitsAreItsLength(n: nat)
    ensures n < PowerOfTen(Digits(n)) && (n >= 10 ==> n >= PowerOfTen(Digits(n) - 1))
  {
    assert PowerOfTen(1) == 10 && PowerOfTen(2) == 100 && PowerOfTen(3) == 1000;
    assert PowerOfTen(4) == 10_000 && PowerOfTen(5) == 100_000 && PowerOfTen(6) == 1_000_000;
    if n >= 1_000_000 {
      var d := Digits(n / 1_000_000);
      DigitsAreItsLength(n / 1_000_000);
      Millions(d);
      Millions(d - 1);
      assert Digits(n) == 6 + d;
      assert n / 1_000_000 == 0 || n / 1_000_000 >= PowerOfTen(d - 1) by { assert d == 1 ==> PowerOfTen(d - 1) == 1; assert n / 1_000_000 < 10 ==> d == 1; }
    }
  }

  lemma Millions(d: nat)
    ensures PowerOfTen(6 + d) == 1_000_000 * PowerOfTen(d)
  {
    assert PowerOfTen(6 + d) == 10 * PowerOfTen(5 + d) == 100 * PowerOfTen(4 + d) == 1000 * PowerOfTen(3 + d);
    assert PowerOfTen(3 + d) == 10 * PowerOfTen(2 + d) == 100 * PowerOfTen(1 + d) == 1000 * PowerOfTen(d);
  }

  /** The field names and punctuation of a section, of the body without a note, and of the note. */
  const SECTION_FRAME := 30
  const BODY_FRAME := 85
  const NOTE_FRAME := 10

  function SectionSize(e: Encoder, s: Section): nat {
    SECTION_FRAME + e.ofBytes(s.name) + Digits(s.bytes) + e.ofBytes(s.text)
  }

  function SectionsSize(e: Encoder, sections: seq<Section>): nat {
    if sections == [] then 0 else SectionsSize(e, sections[..|sections| - 1]) + SectionSize(e, sections[|sections| - 1]) + 1
  }

  /** The marshalled payload; each section's comma stands for one it may not have. */
  function BodySize(e: Encoder, p: Payload): nat {
    BODY_FRAME
    + e.ofRunes(p.meta.appVersion) + e.ofRunes(p.meta.platform) + e.ofRunes(p.meta.arch) + e.ofRunes(p.meta.osRelease)
    + e.ofRunes(p.meta.createdAt)
    + (if p.note == "" then 0 else NOTE_FRAME + e.ofRunes(p.note))
    + (if p.sections == [] then 0 else SectionsSize(e, p.sections) - 1)
  }

  function Halved(budget: nat, k: nat): nat {
    if k == 0 then budget else Halved(budget, k - 1) / 2
  }

  /** The budgets tried, in bytes. */
  lemma HalvedAre()
    ensures Halved(TOTAL_MAX, 0) == 262_144 && Halved(TOTAL_MAX, 1) == 131_072 && Halved(TOTAL_MAX, 2) == 65_536
  {
    assert Halved(TOTAL_MAX, 2) == Halved(TOTAL_MAX, 1) / 2;
  }

  ghost function Report(meta: Meta, note: string, sections: seq<Section>, isSpace: char -> bool, redact: string -> string, budget: nat): Payload {
    Payload(
      Meta(MetaField(meta.appVersion, isSpace), MetaField(meta.platform, isSpace),
           MetaField(meta.arch, isSpace), MetaField(meta.osRelease, isSpace), meta.createdAt),
      NormalizeNote(note, isSpace, redact),
      Capped(sections, budget))
  }

  /** Answers the report with the largest of the halved budgets that fits. For a report's three sections
      two halvings always do, so the error for a report too large is never reached. */
  method BuildDiagnosticsBody(e: Encoder, meta: Meta, note: string, sections: seq<Section>,
      isSpace: char -> bool, redact: string -> string) returns (body: Option<Payload>, ghost halvings: nat)
    requires Bounded(e) && |meta.createdAt| <= MAX_META
    requires |sections| <= 3 && forall i :: 0 <= i < |sections| ==> |sections[i].name| <= MAX_META
    ensures halvings <= 2
    ensures body == Some(Report(meta, note, sections, isSpace, redact, Halved(TOTAL_MAX, halvings)))
    ensures BodySize(e, body.value) <= MAX_INNER
    ensures forall k: nat :: k < halvings ==>
      BodySize(e, Report(meta, note, sections, isSpace, redact, Halved(TOTAL_MAX, k))) > MAX_INNER
  {
    var fields := Meta(MetaField(meta.appVersion, isSpace), MetaField(meta.platform, isSpace),
                       MetaField(meta.arch, isSpace), MetaField(meta.osRelease, isSpace), meta.createdAt);
    var cleaned := NormalizeNote(note, isSpace, redact);
    var budget: nat := TOTAL_MAX;
    body, halvings := None, 0;
    for attempt := 0 to HALVINGS + 1
      invariant budget == Halved(TOTAL_MAX, attempt) && attempt <= 2
      invariant forall k: nat :: k < attempt ==>
        BodySize(e, Report(meta, note, sections, isSpace, redact, Halved(TOTAL_MAX, k))) > MAX_INNER
    {
      var capped := CapSections(sections, budget);
      var payload := Payload(fields, cleaned, capped);
      if attempt == 2 {
        SmallBudgetFits(e, payload, sections, budget);
      }
      if BodySize(e, payload) <= MAX_INNER {
        return Some(payload), attempt;
      }
      budget := budget / 2;
    }
  }

  /** A report whose sections retain 64 KiB in all fits, however its text is escaped. */
  lemma SmallBudgetFits(e: Encoder, p: Payload, sections: seq<Section>, budget: nat)
    requires Bounded(e) && |sections| <= 3 && forall i :: 0 <= i < |sections| ==> |sections[i].name| <= MAX_META
    requires budget <= 65_536 && p.sections == Capped(sections, budget) && |p.note| <= MAX_NOTE
    requires |p.meta.appVersion| <= MAX_META && |p.meta.platform| <= MAX_META && |p.meta.arch| <= MAX_META
    requires |p.meta.osRelease| <= MAX_META && |p.meta.createdAt| <= MAX_META
    ensures BodySize(e, p) <= MAX_INNER
  {
    BudgetIsKept(sections, budget, |sections|);
    ShownSizes(e, sections, budget, |sections|);
    assert p.sections == p.sections[..|sections|];
  }

  /** What a section shows is what it keeps and a short notice. */
  lemma ShownSize(e: Encoder, s: Section, fate: Fate)
    requires Bounded(e) && |s.name| <= MAX_META && (fate.TailFrom? ==> fate.at <= |s.text|) && Retained(s, fate) < 500_000
    ensures SectionSize(e, Shown(s, fate)) + 1 <= 6 * Retained(s, fate) + 2000
  {
    var shown := Shown(s, fate);
    hide TruncatedNotice, OmittedNotice;
    assert |shown.text| <= Retained(s, fate) + 200;
  }

  lemma {:induction false} ShownSizes(e: Encoder, sections: seq<Section>, budget: nat, i: nat)
    requires Bounded(e) && i <= |sections| && forall i :: 0 <= i < |sections| ==> |sections[i].name| <= MAX_META
    requires budget < 500_000
    ensures SectionsSize(e, Capped(sections, budget)[..i]) <= 6 * RetainedBefore(sections, budget, i) + 2000 * i
  {
    hide TruncatedNotice, OmittedNotice, Shown, Retained, Remaining;
    if i > 0 {
      ShownSizes(e, sections, budget, i - 1);
      BudgetIsKept(sections, budget, i);
      BudgetIsKept(sections, budget, i - 1);
      ShownSize(e, sections[i - 1], FateAt(sections, budget, i - 1));
      var out := Capped(sections, budget);
      assert out[..i][..i - 1] == out[..i - 1];
      assert out[..i][i - 1] == Shown(sections[i - 1], FateAt(sections, budget, i - 1));
    }
  }
}
