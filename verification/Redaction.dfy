/**
 Redacting diagnostics (`redact_diagnostic` in error.rs): each pass looks for one marker and
 replaces what follows it, up to a delimiter, in the message itself.
 */
module Redaction {
  import opened Text

  const MASK: string := "<redacted>"

  const WIDTH: nat := 10

  const MARKERS: seq<string> := ["Bearer ", "token=", "api_key=", "password="]

  predicate IsDelimiter(c: char) { IsWhitespace(c) || c == '&' || c == ',' || c == '}' || c == ']' }

  predicate Occurs(s: string, marker: string, i: nat) {
    i + |marker| <= |s| && forall j :: i <= j < i + |marker| ==> s[j] == marker[j - i]
  }

  function FindMarker(s: string, marker: string, from: nat): (i: nat)
    requires from <= |s|
    ensures from <= i <= |s|
    ensures i < |s| ==> Occurs(s, marker, i)
    decreases |s| - from
  {
    if from == |s| || Occurs(s, marker, from) then from else FindMarker(s, marker, from + 1)
  }

  function FindDelimiter(s: string, from: nat): (i: nat)
    requires from <= |s|
    ensures from <= i <= |s|
    ensures i < |s| ==> IsDelimiter(s[i])
    decreases |s| - from
  {
    if from == |s| || IsDelimiter(s[from]) then from else FindDelimiter(s, from + 1)
  }

  /** `find` returns the first match. */
  lemma {:induction false} FoundFirst(s: string, marker: string, from: nat)
    requires from <= |s|
    ensures forall k :: from <= k < FindMarker(s, marker, from) ==> !Occurs(s, marker, k)
    ensures forall k :: from <= k < FindDelimiter(s, from) ==> !IsDelimiter(s[k])
    decreases |s| - from
  {
    hide Occurs, IsDelimiter;
    if from < |s| {
      FoundFirst(s, marker, from + 1);
    }
  }

  function Replace(s: string, start: nat, end: nat): string
    requires start <= end <= |s|
  {
    s[..start] + MASK + s[end..]
  }

  /** One pass from a position on; what is left to scan shrinks although the message may grow. */
  function RedactFrom(s: string, marker: string, from: nat): string
    requires marker != "" && from <= |s|
    decreases |s| - from
  {
    var i := FindMarker(s, marker, from);
    if i == |s| then s
    else
      var start := i + |marker|;
      var end := FindDelimiter(s, start);
      RedactFrom(Replace(s, start, end), marker, start + WIDTH)
  }

  /** The message after the first `k` markers' passes. */
  function AfterPasses(s: string, k: nat): string
    requires k <= 4
  {
    if k == 0 then s else RedactFrom(AfterPasses(s, k - 1), MARKERS[k - 1], 0)
  }

  function Redact(s: string): string { AfterPasses(s, 4) }

  // ---------------------------------------------------------------- what redaction leaves

  /** The mask stands at `i`. */
  predicate MaskAt(s: string, i: nat) {
    i + WIDTH <= |s| && forall j :: i <= j < i + WIDTH ==> s[j] == MASK[j - i]
  }

  /** The mask stands right after the marker, then a delimiter or the end. */
  predicate MaskedAt(s: string, marker: string, i: nat) {
    var after := i + |marker|;
    MaskAt(s, after) && (after + WIDTH < |s| ==> IsDelimiter(s[after + WIDTH]))
  }

  predicate MaskedBefore(s: string, marker: string, limit: nat) {
    forall i :: 0 <= i < limit && Occurs(s, marker, i) ==> MaskedAt(s, marker, i)
  }

  predicate Masked(s: string, marker: string) { MaskedBefore(s, marker, |s|) }

  /** No marker can be found in, or partly in, a mask. */
  predicate ApartFromMask(marker: string) {
    && marker != "" && (marker[|marker| - 1] == '=' || marker[|marker| - 1] == ' ')
    && forall k :: 0 <= k < |marker| ==> marker[k] != '<' && marker[k] != '>'
  }

  /** Markers do not end in one another. */
  ghost predicate Separate(marker: string, other: string) {
    forall s: string, i: nat, j: nat :: Occurs(s, marker, i) && Occurs(s, other, j) ==> i + |marker| != j + |other|
  }

  lemma Inside(s: string, marker: string, i: nat)
    requires Occurs(s, marker, i) && ApartFromMask(marker)
    ensures i + |marker| <= |s| && marker != ""
  {
  }

  lemma Nonempty(marker: string)
    requires ApartFromMask(marker)
    ensures |marker| > 0
  {
  }

  lemma MaskLetters(s: string, i: nat)
    requires MaskAt(s, i)
    ensures s[i] == '<' && s[i + 9] == '>'
    ensures forall k :: i <= k < i + WIDTH ==> s[k] != '=' && s[k] != ' ' && !IsDelimiter(s[k])
  {
    assert forall k :: 0 <= k < WIDTH ==> MASK[k] != '=' && MASK[k] != ' ' && !IsDelimiter(MASK[k]);
    assert MASK[0] == '<' && MASK[9] == '>';
  }

  /** A marker lies wholly before a mask or wholly after it. */
  lemma OccursApart(s: string, marker: string, i: nat, at: nat)
    requires ApartFromMask(marker) && Occurs(s, marker, i) && MaskAt(s, at)
    ensures i + |marker| <= at || i >= at + WIDTH
  {
    MaskLetters(s, at);
    assert s[i + |marker| - 1] == marker[|marker| - 1];
  }

  lemma ReplaceParts(s: string, start: nat, end: nat)
    requires start <= end <= |s|
    ensures var t := Replace(s, start, end);
      && |t| == |s| - end + start + WIDTH && MaskAt(t, start)
      && (forall k :: 0 <= k < start ==> t[k] == s[k])
      && (forall k :: start + WIDTH <= k < |t| ==> t[k] == s[k - (start + WIDTH) + end])
      && (forall k :: end <= k < |s| ==> s[k] == t[k - end + start + WIDTH])
  {
  }

  /** Every occurrence of a marker after a replacement was there before it. */
  lemma OccursBefore(s: string, start: nat, end: nat, marker: string, i: nat)
    requires start <= end <= |s| && ApartFromMask(marker) && Occurs(Replace(s, start, end), marker, i)
    ensures (i + |marker| <= start && Occurs(s, marker, i))
      || (i >= start + WIDTH && Occurs(s, marker, i - (start + WIDTH) + end))
  {
    ReplaceParts(s, start, end);
    hide Replace;
    var t := Replace(s, start, end);
    OccursApart(t, marker, i, start);
    if i + |marker| <= start {
      assert Occurs(s, marker, i);
    } else {
      var j := i - (start + WIDTH) + end;
      forall k | j <= k < j + |marker| ensures s[k] == marker[k - j] {
        assert t[k - end + start + WIDTH] == marker[k - j];
      }
    }
  }

  lemma StaysMasked(s: string, t: string, marker: string, i: nat, j: nat)
    requires MaskedAt(s, marker, i)
    requires forall k :: i + |marker| <= k <= i + |marker| + WIDTH && k < |s| ==> k + j - i >= 0 && k + j - i < |t| && t[k + j - i] == s[k]
    requires i + |marker| + WIDTH == |s| ==> j + |marker| + WIDTH == |t|
    ensures MaskedAt(t, marker, j)
  {
    var after := i + |marker|;
    assert j + |marker| == after + j - i;
    forall k | j + |marker| <= k < j + |marker| + WIDTH ensures k < |t| && t[k] == MASK[k - (j + |marker|)] {
      assert t[(k - j + i) + j - i] == s[k - j + i];
    }
    assert t[after + 9 + j - i] == s[after + 9];
    if after + WIDTH < |s| {
      assert t[after + WIDTH + j - i] == s[after + WIDTH];
    }
  }

  lemma KeepsLeft(s: string, marker: string, i: nat, end: nat, other: string, j: nat)
    requires ApartFromMask(marker) && Occurs(s, marker, i) && i + |marker| <= end <= |s|
    requires MaskedAt(s, other, j) && j + |other| < i + |marker|
    ensures MaskedAt(Replace(s, i + |marker|, end), other, j)
  {
    ReplaceParts(s, i + |marker|, end);
    hide Replace, Occurs, IsDelimiter;
    OccursApart(s, marker, i, j + |other|);
    StaysMasked(s, Replace(s, i + |marker|, end), other, j, j);
  }

  lemma KeepsRight(s: string, start: nat, end: nat, other: string, from: nat)
    requires start <= end <= |s| && end <= from && MaskedAt(s, other, from)
    ensures MaskedAt(Replace(s, start, end), other, from - end + start + WIDTH)
  {
    ReplaceParts(s, start, end);
    hide Replace, IsDelimiter;
    StaysMasked(s, Replace(s, start, end), other, from, from - end + start + WIDTH);
  }

  /** A replacement after one marker leaves another marker's masks as they were. */
  lemma ReplaceKeepsMasked(s: string, marker: string, i: nat, other: string)
    requires ApartFromMask(marker) && ApartFromMask(other) && Separate(marker, other)
    requires Occurs(s, marker, i) && Masked(s, other)
    ensures Masked(Replace(s, i + |marker|, FindDelimiter(s, i + |marker|)), other)
  {
    hide Replace, Separate, Occurs, MaskedAt, ApartFromMask, IsDelimiter, FindDelimiter;
    Inside(s, marker, i);
    var start := i + |marker|;
    var end := FindDelimiter(s, start);
    var t := Replace(s, start, end);
    forall j | 0 <= j < |t| && Occurs(t, other, j) ensures MaskedAt(t, other, j) {
      OccursBefore(s, start, end, other, j);
      Nonempty(other);
      if j + |other| <= start {
        NotTogether(s, marker, i, other, j);
        KeepsLeft(s, marker, i, end, other, j);
      } else {
        var from := j - (start + WIDTH) + end;
        Inside(s, other, from);
        KeepsRight(s, start, end, other, from);
      }
    }
  }

  lemma NotTogether(s: string, marker: string, i: nat, other: string, j: nat)
    requires Separate(marker, other) && Occurs(s, marker, i) && Occurs(s, other, j)
    ensures i + |marker| != j + |other|
  {
  }

  /** One step masks one more occurrence of its own marker. */
  lemma ReplaceMasksNext(s: string, marker: string, from: nat)
    requires ApartFromMask(marker) && from <= |s| && MaskedBefore(s, marker, from)
    requires from == 0 || (from >= WIDTH && MaskAt(s, from - WIDTH))
    requires FindMarker(s, marker, from) < |s|
    ensures var start := FindMarker(s, marker, from) + |marker|;
      var t := Replace(s, start, FindDelimiter(s, start));
      start + WIDTH <= |t| && MaskAt(t, start) && MaskedBefore(t, marker, start + WIDTH)
  {
    hide Replace, FindMarker, FindDelimiter, IsDelimiter;
    var i := FindMarker(s, marker, from);
    var start := i + |marker|;
    var end := FindDelimiter(s, start);
    var t := Replace(s, start, end);
    FoundFirst(s, marker, from);
    ReplaceParts(s, start, end);
    forall j | 0 <= j < start + WIDTH && Occurs(t, marker, j) ensures MaskedAt(t, marker, j) {
      OccursApart(t, marker, j, start);
      OccursBefore(s, start, end, marker, j);
      assert j <= i && Occurs(s, marker, j);
      if j == i {
        assert end < |s| ==> t[start + WIDTH] == s[end];
      } else {
        assert j < from;
        assert MaskedAt(s, marker, j);
        OccursApart(s, marker, i, j + |marker|);
        StaysMasked(s, t, marker, j, j);
      }
    }
  }

  lemma RedactStep(s: string, marker: string, from: nat)
    requires marker != "" && from <= |s|
    ensures var i := FindMarker(s, marker, from);
      if i == |s| then RedactFrom(s, marker, from) == s
      else
        i + |marker| <= |s|
        && var start := i + |marker|;
           var t := Replace(s, start, FindDelimiter(s, start));
           start + WIDTH <= |t| && |t| - start - WIDTH < |s| - from
           && RedactFrom(s, marker, from) == RedactFrom(t, marker, start + WIDTH)
  {
    hide FindMarker, FindDelimiter, IsDelimiter;
  }

  lemma AllMasked(s: string, marker: string, from: nat)
    requires from <= |s| && MaskedBefore(s, marker, from)
    ensures FindMarker(s, marker, from) == |s| ==> Masked(s, marker)
  {
    FoundFirst(s, marker, from);
    hide FindMarker, MaskedAt, Occurs;
  }

  /** A pass masks every occurrence of its marker. */
  lemma {:induction false} PassMasks(s: string, marker: string, from: nat)
    requires ApartFromMask(marker) && from <= |s| && MaskedBefore(s, marker, from)
    requires from == 0 || (from >= WIDTH && MaskAt(s, from - WIDTH))
    ensures Masked(RedactFrom(s, marker, from), marker)
    decreases |s| - from
  {
    hide *;
    Nonempty(marker);
    RedactStep(s, marker, from);
    AllMasked(s, marker, from);
    var i := FindMarker(s, marker, from);
    if i < |s| {
      var start := i + |marker|;
      var end := FindDelimiter(s, start);
      ReplaceMasksNext(s, marker, from);
      PassMasks(Replace(s, start, end), marker, start + WIDTH);
    }
  }

  /** A later pass does not undo an earlier one. */
  lemma {:induction false} PassKeeps(s: string, marker: string, from: nat, other: string)
    requires ApartFromMask(marker) && ApartFromMask(other) && Separate(marker, other) && from <= |s|
    requires Masked(s, other)
    ensures Masked(RedactFrom(s, marker, from), other)
    decreases |s| - from
  {
    hide *;
    Nonempty(marker);
    RedactStep(s, marker, from);
    var i := FindMarker(s, marker, from);
    if i < |s| {
      var start := i + |marker|;
      var end := FindDelimiter(s, start);
      ReplaceKeepsMasked(s, marker, i, other);
      PassKeeps(Replace(s, start, end), marker, start + WIDTH, other);
    }
  }

  lemma MaskedHere(s: string, marker: string, i: nat)
    requires Masked(s, marker) && i < |s| && Occurs(s, marker, i)
    ensures MaskedAt(s, marker, i)
  {
  }

  lemma {:induction false} FoundAt(s: string, from: nat, at: nat)
    requires from <= at <= |s| && (at < |s| ==> IsDelimiter(s[at]))
    requires forall k :: from <= k < at ==> !IsDelimiter(s[k])
    ensures FindDelimiter(s, from) == at
    decreases at - from
  {
    hide IsDelimiter;
    if from < at {
      FoundAt(s, from + 1, at);
    }
  }

  /** Masking what is masked puts the same mask there. */
  lemma MaskedAgain(s: string, marker: string, i: nat)
    requires MaskedAt(s, marker, i)
    ensures var start := i + |marker|;
      FindDelimiter(s, start) == start + WIDTH && Replace(s, start, start + WIDTH) == s
  {
    var start := i + |marker|;
    MaskLetters(s, start);
    FoundAt(s, start, start + WIDTH);
    hide IsDelimiter, FindDelimiter;
    assert s[start..start + WIDTH] == MASK;
    assert s == s[..start] + s[start..start + WIDTH] + s[start + WIDTH..];
  }

  /** A pass over a message already masked changes nothing. */
  lemma {:induction false} PassIdle(s: string, marker: string, from: nat)
    requires ApartFromMask(marker) && from <= |s| && Masked(s, marker)
    ensures RedactFrom(s, marker, from) == s
    decreases |s| - from
  {
    hide *;
    Nonempty(marker);
    RedactStep(s, marker, from);
    var i := FindMarker(s, marker, from);
    if i < |s| {
      MaskedHere(s, marker, i);
      MaskedAgain(s, marker, i);
      PassIdle(s, marker, i + |marker| + WIDTH);
    }
  }

  lemma MarkersApart()
    ensures forall i :: 0 <= i < 4 ==> ApartFromMask(MARKERS[i])
    ensures forall i, j :: 0 <= i < 4 && 0 <= j < 4 && i != j ==> Separate(MARKERS[i], MARKERS[j])
  {
    forall i, j | 0 <= i < 4 && 0 <= j < 4 && i != j ensures Separate(MARKERS[i], MARKERS[j]) {
      DifferentEnds(MARKERS[i], MARKERS[j]);
    }
  }

  /** No two markers have the same last three characters. */
  lemma DifferentEnds(marker: string, other: string)
    requires |marker| >= 3 && |other| >= 3 && marker[|marker| - 3..] != other[|other| - 3..]
    ensures Separate(marker, other)
  {
    forall s: string, i: nat, j: nat | Occurs(s, marker, i) && Occurs(s, other, j)
      ensures i + |marker| != j + |other|
    {
      var k :| 0 <= k < 3 && marker[|marker| - 3..][k] != other[|other| - 3..][k];
      assert s[i + |marker| - 3 + k] == marker[|marker| - 3 + k];
      assert s[j + |other| - 3 + k] == other[|other| - 3 + k];
    }
  }

  /** In the result every marker is followed by the mask and then a delimiter or the end. */
  lemma EveryMarkerIsMasked(s: string)
    ensures forall k :: 0 <= k < 4 ==> Masked(Redact(s), MARKERS[k])
  {
    MarkersApart();
    hide RedactFrom, Masked, MaskedBefore, ApartFromMask, Separate;
    var bearer, token, apiKey := AfterPasses(s, 1), AfterPasses(s, 2), AfterPasses(s, 3);
    assert bearer == RedactFrom(s, MARKERS[0], 0) by { OnePass(s, 0); }
    NothingBefore(s, MARKERS[0]);
    PassMasks(s, MARKERS[0], 0);
    NothingBefore(bearer, MARKERS[1]);
    PassMasks(bearer, MARKERS[1], 0);
    PassKeeps(bearer, MARKERS[1], 0, MARKERS[0]);
    NothingBefore(token, MARKERS[2]);
    PassMasks(token, MARKERS[2], 0);
    PassKeeps(token, MARKERS[2], 0, MARKERS[0]);
    PassKeeps(token, MARKERS[2], 0, MARKERS[1]);
    NothingBefore(apiKey, MARKERS[3]);
    PassMasks(apiKey, MARKERS[3], 0);
    PassKeeps(apiKey, MARKERS[3], 0, MARKERS[0]);
    PassKeeps(apiKey, MARKERS[3], 0, MARKERS[1]);
    PassKeeps(apiKey, MARKERS[3], 0, MARKERS[2]);
  }

  lemma OnePass(s: string, k: nat)
    requires k < 4
    ensures AfterPasses(s, 0) == s
    ensures AfterPasses(s, k + 1) == RedactFrom(AfterPasses(s, k), MARKERS[k], 0)
  {
  }

  lemma NothingBefore(s: string, marker: string)
    ensures MaskedBefore(s, marker, 0)
  {
  }

  lemma RedactionIsIdempotent(s: string)
    ensures Redact(Redact(s)) == Redact(s)
  {
    EveryMarkerIsMasked(s);
    MarkersApart();
    hide RedactFrom, Masked, ApartFromMask, Separate;
    var r := Redact(s);
    hide Redact;
    PassIdle(r, MARKERS[0], 0);
    PassIdle(r, MARKERS[1], 0);
    PassIdle(r, MARKERS[2], 0);
    PassIdle(r, MARKERS[3], 0);
    RedactPasses(r);
  }

  lemma RedactPasses(s: string)
    requires forall k :: 0 <= k < 4 ==> RedactFrom(s, MARKERS[k], 0) == s
    ensures Redact(s) == s
  {
    assert AfterPasses(s, 1) == s;
    assert AfterPasses(s, 2) == s;
    assert AfterPasses(s, 3) == s;
  }

  /** A message without markers is left alone. */
  lemma NothingToRedact(s: string)
    requires forall k, i :: 0 <= k < 4 && 0 <= i < |s| ==> !Occurs(s, MARKERS[k], i)
    ensures Redact(s) == s
  {
    RedactPasses(s);
  }

  /** In ASCII text a value ends at white space, an ampersand, a comma or a closing bracket. */
  lemma AsciiDelimiters(c: char)
    requires c as int < 0x80
    ensures IsDelimiter(c) <==>
      c in {' ', '\t', '\n', 0x0B as char, 0x0C as char, '\r', '&', ',', '}', ']'}
  {
  }

  // ---------------------------------------------------------------- and nothing but the values changes

  /** Pieces with something in each gap between them. */
  function Woven(pieces: seq<string>, gaps: seq<string>): string
    requires |pieces| == |gaps| + 1
  {
    if gaps == [] then pieces[0] else pieces[0] + gaps[0] + Woven(pieces[1..], gaps[1..])
  }

  function Masks(n: nat): seq<string> { seq(n, _ => MASK) }

  predicate EndsIn(s: string, marker: string) { |s| >= |marker| && s[|s| - |marker|..] == marker }

  /** A whole value: it follows a marker, holds no delimiter, and ends at one or with the message. */
  predicate IsValue(before: string, value: string, after: string, last: bool, marker: string) {
    EndsIn(before, marker) && (forall c :: c in value ==> !IsDelimiter(c))
    && if after == "" then last else IsDelimiter(after[0])
  }

  /** Each gap is a whole value. */
  predicate ValuesOf(pieces: seq<string>, gaps: seq<string>, marker: string) {
    && |pieces| == |gaps| + 1
    && forall i :: 0 <= i < |gaps| ==> IsValue(pieces[i], gaps[i], pieces[i + 1], i == |gaps| - 1, marker)
  }

  /** One pass changes the values after its marker, each to the mask, and keeps every other character in its place. */
  lemma {:induction false} PassChangesOnlyValues(s: string, marker: string, from: nat)
    returns (pieces: seq<string>, values: seq<string>)
    requires marker != "" && from <= |s|
    ensures ValuesOf(pieces, values, marker) && |pieces[0]| >= from + if values == [] then 0 else |marker|
    ensures s == Woven(pieces, values) && RedactFrom(s, marker, from) == Woven(pieces, Masks(|values|))
    decreases |s| - from
  {
    hide ValuesOf, Occurs, IsDelimiter, Woven;
    var i := FindMarker(s, marker, from);
    if i == |s| {
      pieces, values := [s], [];
      OnePiece(s, marker);
      assert Masks(0) == [];
    } else {
      var start := i + |marker|;
      OccursFits(s, marker, i);
      var end := FindDelimiter(s, start);
      var t := Replace(s, start, end);
      var rest, others := PassChangesOnlyValues(t, marker, start + WIDTH);
      PiecesCount(rest, others, marker);
      OneMoreValue(s, start, end, rest, others);
      MasksMore(s, start, rest, |others|);
      var first := rest[0][start + WIDTH..];
      pieces, values := [s[..start], first] + rest[1..], [s[start..end]] + others;
      FirstValue(s, marker, i, end, first, rest, others);
    }
  }

  /** Taking one value back out of its mask. */
  lemma OneMoreValue(s: string, start: nat, end: nat, rest: seq<string>, others: seq<string>)
    requires start <= end <= |s| && |rest| == |others| + 1 && |rest[0]| >= start + WIDTH
    requires Replace(s, start, end) == Woven(rest, others)
    ensures var first := rest[0][start + WIDTH..];
      && rest[0] == s[..start] + MASK + first && first <= s[end..] && (others == [] ==> first == s[end..])
      && s == Woven([s[..start], first] + rest[1..], [s[start..end]] + others)
  {
    hide Woven;
    var t, front, first := Replace(s, start, end), s[..start] + MASK, rest[0][start + WIDTH..];
    FirstStarts(rest, others);
    assert rest[0][..start + WIDTH] == t[..start + WIDTH] == front;
    assert rest[0] == front + first;
    WeaveMore(front, first, rest, others);
    assert t[|front|..] == s[end..];
    var after := Woven([first] + rest[1..], others);
    assert (front + after)[|front|..] == after;
    FirstStarts([first] + rest[1..], others);
    WovenStep(s[..start], s[start..end], [first] + rest[1..], others);
    assert [s[..start]] + ([first] + rest[1..]) == [s[..start], first] + rest[1..];
    assert s == s[..start] + s[start..end] + s[end..];
  }

  lemma MasksMore(s: string, start: nat, rest: seq<string>, n: nat)
    requires start <= |s| && |rest| == n + 1 && |rest[0]| >= start + WIDTH
    requires rest[0] == s[..start] + MASK + rest[0][start + WIDTH..]
    ensures Woven(rest, Masks(n)) == Woven([s[..start], rest[0][start + WIDTH..]] + rest[1..], Masks(n + 1))
  {
    hide Woven;
    var first := rest[0][start + WIDTH..];
    WeaveMore(s[..start] + MASK, first, rest, Masks(n));
    WovenStep(s[..start], MASK, [first] + rest[1..], Masks(n));
    assert Masks(n + 1) == [MASK] + Masks(n);
    assert [s[..start]] + ([first] + rest[1..]) == [s[..start], first] + rest[1..];
  }

  lemma OnePiece(s: string, marker: string)
    ensures ValuesOf([s], [], marker) && Woven([s], []) == s
  {
  }

  lemma OccursFits(s: string, marker: string, i: nat)
    requires Occurs(s, marker, i)
    ensures i + |marker| <= |s| && EndsIn(s[..i + |marker|], marker)
  {
  }

  lemma PiecesCount(pieces: seq<string>, gaps: seq<string>, marker: string)
    requires ValuesOf(pieces, gaps, marker)
    ensures |pieces| == |gaps| + 1
  {
  }

  lemma FirstStarts(pieces: seq<string>, gaps: seq<string>)
    requires |pieces| == |gaps| + 1
    ensures pieces[0] <= Woven(pieces, gaps) && (gaps == [] ==> pieces[0] == Woven(pieces, gaps))
  {
  }

  lemma WovenStep(piece: string, gap: string, pieces: seq<string>, gaps: seq<string>)
    requires |pieces| == |gaps| + 1
    ensures Woven([piece] + pieces, [gap] + gaps) == piece + gap + Woven(pieces, gaps)
  {
    assert ([piece] + pieces)[1..] == pieces && ([gap] + gaps)[1..] == gaps;
  }

  /** What stands in front of the first piece can be taken off it. */
  lemma WeaveMore(front: string, first: string, pieces: seq<string>, gaps: seq<string>)
    requires |pieces| == |gaps| + 1 && pieces[0] == front + first
    ensures Woven(pieces, gaps) == front + Woven([first] + pieces[1..], gaps)
  {
    hide Woven;
    if gaps == [] {
      FirstStarts(pieces, gaps);
      FirstStarts([first] + pieces[1..], gaps);
    } else {
      var rest := Woven(pieces[1..], gaps[1..]);
      WovenStep(pieces[0], gaps[0], pieces[1..], gaps[1..]);
      WovenStep(first, gaps[0], pieces[1..], gaps[1..]);
      assert [pieces[0]] + pieces[1..] == pieces && [gaps[0]] + gaps[1..] == gaps;
      Associates(front, first, gaps[0], rest);
    }
  }

  lemma Associates(a: string, b: string, c: string, d: string)
    ensures a + b + c + d == a + (b + c + d)
  {
  }

  lemma FirstValue(
      s: string, marker: string, i: nat, end: nat, first: string, rest: seq<string>, others: seq<string>)
    requires marker != "" && Occurs(s, marker, i) && i + |marker| <= end <= |s| && end == FindDelimiter(s, i + |marker|)
    requires ValuesOf(rest, others, marker) && |rest[0]| >= i + |marker| + WIDTH && first == rest[0][i + |marker| + WIDTH..]
    requires others != [] ==> |first| >= |marker|
    requires first <= s[end..] && (others == [] ==> first == s[end..])
    ensures ValuesOf([s[..i + |marker|], first] + rest[1..], [s[i + |marker|..end]] + others, marker)
  {
    hide IsDelimiter, FindDelimiter, EndsIn, Occurs;
    var start := i + |marker|;
    var pieces, gaps := [s[..start], first] + rest[1..], [s[start..end]] + others;
    OccursFits(s, marker, i);
    WholeValue(s, start, end);
    assert first != "" ==> first[0] == s[end];
    assert IsValue(pieces[0], gaps[0], pieces[1], 0 == |gaps| - 1, marker);
    forall k | 0 < k < |gaps| ensures IsValue(pieces[k], gaps[k], pieces[k + 1], k == |gaps| - 1, marker) {
      assert IsValue(rest[k - 1], others[k - 1], rest[k], k - 1 == |others| - 1, marker);
      assert gaps[k] == others[k - 1] && pieces[k + 1] == rest[k];
      if k == 1 {
        SameEnd(rest[0], start + WIDTH, marker);
      } else {
        assert pieces[k] == rest[k - 1];
      }
    }
  }

  lemma SameEnd(s: string, from: nat, marker: string)
    requires from <= |s| && |s| - from >= |marker| && EndsIn(s, marker)
    ensures EndsIn(s[from..], marker)
  {
    assert s[from..][|s| - from - |marker|..] == s[|s| - |marker|..];
  }

  lemma WholeValue(s: string, start: nat, end: nat)
    requires start <= end <= |s| && end == FindDelimiter(s, start)
    ensures forall c :: c in s[start..end] ==> !IsDelimiter(c)
    ensures end < |s| ==> IsDelimiter(s[end])
  {
    FoundFirst(s, "", start);
    forall c | c in s[start..end] ensures !IsDelimiter(c) {
      var k :| 0 <= k < end - start && s[start..end][k] == c;
      assert s[start + k] == c;
    }
  }

  /** `redact_diagnostic`. */
  method RedactDiagnostic(text: string) returns (message: string)
    ensures message == Redact(text)
  {
    hide AfterPasses, RedactFrom;
    OnePass(text, 0);
    message := text;
    for k := 0 to 4
      invariant message == AfterPasses(text, k)
    {
      OnePass(text, k);
      message := RedactMarker(message, MARKERS[k]);
    }
  }

  method RedactMarker(text: string, marker: string) returns (message: string)
    requires marker != ""
    ensures message == RedactFrom(text, marker, 0)
  {
    hide RedactFrom, Replace, Occurs, FindMarker, FindDelimiter;
    message := text;
    var from: nat := 0;
    while true
      invariant from <= |message| && RedactFrom(message, marker, from) == RedactFrom(text, marker, 0)
      decreases |message| - from
    {
      RedactStep(message, marker, from);
      var i := FindMarker(message, marker, from);
      if i == |message| {
        break;
      }
      var start := i + |marker|;
      var end := FindDelimiter(message, start);
      message := Replace(message, start, end);
      from := start + WIDTH;
    }
  }
}
