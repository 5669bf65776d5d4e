/**
 Architecture boundaries (architecture.rs): the path-glob matcher, who owns a path, and the
 check of changed paths. Text stands for its UTF-8 bytes, one character a byte.
 */
module Architecture {
  import opened Text

  // ---------------------------------------------------------------- the matcher

  /**
   The backtracking matcher, the same at both levels of the source: a star takes any
   number of items, anything else takes the one item it accepts.
   */
  predicate Matches<P, T>(star: P -> bool, one: (P, T) -> bool, pattern: seq<P>, text: seq<T>)
    decreases |pattern|
  {
    if pattern == [] then text == []
    else if star(pattern[0]) then
      exists skip :: 0 <= skip <= |text| && Matches(star, one, pattern[1..], text[skip..])
    else text != [] && one(pattern[0], text[0]) && Matches(star, one, pattern[1..], text[1..])
  }

  predicate StarByte(c: char) { c == '*' }

  predicate TakesByte(c: char, b: char) { c == '?' || c == b }

  predicate MatchSegment(pattern: string, text: string) { Matches(StarByte, TakesByte, pattern, text) }

  predicate StarSegment(segment: string) { segment == "**" }

  predicate MatchSegments(pattern: seq<string>, path: seq<string>) {
    Matches(StarSegment, MatchSegment, pattern, path)
  }

  function StripPrefix(glob: string): string { if "./" <= glob then glob[2..] else glob }

  /** The pattern a glob stands for: a trailing slash takes everything below it. */
  function PatternOf(glob: string): seq<string> {
    var body := StripPrefix(glob);
    Split(if body != "" && body[|body| - 1] == '/' then body[..|body| - 1] + "/**" else body, '/')
  }

  predicate GlobMatches(glob: string, path: string) { MatchSegments(PatternOf(glob), Split(path, '/')) }

  // ---------------------------------------------------------------- the language it decides

  /** Where each pattern item's share of the text ends: a star's share is any, another's one item it accepts. */
  ghost predicate Divides<P, T>(star: P -> bool, one: (P, T) -> bool, pattern: seq<P>, text: seq<T>, cuts: seq<nat>) {
    && |cuts| == |pattern| + 1 && cuts[0] == 0 && cuts[|pattern|] == |text|
    && forall i :: 0 <= i < |pattern| ==> Share(star, one, pattern[i], text, cuts[i], cuts[i + 1])
  }

  predicate Share<P, T>(star: P -> bool, one: (P, T) -> bool, item: P, text: seq<T>, from: nat, to: nat) {
    from <= to <= |text| && (!star(item) ==> to == from + 1 && one(item, text[from]))
  }

  lemma {:induction false} MatchDivides<P, T>(star: P -> bool, one: (P, T) -> bool, pattern: seq<P>, text: seq<T>)
    returns (cuts: seq<nat>)
    requires Matches(star, one, pattern, text)
    ensures Divides(star, one, pattern, text, cuts)
    decreases |pattern|
  {
    if pattern == [] {
      cuts := [0];
    } else {
      var first: nat;
      if star(pattern[0]) {
        first :| 0 <= first <= |text| && Matches(star, one, pattern[1..], text[first..]);
      } else {
        first := 1;
      }
      var rest := MatchDivides(star, one, pattern[1..], text[first..]);
      cuts := [0] + seq(|rest|, i requires 0 <= i < |rest| => rest[i] + first);
      forall i | 0 <= i < |pattern| ensures Share(star, one, pattern[i], text, cuts[i], cuts[i + 1]) {
        if i > 0 {
          assert Share(star, one, pattern[1..][i - 1], text[first..], rest[i - 1], rest[i]);
        }
      }
    }
  }

  lemma CutsAscend<P, T>(star: P -> bool, one: (P, T) -> bool, pattern: seq<P>, text: seq<T>, cuts: seq<nat>, i: nat)
    requires Divides(star, one, pattern, text, cuts) && 1 <= i <= |pattern|
    ensures cuts[1] <= cuts[i] <= |text|
  {
    if i > 1 {
      CutsAscend(star, one, pattern, text, cuts, i - 1);
      assert Share(star, one, pattern[i - 1], text, cuts[i - 1], cuts[i]);
    } else {
      assert Share(star, one, pattern[0], text, cuts[0], cuts[1]);
    }
  }

  lemma {:induction false} DividesMatch<P, T>(star: P -> bool, one: (P, T) -> bool, pattern: seq<P>, text: seq<T>, cuts: seq<nat>)
    requires Divides(star, one, pattern, text, cuts)
    ensures Matches(star, one, pattern, text)
    decreases |pattern|
  {
    if pattern != [] {
      assert Share(star, one, pattern[0], text, cuts[0], cuts[1]);
      var first := cuts[1];
      forall i | 1 <= i <= |pattern| ensures first <= cuts[i] <= |text| {
        CutsAscend(star, one, pattern, text, cuts, i);
      }
      var rest := seq(|pattern|, i requires 0 <= i < |pattern| => (cuts[i + 1] - first) as nat);
      forall i | 0 <= i < |pattern| - 1
        ensures Share(star, one, pattern[1..][i], text[first..], rest[i], rest[i + 1])
      {
        assert Share(star, one, pattern[i + 1], text, cuts[i + 1], cuts[i + 2]);
      }
      DividesMatch(star, one, pattern[1..], text[first..], rest);
    }
  }

  /** The matcher decides exactly its language, at both levels. */
  lemma GlobLanguage(pattern: seq<string>, path: seq<string>, segment: string, text: string)
    ensures MatchSegments(pattern, path) <==>
      exists cuts: seq<nat> :: Divides(StarSegment, MatchSegment, pattern, path, cuts)
    ensures MatchSegment(segment, text) <==>
      exists cuts: seq<nat> :: Divides(StarByte, TakesByte, segment, text, cuts)
  {
    if MatchSegments(pattern, path) {
      var cuts := MatchDivides(StarSegment, MatchSegment, pattern, path);
    }
    forall cuts: seq<nat> | Divides(StarSegment, MatchSegment, pattern, path, cuts) {
      DividesMatch(StarSegment, MatchSegment, pattern, path, cuts);
    }
    if MatchSegment(segment, text) {
      var cuts := MatchDivides(StarByte, TakesByte, segment, text);
    }
    forall cuts: seq<nat> | Divides(StarByte, TakesByte, segment, text, cuts) {
      DividesMatch(StarByte, TakesByte, segment, text, cuts);
    }
  }

  // ---------------------------------------------------------------- the dynamic-programming table

  /** From the row of the rest of the pattern to the row of the whole pattern, right to left. */
  function TableRow<P, T>(star: P -> bool, one: (P, T) -> bool, item: P, text: seq<T>, below: seq<bool>, j: nat): (row: seq<bool>)
    requires |below| == |text| + 1 && j <= |text|
    ensures |row| == |text| + 1 - j
    decreases |text| - j
  {
    if j == |text| then [star(item) && below[j]]
    else
      var tail := TableRow(star, one, item, text, below, j + 1);
      [if star(item) then below[j] || tail[0] else one(item, text[j]) && below[j + 1]] + tail
  }

  /** Entry `j` says whether the pattern matches the text from `j`; quadratic, no backtracking. */
  function Table<P, T>(star: P -> bool, one: (P, T) -> bool, pattern: seq<P>, text: seq<T>): (row: seq<bool>)
    ensures |row| == |text| + 1
  {
    if pattern == [] then seq(|text| + 1, j => j == |text|)
    else TableRow(star, one, pattern[0], text, Table(star, one, pattern[1..], text), 0)
  }

  lemma {:induction false} RowIsRight<P, T>(star: P -> bool, one: (P, T) -> bool, pattern: seq<P>, text: seq<T>, below: seq<bool>, j: nat)
    requires pattern != [] && |below| == |text| + 1 && j <= |text|
    requires forall k :: 0 <= k <= |text| ==> below[k] == Matches(star, one, pattern[1..], text[k..])
    ensures forall k :: 0 <= k <= |text| - j ==>
      TableRow(star, one, pattern[0], text, below, j)[k] == Matches(star, one, pattern, text[j + k..])
    decreases |text| - j
  {
    if j < |text| {
      RowIsRight(star, one, pattern, text, below, j + 1);
      RowStep(star, one, pattern, text, below, j);
      hide Matches, TableRow;
      var row, tail := TableRow(star, one, pattern[0], text, below, j), TableRow(star, one, pattern[0], text, below, j + 1);
      assert row == [row[0]] + tail;
      forall k | 0 <= k <= |text| - j ensures row[k] == Matches(star, one, pattern, text[j + k..]) {
        if k > 0 {
          assert row[k] == tail[k - 1];
          assert j + 1 + (k - 1) == j + k;
        }
      }
    } else {
      assert text[j..] == [];
      assert text[j..][0..] == text[j..];
    }
  }

  lemma RowStep<P, T>(star: P -> bool, one: (P, T) -> bool, pattern: seq<P>, text: seq<T>, below: seq<bool>, j: nat)
    requires pattern != [] && |below| == |text| + 1 && j < |text|
    requires below[j] == Matches(star, one, pattern[1..], text[j..])
    requires below[j + 1] == Matches(star, one, pattern[1..], text[j + 1..])
    requires TableRow(star, one, pattern[0], text, below, j + 1)[0] == Matches(star, one, pattern, text[j + 1 + 0..])
    ensures var row := TableRow(star, one, pattern[0], text, below, j);
      row[0] == Matches(star, one, pattern, text[j + 0..])
      && row == [row[0]] + TableRow(star, one, pattern[0], text, below, j + 1)
  {
    assert text[j..][1..] == text[j + 1..];
    if star(pattern[0]) {
      StarStep(star, one, pattern, text[j..]);
    }
  }

  lemma StarStep<P, T>(star: P -> bool, one: (P, T) -> bool, pattern: seq<P>, text: seq<T>)
    requires pattern != [] && star(pattern[0]) && text != []
    ensures Matches(star, one, pattern, text)
      <==> Matches(star, one, pattern[1..], text) || Matches(star, one, pattern, text[1..])
  {
    var rest := pattern[1..];
    assert text[0..] == text;
    if Matches(star, one, pattern, text) {
      var skip :| 0 <= skip <= |text| && Matches(star, one, rest, text[skip..]);
      if skip > 0 {
        assert text[1..][skip - 1..] == text[skip..];
      }
    }
    if Matches(star, one, pattern, text[1..]) {
      var skip :| 0 <= skip <= |text[1..]| && Matches(star, one, rest, text[1..][skip..]);
      assert text[1..][skip..] == text[skip + 1..];
    }
  }

  /** The backtracking matcher agrees with the table at every position. */
  lemma {:induction false} MatcherIsTable<P, T>(star: P -> bool, one: (P, T) -> bool, pattern: seq<P>, text: seq<T>)
    ensures forall j :: 0 <= j <= |text| ==> Table(star, one, pattern, text)[j] == Matches(star, one, pattern, text[j..])
  {
    if pattern != [] {
      MatcherIsTable(star, one, pattern[1..], text);
      RowIsRight(star, one, pattern, text, Table(star, one, pattern[1..], text), 0);
      forall j | 0 <= j <= |text| ensures Table(star, one, pattern, text)[j] == Matches(star, one, pattern, text[j..]) {
        assert 0 + j == j;
      }
    }
  }

  /** The segment test by a table of its own. */
  predicate SegmentTable(pattern: string, text: string) { Table(StarByte, TakesByte, pattern, text)[0] }

  lemma SegmentIsTable(pattern: string, text: string)
    ensures SegmentTable(pattern, text) == MatchSegment(pattern, text)
  {
    MatcherIsTable(StarByte, TakesByte, pattern, text);
    assert text[0..] == text;
  }

  /** Tests that agree give the same answers. */
  lemma {:induction false} SameTests<P, T>(star: P -> bool, one: (P, T) -> bool, other: (P, T) -> bool, pattern: seq<P>, text: seq<T>)
    requires forall p, t :: one(p, t) == other(p, t)
    ensures Matches(star, one, pattern, text) == Matches(star, other, pattern, text)
    decreases |pattern|
  {
    if pattern != [] {
      forall skip: nat | skip <= |text|
        ensures Matches(star, one, pattern[1..], text[skip..]) == Matches(star, other, pattern[1..], text[skip..])
      {
        SameTests(star, one, other, pattern[1..], text[skip..]);
      }
    }
  }

  /** So a glob is decided by two levels of tables, and no backtracking at either. */
  lemma GlobIsTable(glob: string, path: string)
    ensures GlobMatches(glob, path) == Table(StarSegment, SegmentTable, PatternOf(glob), Split(path, '/'))[0]
  {
    hide Matches, Table;
    var pattern, pieces := PatternOf(glob), Split(path, '/');
    forall segment, text ensures SegmentTable(segment, text) == MatchSegment(segment, text) {
      SegmentIsTable(segment, text);
    }
    SameTests(StarSegment, SegmentTable, MatchSegment, pattern, pieces);
    MatcherIsTable(StarSegment, SegmentTable, pattern, pieces);
    assert pieces[0..] == pieces;
  }

  // ---------------------------------------------------------------- literal directories

  predicate Literal(text: string) { '*' !in text && '?' !in text }

  lemma {:induction false} LiteralSegment(pattern: string, text: string)
    requires Literal(pattern)
    ensures MatchSegment(pattern, text) <==> pattern == text
    decreases |pattern|
  {
    if pattern != "" && text != "" {
      LiteralSegment(pattern[1..], text[1..]);
      assert pattern == [pattern[0]] + pattern[1..] && text == [text[0]] + text[1..];
    }
  }

  lemma {:induction false} LiteralPrefix(pieces: seq<string>, path: seq<string>)
    requires forall i :: 0 <= i < |pieces| ==> Literal(pieces[i])
    ensures MatchSegments(pieces + ["**"], path) <==> pieces <= path
    decreases |pieces|
  {
    var pattern := pieces + ["**"];
    if pieces == [] {
      assert pattern == ["**"] && pattern[1..] == [];
      assert path[|path|..] == [];
      assert Matches(StarSegment, MatchSegment, [], path[|path|..]);
    } else {
      assert pattern[0] == pieces[0] && pattern[1..] == pieces[1..] + ["**"];
      assert !StarSegment(pieces[0]) by {
        assert "**"[0] == '*';
      }
      if path != [] {
        LiteralSegment(pieces[0], path[0]);
        LiteralPrefix(pieces[1..], path[1..]);
        assert pieces <= path <==> pieces[0] == path[0] && pieces[1..] <= path[1..];
      }
    }
  }

  lemma {:induction false} JoinAppend(a: seq<string>, b: seq<string>, c: char)
    requires a != [] && b != []
    ensures Join(a + b, c) == Join(a, c) + [c] + Join(b, c)
  {
    if |a| == 1 {
      assert a + b == [a[0]] + b;
    } else {
      assert (a + b)[1..] == a[1..] + b;
      JoinAppend(a[1..], b, c);
    }
  }

  lemma {:induction false} SplitAt(a: string, b: string, c: char)
    ensures Split(a + [c] + b, c) == Split(a, c) + Split(b, c)
  {
    hide Split;
    var x := Split(a, c);
    var d := [c] + b;
    SplitConcat(a, d, c);
    assert [] + [c] + b == d;
    SplitSeparator("", c, b);
    assert Split(d, c) == [""] + Split(b, c);
    assert a + [c] + b == a + d;
    assert x[|x| - 1] + "" == x[|x| - 1];
    assert x[..|x| - 1] + [x[|x| - 1]] == x;
  }

  lemma DirectoryPattern(d: string, glob: string)
    requires (glob == d + "/" && !("./" <= glob)) || glob == "./" + d + "/"
    ensures PatternOf(glob) == Split(d, '/') + ["**"]
  {
    assert StripPrefix(glob) == d + "/" by {
      if glob == "./" + d + "/" {
        assert glob[..2] == "./" && glob == "./" + (d + "/");
        assert "./" <= glob && glob[2..] == d + "/";
      }
    }
    assert (d + "/")[..|d|] == d;
    assert d + "/**" == d + ['/'] + "**";
    hide Split;
    SplitAt(d, "**", '/');
    SplitWhole("**", '/');
  }

  lemma PiecesBelow(d: string, path: string)
    ensures Split(d, '/') <= Split(path, '/') <==> path == d || d + "/" <= path
  {
    hide Split, Join;
    var pieces, segments := Split(d, '/'), Split(path, '/');
    SplitJoins(d, '/');
    SplitJoins(path, '/');
    if pieces <= segments {
      var below := segments[|pieces|..];
      assert segments == pieces + below;
      if below != [] {
        JoinAppend(pieces, below, '/');
        assert path == (d + "/") + Join(below, '/');
      } else {
        assert segments == pieces;
      }
    }
    if d + "/" <= path {
      var rest := path[|d| + 1..];
      assert path == d + ['/'] + rest;
      SplitAt(d, rest, '/');
    }
  }

  /** `d/`, with or without a leading `./`, matches exactly `d` and everything below it. */
  lemma DirectoryGlob(d: string, glob: string, path: string)
    requires Literal(d)
    requires (glob == d + "/" && !("./" <= glob)) || glob == "./" + d + "/"
    ensures GlobMatches(glob, path) <==> path == d || d + "/" <= path
  {
    hide Split, PatternOf, MatchSegments;
    DirectoryPattern(d, glob);
    PiecesBelow(d, path);
    var pieces := Split(d, '/');
    forall i | 0 <= i < |pieces| ensures Literal(pieces[i]) { PieceIsLiteral(d, i); }
    LiteralPrefix(pieces, Split(path, '/'));
  }

  lemma {:induction false} PieceIsLiteral(d: string, i: nat)
    requires Literal(d) && i < |Split(d, '/')|
    ensures Literal(Split(d, '/')[i])
    decreases |d|
  {
    var k := Find(d, '/');
    if k < |d| && i > 0 {
      PieceIsLiteral(d[k + 1..], i - 1);
    }
  }

  // ---------------------------------------------------------------- boundaries

  datatype Boundary = Boundary(id: string, paths: seq<string>)

  datatype Escalation = Escalation(id: string, open: bool, boundaries: set<string>)

  datatype Contract = Contract(boundaries: seq<Boundary>, declared: seq<string>, escalations: seq<Escalation>)

  datatype Verdict = WithinBoundaries | AwaitingEscalation(id: string) | Escalate(boundaries: set<string>)

  predicate Owns(b: Boundary, path: string) {
    exists i :: 0 <= i < |b.paths| && GlobMatches(b.paths[i], path)
  }

  /** In document order. */
  function OwnersFrom(boundaries: seq<Boundary>, path: string): (owners: seq<string>)
    ensures forall o :: o in owners <==> exists i :: 0 <= i < |boundaries| && boundaries[i].id == o && Owns(boundaries[i], path)
  {
    if boundaries == [] then []
    else
      var rest := OwnersFrom(boundaries[1..], path);
      assert forall i :: 0 < i < |boundaries| ==> boundaries[i] == boundaries[1..][i - 1];
      if Owns(boundaries[0], path) then [boundaries[0].id] + rest else rest
  }

  function Owners(c: Contract, path: string): seq<string> { OwnersFrom(c.boundaries, path) }

  predicate OutOfScope(c: Contract, path: string) {
    Owners(c, path) != [] && forall o :: o in Owners(c, path) ==> o !in c.declared
  }

  /** The boundaries some path crosses into. */
  function Crossed(c: Contract, paths: seq<string>): set<string> {
    set i, o | 0 <= i < |paths| && OutOfScope(c, paths[i]) && o in Owners(c, paths[i]) :: o
  }

  predicate Covers(e: Escalation, request: set<string>) { e.open && request <= e.boundaries }

  /** The first open escalation that already asks for all of it, if any. */
  function FirstCovering(escalations: seq<Escalation>, request: set<string>): (k: nat)
    ensures k <= |escalations|
    ensures forall i :: 0 <= i < k ==> !Covers(escalations[i], request)
    ensures k < |escalations| ==> Covers(escalations[k], request)
  {
    if escalations == [] || Covers(escalations[0], request) then 0
    else
      var k := 1 + FirstCovering(escalations[1..], request);
      assert forall i :: 0 < i < k ==> escalations[i] == escalations[1..][i - 1];
      k
  }

  function VerdictOn(c: Contract, request: set<string>): Verdict {
    var k := FirstCovering(c.escalations, request);
    if k < |c.escalations| then AwaitingEscalation(c.escalations[k].id) else Escalate(request)
  }

  /** The map holds each crossed boundary with exactly the out-of-scope paths it owns. */
  ghost predicate Records(c: Contract, paths: seq<string>, crossings: map<string, seq<string>>) {
    && crossings.Keys == Crossed(c, paths)
    && forall o :: o in crossings ==>
         forall p :: p in crossings[o] <==> p in paths && OutOfScope(c, p) && o in Owners(c, p)
  }

  /** `check_paths`: the crossings with the paths that made them, then the verdict. */
  method CheckPaths(c: Contract, paths: seq<string>) returns (verdict: Verdict, crossings: map<string, seq<string>>)
    ensures c.declared == [] ==> verdict == WithinBoundaries
    ensures c.declared != [] ==> Records(c, paths, crossings)
    ensures c.declared != [] ==>
      verdict == if Crossed(c, paths) == {} then WithinBoundaries else VerdictOn(c, Crossed(c, paths))
  {
    crossings := map[];
    if c.declared == [] {
      return WithinBoundaries, crossings;
    }
    for i := 0 to |paths|
      invariant Records(c, paths[..i], crossings)
    {
      hide Records, OutOfScope, OwnersFrom, Owns;
      assert paths[..i + 1] == paths[..i] + [paths[i]];
      RecordsOneMore(c, paths[..i], crossings, paths[i]);
      if OutOfScope(c, paths[i]) {
        crossings := AddCrossings(crossings, Owners(c, paths[i]), paths[i]);
      }
    }
    assert paths[..|paths|] == paths;
    if crossings.Keys == {} {
      return WithinBoundaries, crossings;
    }
    verdict := VerdictOn(c, crossings.Keys);
  }

  lemma RecordsOneMore(c: Contract, paths: seq<string>, crossings: map<string, seq<string>>, path: string)
    requires Records(c, paths, crossings)
    ensures Records(c, paths + [path],
                    if OutOfScope(c, path) then AddCrossings(crossings, Owners(c, path), path) else crossings)
  {
    hide OutOfScope, OwnersFrom, Owns, Owners, Crossed;
    CrossedOneMore(c, paths, path);
    var after := if OutOfScope(c, path) then AddCrossings(crossings, Owners(c, path), path) else crossings;
    forall o, p | o in after
      ensures p in after[o] <==> p in paths + [path] && OutOfScope(c, p) && o in Owners(c, p)
    {
      if o !in crossings {
        CrossedBy(c, paths, o, p);
      }
    }
  }

  lemma CrossedBy(c: Contract, paths: seq<string>, o: string, p: string)
    ensures p in paths && OutOfScope(c, p) && o in Owners(c, p) ==> o in Crossed(c, paths)
  {
    if p in paths {
      var i :| 0 <= i < |paths| && paths[i] == p;
    }
  }

  lemma CrossedOneMore(c: Contract, paths: seq<string>, path: string)
    ensures Crossed(c, paths + [path]) ==
      Crossed(c, paths) + if OutOfScope(c, path) then (set o | o in Owners(c, path)) else {}
  {
    var all := paths + [path];
    assert forall i :: 0 <= i < |paths| ==> all[i] == paths[i];
    assert all[|paths|] == path;
  }

  function PathsOf(crossings: map<string, seq<string>>, owner: string): seq<string> {
    if owner in crossings then crossings[owner] else []
  }

  function AddCrossings(crossings: map<string, seq<string>>, owners: seq<string>, path: string): (r: map<string, seq<string>>)
    ensures r.Keys == crossings.Keys + (set o | o in owners)
    ensures forall o :: o in r ==>
      forall p :: p in r[o] <==> p in PathsOf(crossings, o) || (o in owners && p == path)
    decreases |owners|
  {
    if owners == [] then crossings
    else
      var first := crossings[owners[0] := PathsOf(crossings, owners[0]) + [path]];
      var r := AddCrossings(first, owners[1..], path);
      assert owners == [owners[0]] + owners[1..];
      r
  }

  /**
   What the check escalates is foreign to the ticket: every boundary in it owns a changed
   path of which no owner is declared. Nothing out of scope passes, and more paths never
   make a crossing disappear.
   */
  lemma CrossingsAreForeign(c: Contract, paths: seq<string>, more: seq<string>)
    ensures forall o :: o in Crossed(c, paths) ==> o !in c.declared
    ensures Crossed(c, paths) == {} <==> forall p :: p in paths ==> !OutOfScope(c, p)
    ensures (forall p :: p in paths ==> p in more) ==> Crossed(c, paths) <= Crossed(c, more)
  {
    hide Owns, OwnersFrom;
    forall o, p | p in paths && OutOfScope(c, p) && o in Owners(c, p) ensures o in Crossed(c, paths) {
      CrossedBy(c, paths, o, p);
    }
    forall p | p in paths && OutOfScope(c, p) ensures Crossed(c, paths) != {} {
      CrossedBy(c, paths, Owners(c, p)[0], p);
    }
    if forall p :: p in paths ==> p in more {
      forall o | o in Crossed(c, paths) ensures o in Crossed(c, more) {
        var i :| 0 <= i < |paths| && OutOfScope(c, paths[i]) && o in Owners(c, paths[i]);
        CrossedBy(c, more, o, paths[i]);
      }
    }
  }

  /** Declaring what was crossed settles the check: nothing is out of scope any more. */
  lemma DeclaringSettles(c: Contract, paths: seq<string>, extra: seq<string>)
    requires forall o :: o in Crossed(c, paths) ==> o in extra
    ensures Crossed(c.(declared := c.declared + extra), paths) == {}
  {
    hide Owns, OwnersFrom;
    var d := c.(declared := c.declared + extra);
    forall i | 0 <= i < |paths| ensures !OutOfScope(d, paths[i]) {
      assert Owners(d, paths[i]) == Owners(c, paths[i]);
      if OutOfScope(c, paths[i]) {
        var o := Owners(c, paths[i])[0];
        assert o in Owners(c, paths[i]);
        CrossedBy(c, paths, o, paths[i]);
      } else if Owners(c, paths[i]) != [] {
        var o :| o in Owners(c, paths[i]) && o in c.declared;
      }
    }
  }
}
