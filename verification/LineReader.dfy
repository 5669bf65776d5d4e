/**
 The bounded readers of command output (command.rs). Each character is one byte; the
 UTF-8 decoding of a finished line is left out.
 */
module LineReader {
  import opened Common
  import opened Text

  datatype FailureKind = TooMuchOutput | ReadFailed

  datatype Message = Line(text: string) | OversizedLine(bytes: nat) | Failure(kind: FailureKind)

  /** One result of the underlying `read`; an empty chunk, or no further result, is the end of the stream. */
  datatype Read = Chunk(bytes: string) | ReadError

  // ---------------------------------------------------------------- the whole-stream specification

  function DropReturn(line: string): string {
    if line != "" && line[|line| - 1] == '\r' then line[..|line| - 1] else line
  }

  /** A terminated line: its length decides, and only a carriage return before the newline is dropped. */
  function Terminated(line: string, maxLine: nat): Message {
    if |line| > maxLine then OversizedLine(|line|) else Line(DropReturn(line))
  }

  function TerminatedAll(lines: seq<string>, maxLine: nat): seq<Message> {
    seq(|lines|, i requires 0 <= i < |lines| => Terminated(lines[i], maxLine))
  }

  /** The messages for the newline-terminated lines of `data`. */
  function Complete(data: string, maxLine: nat): seq<Message> {
    var lines := Split(data, '\n');
    TerminatedAll(lines[..|lines| - 1], maxLine)
  }

  /** What follows the last newline. */
  function Tail(data: string): string {
    var lines := Split(data, '\n');
    lines[|lines| - 1]
  }

  function Ending(tail: string, maxLine: nat): seq<Message> {
    if |tail| > maxLine then [OversizedLine(|tail|)] else if tail != "" then [Line(tail)] else []
  }

  function WholeStream(data: string, maxLine: nat): seq<Message> {
    Complete(data, maxLine) + Ending(Tail(data), maxLine)
  }

  /** The messages owed for the reads still to come, after `seen`. */
  function Expected(seen: string, input: seq<Read>, maxBytes: nat, maxLine: nat): seq<Message>
    decreases |input|
  {
    if input == [] || input[0] == Chunk("") then WholeStream(seen, maxLine)
    else if input[0] == ReadError then Complete(seen, maxLine) + [Failure(ReadFailed)]
    else if |seen| + |input[0].bytes| > maxBytes then Complete(seen, maxLine) + [Failure(TooMuchOutput)]
    else Expected(seen + input[0].bytes, input[1..], maxBytes, maxLine)
  }

  function FirstOf(messages: seq<Message>, count: nat): seq<Message> {
    if |messages| <= count then messages else messages[..count]
  }

  // ---------------------------------------------------------------- the reader

  class BoundedLineReader {
    const maxBytes: nat
    const maxLine: nat
    /** How many messages are taken before the receiving side hangs up. */
    const accepts: nat
    var pending: string
    var currentLineBytes: nat
    var discarding: bool
    var total: nat
    var sent: seq<Message>

    constructor (maxBytes: nat, maxLine: nat, accepts: nat)
      ensures this.maxBytes == maxBytes && this.maxLine == maxLine && this.accepts == accepts
      ensures Holds("") && total == 0 && sent == []
    {
      this.maxBytes, this.maxLine, this.accepts := maxBytes, maxLine, accepts;
      pending, currentLineBytes, discarding, total, sent := "", 0, false, 0, [];
    }

    /** The reader remembers exactly the unfinished line `tail`, within its own limit. */
    ghost predicate Holds(tail: string)
      reads this
    {
      && currentLineBytes == |tail|
      && (discarding <==> |tail| > maxLine)
      && pending == (if discarding then "" else tail)
      && |pending| <= maxLine
    }

    method Send(message: Message) returns (ok: bool)
      requires |sent| <= accepts
      modifies this`sent
      ensures ok == (|old(sent)| < accepts)
      ensures sent == if ok then old(sent) + [message] else old(sent)
    {
      ok := |sent| < accepts;
      if ok {
        sent := sent + [message];
      }
    }

    /** One segment of a chunk: bytes without a newline, then perhaps the newline. */
    method Segment(content: string, terminated: bool, ghost tail: string) returns (ok: bool)
      requires Holds(tail) && |sent| <= accepts
      modifies this`pending, this`currentLineBytes, this`discarding, this`sent
      ensures |sent| <= accepts && |pending| <= maxLine
      ensures !terminated ==> ok && Holds(tail + content) && sent == old(sent)
      ensures terminated ==> sent == FirstOf(old(sent) + [Terminated(tail + content, maxLine)], accepts)
      ensures terminated ==> ok == (|old(sent)| < accepts)
      ensures terminated && ok ==> Holds("")
    {
      currentLineBytes := currentLineBytes + |content|;
      if !discarding {
        if |pending| + |content| > maxLine {
          pending := "";
          discarding := true;
        } else {
          pending := pending + content;
        }
      }
      if terminated {
        if discarding {
          ok := Send(OversizedLine(currentLineBytes));
        } else {
          if pending != "" && pending[|pending| - 1] == '\r' {
            pending := pending[..|pending| - 1];
          }
          ok := Send(Line(pending));
        }
        if !ok {
          return;
        }
        pending, currentLineBytes, discarding := "", 0, false;
      }
      ok := true;
    }

    /** One chunk, segment by segment; false when the receiver has gone. */
    method Consume(chunk: string, ghost seen: string) returns (ok: bool)
      requires Holds(Tail(seen)) && sent == Complete(seen, maxLine) && |sent| <= accepts
      modifies this`pending, this`currentLineBytes, this`discarding, this`sent
      ensures |pending| <= maxLine
      ensures ok ==> Holds(Tail(seen + chunk)) && sent == Complete(seen + chunk, maxLine) && |sent| <= accepts
      ensures !ok ==> |sent| == accepts < |Complete(seen + chunk, maxLine)| && sent == FirstOf(Complete(seen + chunk, maxLine), accepts)
    {
      hide Complete, Tail, Terminated, Split, Find;
      var start := 0;
      assert seen + chunk[..0] == seen;
      while start < |chunk|
        invariant 0 <= start <= |chunk|
        invariant Holds(Tail(seen + chunk[..start])) && |sent| <= accepts
        invariant sent == Complete(seen + chunk[..start], maxLine)
      {
        var rest := chunk[start..];
        var end := Find(rest, '\n');
        var content := rest[..end];
        var terminated := end < |rest|;
        ghost var before := seen + chunk[..start];
        var next := start + end + (if terminated then 1 else 0);
        ghost var segment := if terminated then content + "\n" else content;
        assert seen + chunk[..next] == before + segment;
        AppendSegment(before, content, terminated, maxLine);
        ok := Segment(content, terminated, Tail(before));
        if !ok {
          assert seen + chunk == before + segment + chunk[next..];
          CompleteGrows(before + segment, chunk[next..], maxLine);
          return;
        }
        start := next;
      }
      assert chunk[..start] == chunk;
      ok := true;
    }

    /** The reading thread over a whole sequence of reads. */
    method ReadAll(input: seq<Read>)
      requires Holds("") && total == 0 && sent == []
      modifies this
      ensures sent == FirstOf(Expected("", input, maxBytes, maxLine), accepts)
      ensures |pending| <= maxLine
    {
      ghost var seen := "";
      var i := 0;
      SplitWhole("", '\n');
      assert Complete("", maxLine) == [];
      while true
        invariant 0 <= i <= |input| && total == |seen|
        invariant Holds(Tail(seen)) && sent == Complete(seen, maxLine) && |sent| <= accepts
        invariant Expected("", input, maxBytes, maxLine) == Expected(seen, input[i..], maxBytes, maxLine)
        decreases |input| - i
      {
        if i == |input| || input[i] == Chunk("") {
          if discarding {
            var _ := Send(OversizedLine(currentLineBytes));
          } else if pending != "" {
            var _ := Send(Line(pending));
          }
          return;
        }
        if input[i] == ReadError {
          var _ := Send(Failure(ReadFailed));
          return;
        }
        var chunk := input[i].bytes;
        total := total + |chunk|;
        if total > maxBytes {
          var _ := Send(Failure(TooMuchOutput));
          return;
        }
        var ok := Consume(chunk, seen);
        seen := seen + chunk;
        i := i + 1;
        if !ok {
          ExpectedExtends(seen, input[i..], maxBytes, maxLine);
          return;
        }
      }
    }
  }

  // ---------------------------------------------------------------- how the specification grows

  lemma AppendSegment(data: string, content: string, terminated: bool, maxLine: nat)
    requires '\n' !in content
    ensures !terminated ==> Tail(data + content) == Tail(data) + content && Complete(data + content, maxLine) == Complete(data, maxLine)
    ensures terminated ==> Tail(data + (content + "\n")) == ""
    ensures terminated ==> Complete(data + (content + "\n"), maxLine) == Complete(data, maxLine) + [Terminated(Tail(data) + content, maxLine)]
  {
    if terminated {
      SplitWhole("", '\n');
      SplitSeparator(content, '\n', "");
      assert content + "\n" == content + ['\n'] + "";
      SplitConcat(data, content + "\n", '\n');
    } else {
      SplitWhole(content, '\n');
      SplitConcat(data, content, '\n');
    }
  }

  /** More data only adds messages: those already complete never change. */
  lemma CompleteGrows(data: string, more: string, maxLine: nat)
    ensures Complete(data, maxLine) <= Complete(data + more, maxLine)
  {
    SplitConcat(data, more, '\n');
  }

  lemma {:induction false} ExpectedExtends(seen: string, input: seq<Read>, maxBytes: nat, maxLine: nat)
    ensures Complete(seen, maxLine) <= Expected(seen, input, maxBytes, maxLine)
    decreases |input|
  {
    if input != [] && input[0].Chunk? && input[0].bytes != "" && |seen| + |input[0].bytes| <= maxBytes {
      ExpectedExtends(seen + input[0].bytes, input[1..], maxBytes, maxLine);
      CompleteGrows(seen, input[0].bytes, maxLine);
    }
  }

  // ---------------------------------------------------------------- chunk invariance

  function Chunks(parts: seq<string>): seq<Read> {
    seq(|parts|, i requires 0 <= i < |parts| => Chunk(parts[i]))
  }

  lemma {:induction false} ExpectedOfChunks(seen: string, parts: seq<string>, maxBytes: nat, maxLine: nat)
    requires "" !in parts && |seen| + |Flatten(parts)| <= maxBytes
    ensures Expected(seen, Chunks(parts), maxBytes, maxLine) == WholeStream(seen + Flatten(parts), maxLine)
    decreases |parts|
  {
    if parts == [] {
      assert seen + Flatten(parts) == seen;
    } else {
      assert Chunks(parts)[1..] == Chunks(parts[1..]);
      assert seen + Flatten(parts) == seen + parts[0] + Flatten(parts[1..]);
      ExpectedOfChunks(seen + parts[0], parts[1..], maxBytes, maxLine);
    }
  }

  /** Within the limit, the messages depend on the stream alone, not on how it was cut into chunks. */
  lemma ChunkInvariance(parts: seq<string>, other: seq<string>, maxBytes: nat, maxLine: nat)
    requires "" !in parts && "" !in other && Flatten(parts) == Flatten(other) && |Flatten(parts)| <= maxBytes
    ensures Expected("", Chunks(parts), maxBytes, maxLine) == Expected("", Chunks(other), maxBytes, maxLine)
      == WholeStream(Flatten(parts), maxLine)
  {
    ExpectedOfChunks("", parts, maxBytes, maxLine);
    ExpectedOfChunks("", other, maxBytes, maxLine);
    assert "" + Flatten(parts) == Flatten(parts);
  }

  /** Past the limit: a prefix of the stream's messages, then exactly one failure. */
  lemma {:induction false} PastTheLimit(seen: string, parts: seq<string>, maxBytes: nat, maxLine: nat)
    requires "" !in parts && |seen| <= maxBytes < |seen| + |Flatten(parts)|
    ensures var messages := Expected(seen, Chunks(parts), maxBytes, maxLine);
      messages != [] && messages[|messages| - 1] == Failure(TooMuchOutput)
      && messages[..|messages| - 1] <= Complete(seen + Flatten(parts), maxLine)
    decreases |parts|
  {
    assert parts != [];
    var data := seen + Flatten(parts);
    if |seen| + |parts[0]| > maxBytes {
      CompleteGrows(seen, Flatten(parts), maxLine);
      assert (Complete(seen, maxLine) + [Failure(TooMuchOutput)])[..|Complete(seen, maxLine)|] == Complete(seen, maxLine);
    } else {
      assert Chunks(parts)[1..] == Chunks(parts[1..]);
      assert data == seen + parts[0] + Flatten(parts[1..]);
      PastTheLimit(seen + parts[0], parts[1..], maxBytes, maxLine);
    }
  }

  /** No byte is lost or moved: the lines and the tail, rejoined, are the stream. */
  lemma LinesCoverTheStream(data: string)
    ensures Join(Split(data, '\n'), '\n') == data
    ensures forall i :: 0 <= i < |Split(data, '\n')| ==> '\n' !in Split(data, '\n')[i]
  {
    SplitJoins(data, '\n');
  }

  // ---------------------------------------------------------------- what a program wrote comes back

  /** A line as a program ends it: with a newline, or with a carriage return and a newline. */
  datatype Written = Written(text: string, dos: bool)

  function Bytes(line: Written): string { line.text + (if line.dos then "\r" else "") }

  /** Without a newline inside, and without a carriage return that would read as part of the end. */
  predicate OneLine(line: Written) {
    '\n' !in line.text && (!line.dos && line.text != "" ==> line.text[|line.text| - 1] != '\r')
  }

  function Output(lines: seq<Written>): string {
    if lines == [] then "" else Bytes(lines[0]) + ['\n'] + Output(lines[1..])
  }

  /** The line comes back without its end, or only its length when that is too much. */
  function Heard(line: Written, maxLine: nat): Message {
    if |Bytes(line)| > maxLine then OversizedLine(|Bytes(line)|) else Line(line.text)
  }

  function HeardAll(lines: seq<Written>, maxLine: nat): seq<Message> {
    if lines == [] then [] else [Heard(lines[0], maxLine)] + HeardAll(lines[1..], maxLine)
  }

  lemma TerminatedIsHeard(line: Written, maxLine: nat)
    requires OneLine(line)
    ensures Terminated(Bytes(line), maxLine) == Heard(line, maxLine)
  {
    if line.dos {
      assert Bytes(line)[..|Bytes(line)| - 1] == line.text;
    } else {
      assert Bytes(line) == line.text;
    }
  }

  /**
   Everything a program writes comes back: each line without its end, in order, and last what
   follows the last newline, if anything does, with nothing taken off.
   */
  lemma {:induction false} OutputComesBack(lines: seq<Written>, tail: string, maxLine: nat)
    requires forall i :: 0 <= i < |lines| ==> OneLine(lines[i])
    requires '\n' !in tail
    ensures WholeStream(Output(lines) + tail, maxLine)
      == HeardAll(lines, maxLine)
         + if tail == "" then [] else if |tail| > maxLine then [OversizedLine(|tail|)] else [Line(tail)]
  {
    hide WholeStream, Heard, OneLine, Terminated, Bytes;
    if lines == [] {
      assert Output(lines) + tail == tail;
      TailOnly(tail, maxLine);
    } else {
      var first, rest := Bytes(lines[0]), Output(lines[1..]) + tail;
      OutputComesBack(lines[1..], tail, maxLine);
      OneLineHasNoNewline(lines[0]);
      FirstLine(first, rest, maxLine);
      TerminatedIsHeard(lines[0], maxLine);
      assert Output(lines) + tail == first + ['\n'] + rest;
    }
  }

  lemma TailOnly(tail: string, maxLine: nat)
    requires '\n' !in tail
    ensures WholeStream(tail, maxLine) == if tail == "" then [] else if |tail| > maxLine then [OversizedLine(|tail|)] else [Line(tail)]
  {
    SplitWhole(tail, '\n');
    assert Split(tail, '\n')[..0] == [];
  }

  lemma OneLineHasNoNewline(line: Written)
    requires OneLine(line)
    ensures '\n' !in Bytes(line)
  {
  }

  lemma FirstLine(first: string, rest: string, maxLine: nat)
    requires '\n' !in first
    ensures WholeStream(first + ['\n'] + rest, maxLine) == [Terminated(first, maxLine)] + WholeStream(rest, maxLine)
  {
    SplitSeparator(first, '\n', rest);
    hide Split;
    var data := first + ['\n'] + rest;
    var lines, others := Split(data, '\n'), Split(rest, '\n');
    assert lines == [first] + others;
    assert lines[..|lines| - 1] == [first] + others[..|others| - 1];
    assert TerminatedAll(lines[..|lines| - 1], maxLine)
      == [Terminated(first, maxLine)] + TerminatedAll(others[..|others| - 1], maxLine);
  }

  /** Chunks within the limit only move the reading on. */
  lemma {:induction false} ExpectedAfter(seen: string, parts: seq<string>, input: seq<Read>, maxBytes: nat, maxLine: nat)
    requires "" !in parts && |seen| + |Flatten(parts)| <= maxBytes
    ensures Expected(seen, Chunks(parts) + input, maxBytes, maxLine) == Expected(seen + Flatten(parts), input, maxBytes, maxLine)
    decreases |parts|
  {
    if parts == [] {
      assert seen + Flatten(parts) == seen && Chunks(parts) + input == input;
    } else {
      assert (Chunks(parts) + input)[1..] == Chunks(parts[1..]) + input;
      assert seen + Flatten(parts) == seen + parts[0] + Flatten(parts[1..]);
      ExpectedAfter(seen + parts[0], parts[1..], input, maxBytes, maxLine);
    }
  }

  /** The two ways a reading fails: every line complete by then, and one failure that says why. */
  lemma FailsExactly(parts: seq<string>, chunk: string, later: seq<Read>, maxBytes: nat, maxLine: nat)
    requires "" !in parts && |Flatten(parts)| <= maxBytes
    ensures Expected("", Chunks(parts) + ([ReadError] + later), maxBytes, maxLine)
      == Complete(Flatten(parts), maxLine) + [Failure(ReadFailed)]
    ensures |Flatten(parts)| + |chunk| > maxBytes ==>
      Expected("", Chunks(parts) + ([Chunk(chunk)] + later), maxBytes, maxLine)
      == Complete(Flatten(parts), maxLine) + [Failure(TooMuchOutput)]
  {
    hide Complete;
    ExpectedAfter("", parts, [ReadError] + later, maxBytes, maxLine);
    ExpectedAfter("", parts, [Chunk(chunk)] + later, maxBytes, maxLine);
    assert "" + Flatten(parts) == Flatten(parts);
  }

  // ---------------------------------------------------------------- bounded capture

  const TRUNCATION_NOTE := "\n[output truncated by rustgrid-agent]\n"

  datatype Captured = Captured(bytes: string, truncated: bool) | CaptureFailed

  /** Everything read before the end of the stream, or nothing after a read error. */
  function Stream(input: seq<Read>): Option<string> {
    if input == [] || input[0] == Chunk("") then Some("")
    else if input[0] == ReadError then None
    else
      match Stream(input[1..])
      case None => None
      case Some(rest) => Some(input[0].bytes + rest)
  }

  /** The captured bytes are the stream cut at the limit; a note marks the cut and nothing else does. */
  function Capture(data: string, limit: nat): Captured {
    if |data| > limit then Captured(data[..limit] + TRUNCATION_NOTE, true) else Captured(data, false)
  }

  /** What is captured starts with the stream up to the limit; if that is not all of it, then a note says so. */
  lemma CapturedExactly(data: string, limit: nat)
    ensures var c := Capture(data, limit);
      && c.Captured? && (c.truncated <==> |data| > limit)
      && (|data| <= limit ==> c.bytes == data)
      && (|data| > limit ==>
            |c.bytes| > limit && c.bytes[..limit] == data[..limit]
            && c.bytes[limit..] == "\n[output truncated by rustgrid-agent]\n")
  {
  }

  function Prepend(seen: string, rest: Option<string>): Option<string> {
    match rest case None => None case Some(data) => Some(seen + data)
  }

  /** What an atomic u64 counter shows after counting to `n`. */
  function Wrapped(n: nat): nat { n % (U64_MAX + 1) }

  lemma WrappedAdd(n: nat, more: nat)
    ensures Wrapped(Wrapped(n) + more) == Wrapped(n + more)
  {
  }

  /** `read_bounded_observed`: the loop of `read_bounded` that also counts what was emitted. */
  method ReadBoundedObserved(input: seq<Read>, limit: nat, emittedBefore: nat)
    returns (captured: Captured, emitted: nat)
    ensures captured == match Stream(input) case None => CaptureFailed case Some(data) => Capture(data, limit)
    ensures Stream(input).Some? ==> emitted == Wrapped(emittedBefore + |Stream(input).value|)
  {
    hide Wrapped;
    var output, truncated, i := "", false, 0;
    emitted := Wrapped(emittedBefore);
    ghost var seen := "";
    assert input[0..] == input;
    assert Stream(input).Some? ==> "" + Stream(input).value == Stream(input).value;
    while i < |input| && input[i] != Chunk("")
      invariant 0 <= i <= |input|
      invariant output == seen[..Min(|seen|, limit)] && (truncated <==> |seen| > limit)
      invariant emitted == Wrapped(emittedBefore + |seen|)
      invariant Stream(input) == Prepend(seen, Stream(input[i..]))
    {
      if input[i] == ReadError {
        return CaptureFailed, emitted;
      }
      var chunk := input[i].bytes;
      WrappedAdd(emittedBefore + |seen|, |chunk|);
      emitted := Wrapped(emitted + |chunk|);
      var remaining := SaturatingSub(limit, |output|);
      if remaining > 0 {
        output := output + chunk[..Min(|chunk|, remaining)];
      }
      truncated := truncated || |chunk| > remaining;
      StreamStep(seen, input[i..]);
      seen := seen + chunk;
      i := i + 1;
    }
    assert seen + "" == seen;
    if truncated {
      output := output + TRUNCATION_NOTE;
    }
    captured := Captured(output, truncated);
  }

  lemma StreamStep(seen: string, input: seq<Read>)
    requires input != [] && input[0].Chunk? && input[0].bytes != ""
    ensures Prepend(seen, Stream(input)) == Prepend(seen + input[0].bytes, Stream(input[1..]))
  {
    if Stream(input).Some? {
      var rest := Stream(input[1..]).value;
      assert seen + (input[0].bytes + rest) == seen + input[0].bytes + rest;
    }
  }

  lemma {:induction false} StreamOfChunks(parts: seq<string>)
    requires "" !in parts
    ensures Stream(Chunks(parts)) == Some(Flatten(parts))
  {
    if parts != [] {
      assert Chunks(parts)[1..] == Chunks(parts[1..]);
      StreamOfChunks(parts[1..]);
    }
  }
}
