/**
 What the Claude stream translator says (agent.rs), in terms of the events it heard: which
 lines each event gives, how many of each kind a whole stream gives, and which tokens reach
 the telemetry session.
 */
module ClaudeRecord {
  import opened Common
  import opened Usage
  import opened Bracketing
  import opened Telemetry
  import opened SessionRecord
  import opened ClaudeStream

  /** A result that is no error and has no subtype but success. */
  predicate Succeeds(event: ClaudeEvent) {
    event.Result? && !event.isError && (event.subtype == None || event.subtype == Some("success"))
  }

  // ---------------------------------------------------------------- the lines of one event

  /** A tool call that can be reported. */
  predicate Calls(block: Block, id: string, itemType: ItemType) {
    block.ToolUse? && block.id == Some(id) && block.name.Some? && itemType == ItemTypeOf(block.name.value)
  }

  predicate Answers(block: Block, id: string, status: Status) {
    block.ToolResult? && block.toolUse == Some(id) && status == if block.isError then Failed else Succeeded
  }

  predicate Speaks(block: Block) { block.Thinking? || (block.TextBlock? && block.text.Some? && !BlankText(block.text.value)) }

  /** The lines an event may give. */
  predicate Says(event: ClaudeEvent, line: Line) {
    match line
    case NotAnEvent => event.Diagnostic? || event.ApiRetry? || (event.Result? && !Succeeds(event))
    case ThreadStarted(thread) => event.Init? && thread.Some? && thread == event.session
    case TurnStarted(context) => event.Init? && context.None?
    case TurnCompleted(context, usage) =>
      Succeeds(event) && context.None?
      && usage == (match event.usage case None => None case Some(u) => CanonicalUsage(u))
    case TurnFailed(context) => event.Result? && !Succeeds(event) && context.None?
    case ItemStarted(Some(item)) =>
      event.Assistant? && item.id.Some? && item.status == Succeeded
      && exists block :: block in event.content && Calls(block, item.id.value, item.itemType)
    case ItemCompleted(Some(item)) =>
      (match ToolIdentity(item)
       case None => event.Assistant? && item.status == Succeeded && exists block :: block in event.content && Speaks(block)
       case Some(id) =>
         || (event.User? && exists block :: block in event.content && Answers(block, id, item.status))
         || (event.Result? && item.status == Cancelled))
    case _ => false
  }

  predicate SaysOnly(event: ClaudeEvent, before: seq<Line>, after: seq<Line>) {
    before <= after && forall i :: |before| <= i < |after| ==> Says(event, after[i])
  }

  lemma SaysOne(event: ClaudeEvent, before: seq<Line>, after: seq<Line>, line: Line)
    requires SaysOnly(event, before, after) && Says(event, line)
    ensures SaysOnly(event, before, after + [line])
  {
  }

  /** What each tool counts as, by name; every other tool is one of a server's. */
  lemma ToolsAreNamed(name: string)
    ensures ItemTypeOf(name) == CommandExecution <==> name == "Bash"
    ensures ItemTypeOf(name) == FileChange <==> name in {"Edit", "MultiEdit", "Write", "NotebookEdit"}
    ensures ItemTypeOf(name) == WebSearch <==> name in {"WebSearch", "WebFetch"}
    ensures ItemTypeOf(name) == CollabToolCall <==> name in {"Task", "Agent"}
    ensures ItemTypeOf(name) == McpToolCall <==>
      name !in {"Bash", "Edit", "MultiEdit", "Write", "NotebookEdit", "WebSearch", "WebFetch", "Task", "Agent"}
  {
    assert |"Bash"| == |"Edit"| == |"Task"| == 4 && |"Agent"| == |"Write"| == 5 && |"WebFetch"| == 8
      && |"WebSearch"| == |"MultiEdit"| == 9 && |"NotebookEdit"| == 12;
    assert "Bash"[0] == 'B' && "Edit"[0] == 'E' && "Task"[0] == 'T' && "Agent"[0] == 'A' && "Write"[0] == 'W'
      && "WebSearch"[0] == 'W' && "MultiEdit"[0] == 'M';
  }

  // ---------------------------------------------------------------- how many of each

  datatype Tally = Tally(threads: nat, starts: nat, completed: nat, failed: nat, calls: nat, texts: nat, others: nat)

  const NONE_SAID := Tally(0, 0, 0, 0, 0, 0, 0)

  function Plus(a: Tally, b: Tally): Tally {
    Tally(a.threads + b.threads, a.starts + b.starts, a.completed + b.completed, a.failed + b.failed,
          a.calls + b.calls, a.texts + b.texts, a.others + b.others)
  }

  function TallyOfLine(line: Line): Tally {
    match line
    case NotAnEvent => NONE_SAID.(others := 1)
    case ThreadStarted(_) => NONE_SAID.(threads := 1)
    case TurnStarted(_) => NONE_SAID.(starts := 1)
    case TurnCompleted(_, _) => NONE_SAID.(completed := 1)
    case TurnFailed(_) => NONE_SAID.(failed := 1)
    case ItemStarted(_) => NONE_SAID.(calls := 1)
    case ItemCompleted(_) => if CompletedTool(line).None? then NONE_SAID.(texts := 1) else NONE_SAID
  }

  function TallyOf(lines: seq<Line>): Tally {
    if lines == [] then NONE_SAID else Plus(TallyOf(lines[..|lines| - 1]), TallyOfLine(lines[|lines| - 1]))
  }

  function CallsIn(content: seq<Block>): nat {
    if content == [] then 0
    else
      var block := content[|content| - 1];
      CallsIn(content[..|content| - 1]) + if block.ToolUse? && block.id.Some? && block.name.Some? then 1 else 0
  }

  function TextsIn(content: seq<Block>): nat {
    if content == [] then 0 else TextsIn(content[..|content| - 1]) + if Speaks(content[|content| - 1]) then 1 else 0
  }

  /** What one event adds; the ends of tool calls are counted by what is pending. */
  function TallyOfEvent(event: ClaudeEvent): Tally {
    match event
    case Diagnostic => NONE_SAID.(others := 1)
    case ApiRetry => NONE_SAID.(others := 1)
    case Init(session) => NONE_SAID.(starts := 1, threads := if session.Some? then 1 else 0)
    case Assistant(content) => NONE_SAID.(calls := CallsIn(content), texts := TextsIn(content))
    case Result(_, _, _) => if Succeeds(event) then NONE_SAID.(completed := 1) else NONE_SAID.(failed := 1, others := 1)
    case _ => NONE_SAID
  }

  function TallyOfStream(heard: seq<Heard>): Tally {
    if heard == [] then NONE_SAID
    else Plus(TallyOfStream(heard[..|heard| - 1]), TallyOfEvent(heard[|heard| - 1].event))
  }

  lemma OneMoreSaid(lines: seq<Line>, line: Line)
    ensures TallyOf(lines + [line]) == Plus(TallyOf(lines), TallyOfLine(line))
  {
    assert (lines + [line])[..|lines|] == lines;
  }

  // ---------------------------------------------------------------- each event

  lemma {:induction false} AssistantSays(t: Translation, event: ClaudeEvent, content: seq<Block>)
    requires event.Assistant? && forall block :: block in content ==> block in event.content
    ensures var u := AssistantBlocks(t, content);
      SaysOnly(event, t.lines, u.lines)
      && TallyOf(u.lines) == Plus(TallyOf(t.lines), NONE_SAID.(calls := CallsIn(content), texts := TextsIn(content)))
  {
    hide TallyOf, AssistantBlock;
    if content != [] {
      var front, block := content[..|content| - 1], content[|content| - 1];
      assert block in content;
      AssistantSays(t, event, front);
      BlockSays(AssistantBlocks(t, front), event, block, t.lines);
    }
  }

  lemma BlockSays(t: Translation, event: ClaudeEvent, block: Block, before: seq<Line>)
    requires event.Assistant? && block in event.content && SaysOnly(event, before, t.lines)
    ensures var u := AssistantBlock(t, block);
      && SaysOnly(event, before, u.lines)
      && TallyOf(u.lines) == Plus(TallyOf(t.lines),
           NONE_SAID.(calls := if block.ToolUse? && block.id.Some? && block.name.Some? then 1 else 0,
                      texts := if Speaks(block) then 1 else 0))
  {
    hide TallyOf, SaysOnly, BlankText;
    if block.ToolUse? && ToolItem(block).Some? {
      assert Calls(block, block.id.value, ItemTypeOf(block.name.value));
      SaysOne(event, before, t.lines, ItemStarted(ToolItem(block)));
      OneMoreSaid(t.lines, ItemStarted(ToolItem(block)));
    } else if Speaks(block) {
      var item := Item(if block.Thinking? then Reasoning else AgentMessage, None, Succeeded);
      SaysOne(event, before, t.lines, ItemCompleted(Some(item)));
      OneMoreSaid(t.lines, ItemCompleted(Some(item)));
    }
  }

  /** The ids a message answers. */
  function Answered(content: seq<Block>): set<string> {
    set block | block in content && block.ToolResult? && block.toolUse.Some? :: block.toolUse.value
  }

  lemma AnsweredMore(content: seq<Block>)
    requires content != []
    ensures var block := content[|content| - 1];
      Answered(content) == Answered(content[..|content| - 1])
        + if block.ToolResult? && block.toolUse.Some? then {block.toolUse.value} else {}
  {
    var front, block := content[..|content| - 1], content[|content| - 1];
    assert forall b :: b in content <==> b in front || b == block;
  }

  /** Results complete the calls they answer, each once, and leave every other call pending as it was. */
  lemma {:induction false} UserSays(t: Translation, event: ClaudeEvent, content: seq<Block>)
    requires InvT(t) && event.User? && forall block :: block in content ==> block in event.content
    ensures var u := UserBlocks(t, content);
      && InvT(u) && SaysOnly(event, t.lines, u.lines) && TallyOf(u.lines) == TallyOf(t.lines)
      && u.pending == t.pending - Answered(content) && |u.lines| == |t.lines| + |t.pending| - |u.pending|
  {
    hide TallyOf, InvT, SaysOnly, Answered, UserBlock;
    if content == [] {
      NothingSaid(event, t.lines);
      NothingAnswered(t.pending);
    } else {
      var front, block := content[..|content| - 1], content[|content| - 1];
      assert block in content;
      UserSays(t, event, front);
      AnsweredMore(content);
      var u := UserBlocks(t, front);
      if block.ToolResult? && block.toolUse.Some? && block.toolUse.value in u.pending {
        AnswerSays(u, event, block, t.lines);
        LessPending(t.pending, Answered(front), block.toolUse.value);
      } else {
        IgnoredBlock(u, block);
        if block.ToolResult? && block.toolUse.Some? {
          LessPending(t.pending, Answered(front), block.toolUse.value);
        }
      }
    }
  }

  lemma NothingSaid(event: ClaudeEvent, lines: seq<Line>)
    ensures SaysOnly(event, lines, lines)
  {
  }

  lemma NothingAnswered(pending: map<string, Item>)
    ensures pending - Answered([]) == pending
  {
  }

  lemma LessPending(pending: map<string, Item>, answered: set<string>, id: string)
    ensures (pending - answered) - {id} == pending - (answered + {id})
    ensures id !in pending - answered ==> pending - answered == pending - (answered + {id})
  {
  }

  lemma IgnoredBlock(t: Translation, block: Block)
    requires !(block.ToolResult? && block.toolUse.Some? && block.toolUse.value in t.pending)
    ensures UserBlock(t, block) == t
  {
  }

  lemma AnswerSays(t: Translation, event: ClaudeEvent, block: Block, before: seq<Line>)
    requires InvT(t) && event.User? && block in event.content && SaysOnly(event, before, t.lines)
    requires block.ToolResult? && block.toolUse.Some? && block.toolUse.value in t.pending
    ensures var u := UserBlock(t, block);
      && InvT(u) && SaysOnly(event, before, u.lines) && TallyOf(u.lines) == TallyOf(t.lines)
      && u.pending == t.pending - {block.toolUse.value} && |u.pending| == |t.pending| - 1 && |u.lines| == |t.lines| + 1
  {
    hide TallyOf, SaysOnly, OpenIds, CompletionsAreOpen;
    var id := block.toolUse.value;
    var status := if block.isError then Failed else Succeeded;
    CompleteInv(t, id, status);
    assert Answers(block, id, status);
    assert ToolIdentity(t.pending[id].(status := status)) == Some(id);
    SaysOne(event, before, t.lines, ItemCompleted(Some(t.pending[id].(status := status))));
    OneMoreSaid(t.lines, ItemCompleted(Some(t.pending[id].(status := status))));
    assert (t.pending - {id}).Keys == t.pending.Keys - {id};
  }

  lemma {:induction false} CancelSays(t: Translation, event: ClaudeEvent, order: seq<string>)
    requires InvT(t) && event.Result? && Distinct(order, t.pending.Keys)
    ensures var u := CancelAll(t, order);
      InvT(u) && SaysOnly(event, t.lines, u.lines) && TallyOf(u.lines) == TallyOf(t.lines)
      && |u.lines| == |t.lines| + |order|
  {
    hide TallyOf, InvT, Says;
    if order != [] {
      var front, last := order[..|order| - 1], order[|order| - 1];
      assert last in order;
      CancelSays(t, event, front);
      CancelOneSays(CancelAll(t, front), event, last, t.lines);
    }
  }

  lemma CancelOneSays(t: Translation, event: ClaudeEvent, id: string, before: seq<Line>)
    requires InvT(t) && event.Result? && id in t.pending && SaysOnly(event, before, t.lines)
    ensures var u := Cancel(t, id);
      InvT(u) && SaysOnly(event, before, u.lines) && TallyOf(u.lines) == TallyOf(t.lines)
  {
    hide TallyOf, SaysOnly, OpenIds, CompletionsAreOpen;
    CompleteInv(t, id, Cancelled);
    var line := ItemCompleted(Some(t.pending[id].(status := Cancelled)));
    assert ToolIdentity(line.item.value) == Some(id);
    SaysOne(event, before, t.lines, line);
    OneMoreSaid(t.lines, line);
  }

  lemma ConclusionSays(event: ClaudeEvent, before: seq<Line>, lines: seq<Line>)
    requires event.Result? && SaysOnly(event, before, lines)
    ensures SaysOnly(event, before, lines + Conclusion(event))
    ensures TallyOf(lines + Conclusion(event)) == Plus(TallyOf(lines), TallyOfEvent(event))
  {
    hide TallyOf, SaysOnly;
    var said := Conclusion(event);
    SaysOne(event, before, lines, said[0]);
    OneMoreSaid(lines, said[0]);
    if |said| == 1 {
      assert lines + said == lines + [said[0]];
    } else {
      SaysOne(event, before, lines + [said[0]], said[1]);
      OneMoreSaid(lines + [said[0]], said[1]);
      assert lines + said == lines + [said[0]] + [said[1]];
    }
  }

  /** Every event: only lines it may give, as many of each kind as it has, and nothing left pending by a result. */
  lemma EventSays(t: Translation, event: ClaudeEvent, order: seq<string>)
    requires InvT(t) && Enumerates(order, t.pending.Keys)
    ensures var u := Translate(t, event, order);
      SaysOnly(event, t.lines, u.lines) && TallyOf(u.lines) == Plus(TallyOf(t.lines), TallyOfEvent(event))
    ensures event.User? ==> Translate(t, event, order).pending == t.pending - Answered(event.content)
  {
    hide TallyOf, InvT, Conclusion, SaysOnly, Answered;
    NothingSaid(event, t.lines);
    match event {
      case Assistant(content) => AssistantSays(t, event, content);
      case User(content) => UserSays(t, event, content);
      case Result(_, _, _) =>
        CancelSays(t, event, order);
        ConclusionSays(event, t.lines, CancelAll(t, order).lines);
      case Init(session) => InitSays(t, event);
      case Diagnostic => SaysNext(event, t.lines, t.lines, NotAnEvent);
      case ApiRetry => SaysNext(event, t.lines, t.lines, NotAnEvent);
      case _ =>
    }
  }

  lemma SaysNext(event: ClaudeEvent, before: seq<Line>, lines: seq<Line>, line: Line)
    requires SaysOnly(event, before, lines) && Says(event, line)
    ensures SaysOnly(event, before, lines + [line])
    ensures TallyOf(lines + [line]) == Plus(TallyOf(lines), TallyOfLine(line))
  {
    hide SaysOnly, Says, TallyOf, TallyOfLine;
    SaysOne(event, before, lines, line);
    OneMoreSaid(lines, line);
  }

  lemma InitSays(t: Translation, event: ClaudeEvent)
    requires event.Init?
    ensures var u := Say(if event.session.Some? then Say(t, ThreadStarted(event.session)) else t, TurnStarted(None));
      SaysOnly(event, t.lines, u.lines) && TallyOf(u.lines) == Plus(TallyOf(t.lines), TallyOfEvent(event))
  {
    hide TallyOf, SaysOnly;
    NothingSaid(event, t.lines);
    if event.session.Some? {
      SaysNext(event, t.lines, t.lines, ThreadStarted(event.session));
      SaysNext(event, t.lines, t.lines + [ThreadStarted(event.session)], TurnStarted(None));
    } else {
      SaysNext(event, t.lines, t.lines, TurnStarted(None));
    }
  }

  /**
   Over a whole stream: a turn starts with each init, completes with each result that
   succeeds and fails with each other; each reportable call and each text is said once.
   */
  lemma {:induction false} StreamSays(heard: seq<Heard>)
    requires AllFit(heard)
    ensures TallyOf(TranslateAll(heard).lines) == TallyOfStream(heard)
  {
    hide TallyOfEvent, Translate, Enumerates, InvT;
    if heard != [] {
      var front, last := heard[..|heard| - 1], heard[|heard| - 1];
      StreamSays(front);
      StreamInv(front);
      EventSays(TranslateAll(front), last.event, last.order);
    }
  }

  // ---------------------------------------------------------------- tokens, end to end

  /** What a result reports: Anthropic's counts, cached and uncached input together, when they fit. */
  function ResultTokens(event: ClaudeEvent): TokenConsumption {
    match event
    case Result(_, _, Some(AnthropicUsage(Some(uncached), write, read, Some(output), _))) =>
      var input := uncached + OrZero(write) + OrZero(read);
      if Succeeds(event) && input + output <= U64_MAX then TokenConsumption(input, OrZero(read), output)
      else NOTHING_CONSUMED
    case _ => NOTHING_CONSUMED
  }

  function StreamTokens(heard: seq<Heard>): TokenConsumption {
    if heard == [] then NOTHING_CONSUMED
    else SessionRecord.Plus(StreamTokens(heard[..|heard| - 1]), ResultTokens(heard[|heard| - 1].event))
  }

  function LineTokens(lines: seq<Line>): TokenConsumption {
    if lines == [] then NOTHING_CONSUMED
    else SessionRecord.Plus(LineTokens(lines[..|lines| - 1]), Reported(lines[|lines| - 1]))
  }

  lemma {:induction false} TotalOfLines(steps: seq<Step>)
    ensures Total(steps) == LineTokens(LinesOf(steps))
  {
    if steps != [] {
      TotalOfLines(steps[..|steps| - 1]);
      LinesSnoc(steps);
    }
  }

  /** Only a completed turn among new lines reports tokens. */
  lemma {:induction false} SilentLines(event: ClaudeEvent, before: seq<Line>, after: seq<Line>)
    requires SaysOnly(event, before, after) && !event.Result?
    ensures LineTokens(after) == LineTokens(before)
    decreases |after|
  {
    hide Says;
    if |before| < |after| {
      SilentLines(event, before, after[..|after| - 1]);
      NotATurn(event, after[|after| - 1]);
    } else {
      assert before == after;
    }
  }

  lemma NotATurn(event: ClaudeEvent, line: Line)
    requires Says(event, line) && !event.Result?
    ensures Reported(line) == NOTHING_CONSUMED
  {
  }

  lemma {:induction false} CancelledTokens(t: Translation, order: seq<string>)
    requires Distinct(order, t.pending.Keys)
    ensures LineTokens(CancelAll(t, order).lines) == LineTokens(t.lines)
  {
    hide LineTokens;
    if order != [] {
      var front, last := order[..|order| - 1], order[|order| - 1];
      assert last in order;
      assert forall id :: id in order <==> id == last || id in front;
      CancelledTokens(t, front);
      OneMoreLine(CancelAll(t, front).lines, ItemCompleted(Some(CancelAll(t, front).pending[last].(status := Cancelled))));
    }
  }

  lemma OneMoreLine(lines: seq<Line>, line: Line)
    ensures LineTokens(lines + [line]) == SessionRecord.Plus(LineTokens(lines), Reported(line))
  {
    assert (lines + [line])[..|lines|] == lines;
  }

  lemma ConclusionTokens(event: ClaudeEvent, lines: seq<Line>)
    requires event.Result?
    ensures LineTokens(lines + Conclusion(event)) == SessionRecord.Plus(LineTokens(lines), ResultTokens(event))
  {
    hide LineTokens;
    var said := Conclusion(event);
    OneMoreLine(lines, said[0]);
    if |said| == 1 {
      assert lines + said == lines + [said[0]];
      if event.usage.Some? {
        CanonicalUsagePassesThrough(event.usage.value);
      }
    } else {
      OneMoreLine(lines + [said[0]], said[1]);
      assert lines + said == lines + [said[0]] + [said[1]];
    }
  }

  lemma EventTokens(t: Translation, event: ClaudeEvent, order: seq<string>)
    requires InvT(t) && Enumerates(order, t.pending.Keys)
    ensures LineTokens(Translate(t, event, order).lines) == SessionRecord.Plus(LineTokens(t.lines), ResultTokens(event))
  {
    hide *;
    OrderIsDistinct(order, t.pending.Keys);
    if event.Result? {
      ResultEvent(t, event, order);
      CancelledTokens(t, order);
      ConclusionTokens(event, CancelAll(t, order).lines);
    } else {
      NoResult(event);
      AddsNothing(LineTokens(t.lines));
      EventSays(t, event, order);
      SilentLines(event, t.lines, Translate(t, event, order).lines);
    }
  }

  lemma NoTokens()
    ensures LineTokens(FRESH.lines) == NOTHING_CONSUMED
  {
  }

  lemma ResultEvent(t: Translation, event: ClaudeEvent, order: seq<string>)
    requires event.Result? && Enumerates(order, t.pending.Keys)
    ensures Translate(t, event, order).lines == CancelAll(t, order).lines + Conclusion(event)
  {
  }

  lemma OrderIsDistinct(order: seq<string>, keys: set<string>)
    requires Enumerates(order, keys)
    ensures Distinct(order, keys)
  {
  }

  lemma AddsNothing(tokens: TokenConsumption)
    ensures SessionRecord.Plus(tokens, NOTHING_CONSUMED) == tokens
  {
  }

  lemma NoResult(event: ClaudeEvent)
    requires !event.Result?
    ensures ResultTokens(event) == NOTHING_CONSUMED
  {
  }

  lemma {:induction false} TranslatedTokens(heard: seq<Heard>)
    requires AllFit(heard)
    ensures LineTokens(TranslateAll(heard).lines) == StreamTokens(heard)
  {
    hide Translate, Enumerates, ResultTokens, InvT, LineTokens, SessionRecord.Plus;
    if heard == [] {
      NoTokens();
    } else {
      var front, last := heard[..|heard| - 1], heard[|heard| - 1];
      TranslatedTokens(front);
      StreamInv(front);
      EventTokens(TranslateAll(front), last.event, last.order);
    }
  }

  /** End to end: telemetry counts exactly what the successful results of a Claude stream report, as long as it fits. */
  lemma ClaudeTokensAreTheSum(heard: seq<Heard>, steps: seq<Step>)
    requires AllFit(heard) && OrdersFit(steps) && LinesOf(steps) == TranslateAll(heard).lines
    requires FitsU64(StreamTokens(heard))
    ensures ObserveAll(steps).delta == StreamTokens(heard)
  {
    hide ObserveAll, OrdersFit, AllFit, TranslateAll;
    TotalOfLines(steps);
    TranslatedTokens(heard);
    TokensAreTheSum(steps);
  }
}
