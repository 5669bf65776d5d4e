/** The Claude stream translator (agent.rs): pending tool calls across messages. */
module ClaudeStream {
  import opened Common
  import opened Usage
  import opened Bracketing
  import opened Telemetry

  datatype Block =
    | TextBlock(text: Option<string>)
    | Thinking
    | ToolUse(id: Option<string>, name: Option<string>)
    | ToolResult(toolUse: Option<string>, isError: bool)
    | OtherBlock

  /** A parsed line; `Diagnostic` is output that is not JSON. */
  datatype ClaudeEvent =
    | Blank
    | Diagnostic
    | Init(session: Option<string>)
    | ApiRetry
    | Assistant(content: seq<Block>)
    | User(content: seq<Block>)
    | Result(isError: bool, subtype: Option<string>, usage: Option<AnthropicUsage>)
    | OtherEvent

  predicate BlankText(text: string) { forall i :: 0 <= i < |text| ==> text[i] in " \t\r\n" }

  function ItemTypeOf(name: string): ItemType {
    if name == "Bash" then CommandExecution
    else if name == "Edit" || name == "MultiEdit" || name == "Write" || name == "NotebookEdit" then FileChange
    else if name == "WebSearch" || name == "WebFetch" then WebSearch
    else if name == "Task" || name == "Agent" then CollabToolCall
    else McpToolCall
  }

  /** The canonical item of a tool call, still in progress. */
  function ToolItem(block: Block): Option<Item>
    requires block.ToolUse?
  {
    if block.id.None? || block.name.None? then None
    else Some(Item(ItemTypeOf(block.name.value), block.id, Succeeded))
  }

  // ---------------------------------------------------------------- the translator

  /** `lines` is everything translated so far. */
  datatype Translation = Translation(pending: map<string, Item>, lines: seq<Line>)

  const FRESH := Translation(map[], [])

  function Say(t: Translation, line: Line): Translation { t.(lines := t.lines + [line]) }

  function AssistantBlock(t: Translation, block: Block): Translation {
    match block
    case TextBlock(text) =>
      if text.None? || BlankText(text.value) then t
      else Say(t, ItemCompleted(Some(Item(AgentMessage, None, Succeeded))))
    case Thinking => Say(t, ItemCompleted(Some(Item(Reasoning, None, Succeeded))))
    case ToolUse(_, _) =>
      var item := ToolItem(block);
      if item.None? then t
      else Say(t, ItemStarted(item)).(pending := t.pending[item.value.id.value := item.value])
    case _ => t
  }

  function UserBlock(t: Translation, block: Block): Translation {
    if !block.ToolResult? || block.toolUse.None? || block.toolUse.value !in t.pending then t
    else
      var item := t.pending[block.toolUse.value].(status := if block.isError then Failed else Succeeded);
      Say(t, ItemCompleted(Some(item))).(pending := t.pending - {block.toolUse.value})
  }

  function AssistantBlocks(t: Translation, content: seq<Block>): Translation {
    if content == [] then t
    else AssistantBlock(AssistantBlocks(t, content[..|content| - 1]), content[|content| - 1])
  }

  function UserBlocks(t: Translation, content: seq<Block>): Translation {
    if content == [] then t
    else UserBlock(UserBlocks(t, content[..|content| - 1]), content[|content| - 1])
  }

  function Cancel(t: Translation, id: string): Translation
    requires id in t.pending
  {
    Say(t, ItemCompleted(Some(t.pending[id].(status := Cancelled)))).(pending := t.pending - {id})
  }

  function CancelAll(t: Translation, order: seq<string>): (u: Translation)
    requires Distinct(order, t.pending.Keys)
    ensures u.pending.Keys == t.pending.Keys - (set id | id in order)
  {
    if order == [] then t else
    var last := order[|order| - 1];
    assert last in order;
    assert forall id :: id in order <==> id == last || id in order[..|order| - 1];
    Cancel(CancelAll(t, order[..|order| - 1]), last)
  }

  function Conclusion(event: ClaudeEvent): seq<Line>
    requires event.Result?
  {
    if event.isError || (event.subtype.Some? && event.subtype.value != "success") then
      [NotAnEvent, TurnFailed(None)]
    else
      [TurnCompleted(None, match event.usage case None => None case Some(u) => CanonicalUsage(u))]
  }

  /** `order` is the order in which the pending calls are drained at a result. */
  function Translate(t: Translation, event: ClaudeEvent, order: seq<string>): Translation
    requires Enumerates(order, t.pending.Keys)
  {
    match event
    case Diagnostic => Say(t, NotAnEvent)
    case Init(session) =>
      Say(if session.Some? then Say(t, ThreadStarted(session)) else t, TurnStarted(None))
    case ApiRetry => Say(t, NotAnEvent)
    case Assistant(content) => AssistantBlocks(t, content)
    case User(content) => UserBlocks(t, content)
    case Result(_, _, _) =>
      var u := CancelAll(t, order);
      u.(lines := u.lines + Conclusion(event))
    case _ => t
  }

  // ---------------------------------------------------------------- started but not completed

  function StartedTool(line: Line): Option<string> {
    if line.ItemStarted? && line.item.Some? then ToolIdentity(line.item.value) else None
  }

  function CompletedTool(line: Line): Option<string> {
    if line.ItemCompleted? && line.item.Some? then ToolIdentity(line.item.value) else None
  }

  /** Tool ids whose last mention in the canonical lines is a start. */
  function OpenIds(lines: seq<Line>): set<string> {
    if lines == [] then {} else
    var open, last := OpenIds(lines[..|lines| - 1]), lines[|lines| - 1];
    if StartedTool(last).Some? then open + {StartedTool(last).value}
    else if CompletedTool(last).Some? then open - {CompletedTool(last).value}
    else open
  }

  /** No completion is reported for a tool that is not open at that point. */
  predicate CompletionsAreOpen(lines: seq<Line>) {
    forall i :: 0 <= i < |lines| && CompletedTool(lines[i]).Some? ==> CompletedTool(lines[i]).value in OpenIds(lines[..i])
  }

  ghost predicate InvT(t: Translation) {
    && OpenIds(t.lines) == t.pending.Keys
    && CompletionsAreOpen(t.lines)
    && (forall id :: id in t.pending ==> ToolIdentity(t.pending[id]) == Some(id))
  }

  lemma SayInv(t: Translation, line: Line, pending: map<string, Item>)
    requires InvT(t)
    requires CompletedTool(line).Some? ==> CompletedTool(line).value in t.pending
    requires pending.Keys == (
      if StartedTool(line).Some? then t.pending.Keys + {StartedTool(line).value}
      else if CompletedTool(line).Some? then t.pending.Keys - {CompletedTool(line).value}
      else t.pending.Keys)
    requires forall id :: id in pending ==> ToolIdentity(pending[id]) == Some(id)
    ensures InvT(Translation(pending, t.lines + [line]))
  {
    var lines := t.lines + [line];
    assert lines[..|t.lines|] == t.lines;
    forall i | 0 <= i < |lines| && CompletedTool(lines[i]).Some?
      ensures CompletedTool(lines[i]).value in OpenIds(lines[..i])
    {
      if i < |t.lines| {
        assert lines[..i] == t.lines[..i] && lines[i] == t.lines[i];
      }
    }
  }

  lemma ToolItemIdentity(block: Block)
    requires block.ToolUse? && ToolItem(block).Some?
    ensures ToolIdentity(ToolItem(block).value) == block.id && block.id.Some?
  {
  }

  lemma AssistantBlockInv(t: Translation, block: Block)
    requires InvT(t)
    ensures InvT(AssistantBlock(t, block))
  {
    if block.ToolUse? && ToolItem(block).Some? {
      ToolItemIdentity(block);
      var item := ToolItem(block);
      SayInv(t, ItemStarted(item), t.pending[item.value.id.value := item.value]);
    } else if block.TextBlock? {
      SayInv(t, ItemCompleted(Some(Item(AgentMessage, None, Succeeded))), t.pending);
    } else if block.Thinking? {
      SayInv(t, ItemCompleted(Some(Item(Reasoning, None, Succeeded))), t.pending);
    }
  }

  lemma CompleteInv(t: Translation, id: string, status: Status)
    requires InvT(t) && id in t.pending
    ensures InvT(Say(t, ItemCompleted(Some(t.pending[id].(status := status)))).(pending := t.pending - {id}))
  {
    SayInv(t, ItemCompleted(Some(t.pending[id].(status := status))), t.pending - {id});
  }

  lemma {:induction false} BlocksInv(t: Translation, content: seq<Block>)
    requires InvT(t)
    ensures InvT(AssistantBlocks(t, content)) && InvT(UserBlocks(t, content))
  {
    if content != [] {
      hide InvT, AssistantBlock;
      var front, last := content[..|content| - 1], content[|content| - 1];
      BlocksInv(t, front);
      AssistantBlockInv(AssistantBlocks(t, front), last);
      var u := UserBlocks(t, front);
      if last.ToolResult? && last.toolUse.Some? && last.toolUse.value in u.pending {
        CompleteInv(u, last.toolUse.value, if last.isError then Failed else Succeeded);
      }
    }
  }

  lemma {:induction false} CancelAllInv(t: Translation, order: seq<string>)
    requires InvT(t) && Distinct(order, t.pending.Keys)
    ensures InvT(CancelAll(t, order))
  {
    if order != [] {
      var front, last := order[..|order| - 1], order[|order| - 1];
      assert last in order;
      CancelAllInv(t, front);
      CompleteInv(CancelAll(t, front), last, Cancelled);
    }
  }

  /**
   Every translated stream: the ids started but not completed are exactly the pending calls,
   no completion precedes its start, and after a result nothing is pending.
   */
  lemma TranslateInv(t: Translation, event: ClaudeEvent, order: seq<string>)
    requires InvT(t) && Enumerates(order, t.pending.Keys)
    ensures InvT(Translate(t, event, order))
    ensures event.Result? ==> Translate(t, event, order).pending == map[]
  {
    match event {
      case Diagnostic => SayInv(t, NotAnEvent, t.pending);
      case ApiRetry => SayInv(t, NotAnEvent, t.pending);
      case Init(session) =>
        if session.Some? {
          SayInv(t, ThreadStarted(session), t.pending);
          SayInv(Say(t, ThreadStarted(session)), TurnStarted(None), t.pending);
        } else {
          SayInv(t, TurnStarted(None), t.pending);
        }
      case Assistant(content) => BlocksInv(t, content);
      case User(content) => BlocksInv(t, content);
      case Result(_, _, _) => ResultInv(t, event, order);
      case _ =>
    }
  }

  lemma ResultInv(t: Translation, event: ClaudeEvent, order: seq<string>)
    requires event.Result? && InvT(t) && Enumerates(order, t.pending.Keys)
    ensures InvT(Translate(t, event, order)) && Translate(t, event, order).pending == map[]
  {
    CancelAllInv(t, order);
    var u := CancelAll(t, order);
    assert u.pending.Keys == {};
    var said := Conclusion(event);
    SayInv(u, said[0], u.pending);
    if |said| == 1 {
      assert u.lines + said == u.lines + [said[0]];
    } else {
      SayInv(Say(u, said[0]), said[1], u.pending);
      assert u.lines + said == u.lines + [said[0]] + [said[1]];
    }
  }

  // ---------------------------------------------------------------- whole streams, into telemetry

  datatype Heard = Heard(event: ClaudeEvent, order: seq<string>)

  function TranslateAll(heard: seq<Heard>): Translation
    requires AllFit(heard)
    decreases |heard|, 2
  {
    if heard == [] then FRESH
    else Translate(TranslateAll(heard[..|heard| - 1]), heard[|heard| - 1].event, heard[|heard| - 1].order)
  }

  predicate AllFit(heard: seq<Heard>)
    decreases |heard|, 1
  {
    heard == []
    || (AllFit(heard[..|heard| - 1])
        && Enumerates(heard[|heard| - 1].order, TranslateAll(heard[..|heard| - 1]).pending.Keys))
  }

  lemma {:induction false} StreamInv(heard: seq<Heard>)
    requires AllFit(heard)
    ensures InvT(TranslateAll(heard))
    ensures heard != [] && heard[|heard| - 1].event.Result? ==> TranslateAll(heard).pending == map[]
  {
    if heard != [] {
      var last := heard[|heard| - 1];
      StreamInv(heard[..|heard| - 1]);
      TranslateInv(TranslateAll(heard[..|heard| - 1]), last.event, last.order);
    }
  }

  function LinesOf(steps: seq<Step>): seq<Line> { seq(|steps|, i requires 0 <= i < |steps| => steps[i].line) }

  /** A line leaves telemetry with no more open tools than the canonical lines have. */
  lemma ObserveWithinOpen(s: Session, line: Line, order: seq<string>, lines: seq<Line>)
    requires Enumerates(order, s.activeTools.Keys) && s.activeTools.Keys <= OpenIds(lines)
    ensures Observe(s, line, order).activeTools.Keys <= OpenIds(lines + [line])
  {
    assert (lines + [line])[..|lines|] == lines;
  }

  lemma {:induction false} ActiveAreOpen(steps: seq<Step>)
    requires OrdersFit(steps)
    ensures ObserveAll(steps).activeTools.Keys <= OpenIds(LinesOf(steps))
  {
    hide Observe, Enumerates, OpenIds, LinesOf;
    if steps != [] {
      var front, last := steps[..|steps| - 1], steps[|steps| - 1];
      ActiveAreOpen(front);
      ObserveWithinOpen(ObserveAll(front), last.line, last.order, LinesOf(front));
      LinesSnoc(steps);
    }
  }

  lemma LinesSnoc(steps: seq<Step>)
    requires steps != []
    ensures LinesOf(steps) == LinesOf(steps[..|steps| - 1]) + [steps[|steps| - 1].line]
  {
  }

  lemma {:induction false} OrdersFitPrefix(steps: seq<Step>, k: nat)
    requires OrdersFit(steps) && k <= |steps|
    ensures OrdersFit(steps[..k])
  {
    if k < |steps| {
      OrdersFitPrefix(steps[..|steps| - 1], k);
      assert steps[..|steps| - 1][..k] == steps[..k];
    } else {
      assert steps[..k] == steps;
    }
  }

  /**
   The composition: fed a whole Claude stream, the telemetry session is bracketed up to the
   turn at which the counter repeats an index; only calls still pending in the translator can
   be open in telemetry; and when the result arrives none is, so ending the turn never has to
   guess how a tool ended.
   */
  lemma ClaudeSessionIsBracketed(heard: seq<Heard>, steps: seq<Step>, status: Status, order: seq<string>)
    requires AllFit(heard) && OrdersFit(steps) && LinesOf(steps) == TranslateAll(heard).lines
    requires Enumerates(order, ObserveAll(steps).activeTools.Keys)
    ensures var log := Finish(ObserveAll(steps), status, order).log;
      (Bracketed(log) <==> |TurnIndices(log)| <= U32_MAX + 1) && (Bracketed(log) ==> Complete(log))
    ensures ObserveAll(steps).activeTools.Keys <= TranslateAll(heard).pending.Keys
    ensures heard != [] && heard[|heard| - 1].event.Result? ==>
      var k := |steps| - |Conclusion(heard[|heard| - 1].event)|;
      && 0 <= k && OrdersFit(steps[..k]) && ObserveAll(steps[..k]).activeTools == map[]
  {
    hide Observe, Translate, Finish, Bracketed, OpenIds, TurnIndices, Complete;
    SessionIsBracketed(steps, status, order);
    StreamInv(heard);
    ActiveAreOpen(steps);
    if heard != [] && heard[|heard| - 1].event.Result? {
      BeforeConclusion(heard, steps);
    }
  }

  lemma BeforeConclusion(heard: seq<Heard>, steps: seq<Step>)
    requires AllFit(heard) && OrdersFit(steps) && LinesOf(steps) == TranslateAll(heard).lines
    requires heard != [] && heard[|heard| - 1].event.Result?
    ensures var k := |steps| - |Conclusion(heard[|heard| - 1].event)|;
      && 0 <= k && OrdersFit(steps[..k]) && ObserveAll(steps[..k]).activeTools == map[]
  {
    hide Observe, OpenIds, CompletionsAreOpen, Conclusion;
    var t, last := TranslateAll(heard[..|heard| - 1]), heard[|heard| - 1];
    StreamInv(heard[..|heard| - 1]);
    CancelAllInv(t, last.order);
    var u := CancelAll(t, last.order);
    var k := |steps| - |Conclusion(last.event)|;
    assert |LinesOf(steps)| == |u.lines| + |Conclusion(last.event)|;
    OrdersFitPrefix(steps, k);
    ActiveAreOpen(steps[..k]);
    assert LinesOf(steps[..k]) == LinesOf(steps)[..k] == u.lines;
    assert u.pending.Keys == {};
    assert ObserveAll(steps[..k]).activeTools.Keys == {};
  }

  // ---------------------------------------------------------------- the translator object

  class ClaudeStreamTranslator {
    var pending: map<string, Item>
    /** Everything translated so far, in order. */
    var lines: seq<Line>

    ghost function State(): Translation
      reads this
    {
      Translation(pending, lines)
    }

    constructor ()
      ensures State() == FRESH && InvT(State())
    {
      pending, lines := map[], [];
    }

    method TranslateEvent(event: ClaudeEvent) returns (ghost order: seq<string>)
      requires InvT(State())
      modifies this
      ensures Enumerates(order, old(pending.Keys))
      ensures State() == Translate(old(State()), event, order)
      ensures InvT(State()) && (event.Result? ==> pending == map[])
    {
      ghost var before := State();
      order := SomeOrder(pending.Keys);
      match event {
        case Diagnostic =>
          lines := lines + [NotAnEvent];
        case Init(session) =>
          if session.Some? {
            lines := lines + [ThreadStarted(session)];
          }
          lines := lines + [TurnStarted(None)];
        case ApiRetry =>
          lines := lines + [NotAnEvent];
        case Assistant(content) =>
          TranslateAssistant(content);
        case User(content) =>
          TranslateResults(content);
        case Result(_, _, _) =>
          order := CancelPending();
          lines := lines + Conclusion(event);
        case _ =>
      }
      TranslateInv(before, event, order);
    }

    method TranslateAssistant(content: seq<Block>)
      modifies this
      ensures State() == AssistantBlocks(old(State()), content)
    {
      ghost var before := State();
      var i := 0;
      while i < |content|
        invariant 0 <= i <= |content| && State() == AssistantBlocks(before, content[..i])
      {
        var block := content[i];
        assert content[..i + 1][..i] == content[..i];
        match block {
          case TextBlock(text) =>
            if text.Some? && !BlankText(text.value) {
              lines := lines + [ItemCompleted(Some(Item(AgentMessage, None, Succeeded)))];
            }
          case Thinking =>
            lines := lines + [ItemCompleted(Some(Item(Reasoning, None, Succeeded)))];
          case ToolUse(_, _) =>
            var item := ToolItem(block);
            if item.Some? {
              lines := lines + [ItemStarted(item)];
              pending := pending[item.value.id.value := item.value];
            }
          case _ =>
        }
        i := i + 1;
      }
      assert content[..|content|] == content;
    }

    method TranslateResults(content: seq<Block>)
      modifies this
      ensures State() == UserBlocks(old(State()), content)
    {
      ghost var before := State();
      var i := 0;
      while i < |content|
        invariant 0 <= i <= |content| && State() == UserBlocks(before, content[..i])
      {
        var block := content[i];
        assert content[..i + 1][..i] == content[..i];
        if block.ToolResult? && block.toolUse.Some? && block.toolUse.value in pending {
          var item := pending[block.toolUse.value].(status := if block.isError then Failed else Succeeded);
          pending := pending - {block.toolUse.value};
          lines := lines + [ItemCompleted(Some(item))];
        }
        i := i + 1;
      }
      assert content[..|content|] == content;
    }

    /** Drains the calls the end of the session interrupted, in any order. */
    method CancelPending() returns (ghost order: seq<string>)
      modifies this
      ensures Enumerates(order, old(pending.Keys))
      ensures State() == CancelAll(old(State()), order)
    {
      hide CancelAll, Distinct, Enumerates;
      ghost var before := State();
      order := [];
      NothingCancelled(before);
      while pending.Keys != {}
        invariant Distinct(order, before.pending.Keys)
        invariant State() == CancelAll(before, order)
        decreases pending.Keys
      {
        var id :| id in pending.Keys;
        CancelOneMore(before, order, id);
        ghost var keys := pending.Keys;
        lines := lines + [ItemCompleted(Some(pending[id].(status := Cancelled)))];
        pending := pending - {id};
        assert pending.Keys == keys - {id};
        order := order + [id];
      }
      AllCancelled(before, order);
    }
  }

  lemma NothingCancelled(t: Translation)
    ensures Distinct([], t.pending.Keys) && CancelAll(t, []) == t
  {
  }

  lemma CancelOneMore(t: Translation, order: seq<string>, id: string)
    requires Distinct(order, t.pending.Keys) && id in CancelAll(t, order).pending.Keys
    ensures Distinct(order + [id], t.pending.Keys)
    ensures CancelAll(t, order + [id]) == Cancel(CancelAll(t, order), id)
  {
    assert (order + [id])[..|order|] == order;
  }

  lemma AllCancelled(t: Translation, order: seq<string>)
    requires Distinct(order, t.pending.Keys) && CancelAll(t, order).pending.Keys == {}
    ensures Enumerates(order, t.pending.Keys)
  {
    forall id | id in t.pending.Keys
      ensures id in order
    {
      assert id !in CancelAll(t, order).pending.Keys;
    }
  }
}
