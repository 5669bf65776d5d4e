/**
 The agent telemetry session (telemetry.rs): every transition, the log of events it emits,
 and the proof that the log is bracketed and the budget usage only grows.
 */
module Telemetry {
  import opened Common
  import opened Usage
  import opened Bracketing

  // ---------------------------------------------------------------- observed lines

  datatype ItemType =
    | CommandExecution | McpToolCall | WebSearch | FileChange | ImageGeneration | CollabToolCall
    | AgentMessage | Reasoning | UnknownItem

  /** `status` is how a completion of the item would be reported. */
  datatype Item = Item(itemType: ItemType, id: Option<string>, status: Status)

  datatype Line =
    | NotAnEvent
    | ThreadStarted(thread: Option<string>)
    | TurnStarted(context: Option<nat>)
    | TurnCompleted(context: Option<nat>, usage: Option<UsageObject>)
    | TurnFailed(context: Option<nat>)
    | ItemStarted(item: Option<Item>)
    | ItemCompleted(item: Option<Item>)

  /** The id of an item telemetry treats as a tool. */
  function ToolIdentity(item: Item): Option<string> {
    match item.itemType
    case AgentMessage | Reasoning | UnknownItem => None
    case _ => item.id
  }

  // ---------------------------------------------------------------- the transitions

  datatype Session = Session(
    agent: Option<string>, nextTurn: nat, activeTurn: Option<nat>, activeTools: map<string, nat>,
    completedTools: set<string>, lastModelCall: Option<nat>, delta: TokenConsumption, peak: nat,
    finished: bool, log: seq<Event>)

  function Emit(s: Session, e: Event): Session { s.(log := s.log + [e]) }

  function StartSession(): Session {
    Session(None, 0, None, map[], {}, None, NOTHING_CONSUMED, 0, false,
            [Started(Execution, 0), Started(Phase, 0)])
  }

  function StartTurn(s: Session, context: Option<nat>): Session {
    var i := s.nextTurn;
    var t := s.(nextTurn := SaturatingAdd(Min(i, U32_MAX), 1, U32_MAX), peak := Max(s.peak, OrZero(context)),
                activeTurn := Some(i), lastModelCall := Some(i));
    Emit(Emit(t, Started(Turn(i), i)), Started(ModelCall(i), i))
  }

  function CloseTool(s: Session, id: string, status: Status): Session
    requires id in s.activeTools
  {
    Emit(s.(activeTools := s.activeTools - {id}, completedTools := s.completedTools + {id}),
         Ended(Tool(id), s.activeTools[id], status))
  }

  predicate Distinct(order: seq<string>, keys: set<string>) {
    (forall id :: id in order ==> id in keys) && (forall i, j :: 0 <= i < j < |order| ==> order[i] != order[j])
  }

  /** An order in which a hash map may hand out its keys. */
  predicate Enumerates(order: seq<string>, keys: set<string>) {
    Distinct(order, keys) && (forall id :: id in keys ==> id in order)
  }

  function DrainTools(s: Session, order: seq<string>, status: Status): (t: Session)
    requires Distinct(order, s.activeTools.Keys)
    ensures t.activeTools.Keys == s.activeTools.Keys - (set id | id in order)
    ensures t.nextTurn == s.nextTurn
  {
    if order == [] then s else
    var last := order[|order| - 1];
    assert last in order;
    assert forall id :: id in order <==> id == last || id in order[..|order| - 1];
    CloseTool(DrainTools(s, order[..|order| - 1], status), last, status)
  }

  function Counted(s: Session, usage: NormalizedUsage): TokenConsumption {
    if usage.input.Some? && usage.cached.Some? && usage.output.Some? then
      AddCounts(s.delta, usage.input.value, usage.cached.value, usage.output.value).0
    else s.delta
  }

  function CloseTurn(s: Session, turn: nat, status: Status, usage: NormalizedUsage): Session {
    var t := s.(activeTurn := None, delta := Counted(s, usage));
    Emit(Emit(t, Ended(ModelCall(turn), turn, status)), Ended(Turn(turn), turn, status))
  }

  /** Tools still open when a turn ends did not succeed, even if the turn did. */
  function FinishTurn(s: Session, status: Status, usage: NormalizedUsage, order: seq<string>): Session
    requires Enumerates(order, s.activeTools.Keys)
  {
    if s.activeTurn.None? then s else
    var drained := DrainTools(s, order, if status == Succeeded then Failed else status);
    CloseTurn(drained, s.activeTurn.value, status, usage)
  }

  function StartTool(s: Session, id: string): Session {
    if id in s.completedTools || id in s.activeTools then s else
    var t := if s.activeTurn.None? then StartTurn(s, None) else s;
    Emit(t, Started(Tool(id), t.activeTurn.value)).(activeTools := t.activeTools[id := t.activeTurn.value])
  }

  function CompleteTool(s: Session, id: string, status: Status): Session {
    var t := StartTool(s, id);
    if id in t.activeTools then CloseTool(t, id, status) else s
  }

  function WithTurn(s: Session, context: Option<nat>): Session {
    if s.activeTurn.None? then StartTurn(s, context) else s
  }

  /** `observe_line`. */
  function Observe(s: Session, line: Line, order: seq<string>): Session
    requires Enumerates(order, s.activeTools.Keys)
  {
    match line
    case NotAnEvent => s
    case ThreadStarted(thread) => s.(agent := thread)
    case TurnStarted(context) => StartTurn(FinishTurn(s, Failed, NO_USAGE, order), context)
    case TurnCompleted(context, usage) => FinishTurn(WithTurn(s, context), Succeeded, NormalizeUsage(usage), order)
    case TurnFailed(context) => FinishTurn(WithTurn(s, context), Failed, NO_USAGE, order)
    case ItemStarted(item) =>
      if item.Some? && ToolIdentity(item.value).Some? then StartTool(s, ToolIdentity(item.value).value) else s
    case ItemCompleted(item) =>
      if item.Some? && ToolIdentity(item.value).Some? then
        CompleteTool(s, ToolIdentity(item.value).value, item.value.status)
      else s
  }

  /** `finish`: a session that never started a turn gets one. */
  function Finish(s: Session, status: Status, order: seq<string>): Session
    requires Enumerates(order, s.activeTools.Keys)
  {
    if s.finished then s else
    var t :=
      if s.activeTurn.Some? then FinishTurn(s, status, NO_USAGE, order)
      else if s.lastModelCall.None? then FinishTurn(StartTurn(s, None), status, NO_USAGE, order)
      else s;
    Emit(Emit(t, Ended(Phase, 0, status)), Ended(Execution, 0, status)).(finished := true)
  }

  datatype Step = Step(line: Line, order: seq<string>)

  function ObserveAll(steps: seq<Step>): Session
    requires OrdersFit(steps)
    decreases |steps|, 2
  {
    if steps == [] then StartSession()
    else Observe(ObserveAll(steps[..|steps| - 1]), steps[|steps| - 1].line, steps[|steps| - 1].order)
  }

  predicate OrdersFit(steps: seq<Step>)
    decreases |steps|, 1
  {
    steps == []
    || (OrdersFit(steps[..|steps| - 1])
        && Enumerates(steps[|steps| - 1].order, ObserveAll(steps[..|steps| - 1]).activeTools.Keys))
  }

  // ---------------------------------------------------------------- what every session keeps

  /** The turns a session has started. */
  function Turns(s: Session): nat { |TurnIndices(s.log)| }

  /** The indices a counter that saturates at u32::MAX hands out. */
  function Saturated(n: nat): seq<nat> { seq(n, i requires 0 <= i < n => if i < U32_MAX then i else U32_MAX) }

  /** What holds of every session, whether or not its turn counter has saturated. */
  ghost predicate Sane(s: Session) {
    && TurnIndices(s.log) == Saturated(Turns(s))
    && s.nextTurn == (if Turns(s) < U32_MAX then Turns(s) else U32_MAX)
    && (s.lastModelCall.Some? <==> Turns(s) > 0) && (s.activeTurn.Some? ==> Turns(s) > 0)
    && s.activeTools.Keys !! s.completedTools
    && (s.activeTools != map[] ==> s.activeTurn.Some?)
    && FitsU64(s.delta) && s.delta.cached <= s.delta.input
  }

  /** Nothing telemetry counted is given up. */
  predicate NothingForgotten(s: Session, t: Session) {
    && s.completedTools + s.activeTools.Keys <= t.completedTools + t.activeTools.Keys
    && Turns(s) <= Turns(t) && s.peak <= t.peak && Grows(s.delta, t.delta) && s.finished == t.finished
  }

  lemma OneMoreEvent(log: seq<Event>, e: Event)
    ensures TurnIndices(log + [e]) ==
      TurnIndices(log) + if e.Started? && e.entity.Turn? then [e.entity.index] else []
  {
    assert (log + [e])[..|log|] == log;
  }

  lemma StartSessionSane()
    ensures Sane(StartSession()) && Turns(StartSession()) == 0
  {
    OneMoreEvent([], Started(Execution, 0));
    OneMoreEvent([Started(Execution, 0)], Started(Phase, 0));
    assert [] + [Started(Execution, 0)] == [Started(Execution, 0)];
    assert [Started(Execution, 0)] + [Started(Phase, 0)] == StartSession().log;
  }

  lemma StartTurnSane(s: Session, context: Option<nat>)
    requires Sane(s)
    ensures var t := StartTurn(s, context);
      Sane(t) && Turns(t) == Turns(s) + 1 && NothingForgotten(s, t)
  {
    hide TurnIndices;
    var i := s.nextTurn;
    OneMoreEvent(s.log, Started(Turn(i), i));
    OneMoreEvent(s.log + [Started(Turn(i), i)], Started(ModelCall(i), i));
    assert Saturated(Turns(s)) + [i] == Saturated(Turns(s) + 1);
  }

  lemma CloseToolSane(s: Session, id: string, status: Status)
    requires Sane(s) && id in s.activeTools
    ensures var t := CloseTool(s, id, status);
      Sane(t) && TurnIndices(t.log) == TurnIndices(s.log) && NothingForgotten(s, t)
  {
    hide TurnIndices;
    OneMoreEvent(s.log, Ended(Tool(id), s.activeTools[id], status));
  }

  lemma {:induction false} DrainSane(s: Session, order: seq<string>, status: Status)
    requires Sane(s) && Distinct(order, s.activeTools.Keys)
    ensures var t := DrainTools(s, order, status);
      && Sane(t) && Turns(t) == Turns(s) && NothingForgotten(s, t)
      && t.completedTools == s.completedTools + (set id | id in order)
      && t == s.(activeTools := t.activeTools, completedTools := t.completedTools, log := t.log)
  {
    hide Sane, TurnIndices;
    DeltaFits(s);
    if order != [] {
      var front, last := order[..|order| - 1], order[|order| - 1];
      assert last in order;
      assert forall id :: id in order <==> id == last || id in front;
      DrainSane(s, front, status);
      CloseToolSane(DrainTools(s, front, status), last, status);
    }
  }

  lemma CountedGrows(s: Session, usage: NormalizedUsage)
    requires FitsU64(s.delta) && s.delta.cached <= s.delta.input
    ensures FitsU64(Counted(s, usage)) && Counted(s, usage).cached <= Counted(s, usage).input
    ensures Grows(s.delta, Counted(s, usage))
  {
    if usage.input.Some? && usage.cached.Some? && usage.output.Some? {
      AddCountsGrows(s.delta, usage.input.value, usage.cached.value, usage.output.value);
    }
  }

  lemma DeltaFits(s: Session)
    requires Sane(s)
    ensures FitsU64(s.delta) && s.delta.cached <= s.delta.input && s.nextTurn <= U32_MAX
  {
  }

  lemma CloseTurnSane(s: Session, turn: nat, status: Status, usage: NormalizedUsage)
    requires Sane(s) && s.activeTools == map[]
    ensures var t := CloseTurn(s, turn, status, usage);
      && Sane(t) && Turns(t) == Turns(s) && NothingForgotten(s, t)
      && t == s.(activeTurn := None, delta := t.delta, log := t.log)
  {
    hide TurnIndices, Counted;
    OneMoreEvent(s.log, Ended(ModelCall(turn), turn, status));
    OneMoreEvent(s.log + [Ended(ModelCall(turn), turn, status)], Ended(Turn(turn), turn, status));
    CountedGrows(s, usage);
  }

  lemma DrainAll(s: Session, order: seq<string>, status: Status)
    requires Sane(s) && Enumerates(order, s.activeTools.Keys)
    ensures var t := DrainTools(s, order, status);
      && Sane(t) && Turns(t) == Turns(s) && t.activeTools == map[]
      && t.completedTools == s.completedTools + s.activeTools.Keys
      && t == s.(activeTools := map[], completedTools := t.completedTools, log := t.log)
  {
    hide Sane, TurnIndices;
    DrainSane(s, order, status);
    assert (set id | id in order) == s.activeTools.Keys;
    assert DrainTools(s, order, status).activeTools.Keys == {};
  }

  /** Ending a turn closes its tools and touches nothing else that is counted. */
  lemma FinishTurnSane(s: Session, status: Status, usage: NormalizedUsage, order: seq<string>)
    requires Sane(s) && Enumerates(order, s.activeTools.Keys)
    ensures var t := FinishTurn(s, status, usage, order);
      && Sane(t) && Turns(t) == Turns(s) && NothingForgotten(s, t)
      && t.activeTurn.None? && t.activeTools == map[]
      && t.completedTools == s.completedTools + s.activeTools.Keys && t.lastModelCall == s.lastModelCall
  {
    if s.activeTurn.Some? {
      hide Sane, CloseTurn, TurnIndices;
      var toolStatus := if status == Succeeded then Failed else status;
      DrainAll(s, order, toolStatus);
      CloseTurnSane(DrainTools(s, order, toolStatus), s.activeTurn.value, status, usage);
    }
  }

  lemma FinishTurnAfterStart(s: Session, context: Option<nat>, status: Status, usage: NormalizedUsage, order: seq<string>)
    requires Sane(s) && Enumerates(order, s.activeTools.Keys)
    ensures var t := FinishTurn(WithTurn(s, context), status, usage, order);
      && Sane(t) && Turns(t) == Turns(WithTurn(s, context)) && NothingForgotten(s, t)
      && t.activeTurn.None? && t.activeTools == map[]
  {
    hide Sane, TurnIndices, FinishTurn, StartTurn;
    if s.activeTurn.None? {
      StartTurnSane(s, context);
      StartTurnFrame(s, context);
    }
    DeltaFits(s);
    FinishTurnSane(WithTurn(s, context), status, usage, order);
  }

  lemma StartTurnFrame(s: Session, context: Option<nat>)
    ensures var t := StartTurn(s, context);
      t.activeTools == s.activeTools && t.completedTools == s.completedTools && t.activeTurn.Some?
      && t.finished == s.finished && t.delta == s.delta && s.peak <= t.peak
  {
  }

  lemma StartToolSane(s: Session, id: string)
    requires Sane(s)
    ensures var t := StartTool(s, id);
      && Sane(t) && NothingForgotten(s, t) && (id in t.activeTools || id in s.completedTools)
      && t.completedTools == s.completedTools && s.activeTools.Keys <= t.activeTools.Keys
  {
    hide TurnIndices, StartTurn;
    if id !in s.completedTools && id !in s.activeTools {
      if s.activeTurn.None? {
        StartTurnSane(s, None);
        StartTurnFrame(s, None);
      }
      var t := if s.activeTurn.None? then StartTurn(s, None) else s;
      OneMoreEvent(t.log, Started(Tool(id), t.activeTurn.value));
    }
  }

  lemma CompleteToolSane(s: Session, id: string, status: Status)
    requires Sane(s)
    ensures var t := CompleteTool(s, id, status);
      Sane(t) && NothingForgotten(s, t)
  {
    hide TurnIndices, StartTool, CloseTool, Sane;
    DeltaFits(s);
    StartToolSane(s, id);
    if id in StartTool(s, id).activeTools {
      CloseToolSane(StartTool(s, id), id, status);
    }
  }

  /** Every line, in every session: the counter follows the turns, and nothing counted is forgotten. */
  lemma ObserveSane(s: Session, line: Line, order: seq<string>)
    requires Sane(s) && Enumerates(order, s.activeTools.Keys)
    ensures Sane(Observe(s, line, order)) && NothingForgotten(s, Observe(s, line, order))
  {
    hide Sane, TurnIndices, FinishTurn, StartTurn, StartTool, CompleteTool, WithTurn;
    DeltaFits(s);
    match line {
      case TurnStarted(context) =>
        FinishTurnSane(s, Failed, NO_USAGE, order);
        StartTurnSane(FinishTurn(s, Failed, NO_USAGE, order), context);
      case TurnCompleted(context, usage) =>
        FinishTurnAfterStart(s, context, Succeeded, NormalizeUsage(usage), order);
      case TurnFailed(context) =>
        FinishTurnAfterStart(s, context, Failed, NO_USAGE, order);
      case ItemStarted(item) =>
        if item.Some? && ToolIdentity(item.value).Some? {
          StartToolSane(s, ToolIdentity(item.value).value);
        }
      case ItemCompleted(item) =>
        if item.Some? && ToolIdentity(item.value).Some? {
          CompleteToolSane(s, ToolIdentity(item.value).value, item.value.status);
        }
      case ThreadStarted(thread) => AgentIsFree(s, thread);
      case NotAnEvent =>
    }
  }

  lemma AgentIsFree(s: Session, thread: Option<string>)
    requires Sane(s)
    ensures Sane(s.(agent := thread)) && NothingForgotten(s, s.(agent := thread))
    ensures Inv(s) ==> Inv(s.(agent := thread))
  {
  }

  /** What `finish` does before the phase and the execution end. */
  function EndTurns(s: Session, status: Status, order: seq<string>): Session
    requires Enumerates(order, s.activeTools.Keys)
  {
    if s.activeTurn.Some? || s.lastModelCall.None? then FinishTurn(WithTurn(s, None), status, NO_USAGE, order) else s
  }

  lemma FinishEnds(s: Session, status: Status, order: seq<string>)
    requires Enumerates(order, s.activeTools.Keys) && !s.finished
    ensures var t := EndTurns(s, status, order);
      Finish(s, status, order) ==
        Emit(Emit(t, Ended(Phase, 0, status)), Ended(Execution, 0, status)).(finished := true)
  {
  }

  lemma EndTurnsSane(s: Session, status: Status, order: seq<string>)
    requires Sane(s) && Enumerates(order, s.activeTools.Keys)
    ensures var t := EndTurns(s, status, order);
      Sane(t) && NothingForgotten(s, t) && t.activeTools == map[] && t.activeTurn.None? && Turns(t) > 0
  {
    hide TurnIndices, FinishTurn, StartTurn, WithTurn;
    if s.activeTurn.Some? || s.lastModelCall.None? {
      FinishTurnAfterStart(s, None, status, NO_USAGE, order);
      TurnsWithTurn(s);
    } else {
      DeltaFits(s);
    }
  }

  lemma TurnsWithTurn(s: Session)
    requires Sane(s)
    ensures Turns(WithTurn(s, None)) > 0
    ensures s.lastModelCall.Some? ==> Turns(s) > 0
  {
    hide TurnIndices, StartTurn;
    StartTurnSane(s, None);
  }

  lemma FinishSane(s: Session, status: Status, order: seq<string>)
    requires Sane(s) && !s.finished && Enumerates(order, s.activeTools.Keys)
    ensures var t, f := EndTurns(s, status, order), Finish(s, status, order);
      && Sane(f) && TurnIndices(f.log) == TurnIndices(t.log)
      && f == t.(log := f.log, finished := true)
  {
    hide TurnIndices, EndTurns, Finish;
    FinishEnds(s, status, order);
    EndTurnsSane(s, status, order);
    var t := EndTurns(s, status, order);
    OneMoreEvent(t.log, Ended(Phase, 0, status));
    OneMoreEvent(t.log + [Ended(Phase, 0, status)], Ended(Execution, 0, status));
  }

  // ---------------------------------------------------------------- the session against the acceptor

  /** The acceptor state a session's log should have reached. */
  function View(s: Session): Acceptor {
    var life := if s.finished then Closed else Open;
    var model := if s.activeTurn.Some? then Open else if Turns(s) == 0 then NotYet else Closed;
    Acceptor(life, life, s.activeTurn, model, s.activeTools, s.completedTools, Turns(s))
  }

  ghost predicate Inv(s: Session) {
    && Sane(s)
    && Replay(s.log) == Some(View(s))
    && (s.activeTurn.Some? ==> s.activeTurn.value + 1 == Turns(s) && !s.finished)
    && (forall id :: id in s.activeTools ==> s.activeTurn == Some(s.activeTools[id]))
  }

  lemma StartSessionInv()
    ensures Inv(StartSession())
  {
    StartSessionSane();
    assert Replay([]) == Some(NOTHING);
    ReplayOne([], Started(Execution, 0));
    ReplayOne([Started(Execution, 0)], Started(Phase, 0));
    assert [] + [Started(Execution, 0)] == [Started(Execution, 0)];
    assert [Started(Execution, 0)] + [Started(Phase, 0)] == StartSession().log;
  }

  /** A turn's index is new as long as at most u32::MAX turns came before it. */
  lemma StartTurnInv(s: Session, context: Option<nat>)
    requires Inv(s) && s.activeTurn.None? && !s.finished && Turns(s) <= U32_MAX
    ensures Inv(StartTurn(s, context))
  {
    hide TurnIndices;
    var i := s.nextTurn;
    StartTurnSane(s, context);
    ReplayOne(s.log, Started(Turn(i), i));
    ReplayOne(s.log + [Started(Turn(i), i)], Started(ModelCall(i), i));
  }

  lemma CloseToolInv(s: Session, id: string, status: Status)
    requires Inv(s) && id in s.activeTools
    ensures Inv(CloseTool(s, id, status))
  {
    hide TurnIndices;
    CloseToolSane(s, id, status);
    ReplayOne(s.log, Ended(Tool(id), s.activeTools[id], status));
  }

  lemma {:induction false} DrainKeeps(s: Session, order: seq<string>, status: Status)
    requires Inv(s) && Distinct(order, s.activeTools.Keys)
    ensures Inv(DrainTools(s, order, status))
  {
    hide Inv, TurnIndices;
    if order != [] {
      var front, last := order[..|order| - 1], order[|order| - 1];
      assert last in order;
      DrainKeeps(s, front, status);
      CloseToolInv(DrainTools(s, front, status), last, status);
    }
  }

  lemma CloseTurnInv(s: Session, turn: nat, status: Status, usage: NormalizedUsage)
    requires Inv(s) && s.activeTurn == Some(turn) && s.activeTools == map[]
    ensures Inv(CloseTurn(s, turn, status, usage))
  {
    hide TurnIndices, Counted;
    CloseTurnSane(s, turn, status, usage);
    ReplayOne(s.log, Ended(ModelCall(turn), turn, status));
    ReplayOne(s.log + [Ended(ModelCall(turn), turn, status)], Ended(Turn(turn), turn, status));
  }

  lemma InvSane(s: Session)
    requires Inv(s)
    ensures Sane(s)
  {
  }

  lemma FinishTurnInv(s: Session, status: Status, usage: NormalizedUsage, order: seq<string>)
    requires Inv(s) && Enumerates(order, s.activeTools.Keys)
    ensures Inv(FinishTurn(s, status, usage, order))
  {
    hide Inv, Sane, CloseTurn, TurnIndices;
    InvSane(s);
    if s.activeTurn.Some? {
      var toolStatus := if status == Succeeded then Failed else status;
      DrainKeeps(s, order, toolStatus);
      DrainAll(s, order, toolStatus);
      CloseTurnInv(DrainTools(s, order, toolStatus), s.activeTurn.value, status, usage);
    }
  }

  lemma WithTurnInv(s: Session, context: Option<nat>)
    requires Inv(s) && !s.finished && Turns(WithTurn(s, context)) <= U32_MAX + 1
    ensures Inv(WithTurn(s, context)) && !WithTurn(s, context).finished
  {
    hide Inv, Sane, TurnIndices;
    InvSane(s);
    if s.activeTurn.None? {
      StartTurnSane(s, context);
      StartTurnInv(s, context);
    }
  }

  lemma StartToolInv(s: Session, id: string)
    requires Inv(s) && !s.finished && Turns(StartTool(s, id)) <= U32_MAX + 1
    ensures Inv(StartTool(s, id))
  {
    hide TurnIndices, StartTurn, Sane;
    if id !in s.completedTools && id !in s.activeTools {
      var t := WithTurn(s, None);
      StartToolSane(s, id);
      StartTurnFrame(s, None);
      OneMoreEvent(t.log, Started(Tool(id), t.activeTurn.value));
      WithTurnInv(s, None);
      ReplayOne(t.log, Started(Tool(id), t.activeTurn.value));
    }
  }

  lemma CompleteToolInv(s: Session, id: string, status: Status)
    requires Inv(s) && !s.finished && Turns(CompleteTool(s, id, status)) <= U32_MAX + 1
    ensures Inv(CompleteTool(s, id, status))
  {
    hide Inv, Sane, TurnIndices, StartTool, CloseTool;
    InvSane(s);
    StartToolSane(s, id);
    var t := StartTool(s, id);
    if id in t.activeTools {
      CloseToolSane(t, id, status);
      StartToolInv(s, id);
      CloseToolInv(t, id, status);
    }
  }

  /** What every observation keeps, as long as no turn index has been used twice. */
  lemma ObserveInv(s: Session, line: Line, order: seq<string>)
    requires Inv(s) && !s.finished && Enumerates(order, s.activeTools.Keys)
    requires Turns(Observe(s, line, order)) <= U32_MAX + 1
    ensures Inv(Observe(s, line, order)) && !Observe(s, line, order).finished
  {
    hide Inv, Sane, TurnIndices, FinishTurn, StartTurn, StartTool, CompleteTool, WithTurn;
    InvSane(s);
    ObserveSane(s, line, order);
    match line {
      case TurnStarted(context) =>
        FinishTurnSane(s, Failed, NO_USAGE, order);
        FinishTurnInv(s, Failed, NO_USAGE, order);
        StartTurnSane(FinishTurn(s, Failed, NO_USAGE, order), context);
        StartTurnInv(FinishTurn(s, Failed, NO_USAGE, order), context);
      case TurnCompleted(context, usage) =>
        EndTurnInv(s, context, Succeeded, NormalizeUsage(usage), order);
      case TurnFailed(context) =>
        EndTurnInv(s, context, Failed, NO_USAGE, order);
      case ItemStarted(item) =>
        if item.Some? && ToolIdentity(item.value).Some? {
          StartToolInv(s, ToolIdentity(item.value).value);
        }
      case ItemCompleted(item) =>
        if item.Some? && ToolIdentity(item.value).Some? {
          CompleteToolInv(s, ToolIdentity(item.value).value, item.value.status);
        }
      case ThreadStarted(thread) => AgentIsFree(s, thread);
      case NotAnEvent =>
    }
  }

  lemma EndTurnInv(s: Session, context: Option<nat>, status: Status, usage: NormalizedUsage, order: seq<string>)
    requires Inv(s) && !s.finished && Enumerates(order, s.activeTools.Keys)
    requires Turns(FinishTurn(WithTurn(s, context), status, usage, order)) <= U32_MAX + 1
    ensures Inv(FinishTurn(WithTurn(s, context), status, usage, order))
  {
    hide Inv, Sane, TurnIndices, FinishTurn, StartTurn;
    InvSane(s);
    FinishTurnAfterStart(s, context, status, usage, order);
    WithTurnInv(s, context);
    StartTurnFrame(s, context);
    FinishTurnInv(WithTurn(s, context), status, usage, order);
  }

  /** `finish` closes everything. */
  lemma FinishInv(s: Session, status: Status, order: seq<string>)
    requires Inv(s) && !s.finished && Enumerates(order, s.activeTools.Keys)
    requires Turns(Finish(s, status, order)) <= U32_MAX + 1
    ensures Inv(Finish(s, status, order)) && AllClosed(View(Finish(s, status, order)))
  {
    hide Sane, TurnIndices, Finish, FinishTurn, StartTurn, WithTurn;
    FinishSane(s, status, order);
    EndTurnsSane(s, status, order);
    FinishEnds(s, status, order);
    var t := EndTurns(s, status, order);
    if s.activeTurn.Some? || s.lastModelCall.None? {
      EndTurnInv(s, None, status, NO_USAGE, order);
    }
    ReplayOne(t.log, Ended(Phase, 0, status));
    ReplayOne(t.log + [Ended(Phase, 0, status)], Ended(Execution, 0, status));
  }

  // ---------------------------------------------------------------- whole sessions

  lemma {:induction false} ObserveAllSane(steps: seq<Step>)
    requires OrdersFit(steps)
    ensures Sane(ObserveAll(steps)) && !ObserveAll(steps).finished
  {
    hide Sane, Observe, TurnIndices, Enumerates;
    if steps == [] {
      StartSessionSane();
    } else {
      var s, last := ObserveAll(steps[..|steps| - 1]), steps[|steps| - 1];
      ObserveAllSane(steps[..|steps| - 1]);
      ObserveSane(s, last.line, last.order);
    }
  }

  lemma {:induction false} ObserveAllInv(steps: seq<Step>)
    requires OrdersFit(steps) && Turns(ObserveAll(steps)) <= U32_MAX + 1
    ensures Inv(ObserveAll(steps)) && !ObserveAll(steps).finished
  {
    hide Inv, Sane, Observe, TurnIndices, Enumerates;
    if steps == [] {
      StartSessionInv();
    } else {
      var s, last := ObserveAll(steps[..|steps| - 1]), steps[|steps| - 1];
      ObserveAllSane(steps[..|steps| - 1]);
      ObserveSane(s, last.line, last.order);
      ObserveAllInv(steps[..|steps| - 1]);
      ObserveInv(s, last.line, last.order);
    }
  }

  /** Each start has a later end. */
  ghost predicate Complete(log: seq<Event>) {
    forall i :: 0 <= i < |log| && log[i].Started? ==>
      exists j :: i < j < |log| && log[j].Ended? && log[j].entity == log[i].entity
  }

  /**
   Any sequence of observed lines, any hash-map orders, then `finish`. Turn indices are
   0, 1, 2, … up to u32::MAX, which every later turn repeats. The log is bracketed if and
   only if no index repeats, which is u32::MAX + 1 turns; it then closes everything, so
   each started execution, phase, turn, model call and tool has exactly one later end.
   */
  lemma SessionIsBracketed(steps: seq<Step>, status: Status, order: seq<string>)
    requires OrdersFit(steps) && Enumerates(order, ObserveAll(steps).activeTools.Keys)
    ensures var log := Finish(ObserveAll(steps), status, order).log;
      && TurnIndices(log) == Saturated(|TurnIndices(log)|) && |TurnIndices(log)| > 0
      && (Bracketed(log) <==> |TurnIndices(log)| <= U32_MAX + 1)
      && (Bracketed(log) ==> Complete(log))
  {
    hide Sane, Inv, Observe, ObserveAll, Finish, Bracketed, TurnIndices, Enumerates, EndTurns, AllClosed, View;
    var s := ObserveAll(steps);
    ObserveAllSane(steps);
    EndTurnsSane(s, status, order);
    FinishSane(s, status, order);
    var f := Finish(s, status, order);
    IndicesSaturate(f);
    if Turns(f) <= U32_MAX + 1 {
      SaneTurns(s, status, order);
      ObserveAllInv(steps);
      FinishInv(s, status, order);
      InvReplays(f);
      ClosedLogIsComplete(f.log);
    } else {
      RepeatedTurn(f.log);
    }
  }

  lemma IndicesSaturate(s: Session)
    requires Sane(s)
    ensures TurnIndices(s.log) == Saturated(|TurnIndices(s.log)|)
  {
  }

  lemma SaneTurns(s: Session, status: Status, order: seq<string>)
    requires Sane(s) && !s.finished && Enumerates(order, s.activeTools.Keys)
    ensures Turns(s) <= Turns(Finish(s, status, order))
  {
    hide Sane, TurnIndices, Finish, EndTurns;
    FinishSane(s, status, order);
    EndTurnsSane(s, status, order);
  }

  lemma InvReplays(s: Session)
    requires Inv(s) && AllClosed(View(s))
    ensures Replay(s.log).Some? && AllClosed(Replay(s.log).value)
  {
  }

  /** An index handed out twice starts the same turn twice. */
  lemma RepeatedTurn(log: seq<Event>)
    requires |TurnIndices(log)| > U32_MAX + 1 && TurnIndices(log) == Saturated(|TurnIndices(log)|)
    ensures !Bracketed(log)
  {
    var i := TurnStartedAt(log, U32_MAX);
    var j := TurnStartedAt(log, U32_MAX + 1);
    assert log[i].entity == log[j].entity;
  }

  /** The `k`-th turn of a log starts somewhere, later turns later. */
  lemma {:induction false} TurnStartedAt(log: seq<Event>, k: nat) returns (at: nat)
    requires k < |TurnIndices(log)|
    ensures at < |log| && log[at].Started? && log[at].entity == Turn(TurnIndices(log)[k])
    ensures |TurnIndices(log[..at])| == k
  {
    var front, e := log[..|log| - 1], log[|log| - 1];
    if k < |TurnIndices(front)| {
      at := TurnStartedAt(front, k);
      assert front[..at] == log[..at];
    } else {
      at := |log| - 1;
    }
  }

  /** Lines that only start turns reach any number of them, so the counter does saturate. */
  lemma {:induction false} TurnsCanBeReached(n: nat)
    ensures var steps := seq(n, _ => Step(TurnStarted(None), []));
      OrdersFit(steps) && Turns(ObserveAll(steps)) == n && ObserveAll(steps).activeTools == map[]
  {
    var steps := seq(n, _ => Step(TurnStarted(None), []));
    if n == 0 {
      StartSessionSane();
    } else {
      hide Turns, Observe, Sane;
      var front := seq(n - 1, _ => Step(TurnStarted(None), []));
      assert steps[..n - 1] == front;
      TurnsCanBeReached(n - 1);
      ObserveAllSane(front);
      OneMoreTurn(ObserveAll(front));
    }
  }

  lemma OneMoreTurn(s: Session)
    requires Sane(s) && s.activeTools == map[]
    ensures Enumerates([], s.activeTools.Keys)
    ensures var t := Observe(s, TurnStarted(None), []);
      Turns(t) == Turns(s) + 1 && t.activeTools == map[]
  {
    hide TurnIndices, FinishTurn, StartTurn, Sane;
    FinishTurnSane(s, Failed, NO_USAGE, []);
    StartTurnSane(FinishTurn(s, Failed, NO_USAGE, []), None);
    StartTurnFrame(FinishTurn(s, Failed, NO_USAGE, []), None);
  }

  /** A session that is actually observed: its last two turns share an id, and its log is not bracketed. */
  lemma SaturatedTurnsCollide()
    ensures exists steps: seq<Step> ::
      && OrdersFit(steps) && ObserveAll(steps).activeTools == map[]
      && !Bracketed(Finish(ObserveAll(steps), Succeeded, []).log)
  {
    var steps := seq(U32_MAX + 2, _ => Step(TurnStarted(None), []));
    hide TurnIndices, Observe, ObserveAll, Finish, EndTurns, Sane, Bracketed, FinishTurn, WithTurn;
    TurnsCanBeReached(U32_MAX + 2);
    ObserveAllSane(steps);
    SaneTurns(ObserveAll(steps), Succeeded, []);
    SessionIsBracketed(steps, Succeeded, []);
  }

  // ---------------------------------------------------------------- budget usage

  function BudgetOf(s: Session, initialPrompt: nat, durationMs: nat): BudgetUsage {
    BudgetUsage(initialPrompt, s.nextTurn, Min(|s.completedTools| + |s.activeTools|, U32_MAX), s.peak,
                SaturatingSub(s.delta.input, s.delta.cached), s.delta.cached, s.delta.output, durationMs)
  }

  lemma ToolUnion(s: Session)
    requires Sane(s)
    ensures |s.completedTools + s.activeTools.Keys| == |s.completedTools| + |s.activeTools|
  {
    assert |s.activeTools.Keys| == |s.activeTools|;
  }

  lemma ToolCount(s: Session, t: Session)
    requires Sane(s) && Sane(t) && s.completedTools + s.activeTools.Keys <= t.completedTools + t.activeTools.Keys
    ensures |s.completedTools| + |s.activeTools| <= |t.completedTools| + |t.activeTools|
  {
    hide Sane;
    ToolUnion(s);
    ToolUnion(t);
    SubsetSize(s.completedTools + s.activeTools.Keys, t.completedTools + t.activeTools.Keys);
  }

  lemma SubsetSize(x: set<string>, y: set<string>)
    requires x <= y
    ensures |x| <= |y|
  {
    assert y == x + (y - x);
  }

  /** Sessions that forget nothing never lower any component of the usage. */
  lemma UsageFollows(s: Session, t: Session, initialPrompt: nat, before: nat, after: nat)
    requires Sane(s) && Sane(t) && before <= after
    requires NothingForgotten(s, t) || NothingForgotten(s, t.(finished := s.finished))
    ensures AtMost(BudgetOf(s, initialPrompt, before), BudgetOf(t, initialPrompt, after))
  {
    hide TurnIndices;
    ToolCount(s, t);
  }

  /** Within a session no observed line ever lowers any component of the budget usage. */
  lemma UsageGrowsWithinSession(s: Session, line: Line, order: seq<string>, initialPrompt: nat, before: nat, after: nat)
    requires Sane(s) && Enumerates(order, s.activeTools.Keys) && before <= after
    ensures AtMost(BudgetOf(s, initialPrompt, before), BudgetOf(Observe(s, line, order), initialPrompt, after))
  {
    hide Sane, Observe, BudgetOf, NothingForgotten;
    ObserveSane(s, line, order);
    UsageFollows(s, Observe(s, line, order), initialPrompt, before, after);
  }

  lemma UsageGrowsAtFinish(s: Session, status: Status, order: seq<string>, initialPrompt: nat, before: nat, after: nat)
    requires Sane(s) && !s.finished && Enumerates(order, s.activeTools.Keys) && before <= after
    ensures AtMost(BudgetOf(s, initialPrompt, before), BudgetOf(Finish(s, status, order), initialPrompt, after))
  {
    hide Sane, Finish, BudgetOf, TurnIndices, EndTurns;
    FinishSane(s, status, order);
    EndTurnsSane(s, status, order);
    UsageFollows(s, Finish(s, status, order), initialPrompt, before, after);
  }

  // ---------------------------------------------------------------- the session object

  class AgentTelemetrySession {
    var agent: Option<string>
    var nextTurn: nat
    var activeTurn: Option<nat>
    var activeTools: map<string, nat>
    var completedTools: set<string>
    var lastModelCall: Option<nat>
    var delta: TokenConsumption
    var peak: nat
    var finished: bool
    var log: seq<Event>

    ghost function State(): Session
      reads this
    {
      Session(agent, nextTurn, activeTurn, activeTools, completedTools, lastModelCall, delta, peak, finished, log)
    }

    constructor ()
      ensures State() == StartSession() && Inv(State())
    {
      agent, nextTurn, activeTurn, activeTools, completedTools := None, 0, None, map[], {};
      lastModelCall, delta, peak, finished := None, NOTHING_CONSUMED, 0, false;
      log := [Started(Execution, 0), Started(Phase, 0)];
      new;
      StartSessionInv();
    }

    method StartOneTurn(context: Option<nat>)
      requires nextTurn <= U32_MAX
      modifies this
      ensures State() == StartTurn(old(State()), context)
    {
      var index := nextTurn;
      nextTurn := SaturatingAdd(nextTurn, 1, U32_MAX);
      peak := Max(peak, OrZero(context));
      activeTurn := Some(index);
      lastModelCall := Some(index);
      log := log + [Started(Turn(index), index)];
      log := log + [Started(ModelCall(index), index)];
    }

    method FinishOneTool(id: string, status: Status)
      requires id in activeTools
      modifies this
      ensures State() == CloseTool(old(State()), id, status)
    {
      log := log + [Ended(Tool(id), activeTools[id], status)];
      activeTools := activeTools - {id};
      completedTools := completedTools + {id};
    }

    /** Drains the open tools in whatever order the map hands them out; `order` records it. */
    method FinishOpenTools(status: Status) returns (ghost order: seq<string>)
      modifies this
      ensures Enumerates(order, old(activeTools.Keys))
      ensures State() == DrainTools(old(State()), order, status)
    {
      hide DrainTools, Distinct, Enumerates;
      ghost var before := State();
      order := [];
      NothingDrained(before, status);
      while activeTools.Keys != {}
        invariant Distinct(order, before.activeTools.Keys)
        invariant State() == DrainTools(before, order, status)
        decreases activeTools.Keys
      {
        var id :| id in activeTools.Keys;
        DrainOneMore(before, order, id, status);
        ghost var keys := activeTools.Keys;
        FinishOneTool(id, status);
        assert activeTools.Keys == keys - {id};
        order := order + [id];
      }
      AllDrained(before, order, status);
    }

    method FinishActiveTurn(status: Status, usage: NormalizedUsage) returns (ghost order: seq<string>)
      requires activeTurn.None? ==> activeTools == map[]
      modifies this
      ensures Enumerates(order, old(activeTools.Keys))
      ensures State() == FinishTurn(old(State()), status, usage, order)
    {
      if activeTurn.None? {
        return [];
      }
      var turn := activeTurn.value;
      order := FinishOpenTools(if status == Succeeded then Failed else status);
      ghost var drained := State();
      if usage.input.Some? && usage.cached.Some? && usage.output.Some? {
        var (sum, _) := AddCounts(delta, usage.input.value, usage.cached.value, usage.output.value);
        delta := sum;
      }
      activeTurn := None;
      log := log + [Ended(ModelCall(turn), turn, status)];
      log := log + [Ended(Turn(turn), turn, status)];
      assert State() == CloseTurn(drained, turn, status, usage);
    }

    method StartOneTool(id: string)
      requires nextTurn <= U32_MAX
      modifies this
      ensures State() == StartTool(old(State()), id)
    {
      if id in completedTools || id in activeTools {
        return;
      }
      if activeTurn.None? {
        StartOneTurn(None);
      }
      log := log + [Started(Tool(id), activeTurn.value)];
      activeTools := activeTools[id := activeTurn.value];
    }

    method CompleteOneTool(id: string, status: Status)
      requires nextTurn <= U32_MAX
      modifies this
      ensures State() == CompleteTool(old(State()), id, status)
    {
      if id !in activeTools {
        if id in completedTools {
          return;
        }
        StartOneTool(id);
      }
      FinishOneTool(id, status);
    }

    method ObserveLine(line: Line) returns (ghost order: seq<string>)
      requires nextTurn <= U32_MAX && (activeTurn.None? ==> activeTools == map[])
      modifies this
      ensures Enumerates(order, old(activeTools.Keys))
      ensures State() == Observe(old(State()), line, order)
    {
      order := SomeOrder(activeTools.Keys);
      match line {
        case NotAnEvent =>
        case ThreadStarted(thread) =>
          agent := thread;
        case TurnStarted(context) =>
          if activeTurn.Some? {
            order := FinishActiveTurn(Failed, NO_USAGE);
          }
          StartOneTurn(context);
        case TurnCompleted(context, usage) =>
          if activeTurn.None? {
            StartOneTurn(context);
          }
          order := FinishActiveTurn(Succeeded, NormalizeUsage(usage));
        case TurnFailed(context) =>
          if activeTurn.None? {
            StartOneTurn(context);
          }
          order := FinishActiveTurn(Failed, NO_USAGE);
        case ItemStarted(item) =>
          if item.Some? && ToolIdentity(item.value).Some? {
            StartOneTool(ToolIdentity(item.value).value);
          }
        case ItemCompleted(item) =>
          if item.Some? && ToolIdentity(item.value).Some? {
            CompleteOneTool(ToolIdentity(item.value).value, item.value.status);
          }
      }
    }

    method FinishSession(status: Status) returns (ghost order: seq<string>)
      requires nextTurn <= U32_MAX && (activeTurn.None? ==> activeTools == map[])
      modifies this
      ensures Enumerates(order, old(activeTools.Keys))
      ensures State() == Finish(old(State()), status, order)
    {
      order := SomeOrder(activeTools.Keys);
      if finished {
        return;
      }
      if activeTurn.Some? {
        order := FinishActiveTurn(status, NO_USAGE);
      } else if lastModelCall.None? {
        StartOneTurn(None);
        order := FinishActiveTurn(status, NO_USAGE);
      }
      log := log + [Ended(Phase, 0, status)];
      log := log + [Ended(Execution, 0, status)];
      finished := true;
    }
  }

  lemma NothingDrained(s: Session, status: Status)
    ensures Distinct([], s.activeTools.Keys) && DrainTools(s, [], status) == s
  {
  }

  lemma AllDrained(s: Session, order: seq<string>, status: Status)
    requires Distinct(order, s.activeTools.Keys) && DrainTools(s, order, status).activeTools.Keys == {}
    ensures Enumerates(order, s.activeTools.Keys)
  {
    forall id | id in s.activeTools.Keys
      ensures id in order
    {
      assert id !in DrainTools(s, order, status).activeTools.Keys;
    }
  }

  lemma DrainOneMore(s: Session, order: seq<string>, id: string, status: Status)
    requires Distinct(order, s.activeTools.Keys) && id in DrainTools(s, order, status).activeTools.Keys
    ensures Distinct(order + [id], s.activeTools.Keys)
    ensures DrainTools(s, order + [id], status) == CloseTool(DrainTools(s, order, status), id, status)
  {
    assert (order + [id])[..|order|] == order;
  }

  /** Some order of a finite set of keys. */
  ghost function SomeOrder(keys: set<string>): (order: seq<string>)
    ensures Enumerates(order, keys)
  {
    if keys == {} then [] else
    var id :| id in keys;
    [id] + SomeOrder(keys - {id})
  }
}
