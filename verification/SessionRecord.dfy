/**
 What a telemetry session records (telemetry.rs), in terms of the lines it was given alone:
 which tokens it counts, how each turn and tool is said to have ended, which tools and which
 context sizes it has seen.
 */
module SessionRecord {
  import opened Common
  import opened Usage
  import opened Bracketing
  import opened Telemetry

  // ---------------------------------------------------------------- tokens

  /** What a line reports: the three counts of a completed turn, cached input being part of input. */
  function Reported(line: Line): TokenConsumption {
    match line
    case TurnCompleted(_, Some(UsageObject(Some(input), Some(cached), Some(output), _, _, _))) =>
      if cached <= input then TokenConsumption(input, cached, output) else NOTHING_CONSUMED
    case _ => NOTHING_CONSUMED
  }

  function Plus(a: TokenConsumption, b: TokenConsumption): TokenConsumption {
    TokenConsumption(a.input + b.input, a.cached + b.cached, a.output + b.output)
  }

  function Total(steps: seq<Step>): TokenConsumption {
    if steps == [] then NOTHING_CONSUMED else Plus(Total(steps[..|steps| - 1]), Reported(steps[|steps| - 1].line))
  }

  lemma FinishTurnCounts(s: Session, status: Status, usage: NormalizedUsage, order: seq<string>)
    requires Enumerates(order, s.activeTools.Keys) && s.activeTurn.Some?
    ensures FinishTurn(s, status, usage, order).delta == Counted(s, usage)
  {
    hide Counted;
    DrainCounts(s, order, if status == Succeeded then Failed else status);
  }

  lemma {:induction false} DrainCounts(s: Session, order: seq<string>, status: Status)
    requires Distinct(order, s.activeTools.Keys)
    ensures var t := DrainTools(s, order, status);
      t == s.(activeTools := t.activeTools, completedTools := t.completedTools, log := t.log)
    ensures Counted(DrainTools(s, order, status), NO_USAGE) == s.delta
    ensures forall usage :: Counted(DrainTools(s, order, status), usage) == Counted(s, usage)
  {
    if order != [] {
      var front, last := order[..|order| - 1], order[|order| - 1];
      assert last in order;
      assert forall id :: id in order <==> id == last || id in front;
      DrainCounts(s, front, status);
    }
  }

  lemma LineCounts(s: Session, line: Line, order: seq<string>)
    requires Enumerates(order, s.activeTools.Keys) && FitsU64(Plus(s.delta, Reported(line)))
    ensures Observe(s, line, order).delta == Plus(s.delta, Reported(line))
  {
    hide FinishTurn, DrainTools, Enumerates;
    match line {
      case TurnStarted(context) =>
        if s.activeTurn.Some? {
          FinishTurnCounts(s, Failed, NO_USAGE, order);
        } else {
          NothingToFinish(s, Failed, NO_USAGE, order);
        }
      case TurnCompleted(context, usage) =>
        StartTurnFrame(s, context);
        FinishTurnCounts(WithTurn(s, context), Succeeded, NormalizeUsage(usage), order);
      case TurnFailed(context) =>
        StartTurnFrame(s, context);
        FinishTurnCounts(WithTurn(s, context), Failed, NO_USAGE, order);
      case _ =>
    }
  }

  lemma NothingToFinish(s: Session, status: Status, usage: NormalizedUsage, order: seq<string>)
    requires Enumerates(order, s.activeTools.Keys) && s.activeTurn.None?
    ensures FinishTurn(s, status, usage, order) == s
  {
  }

  /** A session's counts are exactly the sum of what its completed turns reported, as long as that fits. */
  lemma {:induction false} TokensAreTheSum(steps: seq<Step>)
    requires OrdersFit(steps) && FitsU64(Total(steps))
    ensures ObserveAll(steps).delta == Total(steps)
  {
    hide Observe, Enumerates, Reported;
    if steps != [] {
      TokensAreTheSum(steps[..|steps| - 1]);
      LineCounts(ObserveAll(steps[..|steps| - 1]), steps[|steps| - 1].line, steps[|steps| - 1].order);
    }
  }

  /** Finishing adds nothing to them. */
  lemma FinishCountsNothing(s: Session, status: Status, order: seq<string>)
    requires Enumerates(order, s.activeTools.Keys)
    ensures Finish(s, status, order).delta == s.delta
  {
    hide FinishTurn, DrainTools, Enumerates;
    if s.activeTurn.Some? {
      FinishTurnCounts(s, status, NO_USAGE, order);
    } else {
      StartTurnFrame(s, None);
      FinishTurnCounts(StartTurn(s, None), status, NO_USAGE, order);
    }
  }

  // ---------------------------------------------------------------- how things ended

  /** What makes the session record events: a line, or its finish. */
  datatype Cause = Given(line: Line) | Finished(status: Status)

  function TurnOutcome(cause: Cause): Status {
    match cause
    case Given(line) => if line.TurnCompleted? then Succeeded else Failed
    case Finished(status) => status
  }

  predicate Completes(line: Line, id: string) {
    line.ItemCompleted? && line.item.Some? && ToolIdentity(line.item.value) == Some(id)
  }

  /** Its own completion's status, or that it did not succeed before its turn ended. */
  function ToolOutcome(cause: Cause, id: string): Status {
    match cause
    case Given(line) => if Completes(line, id) then line.item.value.status else Failed
    case Finished(status) => if status == Succeeded then Failed else status
  }

  /** An end recorded for this cause. */
  predicate Explains(cause: Cause, e: Event) {
    e.Ended? ==>
      match e.entity
      case Turn(_) => e.status == TurnOutcome(cause)
      case ModelCall(_) => e.status == TurnOutcome(cause)
      case Tool(id) => e.status == ToolOutcome(cause, id)
      case _ => cause.Finished? && e.status == cause.status
  }

  predicate Appends(cause: Cause, before: seq<Event>, after: seq<Event>) {
    before <= after && forall i :: |before| <= i < |after| ==> Explains(cause, after[i])
  }

  lemma AppendsOne(cause: Cause, before: seq<Event>, after: seq<Event>, e: Event)
    requires Appends(cause, before, after) && Explains(cause, e)
    ensures Appends(cause, before, after + [e])
  {
  }

  lemma TwoMore(cause: Cause, before: seq<Event>, log: seq<Event>, a: Event, b: Event)
    requires Appends(cause, before, log) && Explains(cause, a) && Explains(cause, b)
    ensures var after := log + [a] + [b];
      Appends(cause, before, after) && |after| >= |before| + 2 && after[|after| - 2..] == [a, b] && log <= after
  {
    hide Explains;
    AppendsOne(cause, before, log, a);
    AppendsOne(cause, before, log + [a], b);
  }

  /** How many turns a log says succeeded. */
  function SucceededTurns(log: seq<Event>): nat {
    if log == [] then 0
    else
      var e := log[|log| - 1];
      SucceededTurns(log[..|log| - 1]) + if e.Ended? && e.entity.Turn? && e.status == Succeeded then 1 else 0
  }

  lemma OneMoreRecorded(log: seq<Event>, e: Event)
    ensures SucceededTurns(log + [e])
      == SucceededTurns(log) + if e.Ended? && e.entity.Turn? && e.status == Succeeded then 1 else 0
  {
    assert (log + [e])[..|log|] == log;
  }

  lemma {:induction false} DrainExplained(cause: Cause, s: Session, order: seq<string>, status: Status)
    requires Distinct(order, s.activeTools.Keys)
    requires forall id :: id in order ==> status == ToolOutcome(cause, id)
    ensures var t := DrainTools(s, order, status);
      Appends(cause, s.log, t.log) && SucceededTurns(t.log) == SucceededTurns(s.log)
  {
    hide SucceededTurns, ToolOutcome, Appends;
    NothingAppended(cause, s.log);
    if order != [] {
      var front, last := order[..|order| - 1], order[|order| - 1];
      assert last in order;
      assert forall id :: id in order <==> id == last || id in front;
      DrainExplained(cause, s, front, status);
      var t := DrainTools(s, front, status);
      AppendsOne(cause, s.log, t.log, Ended(Tool(last), t.activeTools[last], status));
      OneMoreRecorded(t.log, Ended(Tool(last), t.activeTools[last], status));
    }
  }

  /** Ending a turn for a cause: exactly its model call and itself, last, with the cause's outcome. */
  lemma FinishTurnExplained(cause: Cause, s: Session, usage: NormalizedUsage, order: seq<string>)
    requires Enumerates(order, s.activeTools.Keys) && s.activeTurn.Some?
    requires forall id :: id in order ==>
      ToolOutcome(cause, id) == if TurnOutcome(cause) == Succeeded then Failed else TurnOutcome(cause)
    ensures var t := FinishTurn(s, TurnOutcome(cause), usage, order);
      var turn := s.activeTurn.value;
      && Appends(cause, s.log, t.log) && t.activeTurn.None? && |t.log| >= |s.log| + 2
      && t.log[|t.log| - 2..] ==
         [Ended(ModelCall(turn), turn, TurnOutcome(cause)), Ended(Turn(turn), turn, TurnOutcome(cause))]
      && SucceededTurns(t.log) == SucceededTurns(s.log) + if TurnOutcome(cause) == Succeeded then 1 else 0
  {
    hide SucceededTurns, ToolOutcome, Counted, DrainTools, TurnOutcome, Appends;
    var turn, status := s.activeTurn.value, TurnOutcome(cause);
    var toolStatus := if status == Succeeded then Failed else status;
    DrainExplained(cause, s, order, toolStatus);
    DrainCounts(s, order, toolStatus);
    var log := DrainTools(s, order, toolStatus).log;
    var call, end := Ended(ModelCall(turn), turn, status), Ended(Turn(turn), turn, status);
    TwoMore(cause, s.log, log, call, end);
    OneMoreRecorded(log, call);
    OneMoreRecorded(log + [call], end);
  }

  lemma StartTurnExplained(cause: Cause, s: Session, context: Option<nat>)
    ensures var t := StartTurn(s, context);
      && Appends(cause, s.log, t.log) && SucceededTurns(t.log) == SucceededTurns(s.log) && t.activeTurn == Some(s.nextTurn)
      && |t.log| >= 2
      && t.log[|t.log| - 2..] == [Started(Turn(s.nextTurn), s.nextTurn), Started(ModelCall(s.nextTurn), s.nextTurn)]
  {
    hide SucceededTurns;
    var i := s.nextTurn;
    NothingAppended(cause, s.log);
    TwoMore(cause, s.log, s.log, Started(Turn(i), i), Started(ModelCall(i), i));
    OneMoreRecorded(s.log, Started(Turn(i), i));
    OneMoreRecorded(s.log + [Started(Turn(i), i)], Started(ModelCall(i), i));
  }

  lemma AppendsMore(cause: Cause, a: seq<Event>, b: seq<Event>, c: seq<Event>)
    requires Appends(cause, a, b) && Appends(cause, b, c)
    ensures Appends(cause, a, c)
  {
    forall i | |a| <= i < |c| ensures Explains(cause, c[i]) {
      if i < |b| {
        assert c[i] == b[i];
      }
    }
  }

  /** The turn a line is about: the active one, or the one it has to start. */
  function TurnOf(s: Session): nat { if s.activeTurn.Some? then s.activeTurn.value else s.nextTurn }

  /** A line that ends a turn ends the active one, started for it if there is none, with the line's own outcome. */
  lemma EndingLine(s: Session, line: Line, order: seq<string>)
    requires Enumerates(order, s.activeTools.Keys) && (line.TurnCompleted? || line.TurnFailed?)
    ensures var t := Observe(s, line, order);
      var status := if line.TurnCompleted? then Succeeded else Failed;
      && Appends(Given(line), s.log, t.log) && t.activeTurn.None? && |t.log| >= 2
      && t.log[|t.log| - 2..] == [Ended(ModelCall(TurnOf(s)), TurnOf(s), status), Ended(Turn(TurnOf(s)), TurnOf(s), status)]
      && SucceededTurns(t.log) == SucceededTurns(s.log) + if line.TurnCompleted? then 1 else 0
  {
    hide SucceededTurns, FinishTurn, StartTurn, Appends;
    var usage := if line.TurnCompleted? then NormalizeUsage(line.usage) else NO_USAGE;
    StartTurnFrame(s, line.context);
    StartTurnExplained(Given(line), s, line.context);
    var started := WithTurn(s, line.context);
    NothingAppended(Given(line), s.log);
    FinishTurnExplained(Given(line), started, usage, order);
    AppendsMore(Given(line), s.log, started.log, Observe(s, line, order).log);
  }

  lemma NothingAppended(cause: Cause, log: seq<Event>)
    ensures Appends(cause, log, log)
  {
  }

  /** Ending whatever turn is open, for the cause. */
  lemma EndedIfOpen(cause: Cause, s: Session, order: seq<string>)
    requires Enumerates(order, s.activeTools.Keys)
    requires forall id :: id in order ==>
      ToolOutcome(cause, id) == if TurnOutcome(cause) == Succeeded then Failed else TurnOutcome(cause)
    ensures var t := FinishTurn(s, TurnOutcome(cause), NO_USAGE, order);
      && Appends(cause, s.log, t.log) && t.nextTurn == s.nextTurn
      && SucceededTurns(t.log)
         == SucceededTurns(s.log) + (if s.activeTurn.Some? && TurnOutcome(cause) == Succeeded then 1 else 0)
      && (s.activeTurn.Some? ==>
            |t.log| > |s.log| && t.log[|t.log| - 1] == Ended(Turn(s.activeTurn.value), s.activeTurn.value, TurnOutcome(cause)))
  {
    hide SucceededTurns, FinishTurn, Appends, TurnOutcome, ToolOutcome, Explains;
    FinishTurnNext(s, TurnOutcome(cause), NO_USAGE, order);
    if s.activeTurn.Some? {
      FinishTurnExplained(cause, s, NO_USAGE, order);
      var log := FinishTurn(s, TurnOutcome(cause), NO_USAGE, order).log;
      assert log[|log| - 2..][1] == log[|log| - 1];
    } else {
      NothingToFinish(s, TurnOutcome(cause), NO_USAGE, order);
      NothingAppended(cause, s.log);
    }
  }

  /** A line that starts a turn fails the one that was active, and starts the next. */
  lemma StartingLine(s: Session, context: Option<nat>, order: seq<string>)
    requires Enumerates(order, s.activeTools.Keys)
    ensures var line := TurnStarted(context);
      var t := Observe(s, line, order);
      && Appends(Given(line), s.log, t.log) && t.activeTurn == Some(s.nextTurn) && |t.log| >= 2
      && t.log[|t.log| - 2..] == [Started(Turn(s.nextTurn), s.nextTurn), Started(ModelCall(s.nextTurn), s.nextTurn)]
      && (s.activeTurn.Some? ==> Ended(Turn(s.activeTurn.value), s.activeTurn.value, Failed) in t.log[|s.log|..])
      && SucceededTurns(t.log) == SucceededTurns(s.log)
  {
    hide SucceededTurns, FinishTurn, Appends, StartTurn;
    var line := TurnStarted(context);
    var ended := FinishTurn(s, Failed, NO_USAGE, order);
    EndedIfOpen(Given(line), s, order);
    StartTurnExplained(Given(line), ended, context);
    var log := StartTurn(ended, context).log;
    AppendsMore(Given(line), s.log, ended.log, log);
    if s.activeTurn.Some? {
      AppendsPrefix(Given(line), s.log, ended.log);
      AppendsPrefix(Given(line), ended.log, log);
      StillRecorded(s.log, ended.log, log, Ended(Turn(s.activeTurn.value), s.activeTurn.value, Failed));
    }
  }

  lemma StillRecorded(before: seq<Event>, middle: seq<Event>, after: seq<Event>, e: Event)
    requires before <= middle <= after && |middle| > |before| && middle[|middle| - 1] == e
    ensures e in after[|before|..]
  {
    assert after[|before|..][|middle| - 1 - |before|] == e;
  }

  lemma FinishTurnNext(s: Session, status: Status, usage: NormalizedUsage, order: seq<string>)
    requires Enumerates(order, s.activeTools.Keys)
    ensures FinishTurn(s, status, usage, order).nextTurn == s.nextTurn
  {
  }

  lemma AppendsPrefix(cause: Cause, before: seq<Event>, after: seq<Event>)
    requires Appends(cause, before, after)
    ensures before <= after
  {
  }

  /** The tool a line is about. */
  function NamedTool(line: Line): Option<string> {
    match line
    case ItemStarted(Some(item)) => ToolIdentity(item)
    case ItemCompleted(Some(item)) => ToolIdentity(item)
    case _ => None
  }

  /** Messages and reasoning are no tools; everything else with an id is one. */
  lemma ToolsAreIdentified(item: Item)
    ensures ToolIdentity(item)
      == if item.itemType in {AgentMessage, Reasoning, UnknownItem} then None else item.id
  {
  }

  lemma StartToolExplained(cause: Cause, s: Session, id: string)
    ensures var t := StartTool(s, id);
      && Appends(cause, s.log, t.log) && SucceededTurns(t.log) == SucceededTurns(s.log)
      && t.completedTools == s.completedTools
      && (id in s.completedTools || id in s.activeTools ==> t == s)
      && (id !in s.completedTools && id !in s.activeTools ==>
            t.activeTurn == Some(TurnOf(s)) && t.activeTools == s.activeTools[id := TurnOf(s)]
            && t.log != [] && t.log[|t.log| - 1] == Started(Tool(id), TurnOf(s)))
  {
    hide SucceededTurns, Appends;
    NothingAppended(cause, s.log);
    if id !in s.completedTools && id !in s.activeTools {
      StartTurnExplained(cause, s, None);
      var t := if s.activeTurn.None? then StartTurn(s, None) else s;
      AppendsOne(cause, s.log, t.log, Started(Tool(id), t.activeTurn.value));
      OneMoreRecorded(t.log, Started(Tool(id), t.activeTurn.value));
    }
  }

  /** A line about a tool opens it once, or closes it once with the status the line gives. */
  lemma ToolLine(s: Session, line: Line, id: string, order: seq<string>)
    requires Enumerates(order, s.activeTools.Keys) && NamedTool(line) == Some(id) && s.activeTools.Keys !! s.completedTools
    ensures var t := Observe(s, line, order);
      && Appends(Given(line), s.log, t.log) && SucceededTurns(t.log) == SucceededTurns(s.log)
      && (id in s.completedTools ==> t == s)
      && (line.ItemStarted? ==>
            && t.completedTools == s.completedTools && t.activeTools.Keys == s.activeTools.Keys + ({id} - s.completedTools)
            && (id !in s.completedTools && id !in s.activeTools ==>
                  t.log != [] && t.log[|t.log| - 1] == Started(Tool(id), TurnOf(s))))
      && (line.ItemCompleted? && id !in s.completedTools ==>
            && t.completedTools == s.completedTools + {id} && t.activeTools.Keys == s.activeTools.Keys - {id}
            && t.log != [] && t.log[|t.log| - 1] ==
               Ended(Tool(id), if id in s.activeTools then s.activeTools[id] else TurnOf(s), line.item.value.status))
  {
    hide SucceededTurns, Appends, StartTool;
    StartToolExplained(Given(line), s, id);
    if line.ItemCompleted? && id !in s.completedTools {
      var t := StartTool(s, id);
      var end := Ended(Tool(id), t.activeTools[id], line.item.value.status);
      AppendsOne(Given(line), s.log, t.log, end);
      OneMoreRecorded(t.log, end);
    }
  }

  /** Every other line records nothing. */
  lemma OtherLine(s: Session, line: Line, order: seq<string>)
    requires Enumerates(order, s.activeTools.Keys) && NamedTool(line).None?
    requires !line.TurnStarted? && !line.TurnCompleted? && !line.TurnFailed?
    ensures var t := Observe(s, line, order);
      t == s.(agent := t.agent) && (line.ThreadStarted? ==> t.agent == line.thread) && (!line.ThreadStarted? ==> t == s)
  {
  }

  lemma EveryLine(s: Session, line: Line, order: seq<string>)
    requires Sane(s) && Enumerates(order, s.activeTools.Keys)
    ensures var t := Observe(s, line, order);
      Appends(Given(line), s.log, t.log)
      && SucceededTurns(t.log) == SucceededTurns(s.log) + if line.TurnCompleted? then 1 else 0
  {
    hide SucceededTurns, Observe, Appends, TurnIndices;
    NothingAppended(Given(line), s.log);
    match line {
      case TurnStarted(context) => StartingLine(s, context, order);
      case TurnCompleted(_, _) => EndingLine(s, line, order);
      case TurnFailed(_) => EndingLine(s, line, order);
      case ItemStarted(Some(item)) =>
        if ToolIdentity(item).Some? {
          ToolLine(s, line, ToolIdentity(item).value, order);
        } else {
          OtherLine(s, line, order);
        }
      case ItemCompleted(Some(item)) =>
        if ToolIdentity(item).Some? {
          ToolLine(s, line, ToolIdentity(item).value, order);
        } else {
          OtherLine(s, line, order);
        }
      case _ => OtherLine(s, line, order);
    }
  }

  function CompletedTurns(steps: seq<Step>): nat {
    if steps == [] then 0
    else CompletedTurns(steps[..|steps| - 1]) + if steps[|steps| - 1].line.TurnCompleted? then 1 else 0
  }

  /** The line that made the session record its `at`th event. */
  predicate RecordedBy(steps: seq<Step>, k: nat, at: nat)
    requires OrdersFit(steps) && k < |steps|
  {
    StepsBefore(steps, k);
    StepsBefore(steps, k + 1);
    |ObserveAll(steps[..k]).log| <= at < |ObserveAll(steps[..k + 1]).log|
  }

  lemma {:induction false} StepsBefore(steps: seq<Step>, k: nat)
    requires OrdersFit(steps) && k <= |steps|
    ensures OrdersFit(steps[..k])
  {
    hide Observe, Enumerates;
    if k == |steps| {
      assert steps[..k] == steps;
    } else {
      StepsBefore(steps[..|steps| - 1], k);
      assert steps[..|steps| - 1][..k] == steps[..k];
    }
  }

  /**
   Every end in the log of a session, whatever lines it was given, was recorded by one line
   and has that line's outcome: a turn and its model call succeeded if and only if a
   completed turn ended them, and a tool has the status of its own completion, or failed
   with its turn. There are as many succeeded turns as lines that complete one.
   */
  lemma {:induction false} EndsAreExplained(steps: seq<Step>)
    requires OrdersFit(steps)
    ensures var log := ObserveAll(steps).log;
      && SucceededTurns(log) == CompletedTurns(steps)
      && forall at :: 0 <= at < |log| && log[at].Ended? ==>
           exists k :: 0 <= k < |steps| && RecordedBy(steps, k, at) && Explains(Given(steps[k].line), log[at])
  {
    hide Observe, Enumerates, Explains, SucceededTurns, Sane, RecordedBy;
    if steps == [] {
      NothingEnded();
    } else {
      var front, last := steps[..|steps| - 1], steps[|steps| - 1];
      EndsAreExplained(front);
      ObserveAllSane(front);
      EveryLine(ObserveAll(front), last.line, last.order);
      var log, before := ObserveAll(steps).log, ObserveAll(front).log;
      forall at | 0 <= at < |log| && log[at].Ended?
        ensures exists k :: 0 <= k < |steps| && RecordedBy(steps, k, at) && Explains(Given(steps[k].line), log[at])
      {
        if at < |before| {
          var k :| 0 <= k < |front| && RecordedBy(front, k, at) && Explains(Given(front[k].line), before[at]);
          RecordedEarlier(steps, k, at);
          assert log[at] == before[at] && front[k] == steps[k];
        } else {
          RecordedLast(steps, at);
        }
      }
    }
  }

  lemma RecordedEarlier(steps: seq<Step>, k: nat, at: nat)
    requires OrdersFit(steps) && k < |steps| - 1 && OrdersFit(steps[..|steps| - 1])
    requires RecordedBy(steps[..|steps| - 1], k, at)
    ensures RecordedBy(steps, k, at)
  {
    hide ObserveAll, OrdersFit;
    var front := steps[..|steps| - 1];
    assert front[..k] == steps[..k] && front[..k + 1] == steps[..k + 1];
  }

  lemma RecordedLast(steps: seq<Step>, at: nat)
    requires steps != [] && OrdersFit(steps) && OrdersFit(steps[..|steps| - 1])
    requires |ObserveAll(steps[..|steps| - 1]).log| <= at < |ObserveAll(steps).log|
    ensures RecordedBy(steps, |steps| - 1, at)
  {
    hide ObserveAll, OrdersFit;
    assert steps[..|steps| - 1 + 1] == steps;
  }

  lemma NothingEnded()
    ensures SucceededTurns(StartSession().log) == 0
    ensures forall at :: 0 <= at < |StartSession().log| ==> !StartSession().log[at].Ended?
  {
    assert SucceededTurns([]) == 0;
    hide SucceededTurns;
    OneMoreRecorded([], Started(Execution, 0));
    OneMoreRecorded([Started(Execution, 0)], Started(Phase, 0));
    assert [] + [Started(Execution, 0)] == [Started(Execution, 0)];
    assert [Started(Execution, 0)] + [Started(Phase, 0)] == StartSession().log;
  }

  /** Finishing gives the turn still open the session's own outcome, its tools none better than failed, and ends the session. */
  lemma FinishIsExplained(s: Session, status: Status, order: seq<string>)
    requires Enumerates(order, s.activeTools.Keys) && !s.finished
    ensures var t := Finish(s, status, order);
      && Appends(Finished(status), s.log, t.log) && t.finished && |t.log| >= 2
      && t.log[|t.log| - 2..] == [Ended(Phase, 0, status), Ended(Execution, 0, status)]
      && (s.activeTurn.Some? || s.lastModelCall.None? ==> Ended(Turn(TurnOf(s)), TurnOf(s), status) in t.log[|s.log|..])
  {
    hide FinishTurn, Appends, StartTurn, SucceededTurns;
    var cause := Finished(status);
    SettledExplained(s, status, order);
    var log := Settled(s, status, order).log;
    var phase, execution := Ended(Phase, 0, status), Ended(Execution, 0, status);
    TwoMore(cause, s.log, log, phase, execution);
    if s.activeTurn.Some? || s.lastModelCall.None? {
      AppendsPrefix(cause, s.log, log);
      StillRecorded(s.log, log, log + [phase] + [execution], Ended(Turn(TurnOf(s)), TurnOf(s), status));
    }
  }

  /** The session with its last turn ended, before the phase and the execution are. */
  function Settled(s: Session, status: Status, order: seq<string>): Session
    requires Enumerates(order, s.activeTools.Keys)
  {
    FinishTurn(if s.activeTurn.None? && s.lastModelCall.None? then StartTurn(s, None) else s, status, NO_USAGE, order)
  }

  lemma SettledExplained(s: Session, status: Status, order: seq<string>)
    requires Enumerates(order, s.activeTools.Keys) && !s.finished
    ensures var t := Settled(s, status, order);
      && Appends(Finished(status), s.log, t.log)
      && Finish(s, status, order).log == t.log + [Ended(Phase, 0, status)] + [Ended(Execution, 0, status)]
      && Finish(s, status, order).finished
      && (s.activeTurn.Some? || s.lastModelCall.None? ==>
            |t.log| > |s.log| && t.log[|t.log| - 1] == Ended(Turn(TurnOf(s)), TurnOf(s), status))
  {
    hide FinishTurn, Appends, StartTurn, SucceededTurns;
    var cause := Finished(status);
    NothingAppended(cause, s.log);
    StartTurnFrame(s, None);
    StartTurnExplained(cause, s, None);
    var started := if s.activeTurn.None? && s.lastModelCall.None? then StartTurn(s, None) else s;
    EndedIfOpen(cause, started, order);
    NothingToFinishUnlessOpen(started, status, order);
    AppendsMore(cause, s.log, started.log, FinishTurn(started, status, NO_USAGE, order).log);
    AppendsPrefix(cause, s.log, started.log);
  }

  lemma NothingToFinishUnlessOpen(s: Session, status: Status, order: seq<string>)
    requires Enumerates(order, s.activeTools.Keys)
    ensures s.activeTurn.None? ==> FinishTurn(s, status, NO_USAGE, order) == s
  {
  }

  // ---------------------------------------------------------------- tools and contexts seen

  function ToolsNamed(steps: seq<Step>): set<string> {
    if steps == [] then {}
    else
      var id := NamedTool(steps[|steps| - 1].line);
      ToolsNamed(steps[..|steps| - 1]) + if id.Some? then {id.value} else {}
  }

  /** Whether a line begins a turn: by name, or because it needs one and none is open. */
  predicate Begins(line: Line, named: set<string>, open: bool) {
    || line.TurnStarted?
    || (!open && (line.TurnCompleted? || line.TurnFailed? || (NamedTool(line).Some? && NamedTool(line).value !in named)))
  }

  /** Whether the lines leave a turn open. */
  predicate TurnOpen(steps: seq<Step>) {
    steps != []
    && var front, line := steps[..|steps| - 1], steps[|steps| - 1].line;
       !line.TurnCompleted? && !line.TurnFailed? && (TurnOpen(front) || Begins(line, ToolsNamed(front), TurnOpen(front)))
  }

  function TurnsBegun(steps: seq<Step>): nat {
    if steps == [] then 0
    else
      var front, line := steps[..|steps| - 1], steps[|steps| - 1].line;
      TurnsBegun(front) + if Begins(line, ToolsNamed(front), TurnOpen(front)) then 1 else 0
  }

  function ContextOf(line: Line): nat {
    match line
    case TurnStarted(context) => OrZero(context)
    case TurnCompleted(context, _) => OrZero(context)
    case TurnFailed(context) => OrZero(context)
    case _ => 0
  }

  /** The largest context a turn began with. */
  function LargestContext(steps: seq<Step>): nat {
    if steps == [] then 0
    else
      var front, line := steps[..|steps| - 1], steps[|steps| - 1].line;
      Max(LargestContext(front), if Begins(line, ToolsNamed(front), TurnOpen(front)) then ContextOf(line) else 0)
  }

  lemma FinishTurnPeak(s: Session, status: Status, usage: NormalizedUsage, order: seq<string>)
    requires Enumerates(order, s.activeTools.Keys)
    ensures FinishTurn(s, status, usage, order).peak == s.peak
  {
    hide Counted;
    DrainCounts(s, order, if status == Succeeded then Failed else status);
  }

  lemma StepSeen(s: Session, line: Line, order: seq<string>)
    requires Sane(s) && Enumerates(order, s.activeTools.Keys)
    ensures var t := Observe(s, line, order);
      var named := s.completedTools + s.activeTools.Keys;
      var begins := Begins(line, named, s.activeTurn.Some?);
      && t.completedTools + t.activeTools.Keys
         == named + (if NamedTool(line).Some? then {NamedTool(line).value} else {})
      && (t.activeTurn.Some? <==> !line.TurnCompleted? && !line.TurnFailed? && (s.activeTurn.Some? || begins))
      && Turns(t) == Turns(s) + (if begins then 1 else 0)
      && t.peak == Max(s.peak, if begins then ContextOf(line) else 0)
  {
    hide TurnIndices, FinishTurn;
    match line {
      case TurnStarted(context) =>
        FinishTurnSane(s, Failed, NO_USAGE, order);
        FinishTurnPeak(s, Failed, NO_USAGE, order);
        StartTurnSane(FinishTurn(s, Failed, NO_USAGE, order), context);
      case TurnCompleted(context, usage) => EndSeen(s, context, Succeeded, NormalizeUsage(usage), order);
      case TurnFailed(context) => EndSeen(s, context, Failed, NO_USAGE, order);
      case ItemStarted(Some(item)) =>
        if ToolIdentity(item).Some? {
          ToolSeen(s, ToolIdentity(item).value, item.status);
        }
      case ItemCompleted(Some(item)) =>
        if ToolIdentity(item).Some? {
          ToolSeen(s, ToolIdentity(item).value, item.status);
        }
      case _ =>
    }
  }

  lemma EndSeen(s: Session, context: Option<nat>, status: Status, usage: NormalizedUsage, order: seq<string>)
    requires Sane(s) && Enumerates(order, s.activeTools.Keys)
    ensures var t := FinishTurn(WithTurn(s, context), status, usage, order);
      && t.completedTools + t.activeTools.Keys == s.completedTools + s.activeTools.Keys
      && t.activeTurn.None? && Turns(t) == Turns(s) + (if s.activeTurn.None? then 1 else 0)
      && t.peak == Max(s.peak, if s.activeTurn.None? then OrZero(context) else 0)
  {
    hide TurnIndices, FinishTurn, Sane;
    if s.activeTurn.None? {
      StartTurnSane(s, context);
    }
    FinishTurnSane(WithTurn(s, context), status, usage, order);
    FinishTurnPeak(WithTurn(s, context), status, usage, order);
  }

  lemma ToolSeen(s: Session, id: string, status: Status)
    requires Sane(s)
    ensures var unseen := id !in s.completedTools && id !in s.activeTools;
      var t, u := StartTool(s, id), CompleteTool(s, id, status);
      && t.completedTools + t.activeTools.Keys == s.completedTools + s.activeTools.Keys + {id}
      && u.completedTools + u.activeTools.Keys == s.completedTools + s.activeTools.Keys + {id}
      && t.activeTurn == u.activeTurn && (t.activeTurn.Some? <==> s.activeTurn.Some? || unseen)
      && Turns(t) == Turns(u) == Turns(s) + (if unseen && s.activeTurn.None? then 1 else 0)
      && t.peak == u.peak == s.peak
  {
    hide TurnIndices, StartTool;
    ToolOpened(s, id);
    var t := StartTool(s, id);
    if id in t.activeTools {
      OneMoreEvent(t.log, Ended(Tool(id), t.activeTools[id], status));
    }
  }

  lemma ToolOpened(s: Session, id: string)
    requires Sane(s)
    ensures var unseen := id !in s.completedTools && id !in s.activeTools;
      var t := StartTool(s, id);
      && (!unseen ==> t == s) && t.completedTools == s.completedTools && t.peak == s.peak
      && t.activeTools.Keys == s.activeTools.Keys + (if unseen then {id} else {})
      && (t.activeTurn.Some? <==> s.activeTurn.Some? || unseen)
      && Turns(t) == Turns(s) + (if unseen && s.activeTurn.None? then 1 else 0)
  {
    hide TurnIndices, Sane;
    if id !in s.completedTools && id !in s.activeTools {
      StartTurnSane(s, None);
      var t := if s.activeTurn.None? then StartTurn(s, None) else s;
      OneMoreEvent(t.log, Started(Tool(id), t.activeTurn.value));
    }
  }

  /**
   What a session has seen, from its lines alone: every tool named is active or done, a turn
   is open as the lines left it, and turns and the peak context are counted where one begins.
   */
  lemma {:induction false} SessionHasSeen(steps: seq<Step>)
    requires OrdersFit(steps)
    ensures var s := ObserveAll(steps);
      && s.completedTools + s.activeTools.Keys == ToolsNamed(steps)
      && (s.activeTurn.Some? <==> TurnOpen(steps))
      && Turns(s) == TurnsBegun(steps)
      && s.peak == LargestContext(steps)
  {
    hide Observe, Enumerates, Sane, TurnIndices, Begins;
    if steps == [] {
      StartSessionSane();
    } else {
      var front, last := steps[..|steps| - 1], steps[|steps| - 1];
      SessionHasSeen(front);
      ObserveAllSane(front);
      StepSeen(ObserveAll(front), last.line, last.order);
    }
  }

  /** The budget usage of a session, from its lines alone. */
  lemma BudgetIsCounted(steps: seq<Step>, initialPrompt: nat, durationMs: nat)
    requires OrdersFit(steps) && FitsU64(Total(steps))
    ensures var total := Total(steps);
      BudgetOf(ObserveAll(steps), initialPrompt, durationMs)
      == BudgetUsage(initialPrompt, Min(TurnsBegun(steps), U32_MAX), Min(|ToolsNamed(steps)|, U32_MAX),
                     LargestContext(steps), SaturatingSub(total.input, total.cached), total.cached, total.output, durationMs)
  {
    hide ObserveAll, OrdersFit, TurnIndices;
    ObserveAllSane(steps);
    SessionHasSeen(steps);
    TokensAreTheSum(steps);
    ToolUnion(ObserveAll(steps));
  }
}
