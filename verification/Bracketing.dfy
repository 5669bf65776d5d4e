/**
 Detailed telemetry events and what it means for a log of them to be bracketed. The
 acceptor below is independent of the session that writes the log: it only knows which
 entity may open or close inside which.
 */
module Bracketing {
  import opened Common

  /** Entity ids are derived injectively from these parts. */
  datatype Entity = Execution | Phase | Turn(index: nat) | ModelCall(turn: nat) | Tool(id: string)

  datatype Status = Succeeded | Failed | Cancelled | TimedOut

  /** `turn` is the turn index a tool event carries. */
  datatype Event = Started(entity: Entity, turn: nat) | Ended(entity: Entity, turn: nat, status: Status)

  datatype Life = NotYet | Open | Closed

  datatype Acceptor = Acceptor(
    execution: Life, phase: Life, turn: Option<nat>, model: Life,
    openTools: map<string, nat>, doneTools: set<string>, turns: nat)

  const NOTHING := Acceptor(NotYet, NotYet, None, NotYet, map[], {}, 0)

  function Accept(a: Acceptor, e: Event): Option<Acceptor> {
    match e
    case Started(Execution, _) => if a.execution == NotYet then Some(a.(execution := Open)) else None
    case Started(Phase, _) => if a.execution == Open && a.phase == NotYet then Some(a.(phase := Open)) else None
    case Started(Turn(i), _) =>
      if a.phase == Open && a.turn == None && i == a.turns then
        Some(a.(turn := Some(i), model := NotYet, turns := a.turns + 1))
      else None
    case Started(ModelCall(i), _) =>
      if a.turn == Some(i) && a.model == NotYet then Some(a.(model := Open)) else None
    case Started(Tool(id), i) =>
      if a.turn == Some(i) && a.model == Open && id !in a.openTools && id !in a.doneTools then
        Some(a.(openTools := a.openTools[id := i]))
      else None
    case Ended(Tool(id), i, _) =>
      if a.turn == Some(i) && id in a.openTools && a.openTools[id] == i then
        Some(a.(openTools := a.openTools - {id}, doneTools := a.doneTools + {id}))
      else None
    case Ended(ModelCall(i), _, _) =>
      if a.turn == Some(i) && a.model == Open && a.openTools == map[] then Some(a.(model := Closed)) else None
    case Ended(Turn(i), _, _) =>
      if a.turn == Some(i) && a.model == Closed then Some(a.(turn := None)) else None
    case Ended(Phase, _, _) => if a.phase == Open && a.turn == None then Some(a.(phase := Closed)) else None
    case Ended(Execution, _, _) =>
      if a.execution == Open && a.phase == Closed then Some(a.(execution := Closed)) else None
  }

  function Replay(log: seq<Event>): Option<Acceptor> {
    if log == [] then Some(NOTHING) else
    match Replay(log[..|log| - 1])
    case None => None
    case Some(a) => Accept(a, log[|log| - 1])
  }

  lemma ReplayOne(log: seq<Event>, e: Event)
    ensures Replay(log + [e]) == match Replay(log) case None => None case Some(a) => Accept(a, e)
  {
    assert (log + [e])[..|log|] == log;
  }

  predicate AllClosed(a: Acceptor) {
    a.execution == Closed && a.phase == Closed && a.turn == None && a.openTools == map[]
  }

  // ---------------------------------------------------------------- what acceptance means

  predicate Begun(a: Acceptor, entity: Entity) {
    match entity
    case Execution => a.execution != NotYet
    case Phase => a.phase != NotYet
    case Turn(i) => i < a.turns
    case ModelCall(i) => i < a.turns && (a.turn == Some(i) ==> a.model != NotYet)
    case Tool(id) => id in a.openTools || id in a.doneTools
  }

  predicate Over(a: Acceptor, entity: Entity) {
    match entity
    case Execution => a.execution == Closed
    case Phase => a.phase == Closed
    case Turn(i) => i < a.turns && a.turn != Some(i)
    case ModelCall(i) => i < a.turns && (a.turn == Some(i) ==> a.model == Closed)
    case Tool(id) => id in a.doneTools
  }

  predicate Consistent(a: Acceptor) {
    (a.turn.Some? ==> a.turn.value + 1 == a.turns) && (forall id :: id in a.openTools ==> id !in a.doneTools)
  }

  /** One accepted event begins or ends exactly its own entity, which had not begun, or had not ended. */
  lemma AcceptStep(a: Acceptor, e: Event, entity: Entity)
    requires Consistent(a) && Accept(a, e).Some?
    ensures var b := Accept(a, e).value;
      && Consistent(b)
      && (Begun(b, entity) <==> Begun(a, entity) || (e.Started? && e.entity == entity))
      && (Over(b, entity) <==> Over(a, entity) || (e.Ended? && e.entity == entity))
    ensures e.Started? ==> !Begun(a, e.entity)
    ensures e.Ended? ==> Begun(a, e.entity) && !Over(a, e.entity)
  {
  }

  /** Each entity starts at most once and ends at most once, and only after its start. */
  ghost predicate Bracketed(log: seq<Event>) {
    && (forall i, j :: 0 <= i < j < |log| && log[i].Started? && log[j].Started? ==> log[i].entity != log[j].entity)
    && (forall i, j :: 0 <= i < j < |log| && log[i].Ended? && log[j].Ended? ==> log[i].entity != log[j].entity)
    && (forall j :: 0 <= j < |log| && log[j].Ended? ==> StartedBefore(log, j, log[j].entity))
  }

  ghost predicate StartedBefore(log: seq<Event>, end: nat, entity: Entity)
    requires end <= |log|
  {
    exists i :: 0 <= i < end && log[i].Started? && log[i].entity == entity
  }

  ghost predicate EndedBefore(log: seq<Event>, end: nat, entity: Entity)
    requires end <= |log|
  {
    exists i :: 0 <= i < end && log[i].Ended? && log[i].entity == entity
  }

  lemma {:induction false} AcceptedSoFar(log: seq<Event>, entity: Entity)
    requires Replay(log).Some?
    ensures Consistent(Replay(log).value)
    ensures Begun(Replay(log).value, entity) <==> StartedBefore(log, |log|, entity)
    ensures Over(Replay(log).value, entity) <==> EndedBefore(log, |log|, entity)
  {
    if log != [] {
      var front, e := log[..|log| - 1], log[|log| - 1];
      AcceptedSoFar(front, entity);
      AcceptStep(Replay(front).value, e, entity);
      assert StartedBefore(log, |log|, entity) <==> StartedBefore(front, |front|, entity) || (e.Started? && e.entity == entity) by {
        if StartedBefore(front, |front|, entity) {
          var i :| 0 <= i < |front| && front[i].Started? && front[i].entity == entity;
          assert log[i] == front[i];
        }
      }
      assert EndedBefore(log, |log|, entity) <==> EndedBefore(front, |front|, entity) || (e.Ended? && e.entity == entity) by {
        if EndedBefore(front, |front|, entity) {
          var i :| 0 <= i < |front| && front[i].Ended? && front[i].entity == entity;
          assert log[i] == front[i];
        }
      }
    }
  }

  /** Appending an event keeps a log bracketed when the event's entity is new, or open. */
  lemma BracketedAppend(front: seq<Event>, e: Event)
    requires Bracketed(front)
    requires e.Started? ==> !StartedBefore(front, |front|, e.entity)
    requires e.Ended? ==> StartedBefore(front, |front|, e.entity) && !EndedBefore(front, |front|, e.entity)
    ensures Bracketed(front + [e])
  {
    var log := front + [e];
    forall j | 0 <= j < |log| && log[j].Ended?
      ensures StartedBefore(log, j, log[j].entity)
    {
      assert j < |front| ==> log[j] == front[j];
      assert StartedBefore(front, j, log[j].entity);
      var i :| 0 <= i < j && front[i].Started? && front[i].entity == log[j].entity;
      assert log[i] == front[i];
    }
    forall i, j | 0 <= i < j < |log| && ((log[i].Started? && log[j].Started?) || (log[i].Ended? && log[j].Ended?))
      ensures log[i].entity != log[j].entity
    {
      assert log[i] == front[i];
    }
  }

  /** Every accepted log is bracketed. */
  lemma {:induction false} AcceptedIsBracketed(log: seq<Event>)
    requires Replay(log).Some?
    ensures Bracketed(log)
  {
    if log != [] {
      hide Accept, Begun, Over, Bracketed, StartedBefore, EndedBefore, Consistent;
      var front, e := log[..|log| - 1], log[|log| - 1];
      AcceptedIsBracketed(front);
      AcceptedSoFar(front, e.entity);
      AcceptStep(Replay(front).value, e, e.entity);
      BracketedAppend(front, e);
      assert front + [e] == log;
    }
  }

  /** An accepted log that closes everything ends every entity it starts, exactly once and later. */
  lemma ClosedLogIsComplete(log: seq<Event>)
    requires Replay(log).Some? && AllClosed(Replay(log).value)
    ensures Bracketed(log)
    ensures forall i :: 0 <= i < |log| && log[i].Started? ==>
      exists j :: i < j < |log| && log[j].Ended? && log[j].entity == log[i].entity
  {
    AcceptedIsBracketed(log);
    forall i | 0 <= i < |log| && log[i].Started?
      ensures exists j :: i < j < |log| && log[j].Ended? && log[j].entity == log[i].entity
    {
      var entity := log[i].entity;
      AcceptedSoFar(log, entity);
      assert EndedBefore(log, |log|, entity);
      var j :| 0 <= j < |log| && log[j].Ended? && log[j].entity == entity;
      var k :| 0 <= k < j && log[k].Started? && log[k].entity == log[j].entity;
      assert k == i;
    }
  }

  /** Turn indices in start order. */
  function TurnIndices(log: seq<Event>): seq<nat> {
    if log == [] then [] else
    var e := log[|log| - 1];
    TurnIndices(log[..|log| - 1]) + (if e.Started? && e.entity.Turn? then [e.entity.index] else [])
  }

  /** Turns are numbered 0, 1, 2, … without gaps. */
  lemma {:induction false} TurnsAreNumbered(log: seq<Event>)
    requires Replay(log).Some?
    ensures TurnIndices(log) == seq(Replay(log).value.turns, i => i)
  {
    if log != [] {
      TurnsAreNumbered(log[..|log| - 1]);
    }
  }

  /** Wherever a tool is open, its turn is open and the tool carries that turn's index. */
  lemma {:induction false} ToolsStayInTheirTurn(log: seq<Event>)
    requires Replay(log).Some?
    ensures forall id :: id in Replay(log).value.openTools ==> Replay(log).value.turn == Some(Replay(log).value.openTools[id])
  {
    if log != [] {
      ToolsStayInTheirTurn(log[..|log| - 1]);
      NoToolsOutsideCalls(log[..|log| - 1]);
    }
  }

  lemma {:induction false} NoToolsOutsideCalls(log: seq<Event>)
    requires Replay(log).Some?
    ensures Replay(log).value.model != Open ==> Replay(log).value.openTools == map[]
    ensures Replay(log).value.turn == None ==> Replay(log).value.model != Open
  {
    if log != [] {
      NoToolsOutsideCalls(log[..|log| - 1]);
    }
  }
}
