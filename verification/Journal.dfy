/**
 Crash recovery (journal.rs, with the phase graph of lifecycle.rs and `set_phase` of
 reporting.rs): a run's journal file across persists that may fail, crashes of the process
 or the machine, and adoption by later runs.
 */
module Journal {
  import opened Common

  // ---------------------------------------------------------------- phases

  datatype Phase =
    | Claimed | Preparing | Executing | Verifying | Publishing | AwaitingReview
    | Succeeded | Blocked | Failed | Cancelled | TimedOut

  predicate IsTerminal(p: Phase) {
    p == Succeeded || p == Blocked || p == Failed || p == Cancelled || p == TimedOut
  }

  predicate CanTransition(from: Phase, to: Phase) {
    && !IsTerminal(from)
    && match (from, to)
       case (Claimed, Preparing) => true
       case (Preparing, Executing) => true
       case (Preparing, Publishing) => true
       case (Executing, Verifying) => true
       case (Verifying, Executing) => true
       case (Verifying, Publishing) => true
       case (Publishing, Executing) => true
       case (Publishing, Verifying) => true
       case (Publishing, AwaitingReview) => true
       case (AwaitingReview, Succeeded) => true
       case (_, _) => IsTerminal(to) && to != Succeeded
  }

  /** The phases of one attempt: from `Claimed` along the graph. */
  predicate Attempt(trail: seq<Phase>) {
    trail != [] && trail[0] == Claimed
    && forall i :: 0 <= i < |trail| - 1 ==> CanTransition(trail[i], trail[i + 1])
  }

  /** Success comes after preparing, then publishing, then review, and ends the attempt. */
  lemma SuccessPassedReview(trail: seq<Phase>, k: nat)
    requires Attempt(trail) && k < |trail| && trail[k] == Succeeded
    ensures k == |trail| - 1 && k >= 4
    ensures trail[k - 1] == AwaitingReview && trail[k - 2] == Publishing && trail[1] == Preparing
  {
    assert k > 0;
    assert CanTransition(trail[k - 1], trail[k]);
    assert CanTransition(trail[k - 2], trail[k - 1]);
    assert CanTransition(trail[0], trail[1]);
    assert k < |trail| - 1 ==> CanTransition(trail[k], trail[k + 1]);
    assert CanTransition(trail[k - 3], trail[k - 2]);
    assert CanTransition(trail[1], trail[2]);
  }

  // ---------------------------------------------------------------- the record

  datatype Executor = Executor(id: string, state: string)

  /**
   The journal record. `trail`, `commits` and `owners` are history the file does not hold:
   the attempt's phases, every commit recorded, and every run that owned the file.
   */
  datatype Record = Record(
    runId: string, ticketId: string, phase: Phase, lastSequence: nat, progressSequence: nat,
    branch: Option<string>, commit: Option<string>, pullRequestUrl: Option<string>, pullRequestNumber: Option<nat>,
    lastError: Option<string>, executor: Option<Executor>, recoverySource: Option<string>,
    tokens: nat, dependencies: Option<string>,
    trail: seq<Phase>, commits: seq<string>, owners: seq<string>)

  function NewRecord(runId: string, ticketId: string): Record {
    Record(runId, ticketId, Claimed, 0, 0, None, None, None, None, None, None, None, 0, None, [Claimed], [], [runId])
  }

  datatype RecoveryPlan =
    | Fresh
    | ResumeFromCommit(commit: string)
    | ResumeFromPullRequest(commit: string, url: string, number: nat)
    | IncompletePublication

  function PlanOf(r: Record): RecoveryPlan {
    match (r.commit, r.pullRequestUrl, r.pullRequestNumber)
    case (None, None, None) => Fresh
    case (Some(commit), None, None) => ResumeFromCommit(commit)
    case (Some(commit), Some(url), Some(number)) => ResumeFromPullRequest(commit, url, number)
    case (_, _, _) => IncompletePublication
  }

  datatype Change =
    | Checkpoint(sequence: nat)
    | Advance(phase: Phase)
    | Branch(name: string)
    | Commit(id: string)
    | PullRequest(url: string, number: nat)
    | Progress(sequence: nat)
    | Error(message: string)
    | Tokens(total: nat)
    | Dependencies(state: string)
    | ExecutorState(executor: Executor)

  /** An invalid phase change is ignored; everything else is recorded as it comes. */
  predicate Applies(r: Record, c: Change) { c.Advance? ==> CanTransition(r.phase, c.phase) }

  function Changed(r: Record, c: Change): Record
    requires Applies(r, c)
  {
    match c
    case Checkpoint(sequence) => r.(lastSequence := sequence)
    case Advance(phase) => r.(phase := phase, trail := r.trail + [phase])
    case Branch(name) => r.(branch := Some(name))
    case Commit(id) => r.(commit := Some(id), commits := r.commits + [id])
    case PullRequest(url, number) => r.(pullRequestUrl := Some(url), pullRequestNumber := Some(number))
    case Progress(sequence) => r.(progressSequence := sequence)
    case Error(message) => r.(lastError := Some(message))
    case Tokens(total) => r.(tokens := total)
    case Dependencies(state) => r.(dependencies := Some(state))
    case ExecutorState(executor) => r.(executor := Some(executor))
  }

  /** `resume_active_run`: a finished run that is claimed again starts a new attempt. */
  function Resumed(r: Record): Record {
    if IsTerminal(r.phase) then r.(phase := Claimed, lastError := None, trail := [Claimed]) else r
  }

  predicate AlreadyAdopted(r: Record, runId: string, source: string) {
    r.runId == runId && r.recoverySource == Some(source)
  }

  predicate Adoptable(r: Record, source: string) {
    r.runId == source && IsTerminal(r.phase) && r.phase != Succeeded
    && r.executor.Some? && r.executor.value.state == "retained"
  }

  function Adopted(r: Record, runId: string, source: string): Record {
    r.(runId := runId, phase := Claimed, lastSequence := 0, progressSequence := 0, lastError := None, tokens := 0,
       recoverySource := Some(source), trail := [Claimed], owners := r.owners + [runId])
  }

  // ---------------------------------------------------------------- the file

  /**
   How a persist ended: done; failed with the old contents in place; or failed after the
   rename, when the new contents are visible but a machine crash may undo them.
   */
  datatype Write = Written | KeptOld | NotSynced

  /** `visible` is what a load reads; `durable` is what survives a machine crash. */
  datatype Disk = Disk(visible: Option<Record>, durable: Option<Record>)

  function Persist(d: Disk, r: Record, w: Write): Disk {
    match w
    case Written => Disk(Some(r), Some(r))
    case KeptOld => d
    case NotSynced => Disk(Some(r), d.durable)
  }

  datatype Op =
    | Create(runId: string, ticketId: string, write: Write)
    | Resume(write: Write)
    | ReadPlan
    | Update(change: Change, write: Write)
    | Adopt(runId: string, ticketId: string, source: string, write: Write)
    | Crash(machine: bool)

  datatype Adoption = Adoption(source: string, runId: string)

  /** `acknowledged` is the last record a persist reported as written. */
  datatype State = State(memory: Option<Record>, disk: Disk, acknowledged: Option<Record>, adoptions: seq<Adoption>)

  const EMPTY := State(None, Disk(None, None), None, [])

  /** Persist what memory holds; a worker that must have it written gives up when it is not. */
  function Store(s: State, r: Record, w: Write, mandatory: bool): State {
    s.(memory := if mandatory && w != Written then None else Some(r),
       disk := Persist(s.disk, r, w),
       acknowledged := if w == Written then Some(r) else s.acknowledged)
  }

  function Next(s: State, op: Op): State {
    match op
    case Create(runId, ticketId, w) =>
      if s.memory.Some? then s
      else if s.disk.visible.None? then Store(s, NewRecord(runId, ticketId), w, true)
      else if s.disk.visible.value.runId != runId || s.disk.visible.value.ticketId != ticketId then s
      else s.(memory := s.disk.visible)
    case Resume(w) =>
      if s.memory.None? || !IsTerminal(s.memory.value.phase) then s
      else Store(s, Resumed(s.memory.value), w, true)
    case ReadPlan => s
    case Update(change, w) =>
      if s.memory.None? || !Applies(s.memory.value, change) then s
      else Store(s, Changed(s.memory.value, change), w, false)
    case Adopt(runId, ticketId, source, w) =>
      if s.memory.Some? || s.disk.visible.None? || runId == source then s
      else
        var r := s.disk.visible.value;
        var won := s.adoptions + [Adoption(source, runId)];
        if r.ticketId != ticketId then s
        else if AlreadyAdopted(r, runId, source) then s.(memory := Some(r), adoptions := won)
        else if !Adoptable(r, source) then s
        else
          var t := Store(s, Adopted(r, runId, source), w, true);
          if w == Written then t.(adoptions := won) else t
    case Crash(machine) =>
      s.(memory := None, disk := if machine then Disk(s.disk.durable, s.disk.durable) else s.disk)
  }

  function Run(ops: seq<Op>): State {
    if ops == [] then EMPTY else Next(Run(ops[..|ops| - 1]), ops[|ops| - 1])
  }

  // ---------------------------------------------------------------- what every reachable journal is

  /** What every operation keeps of a record. */
  predicate Sound(r: Record) {
    && Attempt(r.trail) && r.trail[|r.trail| - 1] == r.phase
    && r.commit == (if r.commits == [] then None else Some(r.commits[|r.commits| - 1]))
    && r.pullRequestUrl.Some? == r.pullRequestNumber.Some?
    && r.owners != [] && r.owners[|r.owners| - 1] == r.runId
    && (r.recoverySource.Some? ==> |r.owners| > 1 && r.owners[|r.owners| - 2] == r.recoverySource.value)
    && (r.recoverySource.None? ==> |r.owners| == 1)
  }

  predicate SoundIfAny(r: Option<Record>) { r.Some? ==> Sound(r.value) }

  /** `later` still has every commit and owner `earlier` had. */
  predicate Keeps(earlier: Record, later: Record) {
    earlier.commits <= later.commits && earlier.owners <= later.owners
  }

  predicate KeepsAcknowledged(s: State, r: Option<Record>) {
    s.acknowledged.Some? ==> r.Some? && Keeps(s.acknowledged.value, r.value)
  }

  predicate Inv(s: State) {
    && SoundIfAny(s.memory) && SoundIfAny(s.disk.visible) && SoundIfAny(s.disk.durable)
    && s.acknowledged == s.disk.durable
    && KeepsAcknowledged(s, s.disk.visible) && KeepsAcknowledged(s, s.disk.durable)
    && (s.memory.Some? ==> KeepsAcknowledged(s, s.memory))
    && (s.disk.durable.Some? ==> s.disk.visible.Some?)
  }

  lemma ChangedSound(r: Record, c: Change)
    requires Sound(r) && Applies(r, c)
    ensures Sound(Changed(r, c)) && Keeps(r, Changed(r, c))
  {
    var n := Changed(r, c);
    if c.Advance? {
      forall i | 0 <= i < |n.trail| - 1 ensures CanTransition(n.trail[i], n.trail[i + 1]) {
        if i < |r.trail| - 1 {
          assert CanTransition(r.trail[i], r.trail[i + 1]);
        }
      }
    }
  }

  lemma StoreInv(s: State, r: Record, w: Write, mandatory: bool)
    requires Inv(s) && Sound(r) && KeepsAcknowledged(s, Some(r))
    ensures Inv(Store(s, r, w, mandatory))
  {
  }

  lemma NextInv(s: State, op: Op)
    requires Inv(s)
    ensures Inv(Next(s, op))
  {
    hide Sound, Changed, Applies, IsTerminal, Keeps;
    match op {
      case Create(runId, ticketId, w) =>
        if s.memory.None? && s.disk.visible.None? {
          NewRecordSound(runId, ticketId);
          StoreInv(s, NewRecord(runId, ticketId), w, true);
        }
      case ReadPlan =>
      case Resume(w) =>
        if s.memory.Some? && IsTerminal(s.memory.value.phase) {
          ResumedSound(s.memory.value);
          KeepsMore(s, s.memory.value, Resumed(s.memory.value));
          StoreInv(s, Resumed(s.memory.value), w, true);
        }
      case Update(change, w) =>
        if s.memory.Some? && Applies(s.memory.value, change) {
          ChangedSound(s.memory.value, change);
          KeepsMore(s, s.memory.value, Changed(s.memory.value, change));
          StoreInv(s, Changed(s.memory.value, change), w, false);
        }
      case Adopt(runId, ticketId, source, w) =>
        if s.memory.None? && s.disk.visible.Some? && Adoptable(s.disk.visible.value, source) {
          var r := s.disk.visible.value;
          AdoptedSound(r, runId, source);
          KeepsMore(s, r, Adopted(r, runId, source));
          StoreInv(s, Adopted(r, runId, source), w, true);
        }
      case Crash(machine) =>
    }
  }

  lemma NewRecordSound(runId: string, ticketId: string)
    ensures Sound(NewRecord(runId, ticketId))
  {
  }

  lemma ResumedSound(r: Record)
    requires Sound(r)
    ensures Sound(Resumed(r)) && Keeps(r, Resumed(r))
  {
  }

  lemma AdoptedSound(r: Record, runId: string, source: string)
    requires Sound(r) && Adoptable(r, source)
    ensures Sound(Adopted(r, runId, source)) && Keeps(r, Adopted(r, runId, source))
  {
  }

  lemma KeepsMore(s: State, r: Record, t: Record)
    requires KeepsAcknowledged(s, Some(r)) && Keeps(r, t)
    ensures KeepsAcknowledged(s, Some(t))
  {
  }

  lemma {:induction false} RunInv(ops: seq<Op>)
    ensures Inv(Run(ops))
  {
    if ops != [] {
      RunInv(ops[..|ops| - 1]);
      NextInv(Run(ops[..|ops| - 1]), ops[|ops| - 1]);
    }
  }

  // ---------------------------------------------------------------- a pull request comes after its commit

  /**
   Whether the run has its commit in hand: since it was created, resumed or adopted, its
   recovery plan named one, or one was recorded. A run whose commit could not be recorded
   gives up on it.
   */
  function CommitInHand(ops: seq<Op>): bool {
    if ops == [] then false
    else
      var front, op := ops[..|ops| - 1], ops[|ops| - 1];
      match op
      case ReadPlan =>
        var memory := Run(front).memory;
        memory.Some? && (PlanOf(memory.value).ResumeFromCommit? || PlanOf(memory.value).ResumeFromPullRequest?)
      case Update(change, w) => if change.Commit? then w == Written else CommitInHand(front)
      case _ => false
  }

  /** The order of a run: it opens a pull request only with its commit in hand. */
  predicate RunOrder(ops: seq<Op>) {
    forall i :: 0 <= i < |ops| && ops[i].Update? && ops[i].change.PullRequest? ==> CommitInHand(ops[..i])
  }

  predicate Published(r: Option<Record>) { r.Some? && r.value.pullRequestUrl.Some? ==> r.value.commit.Some? }

  predicate AllPublished(s: State) { Published(s.memory) && Published(s.disk.visible) && Published(s.disk.durable) }

  lemma NextPublished(s: State, op: Op)
    requires AllPublished(s)
    requires op.Update? && op.change.PullRequest? && s.memory.Some? ==> s.memory.value.commit.Some?
    ensures AllPublished(Next(s, op))
  {
    hide IsTerminal, CanTransition, Adoptable, AlreadyAdopted;
  }

  /** In the run's order every journal, in memory or on disk, has a commit under its pull request. */
  lemma {:induction false} OrderPublishes(ops: seq<Op>)
    requires RunOrder(ops)
    ensures AllPublished(Run(ops))
    ensures CommitInHand(ops) && Run(ops).memory.Some? ==> Run(ops).memory.value.commit.Some?
  {
    hide IsTerminal, CanTransition, Adoptable, AlreadyAdopted;
    if ops != [] {
      var front := ops[..|ops| - 1];
      assert forall i :: 0 <= i < |front| ==> front[..i] == ops[..i];
      OrderPublishes(front);
      NextPublished(Run(front), ops[|ops| - 1]);
    }
  }

  /** The journal itself does not insist: a pull request recorded first leaves nothing to resume from. */
  lemma PullRequestFirstIsIncomplete()
    ensures var ops := [Create("a", "t", Written), Update(PullRequest("u", 1), Written)];
      !RunOrder(ops) && Run(ops).disk.visible.Some? && PlanOf(Run(ops).disk.visible.value) == IncompletePublication
  {
    var ops := [Create("a", "t", Written), Update(PullRequest("u", 1), Written)];
    assert ops[..1] == [ops[0]] && ops[..1][..0] == [];
    assert Run([]) == EMPTY;
    assert Run(ops[..1]) == Next(EMPTY, ops[0]);
    assert !CommitInHand(ops[..1]);
  }

  /**
   After any history of persists, failures, crashes and adoptions in the run's order, what a
   load reads (and what a machine crash would leave) gives a well-formed recovery plan
   whose commit is the last one recorded, at or after every commit whose persist was
   acknowledged; and its phase was reached along the graph.
   */
  lemma EveryJournalIsRecoverable(ops: seq<Op>, machineCrashes: bool)
    requires RunOrder(ops)
    ensures var s := Run(ops);
      var onDisk := if machineCrashes then s.disk.durable else s.disk.visible;
      onDisk.Some? ==>
        var r := onDisk.value;
        && PlanOf(r) != IncompletePublication
        && (PlanOf(r) == Fresh <==> r.commits == [])
        && (PlanOf(r) != Fresh ==> PlanOf(r).commit == r.commits[|r.commits| - 1])
        && (PlanOf(r).ResumeFromPullRequest? <==> r.pullRequestUrl.Some?)
        && Attempt(r.trail) && r.trail[|r.trail| - 1] == r.phase
        && (r.phase == Succeeded ==> |r.trail| > 4 && r.trail[|r.trail| - 2] == AwaitingReview)
        && (s.acknowledged.Some? ==> s.acknowledged.value.commits <= r.commits)
    ensures Run(ops).acknowledged.Some? ==> Run(ops).disk.durable.Some? && Run(ops).disk.visible.Some?
  {
    hide Run, Next, CanTransition, RunOrder, CommitInHand;
    RunInv(ops);
    OrderPublishes(ops);
    var s := Run(ops);
    var onDisk := if machineCrashes then s.disk.durable else s.disk.visible;
    if onDisk.Some? && onDisk.value.phase == Succeeded {
      SuccessPassedReview(onDisk.value.trail, |onDisk.value.trail| - 1);
    }
  }

  /** An acknowledged commit stays in every later journal, whatever happens afterwards. */
  lemma {:induction false} AcknowledgedCommitsLast(ops: seq<Op>, later: seq<Op>)
    requires Run(ops).acknowledged.Some?
    ensures var s := Run(ops + later);
      s.acknowledged.Some? && Run(ops).acknowledged.value.commits <= s.acknowledged.value.commits
      && s.disk.visible.Some? && Run(ops).acknowledged.value.commits <= s.disk.visible.value.commits
  {
    RunInv(ops + later);
    if later == [] {
      assert ops + later == ops;
    } else {
      var front, op := later[..|later| - 1], later[|later| - 1];
      AcknowledgedCommitsLast(ops, front);
      assert (ops + later)[..|ops + later| - 1] == ops + front;
      var s := Run(ops + front);
      RunInv(ops + front);
      AcknowledgedGrows(s, op);
    }
  }

  lemma AcknowledgedGrows(s: State, op: Op)
    requires Inv(s) && s.acknowledged.Some?
    ensures Next(s, op).acknowledged.Some?
    ensures s.acknowledged.value.commits <= Next(s, op).acknowledged.value.commits
  {
    hide Sound, IsTerminal;
  }

  /** What was recorded and acknowledged is what the next start of the run loads, even after a machine crash. */
  lemma AcknowledgedIsReloaded(s: State, change: Change, machine: bool, again: Write)
    requires s.memory.Some? && Applies(s.memory.value, change)
    ensures var r := Changed(s.memory.value, change);
      var t := Next(Next(Next(s, Update(change, Written)), Crash(machine)), Create(r.runId, r.ticketId, again));
      t.memory == Some(r) && r.runId == s.memory.value.runId && r.ticketId == s.memory.value.ticketId
  {
    var r := Changed(s.memory.value, change);
    assert Next(s, Update(change, Written)).disk == Disk(Some(r), Some(r));
  }

  // ---------------------------------------------------------------- every field, exactly

  /** From each phase, where an attempt may go; from every one but the ends it may also fail. */
  lemma PhaseSuccessors(to: Phase)
    ensures var fails := to == Blocked || to == Failed || to == Cancelled || to == TimedOut;
      && (CanTransition(Claimed, to) <==> fails || to == Preparing)
      && (CanTransition(Preparing, to) <==> fails || to == Executing || to == Publishing)
      && (CanTransition(Executing, to) <==> fails || to == Verifying)
      && (CanTransition(Verifying, to) <==> fails || to == Executing || to == Publishing)
      && (CanTransition(Publishing, to) <==> fails || to == Executing || to == Verifying || to == AwaitingReview)
      && (CanTransition(AwaitingReview, to) <==> fails || to == Succeeded)
      && (forall from :: IsTerminal(from) ==> !CanTransition(from, to))
  {
  }

  /** A journal's changes, one after the other; a phase change the graph does not allow is ignored. */
  function ChangedBy(r: Record, changes: seq<Change>): Record {
    if changes == [] then r
    else
      var before := ChangedBy(r, changes[..|changes| - 1]);
      if Applies(before, changes[|changes| - 1]) then Changed(before, changes[|changes| - 1]) else before
  }

  /** The last value the changes give, or else the initial one. */
  function Latest<T>(changes: seq<Change>, given: Change -> Option<T>, initial: T): T {
    if changes == [] then initial
    else
      var last := given(changes[|changes| - 1]);
      if last.Some? then last.value else Latest(changes[..|changes| - 1], given, initial)
  }

  function GivenSequence(c: Change): Option<nat> { if c.Checkpoint? then Some(c.sequence) else None }

  function GivenProgress(c: Change): Option<nat> { if c.Progress? then Some(c.sequence) else None }

  function GivenBranch(c: Change): Option<Option<string>> { if c.Branch? then Some(Some(c.name)) else None }

  function GivenCommit(c: Change): Option<Option<string>> { if c.Commit? then Some(Some(c.id)) else None }

  function GivenUrl(c: Change): Option<Option<string>> { if c.PullRequest? then Some(Some(c.url)) else None }

  function GivenNumber(c: Change): Option<Option<nat>> { if c.PullRequest? then Some(Some(c.number)) else None }

  function GivenError(c: Change): Option<Option<string>> { if c.Error? then Some(Some(c.message)) else None }

  function GivenTokens(c: Change): Option<nat> { if c.Tokens? then Some(c.total) else None }

  function GivenDependencies(c: Change): Option<Option<string>> { if c.Dependencies? then Some(Some(c.state)) else None }

  function GivenExecutor(c: Change): Option<Option<Executor>> { if c.ExecutorState? then Some(Some(c.executor)) else None }

  function PhaseBy(phase: Phase, changes: seq<Change>): Phase {
    if changes == [] then phase
    else
      var before, last := PhaseBy(phase, changes[..|changes| - 1]), changes[|changes| - 1];
      if last.Advance? && CanTransition(before, last.phase) then last.phase else before
  }

  /** What one change does to each field. */
  lemma OneChange(r: Record, c: Change)
    ensures var t := if Applies(r, c) then Changed(r, c) else r;
      && t.phase == (if c.Advance? && CanTransition(r.phase, c.phase) then c.phase else r.phase)
      && t.lastSequence == (if c.Checkpoint? then c.sequence else r.lastSequence)
      && t.progressSequence == (if c.Progress? then c.sequence else r.progressSequence)
      && t.branch == (if c.Branch? then Some(c.name) else r.branch)
      && t.commit == (if c.Commit? then Some(c.id) else r.commit)
      && t.pullRequestUrl == (if c.PullRequest? then Some(c.url) else r.pullRequestUrl)
      && t.pullRequestNumber == (if c.PullRequest? then Some(c.number) else r.pullRequestNumber)
      && t.lastError == (if c.Error? then Some(c.message) else r.lastError)
      && t.tokens == (if c.Tokens? then c.total else r.tokens)
      && t.dependencies == (if c.Dependencies? then Some(c.state) else r.dependencies)
      && t.executor == (if c.ExecutorState? then Some(c.executor) else r.executor)
      && t.runId == r.runId && t.ticketId == r.ticketId && t.recoverySource == r.recoverySource && t.owners == r.owners
  {
    hide CanTransition;
  }

  /**
   Every field of a record is what the last change to that field made it, whatever changes
   to other fields came before, between and after; and what no change is about stays.
   */
  lemma {:induction false} EveryFieldIsItsLastChange(r: Record, changes: seq<Change>)
    ensures var t := ChangedBy(r, changes);
      && t.phase == PhaseBy(r.phase, changes)
      && t.lastSequence == Latest(changes, GivenSequence, r.lastSequence)
      && t.progressSequence == Latest(changes, GivenProgress, r.progressSequence)
      && t.branch == Latest(changes, GivenBranch, r.branch)
      && t.commit == Latest(changes, GivenCommit, r.commit)
      && t.pullRequestUrl == Latest(changes, GivenUrl, r.pullRequestUrl)
      && t.pullRequestNumber == Latest(changes, GivenNumber, r.pullRequestNumber)
      && t.lastError == Latest(changes, GivenError, r.lastError)
      && t.tokens == Latest(changes, GivenTokens, r.tokens)
      && t.dependencies == Latest(changes, GivenDependencies, r.dependencies)
      && t.executor == Latest(changes, GivenExecutor, r.executor)
      && t.runId == r.runId && t.ticketId == r.ticketId && t.recoverySource == r.recoverySource && t.owners == r.owners
  {
    hide CanTransition, Changed, Applies;
    if changes != [] {
      EveryFieldIsItsLastChange(r, changes[..|changes| - 1]);
      OneChange(ChangedBy(r, changes[..|changes| - 1]), changes[|changes| - 1]);
    }
  }

  /** A claimed run that had ended starts again with its error forgotten and everything else as it was. */
  lemma ResumedExactly(r: Record)
    ensures var t := Resumed(r);
      var ended := r.phase == Succeeded || r.phase == Blocked || r.phase == Failed || r.phase == Cancelled || r.phase == TimedOut;
      && t.phase == (if ended then Claimed else r.phase) && t.lastError == (if ended then None else r.lastError)
      && t == r.(phase := t.phase, lastError := t.lastError, trail := t.trail)
  {
  }

  /** What a start finds: its own record, a new one where there was none, and otherwise nothing, and changes nothing. */
  lemma CreatedExactly(s: State, runId: string, ticketId: string, w: Write)
    requires s.memory.None?
    ensures var t := Next(s, Create(runId, ticketId, w));
      match s.disk.visible
      case None =>
        var begun := NewRecord(runId, ticketId);
        && t.disk == (if w == KeptOld then s.disk else Disk(Some(begun), if w == Written then Some(begun) else s.disk.durable))
        && t.memory == (if w == Written then Some(begun) else None)
        && PlanOf(begun) == Fresh && begun.phase == Claimed && begun.lastSequence == 0 && begun.progressSequence == 0
        && begun.executor.None? && begun.recoverySource.None?
      case Some(r) =>
        t.disk == s.disk && t.memory == if r.runId == runId && r.ticketId == ticketId then Some(r) else None
  {
  }

  /** A change that cannot be written goes on in memory; an attempt that cannot be begun is given up. */
  lemma FailedWrites(s: State, change: Change, w: Write)
    requires s.memory.Some?
    ensures var t, u := Next(s, Update(change, w)), Next(s, Resume(w));
      && t.memory == Some(ChangedBy(s.memory.value, [change])) && t.adoptions == s.adoptions
      && (t.disk.visible == if w == KeptOld || !Applies(s.memory.value, change) then s.disk.visible else t.memory)
      && (t.disk.durable == if w != Written || !Applies(s.memory.value, change) then s.disk.durable else t.memory)
      && (u.memory.None? <==> IsTerminal(s.memory.value.phase) && w != Written)
      && (u.memory.Some? ==> u.memory.value == Resumed(s.memory.value))
  {
    hide CanTransition;
    assert [change][..0] == [];
    assert ChangedBy(s.memory.value, []) == s.memory.value;
  }

  // ---------------------------------------------------------------- adoption

  /** Adoption carries over every artifact and starts a new attempt; repeating it changes nothing. */
  lemma AdoptionKeepsArtifacts(s: State, runId: string, ticketId: string, source: string, again: Write)
    requires Inv(s) && s.memory.None? && s.disk.visible.Some?
    ensures var r := s.disk.visible.value;
      var t := Next(s, Adopt(runId, ticketId, source, Written));
      && (t.adoptions != s.adoptions <==>
            runId != source && r.ticketId == ticketId && (AlreadyAdopted(r, runId, source) || Adoptable(r, source)))
      && (t.adoptions != s.adoptions ==>
            && t.memory == t.disk.visible && t.memory.value.runId == runId && t.memory.value.recoverySource == Some(source)
            && PlanOf(t.memory.value) == PlanOf(r) && t.memory.value.branch == r.branch
            && t.memory.value.executor == r.executor && t.memory.value.dependencies == r.dependencies
            && t.memory.value.commits == r.commits
            && var crashed := Next(t, Crash(false));
               Next(crashed, Adopt(runId, ticketId, source, again)).memory == t.memory
               && Next(crashed, Adopt(runId, ticketId, source, again)).disk == t.disk)
  {
  }

  /** A run that ended without success, its executor kept for the next. */
  predicate LeftForOthers(r: Record) {
    (r.phase == Blocked || r.phase == Failed || r.phase == Cancelled || r.phase == TimedOut)
    && r.executor.Some? && r.executor.value.state == "retained"
  }

  /**
   Adoption is taken exactly from the named run, for its own ticket, when it was left for
   others (or was taken by this run before); the record then starts over but for what was made.
   */
  lemma AdoptedExactly(s: State, runId: string, ticketId: string, source: string)
    requires s.memory.None?
    ensures var t := Next(s, Adopt(runId, ticketId, source, Written));
      && (t.memory.Some? <==>
            && s.disk.visible.Some? && runId != source && s.disk.visible.value.ticketId == ticketId
            && ((s.disk.visible.value.runId == runId && s.disk.visible.value.recoverySource == Some(source))
                || (s.disk.visible.value.runId == source && LeftForOthers(s.disk.visible.value))))
      && (t.memory.None? ==> t == s)
      && (t.memory.Some? ==> t.disk.visible == t.memory && t.adoptions == s.adoptions + [Adoption(source, runId)])
      && (t.memory.Some? && t.disk != s.disk && s.disk.visible.value.runId == source ==>
            var r, a := s.disk.visible.value, t.memory.value;
            && a.runId == runId && a.ticketId == r.ticketId && a.phase == Claimed && a.recoverySource == Some(source)
            && a.lastSequence == 0 && a.progressSequence == 0 && a.tokens == 0 && a.lastError.None?
            && a.branch == r.branch && a.commit == r.commit && a.pullRequestUrl == r.pullRequestUrl
            && a.pullRequestNumber == r.pullRequestNumber && a.executor == r.executor && a.dependencies == r.dependencies)
  {
  }

  /** No run adopts a file it owns or owned before. */
  predicate FreshAdopter(s: State, op: Op) {
    op.Adopt? && s.disk.visible.Some? && !AlreadyAdopted(s.disk.visible.value, op.runId, op.source) ==>
      op.runId !in s.disk.visible.value.owners
  }

  /** What a machine crash would leave still records every adoption that was reported. */
  predicate AdoptionsAreDurable(s: State) {
    s.adoptions == []
    || (s.disk.durable.Some? && forall a :: a in s.adoptions ==> HandsOver(s.disk.durable.value.owners, a))
  }

  predicate Careful(s: State, op: Op) { FreshAdopter(s, op) && (op == Crash(true) ==> AdoptionsAreDurable(s)) }

  predicate AllCareful(ops: seq<Op>) { forall i :: 0 <= i < |ops| ==> Careful(Run(ops[..i]), ops[i]) }

  predicate DistinctOwners(owners: seq<string>) {
    forall i, j :: 0 <= i < j < |owners| ==> owners[i] != owners[j]
  }

  /** Each adoption hands the file from one owner to the next. */
  predicate HandsOver(owners: seq<string>, a: Adoption) {
    exists i :: 0 <= i < |owners| - 1 && owners[i] == a.source && owners[i + 1] == a.runId
  }

  predicate OwnersInv(s: State) {
    && (s.disk.visible.Some? ==> DistinctOwners(s.disk.visible.value.owners))
    && (s.disk.visible.None? ==> s.adoptions == [])
    && (s.memory.Some? ==> s.disk.visible.Some? && s.memory.value.owners == s.disk.visible.value.owners)
    && (s.disk.visible.Some? ==> forall a :: a in s.adoptions ==> HandsOver(s.disk.visible.value.owners, a))
  }

  lemma NextOwners(s: State, op: Op)
    requires Inv(s) && OwnersInv(s) && Careful(s, op)
    ensures OwnersInv(Next(s, op))
  {
    hide IsTerminal, Sound, Applies, HandsOver;
    if op.Adopt? && s.memory.None? && s.disk.visible.Some? {
      var r := s.disk.visible.value;
      if AlreadyAdopted(r, op.runId, op.source) {
        LastHandOver(r, op.runId, op.source);
      } else if Adoptable(r, op.source) {
        NewHandOver(r, s.adoptions, op.runId, op.source);
      }
    } else if op.Create? {
      OneOwner(op.runId);
    }
  }

  lemma OneOwner(runId: string)
    ensures DistinctOwners([runId])
  {
  }

  lemma LastHandOver(r: Record, runId: string, source: string)
    requires Sound(r) && AlreadyAdopted(r, runId, source)
    ensures HandsOver(r.owners, Adoption(source, runId))
  {
    assert r.owners[|r.owners| - 2] == source && r.owners[|r.owners| - 2 + 1] == runId;
  }

  lemma NewHandOver(r: Record, adoptions: seq<Adoption>, runId: string, source: string)
    requires Sound(r) && Adoptable(r, source) && runId !in r.owners && DistinctOwners(r.owners)
    requires forall a :: a in adoptions ==> HandsOver(r.owners, a)
    ensures DistinctOwners(r.owners + [runId])
    ensures forall a :: a in adoptions + [Adoption(source, runId)] ==> HandsOver(r.owners + [runId], a)
  {
    hide IsTerminal;
    var owners := r.owners + [runId];
    assert owners[|r.owners| - 1] == source && owners[|r.owners| - 1 + 1] == runId;
    forall a | a in adoptions ensures HandsOver(owners, a) {
      var i :| 0 <= i < |r.owners| - 1 && r.owners[i] == a.source && r.owners[i + 1] == a.runId;
      assert owners[i] == a.source && owners[i + 1] == a.runId;
    }
  }

  lemma {:induction false} RunOwners(ops: seq<Op>)
    requires AllCareful(ops)
    ensures OwnersInv(Run(ops))
  {
    if ops != [] {
      var front := ops[..|ops| - 1];
      assert forall i :: 0 <= i < |front| ==> front[..i] == ops[..i];
      RunOwners(front);
      RunInv(front);
      NextOwners(Run(front), ops[|ops| - 1]);
    }
  }

  /** Each source was adopted by at most one run. */
  predicate OneAdopterEach(adoptions: seq<Adoption>) {
    forall a, b :: a in adoptions && b in adoptions && a.source == b.source ==> a.runId == b.runId
  }

  /**
   With fresh run ids, and at each machine crash every reported adoption durable, at most
   one run ever adopts a given source.
   */
  lemma AtMostOneAdopter(ops: seq<Op>)
    requires AllCareful(ops)
    ensures OneAdopterEach(Run(ops).adoptions)
  {
    hide Run, AllCareful;
    RunOwners(ops);
    OwnersGiveOneAdopter(Run(ops));
  }

  lemma OwnersGiveOneAdopter(s: State)
    requires OwnersInv(s)
    ensures OneAdopterEach(s.adoptions)
  {
    forall a, b | a in s.adoptions && b in s.adoptions && a.source == b.source ensures a.runId == b.runId {
      var owners := s.disk.visible.value.owners;
      var i :| 0 <= i < |owners| - 1 && owners[i] == a.source && owners[i + 1] == a.runId;
      var j :| 0 <= j < |owners| - 1 && owners[j] == b.source && owners[j + 1] == b.runId;
    }
  }

  // ---------------------------------------------------------------- exactly which machine crashes are harmless

  predicate Continues(ops: seq<Op>, later: seq<Op>) {
    forall i :: 0 <= i < |later| ==> Careful(Run(ops + later[..i]), later[i])
  }

  lemma {:induction false} ContinuesMore(ops: seq<Op>, first: seq<Op>, second: seq<Op>)
    requires Continues(ops, first) && Continues(ops + first, second)
    ensures Continues(ops, first + second)
  {
    hide Run, Careful;
    var later := first + second;
    forall i | 0 <= i < |later| ensures Careful(Run(ops + later[..i]), later[i]) {
      if i < |first| {
        assert later[..i] == first[..i] && later[i] == first[i];
      } else {
        var k := i - |first|;
        assert ops + later[..i] == ops + first + second[..k];
        assert later[i] == second[k];
      }
    }
  }

  lemma Tame(ops: seq<Op>, op: Op)
    requires Careful(Run(ops), op)
    ensures Continues(ops, [op]) && Run(ops + [op]) == Next(Run(ops), op)
  {
    hide Run;
    RunOfOneMore(ops, op);
    assert [op][..0] == [] && ops + [] == ops;
  }

  /** A run can always fail with its executor retained, and its process end. */
  lemma FailRetained(ops: seq<Op>, r: Record) returns (later: seq<Op>)
    requires var s := Run(ops); s.memory.None? && s.disk.visible == Some(r)
    ensures Continues(ops, later)
    ensures var t := Run(ops + later);
      && t.memory.None? && t.disk.visible.Some? && t.adoptions == Run(ops).adoptions
      && var q := t.disk.visible.value;
         q.owners == r.owners && q.ticketId == r.ticketId && Adoptable(q, r.runId)
  {
    hide Run, Continues, Careful, Next, Adoptable;
    FailStepsFail(Run(ops), r);
    TameStep(ops, FailSteps(r)[0]);
    later := TameContinues(ops, [FailSteps(r)[0]], FailSteps(r)[1]);
    later := TameContinues(ops, later, FailSteps(r)[2]);
    later := TameContinues(ops, later, FailSteps(r)[3]);
    later := TameContinues(ops, later, FailSteps(r)[4]);
  }

  function FailSteps(r: Record): seq<Op> {
    [Create(r.runId, r.ticketId, Written), Resume(Written),
     Update(ExecutorState(Executor("x", "retained")), Written), Update(Advance(Failed), Written), Crash(false)]
  }

  lemma FailStepsFail(s: State, r: Record)
    requires s.memory.None? && s.disk.visible == Some(r)
    ensures var steps := FailSteps(r);
      var t := Next(Next(Next(Next(Next(s, steps[0]), steps[1]), steps[2]), steps[3]), steps[4]);
      && t.memory.None? && t.disk.visible.Some? && t.adoptions == s.adoptions
      && var q := t.disk.visible.value;
         q.owners == r.owners && q.ticketId == r.ticketId && Adoptable(q, r.runId)
  {
    var steps := FailSteps(r);
    var resumed := Resumed(r);
    var created := Next(s, steps[0]);
    assert created.memory == Some(r);
    var retained := Next(Next(created, steps[1]), steps[2]);
    assert retained.memory == Some(resumed.(executor := Some(Executor("x", "retained"))));
    assert CanTransition(resumed.phase, Failed);
  }

  lemma TameContinues(ops: seq<Op>, some: seq<Op>, op: Op) returns (more: seq<Op>)
    requires Continues(ops, some) && !op.Adopt? && op != Crash(true)
    ensures Continues(ops, more) && Run(ops + more) == Next(Run(ops + some), op)
  {
    hide Run, Continues;
    more := some + [op];
    TameStep(ops + some, op);
    assert ops + more == ops + some + [op];
    ContinuesMore(ops, some, [op]);
  }

  lemma TameStep(ops: seq<Op>, op: Op)
    requires !op.Adopt? && op != Crash(true)
    ensures Continues(ops, [op]) && Run(ops + [op]) == Next(Run(ops), op)
  {
    hide Run;
    Tame(ops, op);
  }

  /** A run that never owned the file adopts it, and its process ends. */
  lemma AdoptFresh(ops: seq<Op>, r: Record, runId: string) returns (later: seq<Op>)
    requires var s := Run(ops); s.memory.None? && s.disk.visible == Some(r)
    requires Sound(r) && Adoptable(r, r.runId) && runId !in r.owners
    ensures Continues(ops, later)
    ensures var t := Run(ops + later);
      && t.memory.None? && t.disk.visible == Some(Adopted(r, runId, r.runId))
      && t.adoptions == Run(ops).adoptions + [Adoption(r.runId, runId)]
  {
    hide Run, Continues;
    assert r.runId in r.owners;
    var first := Adopt(runId, r.ticketId, r.runId, Written);
    assert !AlreadyAdopted(r, runId, r.runId);
    Tame(ops, first);
    TameStep(ops + [first], Crash(false));
    later := [first] + [Crash(false)];
    ContinuesMore(ops, [first], [Crash(false)]);
    assert ops + later == ops + [first] + [Crash(false)];
  }

  lemma {:induction false} SomeFreshId(taken: seq<string>) returns (id: string)
    ensures id !in taken
    ensures forall k :: 0 <= k < |taken| ==> |id| > |taken[k]|
  {
    if taken == [] {
      id := "";
    } else {
      var other := SomeFreshId(taken[1..]);
      var last := taken[0];
      id := if |other| > |last| then other else last + "'";
      forall k | 0 <= k < |taken| ensures |id| > |taken[k]| {
        if k > 0 {
          assert taken[k] == taken[1..][k - 1];
        }
      }
    }
  }

  /** When a source that was adopted owns the file again, a run that never owned it can adopt it a second time. */
  lemma SourceReturned(ops: seq<Op>, a: Adoption) returns (later: seq<Op>)
    requires var s := Run(ops);
      s.memory.None? && a in s.adoptions && s.disk.visible.Some? && s.disk.visible.value.runId == a.source
    ensures Continues(ops, later) && !OneAdopterEach(Run(ops + later).adoptions)
  {
    hide Run, Continues, Adopted, Sound, Adoptable, OneAdopterEach;
    var r := Run(ops).disk.visible.value;
    var fail := FailRetained(ops, r);
    RunInv(ops + fail);
    var q := Run(ops + fail).disk.visible.value;
    AdoptableOwner(q, r.runId);
    var id := SomeFreshId(q.owners + [a.runId]);
    NotAmong(id, q.owners, a.runId);
    var adopt := AdoptFresh(ops + fail, q, id);
    later := fail + adopt;
    ContinuesMore(ops, fail, adopt);
    assert ops + later == ops + fail + adopt;
    TwoAdopters(Run(ops + later).adoptions, a, Adoption(a.source, id));
  }

  lemma AdoptableOwner(r: Record, source: string)
    requires Adoptable(r, source)
    ensures r.runId == source
  {
  }

  lemma NotAmong(id: string, owners: seq<string>, other: string)
    requires id !in owners + [other]
    ensures id !in owners && id != other
  {
    assert other == (owners + [other])[|owners|];
  }

  lemma TwoAdopters(adoptions: seq<Adoption>, a: Adoption, b: Adoption)
    requires a in adoptions && b in adoptions && a.source == b.source && a.runId != b.runId
    ensures !OneAdopterEach(adoptions)
  {
  }

  /** From a file an earlier owner holds again, the source gets it back by adopting once more. */
  lemma EarlierOwner(ops: seq<Op>, a: Adoption) returns (later: seq<Op>)
    requires var s := Run(ops);
      s.memory.None? && a in s.adoptions && s.disk.visible.Some? && a.source !in s.disk.visible.value.owners
    ensures Continues(ops, later) && !OneAdopterEach(Run(ops + later).adoptions)
  {
    hide Run, Continues, Sound, Adoptable, OneAdopterEach;
    var r := Run(ops).disk.visible.value;
    var fail := FailRetained(ops, r);
    RunInv(ops + fail);
    var q := Run(ops + fail).disk.visible.value;
    AdoptableOwner(q, r.runId);
    var adopt := AdoptFresh(ops + fail, q, a.source);
    ContinuesMore(ops, fail, adopt);
    assert ops + (fail + adopt) == ops + fail + adopt;
    var again := SourceReturned(ops + (fail + adopt), a);
    later := fail + adopt + again;
    ContinuesMore(ops, fail + adopt, again);
    assert ops + later == ops + (fail + adopt) + again;
  }

  /** From a file that vanished, the source is simply created again. */
  lemma Vanished(ops: seq<Op>, a: Adoption) returns (later: seq<Op>)
    requires var s := Run(ops); s.memory.None? && a in s.adoptions && s.disk.visible.None?
    ensures Continues(ops, later) && !OneAdopterEach(Run(ops + later).adoptions)
  {
    hide Run, Continues, OneAdopterEach;
    var create := Create(a.source, "t", Written);
    TameStep(ops, create);
    TameStep(ops + [create], Crash(false));
    ContinuesMore(ops, [create], [Crash(false)]);
    var begun := [create] + [Crash(false)];
    assert ops + begun == ops + [create] + [Crash(false)];
    var again := SourceReturned(ops + begun, a);
    later := begun + again;
    ContinuesMore(ops, begun, again);
    assert ops + later == ops + begun + again;
  }

  /** Adoptions a durable record does not hold happened at or after its owner. */
  lemma NotDurable(s: State, a: Adoption)
    requires Inv(s) && OwnersInv(s) && a in s.adoptions && s.disk.durable.Some?
    requires !HandsOver(s.disk.durable.value.owners, a)
    ensures s.disk.durable.value.runId == a.source || a.source !in s.disk.durable.value.owners
  {
    hide IsTerminal, CanTransition;
    var kept, owners := s.disk.durable.value.owners, s.disk.visible.value.owners;
    assert kept <= owners;
    var k :| 0 <= k < |owners| - 1 && owners[k] == a.source && owners[k + 1] == a.runId;
    KeptHandOver(kept, owners, a, k);
  }

  lemma KeptHandOver(kept: seq<string>, owners: seq<string>, a: Adoption, k: nat)
    requires kept <= owners && k + 1 < |owners| && owners[k] == a.source && owners[k + 1] == a.runId
    ensures k < |kept| - 1 ==> HandsOver(kept, a)
  {
    assert k < |kept| - 1 ==> kept[k] == a.source && kept[k + 1] == a.runId;
  }

  /**
   A machine crash after a careful history is harmless, whatever careful operations follow,
   if and only if every adoption reported so far is durable.
   */
  lemma MachineCrashExactly(ops: seq<Op>)
    requires AllCareful(ops)
    ensures AdoptionsAreDurable(Run(ops)) <==>
      forall later :: Continues(ops + [Crash(true)], later) ==> OneAdopterEach(Run(ops + [Crash(true)] + later).adoptions)
  {
    hide Run, Careful, Continues, OneAdopterEach, Inv, OwnersInv;
    var crashed := ops + [Crash(true)];
    RunOfOneMore(ops, Crash(true));
    if AdoptionsAreDurable(Run(ops)) {
      forall later | Continues(crashed, later) ensures OneAdopterEach(Run(crashed + later).adoptions) {
        CarefulThroughout(ops, later);
        AtMostOneAdopter(crashed + later);
      }
    } else {
      RunInv(ops);
      RunOwners(ops);
      var a := LostAdoption(Run(ops));
      var later;
      if Run(ops).disk.durable.None? {
        later := Vanished(crashed, a);
      } else {
        NotDurable(Run(ops), a);
        if Run(ops).disk.durable.value.runId == a.source {
          later := SourceReturned(crashed, a);
        } else {
          later := EarlierOwner(crashed, a);
        }
      }
      assert Continues(crashed, later) && !OneAdopterEach(Run(crashed + later).adoptions);
    }
  }

  lemma LostAdoption(s: State) returns (a: Adoption)
    requires !AdoptionsAreDurable(s)
    ensures a in s.adoptions && (s.disk.durable.Some? ==> !HandsOver(s.disk.durable.value.owners, a))
  {
    if s.disk.durable.None? {
      a := s.adoptions[0];
    } else {
      a :| a in s.adoptions && !HandsOver(s.disk.durable.value.owners, a);
    }
  }

  lemma CarefulThroughout(ops: seq<Op>, later: seq<Op>)
    requires AllCareful(ops) && AdoptionsAreDurable(Run(ops)) && Continues(ops + [Crash(true)], later)
    ensures AllCareful(ops + [Crash(true)] + later)
  {
    hide Run, FreshAdopter, AdoptionsAreDurable;
    var all := ops + [Crash(true)] + later;
    forall i | 0 <= i < |all| ensures Careful(Run(all[..i]), all[i]) {
      if i < |ops| {
        assert all[..i] == ops[..i] && all[i] == ops[i];
      } else if i == |ops| {
        assert all[..i] == ops;
        CrashIsFresh(Run(ops));
      } else {
        var k := i - |ops| - 1;
        assert all[..i] == ops + [Crash(true)] + later[..k] && all[i] == later[k];
      }
    }
  }

  lemma CrashIsFresh(s: State)
    ensures FreshAdopter(s, Crash(true))
  {
  }

  // ---------------------------------------------------------------- exactly which returns are harmless

  /** A run adopts, and the file takes it, although the run owned the file before. */
  predicate Returns(s: State, op: Op) {
    op.Adopt? && s.memory.None? && s.disk.visible.Some? && op.runId != op.source && op.write != KeptOld
    && var r := s.disk.visible.value;
       r.ticketId == op.ticketId && !AlreadyAdopted(r, op.runId, op.source) && Adoptable(r, op.source)
       && op.runId in r.owners
  }

  predicate DistinctBut(owners: seq<string>, hole: nat) {
    forall i, j :: 0 <= i < j < |owners| && i != hole && j != hole ==> owners[i] != owners[j]
  }

  predicate HandsOverBut(owners: seq<string>, hole: nat, a: Adoption) {
    exists i :: 0 <= i < |owners| - 1 && i != hole && owners[i] == a.source && owners[i + 1] == a.runId
  }

  /** The owner at `hole` is back at `again`, and no adoption from its first time was reported. */
  predicate ReturnedInv(s: State, hole: nat, again: nat) {
    s.disk.visible.Some?
    && var owners := s.disk.visible.value.owners;
       && hole + 1 < again < |owners| && owners[hole] == owners[again] && DistinctBut(owners, hole)
       && (s.memory.Some? ==> s.memory.value.owners == owners)
       && forall a :: a in s.adoptions ==> HandsOverBut(owners, hole, a)
  }

  lemma ReturnBegins(s: State, op: Op) returns (hole: nat, again: nat)
    requires Inv(s) && OwnersInv(s) && Returns(s, op) && forall a :: a in s.adoptions ==> a.source != op.runId
    ensures ReturnedInv(Next(s, op), hole, again)
  {
    hide IsTerminal, HandsOver, HandsOverBut, DistinctOwners, DistinctBut;
    var owners := s.disk.visible.value.owners;
    hole :| hole < |owners| && owners[hole] == op.runId;
    again := |owners|;
    assert owners[|owners| - 1] == op.source;
    DistinctAgain(owners, hole);
    HandsOverAgain(owners, hole, Adoption(op.source, op.runId));
    forall a | a in s.adoptions ensures HandsOverBut(owners + [op.runId], hole, a) {
      StillHandsOver(owners, hole, a);
    }
  }

  lemma DistinctAgain(owners: seq<string>, hole: nat)
    requires DistinctOwners(owners) && hole < |owners|
    ensures DistinctBut(owners + [owners[hole]], hole)
  {
  }

  lemma HandsOverAgain(owners: seq<string>, hole: nat, a: Adoption)
    requires hole < |owners| - 1 && owners[|owners| - 1] == a.source && a.runId == owners[hole]
    ensures HandsOverBut(owners + [owners[hole]], hole, a)
  {
    var more := owners + [owners[hole]];
    assert more[|owners| - 1] == a.source && more[|owners| - 1 + 1] == a.runId;
  }

  lemma StillHandsOver(owners: seq<string>, hole: nat, a: Adoption)
    requires hole < |owners| && HandsOver(owners, a) && a.source != owners[hole]
    ensures HandsOverBut(owners + [owners[hole]], hole, a)
  {
    var more := owners + [owners[hole]];
    var i :| 0 <= i < |owners| - 1 && owners[i] == a.source && owners[i + 1] == a.runId;
    assert more[i] == a.source && more[i + 1] == a.runId;
  }

  lemma NextReturned(s: State, op: Op, hole: nat, again: nat)
    requires Inv(s) && ReturnedInv(s, hole, again) && Careful(s, op)
    ensures ReturnedInv(Next(s, op), hole, again) || OwnersInv(Next(s, op))
  {
    hide IsTerminal, Sound, Applies, Adoptable, HandsOverBut, HandsOver, DistinctBut, DistinctOwners;
    var owners := s.disk.visible.value.owners;
    if op == Crash(true) {
      CrashReturned(s, hole, again);
    } else if op.Adopt? && s.memory.None? {
      var r := s.disk.visible.value;
      if AlreadyAdopted(r, op.runId, op.source) {
        RetriedBut(r, hole, again, op.runId, op.source);
      } else if Adoptable(r, op.source) {
        AdoptedBut(r, s.adoptions, hole, again, op.runId, op.source);
      }
    }
  }

  lemma RetriedBut(r: Record, hole: nat, again: nat, runId: string, source: string)
    requires Sound(r) && hole + 1 < again < |r.owners| && AlreadyAdopted(r, runId, source)
    ensures HandsOverBut(r.owners, hole, Adoption(source, runId))
  {
    assert r.owners[|r.owners| - 2] == source && r.owners[|r.owners| - 2 + 1] == runId;
  }

  lemma AdoptedBut(r: Record, adoptions: seq<Adoption>, hole: nat, again: nat, runId: string, source: string)
    requires Sound(r) && Adoptable(r, source) && runId !in r.owners && DistinctBut(r.owners, hole)
    requires hole + 1 < again < |r.owners| && forall a :: a in adoptions ==> HandsOverBut(r.owners, hole, a)
    ensures DistinctBut(r.owners + [runId], hole)
    ensures forall a :: a in adoptions + [Adoption(source, runId)] ==> HandsOverBut(r.owners + [runId], hole, a)
  {
    hide IsTerminal;
    var owners := r.owners + [runId];
    assert owners[|r.owners| - 1] == source && owners[|r.owners| - 1 + 1] == runId;
    forall a | a in adoptions ensures HandsOverBut(owners, hole, a) {
      var i :| 0 <= i < |r.owners| - 1 && i != hole && r.owners[i] == a.source && r.owners[i + 1] == a.runId;
      assert owners[i] == a.source && owners[i + 1] == a.runId;
    }
  }

  /** A machine crash with every reported adoption durable keeps the return, or undoes it altogether. */
  lemma CrashReturned(s: State, hole: nat, again: nat)
    requires Inv(s) && ReturnedInv(s, hole, again) && AdoptionsAreDurable(s)
    ensures ReturnedInv(Next(s, Crash(true)), hole, again) || OwnersInv(Next(s, Crash(true)))
  {
    hide IsTerminal, Sound;
    if s.disk.durable.Some? {
      var kept, owners := s.disk.durable.value.owners, s.disk.visible.value.owners;
      assert kept <= owners;
      if again < |kept| {
        forall a | a in s.adoptions ensures HandsOverBut(kept, hole, a) {
          KeptBut(kept, owners, hole, again, a);
        }
      } else {
        assert DistinctOwners(kept) by {
          forall i, j | 0 <= i < j < |kept| ensures kept[i] != kept[j] {
            assert kept[i] == owners[i] && kept[j] == owners[j] && owners[hole] == owners[again];
          }
        }
      }
    }
  }

  lemma KeptBut(kept: seq<string>, owners: seq<string>, hole: nat, again: nat, a: Adoption)
    requires kept <= owners && hole + 1 < again < |owners| && owners[hole] == owners[again] && DistinctBut(owners, hole)
    requires HandsOverBut(owners, hole, a) && HandsOver(kept, a)
    ensures HandsOverBut(kept, hole, a)
  {
    var i :| 0 <= i < |owners| - 1 && i != hole && owners[i] == a.source && owners[i + 1] == a.runId;
    var k :| 0 <= k < |kept| - 1 && kept[k] == a.source && kept[k + 1] == a.runId;
    assert owners[again] == a.source ==> i == again;
    assert k != hole;
  }

  lemma {:induction false} RunReturned(ops: seq<Op>, later: seq<Op>, hole: nat, again: nat)
    requires ReturnedInv(Run(ops), hole, again) && Continues(ops, later)
    ensures ReturnedInv(Run(ops + later), hole, again) || OwnersInv(Run(ops + later))
  {
    hide ReturnedInv, OwnersInv, Careful, Inv, Run;
    if later == [] {
      assert ops + later == ops;
    } else {
      var front, op := later[..|later| - 1], later[|later| - 1];
      assert forall i :: 0 <= i < |front| ==> front[..i] == later[..i];
      RunReturned(ops, front, hole, again);
      RunInv(ops + front);
      assert ops + later == ops + front + [op];
      RunOfOneMore(ops + front, op);
      if ReturnedInv(Run(ops + front), hole, again) {
        NextReturned(Run(ops + front), op, hole, again);
      } else {
        NextOwners(Run(ops + front), op);
      }
    }
  }

  lemma ReturnedGivesOneAdopter(s: State, hole: nat, again: nat)
    requires ReturnedInv(s, hole, again)
    ensures OneAdopterEach(s.adoptions)
  {
    forall a, b | a in s.adoptions && b in s.adoptions && a.source == b.source ensures a.runId == b.runId {
      var owners := s.disk.visible.value.owners;
      var i :| 0 <= i < |owners| - 1 && i != hole && owners[i] == a.source && owners[i + 1] == a.runId;
      var j :| 0 <= j < |owners| - 1 && j != hole && owners[j] == b.source && owners[j + 1] == b.runId;
    }
  }

  /**
   A run that comes back as the owner of a file is harmless, whatever careful operations
   follow, if and only if no adoption from it was reported before.
   */
  lemma ReturnIsHarmlessExactly(ops: seq<Op>, op: Op)
    requires AllCareful(ops) && Returns(Run(ops), op)
    ensures (forall a :: a in Run(ops).adoptions ==> a.source != op.runId) <==>
      forall later :: Continues(ops + [op], later) ==> OneAdopterEach(Run(ops + [op] + later).adoptions)
  {
    hide Run, Careful, Continues, OneAdopterEach, Inv, OwnersInv, ReturnedInv;
    var returned := ops + [op];
    RunOfOneMore(ops, op);
    if forall a :: a in Run(ops).adoptions ==> a.source != op.runId {
      RunInv(ops);
      RunOwners(ops);
      var hole, again := ReturnBegins(Run(ops), op);
      forall later | Continues(returned, later) ensures OneAdopterEach(Run(returned + later).adoptions) {
        RunReturned(returned, later, hole, again);
        if OwnersInv(Run(returned + later)) {
          OwnersGiveOneAdopter(Run(returned + later));
        } else {
          ReturnedGivesOneAdopter(Run(returned + later), hole, again);
        }
      }
    } else {
      var a :| a in Run(ops).adoptions && a.source == op.runId;
      ReturnedOwner(Run(ops), op);
      TameStep(returned, Crash(false));
      var again := SourceReturned(returned + [Crash(false)], a);
      var later := [Crash(false)] + again;
      ContinuesMore(returned, [Crash(false)], again);
      assert returned + later == returned + [Crash(false)] + again;
      assert Continues(returned, later) && !OneAdopterEach(Run(returned + later).adoptions);
    }
  }

  lemma ReturnedOwner(s: State, op: Op)
    requires Returns(s, op)
    ensures var t := Next(Next(s, op), Crash(false));
      t.memory.None? && t.disk.visible.Some? && t.disk.visible.value.runId == op.runId && s.adoptions <= t.adoptions
  {
  }

  const LEFT := NewRecord("a", "t").(phase := Failed, trail := [Claimed, Failed], executor := Some(Executor("x", "retained")))

  /** One run of the file's life so far: created by `a`, failed, its executor retained. */
  const FAILED_RUN := [
    Create("a", "t", Written), Update(ExecutorState(Executor("x", "retained")), Written), Update(Advance(Failed), Written),
    Crash(false)]

  lemma FailedRunReached()
    ensures Run(FAILED_RUN) == State(None, Disk(Some(LEFT), Some(LEFT)), Some(LEFT), [])
  {
    hide Run;
    var start := NewRecord("a", "t");
    var kept := start.(executor := Some(Executor("x", "retained")));
    RunOfOneMore([], FAILED_RUN[0]);
    assert [] + [FAILED_RUN[0]] == FAILED_RUN[..1];
    assert Run(FAILED_RUN[..1]) == State(Some(start), Disk(Some(start), Some(start)), Some(start), []);
    RunOfOneMore(FAILED_RUN[..1], FAILED_RUN[1]);
    assert FAILED_RUN[..1] + [FAILED_RUN[1]] == FAILED_RUN[..2];
    assert Run(FAILED_RUN[..2]) == State(Some(kept), Disk(Some(kept), Some(kept)), Some(kept), []);
    RunOfOneMore(FAILED_RUN[..2], FAILED_RUN[2]);
    assert FAILED_RUN[..2] + [FAILED_RUN[2]] == FAILED_RUN[..3];
    assert Changed(kept, Advance(Failed)).trail == [Claimed, Failed];
    assert Changed(kept, Advance(Failed)) == LEFT;
    assert Run(FAILED_RUN[..3]) == State(Some(LEFT), Disk(Some(LEFT), Some(LEFT)), Some(LEFT), []);
    RunOfOneMore(FAILED_RUN[..3], FAILED_RUN[3]);
    assert FAILED_RUN[..3] + [FAILED_RUN[3]] == FAILED_RUN;
  }

  lemma RunOfOneMore(ops: seq<Op>, op: Op)
    ensures Run([]) == EMPTY
    ensures Run(ops + [op]) == Next(Run(ops), op)
  {
    assert (ops + [op])[..|ops|] == ops;
  }

  /**
   The machine crash matters: a retry after an unsynced rename finds the adoption in place
   and reports success without writing it again, so the crash can hand the source to a
   second run.
   */
  lemma MachineCrashAdmitsSecondAdopter()
    ensures var ops := FAILED_RUN + [Adopt("b", "t", "a", NotSynced)] + [Adopt("b", "t", "a", Written)]
                       + [Crash(true)] + [Adopt("c", "t", "a", Written)];
      Run(ops).adoptions == [Adoption("a", "b"), Adoption("a", "c")]
  {
    hide Run;
    FailedRunReached();
    var one := FAILED_RUN + [Adopt("b", "t", "a", NotSynced)];
    var two := one + [Adopt("b", "t", "a", Written)];
    var three := two + [Crash(true)];
    RunOfOneMore(FAILED_RUN, Adopt("b", "t", "a", NotSynced));
    RunOfOneMore(one, Adopt("b", "t", "a", Written));
    RunOfOneMore(two, Crash(true));
    RunOfOneMore(three, Adopt("c", "t", "a", Written));
    var taken := Adopted(LEFT, "b", "a");
    assert Run(one) == State(None, Disk(Some(taken), Some(LEFT)), Some(LEFT), []);
    assert AlreadyAdopted(taken, "b", "a");
    assert Run(two) == State(Some(taken), Disk(Some(taken), Some(LEFT)), Some(LEFT), [Adoption("a", "b")]);
    assert Run(three) == State(None, Disk(Some(LEFT), Some(LEFT)), Some(LEFT), [Adoption("a", "b")]);
    assert "c" != "a";
    assert !AlreadyAdopted(LEFT, "c", "a");
  }

  /** So does the id: a run that takes its own work back can be adopted from once more. */
  lemma ReusedIdAdmitsSecondAdopter()
    ensures var s := State(None, Disk(Some(LEFT), Some(LEFT)), Some(LEFT), []);
      var fail := (run: string, source: string) =>
        [Adopt(run, "t", source, Written), Update(Advance(Failed), Written), Crash(false)];
      var ops := FAILED_RUN + fail("b", "a") + fail("a", "b") + [Adopt("c", "t", "a", Written)];
      Run(ops).adoptions == [Adoption("a", "b"), Adoption("b", "a"), Adoption("a", "c")]
  {
    hide Run;
    FailedRunReached();
    AdoptAndFail(FAILED_RUN, LEFT, "b", "a");
    var one := FAILED_RUN + [Adopt("b", "t", "a", Written), Update(Advance(Failed), Written), Crash(false)];
    var first := Adopted(LEFT, "b", "a").(phase := Failed, trail := [Claimed, Failed]);
    AdoptAndFail(one, first, "a", "b");
    var two := one + [Adopt("a", "t", "b", Written), Update(Advance(Failed), Written), Crash(false)];
    RunOfOneMore(two, Adopt("c", "t", "a", Written));
    assert "c" != "a";
  }

  lemma AdoptAndFail(ops: seq<Op>, r: Record, runId: string, source: string)
    requires Run(ops).memory.None? && Run(ops).disk.visible == Some(r)
    requires runId != source && r.ticketId == "t" && Adoptable(r, source)
    ensures var t := Run(ops + [Adopt(runId, "t", source, Written), Update(Advance(Failed), Written), Crash(false)]);
      && t.memory.None? && t.disk.visible == Some(Adopted(r, runId, source).(phase := Failed, trail := [Claimed, Failed]))
      && t.adoptions == Run(ops).adoptions + [Adoption(source, runId)]
  {
    hide Run;
    var a := Adopt(runId, "t", source, Written);
    var u := Update(Advance(Failed), Written);
    var s := Run(ops);
    var taken := Adopted(r, runId, source);
    assert !AlreadyAdopted(r, runId, source);
    RunOfOneMore(ops, a);
    assert Run(ops + [a]) == State(Some(taken), Disk(Some(taken), Some(taken)), Some(taken), s.adoptions + [Adoption(source, runId)]);
    RunOfOneMore(ops + [a], u);
    assert Applies(taken, Advance(Failed));
    assert Changed(taken, Advance(Failed)).trail == [Claimed, Failed];
    RunOfOneMore(ops + [a] + [u], Crash(false));
    assert ops + [a] + [u] + [Crash(false)] == ops + [a, u, Crash(false)];
  }

  // ---------------------------------------------------------------- the journal object

  /** The checkpoint store behind a journal. */
  class EventStore {
    var disk: Disk

    constructor (disk: Disk)
      ensures this.disk == disk
    {
      this.disk := disk;
    }

    /** `persist_atomic`: write a temporary file, rename it over the journal, sync the directory. */
    method PersistAtomic(r: Record, w: Write) returns (ok: bool)
      modifies this
      ensures disk == Persist(old(disk), r, w) && ok == (w == Written)
    {
      if w == KeptOld {
        return false;
      }
      disk := disk.(visible := Some(r));
      if w == NotSynced {
        return false;
      }
      disk := disk.(durable := Some(r));
      return true;
    }
  }

  /** A worker's journal: the record in memory, its store, and what the state machine says of both. */
  class RunJournal {
    var memory: Option<Record>
    const store: EventStore
    ghost var acknowledged: Option<Record>
    ghost var adoptions: seq<Adoption>

    ghost function Abstract(): State
      reads this, store
    {
      State(memory, store.disk, acknowledged, adoptions)
    }

    constructor (store: EventStore)
      requires store.disk == Disk(None, None)
      ensures this.store == store && Abstract() == EMPTY
    {
      this.store, memory, acknowledged, adoptions := store, None, None, [];
    }

    method Save(w: Write) returns (ok: bool)
      requires memory.Some?
      modifies this, store
      ensures Abstract() == Store(old(Abstract()), old(memory.value), w, false)
      ensures ok == (w == Written)
    {
      ok := store.PersistAtomic(memory.value, w);
      acknowledged := if ok then memory else acknowledged;
    }

    /** `create_with_store`. */
    method Create(runId: string, ticketId: string, w: Write) returns (ok: bool)
      requires memory.None?
      modifies this, store
      ensures Abstract() == Next(old(Abstract()), Op.Create(runId, ticketId, w))
      ensures ok == memory.Some?
    {
      var loaded := store.disk.visible;
      if loaded.Some? {
        if loaded.value.runId != runId || loaded.value.ticketId != ticketId {
          return false;
        }
        memory := loaded;
        return true;
      }
      memory := Some(NewRecord(runId, ticketId));
      ok := Save(w);
      if !ok {
        memory := None;
      }
    }

    /** `resume_active_run`. */
    method ResumeActiveRun(w: Write) returns (ok: bool)
      requires memory.Some?
      modifies this, store
      ensures Abstract() == Next(old(Abstract()), Resume(w))
      ensures ok == memory.Some?
    {
      if !IsTerminal(memory.value.phase) {
        return true;
      }
      memory := Some(memory.value.(phase := Claimed, lastError := None, trail := [Claimed]));
      ok := Save(w);
      if !ok {
        memory := None;
      }
    }

    /** `adopt_recovery`. */
    method AdoptRecovery(runId: string, ticketId: string, source: string, w: Write) returns (ok: bool)
      requires memory.None? && runId != source
      modifies this, store
      ensures Abstract() == Next(old(Abstract()), Adopt(runId, ticketId, source, w))
      ensures ok == memory.Some?
    {
      if store.disk.visible.None? {
        return false;
      }
      var r := store.disk.visible.value;
      if r.ticketId != ticketId {
        return false;
      }
      if AlreadyAdopted(r, runId, source) {
        memory, adoptions := Some(r), adoptions + [Adoption(source, runId)];
        return true;
      }
      if !Adoptable(r, source) {
        return false;
      }
      memory := Some(Adopted(r, runId, source));
      ok := Save(w);
      if ok {
        adoptions := adoptions + [Adoption(source, runId)];
      } else {
        memory := None;
      }
    }

    /** The reporter's `set_phase`. */
    method SetPhase(phase: Phase, w: Write)
      requires memory.Some?
      modifies this, store
      ensures Abstract() == Next(old(Abstract()), Update(Advance(phase), w))
    {
      var r := memory.value;
      if !CanTransition(r.phase, phase) {
        return;
      }
      memory := Some(r.(phase := phase, trail := r.trail + [phase]));
      var ok := Save(w);
    }

    /** `checkpoint` with the current phase, as every step does. */
    method Checkpoint(sequence: nat, w: Write) returns (ok: bool)
      requires memory.Some?
      modifies this, store
      ensures Abstract() == Next(old(Abstract()), Update(Change.Checkpoint(sequence), w)) && ok == (w == Written)
    {
      memory := Some(memory.value.(lastSequence := sequence));
      ok := Save(w);
    }

    method RecordCommit(id: string, w: Write) returns (ok: bool)
      requires memory.Some?
      modifies this, store
      ensures Abstract() == Next(old(Abstract()), Update(Commit(id), w)) && ok == (w == Written)
    {
      memory := Some(memory.value.(commit := Some(id), commits := memory.value.commits + [id]));
      ok := Save(w);
    }

    method RecordPullRequest(url: string, number: nat, w: Write) returns (ok: bool)
      requires memory.Some?
      modifies this, store
      ensures Abstract() == Next(old(Abstract()), Update(PullRequest(url, number), w)) && ok == (w == Written)
    {
      memory := Some(memory.value.(pullRequestUrl := Some(url), pullRequestNumber := Some(number)));
      ok := Save(w);
    }
  }
}
