/**
 How many agent sessions a run may use (execution.rs and runner.rs): the session loop of one
 prompt, gates with repairs, publication and CI repairs; and how budget usage accumulates.
 */
module Sessions {
  import opened Common
  import opened Usage
  import opened Bracketing
  import opened Telemetry
  import Publication

  const AGENT_IDLE_ATTEMPTS: nat := 3
  const VALIDATION_REPAIR_ATTEMPTS: nat := 3
  const CI_REPAIR_ATTEMPTS: nat := 3

  const PROMPT_SESSIONS: nat := 5
  const GATE_SESSIONS: nat := 2 * PROMPT_SESSIONS
  const PUBLICATION_SESSIONS: nat := 4 * GATE_SESSIONS
  const REPAIR_SESSIONS: nat := PROMPT_SESSIONS + GATE_SESSIONS + PUBLICATION_SESSIONS
  const RUN_SESSIONS: nat := (1 + CI_REPAIR_ATTEMPTS) * REPAIR_SESSIONS

  // ---------------------------------------------------------------- one prompt

  datatype SessionEnd = Exited(success: bool) | OwnedCommand | IdleTimeout | Broke

  /** One agent session: what its stream reported, when, and how it ended. */
  datatype SessionRun = SessionRun(
    steps: seq<Step>, clock: seq<nat>, status: Status, order: seq<string>,
    end: SessionEnd, ready: bool, escalated: bool)

  datatype PromptOutcome = Delivered | Undelivered | OwnershipRefused | SessionFailed

  /** Completion evidence and escalation requests outlive the session that gave them. */
  datatype Prompt = Prompt(
    sessions: nat, completionRestarts: nat, ownershipInterrupts: nat, idleRetries: nat,
    ready: bool, escalated: bool, outcome: Option<PromptOutcome>)

  const NEW_PROMPT := Prompt(0, 0, 0, 0, false, false, None)

  function AfterSession(p: Prompt, run: SessionRun): Prompt {
    var q := p.(sessions := p.sessions + 1, ready := p.ready || run.ready, escalated := p.escalated || run.escalated);
    match run.end
    case Exited(success) =>
      if success && (q.ready || q.escalated) then q.(outcome := Some(Delivered))
      else if success && q.completionRestarts < 1 then q.(completionRestarts := q.completionRestarts + 1)
      else q.(outcome := Some(Undelivered))
    case OwnedCommand =>
      var interrupted := q.(ownershipInterrupts := q.ownershipInterrupts + 1);
      if interrupted.ownershipInterrupts >= 2 then interrupted.(outcome := Some(OwnershipRefused)) else interrupted
    case IdleTimeout =>
      if q.idleRetries + 1 < AGENT_IDLE_ATTEMPTS then q.(idleRetries := q.idleRetries + 1)
      else q.(outcome := Some(SessionFailed))
    case Broke => q.(outcome := Some(SessionFailed))
  }

  function AfterSessions(runs: seq<SessionRun>, n: nat): Prompt
    requires n <= |runs|
  {
    if n == 0 then NEW_PROMPT
    else
      var p := AfterSessions(runs, n - 1);
      if p.outcome.Some? then p else AfterSession(p, runs[n - 1])
  }

  /** The restarts a prompt may still make. */
  function Unused(p: Prompt): int {
    (1 - p.completionRestarts) + (1 - p.ownershipInterrupts) + (AGENT_IDLE_ATTEMPTS - 1 - p.idleRetries)
  }

  /** Each undecided session spends one restart, so the fifth session decides at the latest. */
  lemma {:induction false} FiveSessionsDecide(runs: seq<SessionRun>, n: nat)
    requires n <= |runs|
    ensures var p := AfterSessions(runs, n);
      && p.sessions <= Min(n, PROMPT_SESSIONS)
      && (p.outcome.None? ==>
            p.sessions == n && Unused(p) + n == PROMPT_SESSIONS - 1
            && p.completionRestarts <= 1 && p.ownershipInterrupts <= 1 && p.idleRetries <= AGENT_IDLE_ATTEMPTS - 1)
      && (n >= PROMPT_SESSIONS ==> p.outcome.Some?)
  {
    if n > 0 {
      FiveSessionsDecide(runs, n - 1);
    }
  }

  /** Delivery needs completion evidence or an escalation from some session, and a clean exit of the last. */
  lemma {:induction false} DeliveryNeedsEvidence(runs: seq<SessionRun>, n: nat)
    requires n <= |runs|
    ensures var p := AfterSessions(runs, n);
      && p.sessions <= n
      && (p.ready <==> exists i :: 0 <= i < p.sessions && runs[i].ready)
      && (p.escalated <==> exists i :: 0 <= i < p.sessions && runs[i].escalated)
      && (p.outcome == Some(Delivered) ==>
            p.sessions > 0 && runs[p.sessions - 1].end == Exited(true) && (p.ready || p.escalated))
      && (p.outcome.None? ==> p.sessions == n)
  {
    if n > 0 {
      hide AfterSession;
      DeliveryNeedsEvidence(runs, n - 1);
      OneMoreReport(runs, n);
      var p := AfterSessions(runs, n - 1);
      if p.outcome.None? {
        EvidenceFromSession(p, runs[n - 1]);
        assert AfterSessions(runs, n).sessions == n;
      }
    }
  }

  lemma OneMoreReport(runs: seq<SessionRun>, n: nat)
    requires 0 < n <= |runs|
    ensures (exists i :: 0 <= i < n && runs[i].ready) <==> (exists i :: 0 <= i < n - 1 && runs[i].ready) || runs[n - 1].ready
    ensures (exists i :: 0 <= i < n && runs[i].escalated)
      <==> (exists i :: 0 <= i < n - 1 && runs[i].escalated) || runs[n - 1].escalated
  {
  }

  lemma EvidenceFromSession(p: Prompt, run: SessionRun)
    requires p.outcome.None?
    ensures var q := AfterSession(p, run);
      && q.sessions == p.sessions + 1 && q.ready == (p.ready || run.ready) && q.escalated == (p.escalated || run.escalated)
      && (q.outcome == Some(Delivered) ==> run.end == Exited(true) && (q.ready || q.escalated))
  {
  }

  /** Evidence or an escalation reported by then, by whichever session. */
  predicate EvidenceBy(runs: seq<SessionRun>, i: nat)
    requires i < |runs|
  {
    exists j :: 0 <= j <= i && (runs[j].ready || runs[j].escalated)
  }

  /** How many of the first `n` sessions ended so. */
  function Ended(runs: seq<SessionRun>, n: nat, end: SessionEnd): nat
    requires n <= |runs|
  {
    if n == 0 then 0 else Ended(runs, n - 1, end) + if runs[n - 1].end == end then 1 else 0
  }

  /**
   What the `i`th session decides, if it is reached: a clean exit delivers on evidence so
   far, and is tried again only the first time; so is an owned command; silence twice.
   */
  function Verdict(runs: seq<SessionRun>, i: nat): Option<PromptOutcome>
    requires i < |runs|
  {
    var before := Ended(runs, i, runs[i].end);
    match runs[i].end
    case Exited(success) =>
      if success && EvidenceBy(runs, i) then Some(Delivered) else if success && before < 1 then None else Some(Undelivered)
    case OwnedCommand => if before < 1 then None else Some(OwnershipRefused)
    case IdleTimeout => if before < AGENT_IDLE_ATTEMPTS - 1 then None else Some(SessionFailed)
    case Broke => Some(SessionFailed)
  }

  predicate NoVerdict(runs: seq<SessionRun>, n: nat)
    requires n <= |runs|
  {
    forall i :: 0 <= i < n ==> Verdict(runs, i).None?
  }

  /** While a prompt is undecided its counters are what the sessions so far ended with. */
  lemma {:induction false} CountersCount(runs: seq<SessionRun>, n: nat)
    requires n <= |runs|
    ensures var p := AfterSessions(runs, n);
      p.outcome.None? ==>
        && p.sessions == n && p.completionRestarts == Ended(runs, n, Exited(true))
        && p.ownershipInterrupts == Ended(runs, n, OwnedCommand) && p.idleRetries == Ended(runs, n, IdleTimeout)
        && (p.ready || p.escalated <==> n > 0 && EvidenceBy(runs, n - 1))
  {
    if n > 0 {
      CountersCount(runs, n - 1);
    }
  }

  /** A session after an undecided prompt decides what its verdict says. */
  lemma NextVerdict(runs: seq<SessionRun>, n: nat)
    requires n < |runs| && AfterSessions(runs, n).outcome.None?
    ensures AfterSessions(runs, n + 1).sessions == n + 1 && AfterSessions(runs, n + 1).outcome == Verdict(runs, n)
  {
    hide EvidenceBy;
    CountersCount(runs, n);
    MoreEvidence(runs, n);
  }

  lemma MoreEvidence(runs: seq<SessionRun>, n: nat)
    requires n < |runs|
    ensures EvidenceBy(runs, n) <==> (n > 0 && EvidenceBy(runs, n - 1)) || runs[n].ready || runs[n].escalated
  {
  }

  /** A prompt is decided at the first session with a verdict, by that verdict, and uses no further session. */
  lemma {:induction false} DecidedExactly(runs: seq<SessionRun>, n: nat)
    requires n <= |runs|
    ensures var p := AfterSessions(runs, n);
      && p.sessions <= n && (p.outcome.None? <==> NoVerdict(runs, n)) && (p.outcome.None? ==> p.sessions == n)
      && (p.outcome.Some? ==>
            p.sessions > 0 && NoVerdict(runs, p.sessions - 1) && Verdict(runs, p.sessions - 1) == p.outcome)
  {
    if n > 0 {
      hide Verdict, AfterSession;
      DecidedExactly(runs, n - 1);
      if AfterSessions(runs, n - 1).outcome.None? {
        NextVerdict(runs, n - 1);
      }
    }
  }

  /**
   A prompt is delivered if and only if, with no verdict before, a session exits cleanly with
   evidence or an escalation reported so far; and that session is its last.
   */
  lemma DeliveredExactly(runs: seq<SessionRun>, n: nat)
    requires n <= |runs|
    ensures AfterSessions(runs, n).outcome == Some(Delivered) <==>
      exists i :: 0 <= i < n && NoVerdict(runs, i) && runs[i].end == Exited(true) && EvidenceBy(runs, i)
    ensures forall i :: 0 <= i < n && NoVerdict(runs, i) && runs[i].end == Exited(true) && EvidenceBy(runs, i) ==>
      AfterSessions(runs, n).sessions == i + 1
  {
    hide EvidenceBy, AfterSessions;
    DecidedExactly(runs, n);
    var p := AfterSessions(runs, n);
    forall i | 0 <= i < n && NoVerdict(runs, i) && runs[i].end == Exited(true) && EvidenceBy(runs, i)
      ensures p.outcome == Some(Delivered) && p.sessions == i + 1
    {
      assert Verdict(runs, i) == Some(Delivered);
      assert p.outcome.Some?;
      assert p.sessions - 1 == i;
    }
    if p.outcome == Some(Delivered) {
      VerdictDelivers(runs, p.sessions - 1);
    }
  }

  lemma VerdictDelivers(runs: seq<SessionRun>, i: nat)
    requires i < |runs| && Verdict(runs, i) == Some(Delivered)
    ensures runs[i].end == Exited(true) && EvidenceBy(runs, i)
  {
  }

  const QUIET := SessionRun([], [0], Failed, [], Exited(true), false, false)

  /** One restart for missing evidence, one for an owned command, two for silence, then evidence. */
  const SLOW_SESSIONS: seq<SessionRun> :=
    [QUIET, QUIET.(end := OwnedCommand), QUIET.(end := IdleTimeout), QUIET.(end := IdleTimeout), QUIET.(ready := true)]

  /** This prompt needs all five of its sessions, and delivers. */
  lemma FiveSessionsMayBeUsed()
    ensures |SLOW_SESSIONS| == PROMPT_SESSIONS
    ensures AfterSessions(SLOW_SESSIONS, PROMPT_SESSIONS).sessions == PROMPT_SESSIONS
    ensures AfterSessions(SLOW_SESSIONS, PROMPT_SESSIONS).outcome == Some(Delivered)
    ensures AfterSessions(SLOW_SESSIONS, PROMPT_SESSIONS - 1).outcome.None?
  {
    var runs := SLOW_SESSIONS;
    assert AfterSessions(runs, 0) == NEW_PROMPT;
    assert AfterSessions(runs, 1) == NEW_PROMPT.(sessions := 1, completionRestarts := 1);
    assert AfterSessions(runs, 2) == AfterSessions(runs, 1).(sessions := 2, ownershipInterrupts := 1);
    assert AfterSessions(runs, 3) == AfterSessions(runs, 2).(sessions := 3, idleRetries := 1);
    assert AfterSessions(runs, 4) == AfterSessions(runs, 3).(sessions := 4, idleRetries := 2);
    assert AfterSessions(runs, 5).outcome == Some(Delivered);
  }

  /** The session loop; `runs` is what each session would meet. */
  method RunAgentPrompt(runs: seq<SessionRun>) returns (sessions: nat, outcome: PromptOutcome)
    requires |runs| >= PROMPT_SESSIONS
    ensures sessions <= PROMPT_SESSIONS
    ensures sessions == AfterSessions(runs, PROMPT_SESSIONS).sessions
    ensures Some(outcome) == AfterSessions(runs, PROMPT_SESSIONS).outcome
  {
    hide AfterSessions;
    NextSession(runs, 0);
    var completionRestarts, ownershipInterrupts, idleRetries := 0, 0, 0;
    var ready, escalated := false, false;
    sessions, outcome := 0, Undelivered;
    while true
      invariant sessions < PROMPT_SESSIONS
      invariant AfterSessions(runs, sessions) ==
        Prompt(sessions, completionRestarts, ownershipInterrupts, idleRetries, ready, escalated, None)
      decreases PROMPT_SESSIONS - sessions
    {
      var run := runs[sessions];
      sessions := sessions + 1;
      ready, escalated := ready || run.ready, escalated || run.escalated;
      NextSession(runs, sessions - 1);
      FiveSessionsDecide(runs, sessions);
      SessionsSettle(runs, sessions);
      match run.end {
        case Exited(success) =>
          if success && (ready || escalated) {
            return sessions, Delivered;
          } else if success && completionRestarts < 1 {
            completionRestarts := completionRestarts + 1;
          } else {
            return sessions, Undelivered;
          }
        case OwnedCommand =>
          ownershipInterrupts := ownershipInterrupts + 1;
          if ownershipInterrupts >= 2 {
            return sessions, OwnershipRefused;
          }
        case IdleTimeout =>
          if idleRetries + 1 < AGENT_IDLE_ATTEMPTS {
            idleRetries := idleRetries + 1;
          } else {
            return sessions, SessionFailed;
          }
        case Broke =>
          return sessions, SessionFailed;
      }
    }
  }

  lemma NextSession(runs: seq<SessionRun>, n: nat)
    requires n < |runs|
    ensures AfterSessions(runs, 0) == NEW_PROMPT
    ensures var p := AfterSessions(runs, n);
      AfterSessions(runs, n + 1) == if p.outcome.Some? then p else AfterSession(p, runs[n])
  {
  }

  lemma {:induction false} SessionsSettle(runs: seq<SessionRun>, n: nat)
    requires n <= PROMPT_SESSIONS <= |runs|
    ensures AfterSessions(runs, n).outcome.Some? ==> AfterSessions(runs, PROMPT_SESSIONS) == AfterSessions(runs, n)
    decreases PROMPT_SESSIONS - n
  {
    if n < PROMPT_SESSIONS {
      SessionsSettle(runs, n + 1);
    }
  }

  // ---------------------------------------------------------------- gates with repairs

  /** `accepted` is what the checks after the session loop said. */
  datatype PromptScript = PromptScript(runs: seq<SessionRun>, accepted: bool)

  predicate Enough(p: PromptScript) { |p.runs| >= PROMPT_SESSIONS }

  predicate PromptSucceeds(p: PromptScript)
    requires Enough(p)
  {
    AfterSessions(p.runs, PROMPT_SESSIONS).outcome == Some(Delivered) && p.accepted
  }

  /** One gate round: how many required gates failed, and the repair prompt if one follows. */
  datatype GateRound = GateRound(failures: nat, prompt: PromptScript)

  predicate GateScript(rounds: seq<GateRound>) {
    |rounds| == VALIDATION_REPAIR_ATTEMPTS && forall i :: 0 <= i < |rounds| ==> Enough(rounds[i].prompt)
  }

  /** The first round without a required failure comes after successful repair prompts only. */
  predicate GatesPassAt(rounds: seq<GateRound>, k: nat)
    requires GateScript(rounds)
  {
    k < |rounds| && rounds[k].failures == 0
    && forall i :: 0 <= i < k ==> rounds[i].failures > 0 && PromptSucceeds(rounds[i].prompt)
  }

  method RunPrompt(p: PromptScript) returns (sessions: nat, ok: bool)
    requires Enough(p)
    ensures sessions == AfterSessions(p.runs, PROMPT_SESSIONS).sessions <= PROMPT_SESSIONS
    ensures ok == PromptSucceeds(p)
  {
    var outcome;
    sessions, outcome := RunAgentPrompt(p.runs);
    ok := outcome == Delivered && p.accepted;
  }

  predicate GatesSucceed(rounds: seq<GateRound>)
    requires GateScript(rounds)
  {
    exists k :: 0 <= k < |rounds| && GatesPassAt(rounds, k)
  }

  /** The sessions the prompt uses. */
  function PromptUses(p: PromptScript): nat
    requires Enough(p)
  {
    AfterSessions(p.runs, PROMPT_SESSIONS).sessions
  }

  /** The sessions the repair prompts of the rounds before the `k`th use. */
  function RepairsUse(rounds: seq<GateRound>, k: nat): nat
    requires GateScript(rounds) && k <= |rounds|
  {
    if k == 0 then 0 else RepairsUse(rounds, k - 1) + PromptUses(rounds[k - 1].prompt)
  }

  /** A round that ends the gates: without a required failure, the last, or with a repair that fails. */
  predicate Ends(rounds: seq<GateRound>, k: nat)
    requires GateScript(rounds) && k < |rounds|
  {
    rounds[k].failures == 0 || k == |rounds| - 1 || !PromptSucceeds(rounds[k].prompt)
  }

  /** The gates end at round `k`; its own prompt is used unless it is the last round or passes. */
  function GatesUseFrom(rounds: seq<GateRound>, k: nat): nat
    requires GateScript(rounds) && k < |rounds|
    decreases |rounds| - k
  {
    if rounds[k].failures == 0 || k == |rounds| - 1 then RepairsUse(rounds, k)
    else if Ends(rounds, k) then RepairsUse(rounds, k + 1)
    else GatesUseFrom(rounds, k + 1)
  }

  function GatesUse(rounds: seq<GateRound>): nat
    requires GateScript(rounds)
  {
    GatesUseFrom(rounds, 0)
  }

  /** The gates return `Ok` exactly after a round with no required failure, within two repair prompts. */
  method RunGatesWithRepairs(rounds: seq<GateRound>) returns (sessions: nat, ok: bool)
    requires GateScript(rounds)
    ensures sessions == GatesUse(rounds) <= GATE_SESSIONS
    ensures ok <==> exists k :: 0 <= k < |rounds| && GatesPassAt(rounds, k)
  {
    sessions, ok := 0, false;
    var attempt := 1;
    while attempt <= VALIDATION_REPAIR_ATTEMPTS
      invariant 1 <= attempt <= VALIDATION_REPAIR_ATTEMPTS
      invariant sessions == RepairsUse(rounds, attempt - 1) <= (attempt - 1) * PROMPT_SESSIONS
      invariant GatesUse(rounds) == GatesUseFrom(rounds, attempt - 1)
      invariant forall i :: 0 <= i < attempt - 1 ==> rounds[i].failures > 0 && PromptSucceeds(rounds[i].prompt)
    {
      var round := rounds[attempt - 1];
      if round.failures == 0 {
        assert GatesPassAt(rounds, attempt - 1);
        return sessions, true;
      }
      if attempt == VALIDATION_REPAIR_ATTEMPTS {
        return sessions, false;
      }
      var used, repaired := RunPrompt(round.prompt);
      sessions := sessions + used;
      if !repaired {
        return sessions, false;
      }
      attempt := attempt + 1;
    }
  }

  // ---------------------------------------------------------------- the whole run

  /** A publication against its remote, and the gates of each validation it turns out to need. */
  datatype PublicationScript = PublicationScript(
    start: Publication.Local, attempts: seq<Publication.Script>, gates: seq<seq<GateRound>>)

  function Progress(p: PublicationScript): Publication.Progress
    requires |p.attempts| == Publication.ATTEMPTS
  {
    Publication.Rounds(p.start, p.attempts, Publication.ATTEMPTS)
  }

  /** The gates of each validation, with the verdict the publication meets there. */
  ghost predicate PublicationFits(p: PublicationScript) {
    && |p.attempts| == Publication.ATTEMPTS
    && var validations := Publication.AllValidations(p.start, p.attempts, Publication.ATTEMPTS);
    && |p.gates| == |validations|
    && forall i :: 0 <= i < |p.gates| ==>
         GateScript(p.gates[i]) && (GatesSucceed(p.gates[i]) <==> !validations[i].GatesFail?)
  }

  ghost predicate PublicationSucceeds(p: PublicationScript)
    requires PublicationFits(p)
  {
    FitsBounds(p);
    Progress(p).outcome.value.Done?
  }

  function AllGatesUse(gates: seq<seq<GateRound>>, n: nat): nat
    requires n <= |gates| && forall i :: 0 <= i < |gates| ==> GateScript(gates[i])
  {
    if n == 0 then 0 else AllGatesUse(gates, n - 1) + GatesUse(gates[n - 1])
  }

  ghost function PublicationUses(p: PublicationScript): nat
    requires PublicationFits(p)
  {
    AllGatesUse(p.gates, |p.gates|)
  }

  datatype CiRound = CiRound(
    passed: bool, repairable: bool, prompt: PromptScript, gates: seq<GateRound>, hasPaths: bool,
    publication: PublicationScript)

  /** `required` when the manifest names required workflows. */
  datatype RunScript = RunScript(
    recovered: bool, prompt: PromptScript, gates: seq<GateRound>, hasPaths: bool,
    publication: PublicationScript, required: bool, ci: seq<CiRound>)

  ghost predicate RoundFits(round: CiRound) {
    Enough(round.prompt) && GateScript(round.gates) && PublicationFits(round.publication)
  }

  ghost predicate CiFits(ci: seq<CiRound>) {
    |ci| == CI_REPAIR_ATTEMPTS + 1 && forall i :: 0 <= i < |ci| ==> RoundFits(ci[i])
  }

  ghost predicate RunFits(r: RunScript) {
    Enough(r.prompt) && GateScript(r.gates) && PublicationFits(r.publication) && CiFits(r.ci)
  }

  lemma FitsBounds(p: PublicationScript)
    requires PublicationFits(p)
    ensures |p.attempts| == Publication.ATTEMPTS && |p.gates| <= 4
    ensures forall i :: 0 <= i < |p.gates| ==> GateScript(p.gates[i])
    ensures Progress(p).outcome.Some?
    ensures Progress(p).outcome.value.Done? ==> forall i :: 0 <= i < |p.gates| ==> GatesSucceed(p.gates[i])
  {
    hide GatesSucceed, GateScript, Publication.Rounds, Publication.AllValidations;
    Publication.EveryMoveIsGuarded(p.start, p.attempts, Publication.ATTEMPTS);
    Publication.ValidationsAreGateRuns(p.start, p.attempts, Publication.ATTEMPTS);
    var validations := Publication.AllValidations(p.start, p.attempts, Publication.ATTEMPTS);
    assert forall i :: 0 <= i < |validations| ==> validations[i] in validations;
  }

  /** The agent sessions one publication spends on validating what it reconciled, all passed when it succeeds. */
  method Publish(p: PublicationScript) returns (sessions: nat, ok: bool)
    requires PublicationFits(p)
    ensures sessions == PublicationUses(p) <= PUBLICATION_SESSIONS
    ensures ok == PublicationSucceeds(p)
    ensures ok ==> forall i :: 0 <= i < |p.gates| ==> GatesSucceed(p.gates[i])
  {
    hide Publication.Rounds, GateScript, GatesPassAt, GatesUse, PublicationFits;
    FitsBounds(p);
    sessions := 0;
    for i := 0 to |p.gates|
      invariant sessions == AllGatesUse(p.gates, i) <= i * GATE_SESSIONS
    {
      var used, _ := RunGatesWithRepairs(p.gates[i]);
      sessions := sessions + used;
    }
    ok := Publication.Rounds(p.start, p.attempts, Publication.ATTEMPTS).outcome.value.Done?;
  }

  function ImplementationUses(prompt: PromptScript, gates: seq<GateRound>): nat
    requires Enough(prompt) && GateScript(gates)
  {
    PromptUses(prompt) + if PromptSucceeds(prompt) then GatesUse(gates) else 0
  }

  method ImplementAndCommit(prompt: PromptScript, gates: seq<GateRound>, hasPaths: bool) returns (sessions: nat, ok: bool)
    requires Enough(prompt) && GateScript(gates)
    ensures sessions == ImplementationUses(prompt, gates) <= PROMPT_SESSIONS + GATE_SESSIONS
    ensures ok <==> PromptSucceeds(prompt) && hasPaths && exists k :: 0 <= k < |gates| && GatesPassAt(gates, k)
  {
    sessions, ok := RunPrompt(prompt);
    if ok {
      var used;
      used, ok := RunGatesWithRepairs(gates);
      sessions, ok := sessions + used, ok && hasPaths;
    }
  }

  /** The repair ends without an error: prompt and gates pass, and what there is to commit is published. */
  ghost predicate RepairSucceeds(round: CiRound)
    requires RoundFits(round)
  {
    PromptSucceeds(round.prompt) && GatesSucceed(round.gates) && (round.hasPaths ==> PublicationSucceeds(round.publication))
  }

  ghost function RepairUses(round: CiRound): nat
    requires RoundFits(round)
  {
    ImplementationUses(round.prompt, round.gates)
    + if PromptSucceeds(round.prompt) && GatesSucceed(round.gates) && round.hasPaths then PublicationUses(round.publication)
      else 0
  }

  /** One CI repair: prompt, gates, and a publication when there is something to commit. */
  method RepairOnce(round: CiRound) returns (sessions: nat, ok: bool)
    requires RoundFits(round)
    ensures sessions == RepairUses(round) <= REPAIR_SESSIONS
    ensures ok == RepairSucceeds(round)
  {
    hide PublicationFits, PublicationUses, PublicationSucceeds, GateScript, GatesUse, PromptSucceeds, GatesPassAt;
    sessions, ok := RunPrompt(round.prompt);
    if ok {
      var used;
      used, ok := RunGatesWithRepairs(round.gates);
      sessions := sessions + used;
      if ok && round.hasPaths {
        used, ok := Publish(round.publication);
        sessions := sessions + used;
      }
    }
  }

  /** The first round whose workflows pass comes after repairable failures and successful repairs only. */
  ghost predicate CiPassesAt(ci: seq<CiRound>, k: nat)
    requires CiFits(ci)
  {
    k < |ci| && ci[k].passed
    && forall i :: 0 <= i < k ==> !ci[i].passed && ci[i].repairable && RepairSucceeds(ci[i])
  }

  /** The sessions of the first `k` repairs. */
  ghost function CiUses(ci: seq<CiRound>, k: nat): nat
    requires CiFits(ci) && k <= |ci|
  {
    if k == 0 then 0 else CiUses(ci, k - 1) + RepairUses(ci[k - 1])
  }

  /**
   Waits for the required workflows. At most three repairs, each after a repairable failure
   and all but the last successful; `Ok` exactly when a round of workflows passes after them.
   */
  method WaitForCi(ci: seq<CiRound>) returns (repairs: nat, sessions: nat, ok: bool)
    requires CiFits(ci)
    ensures repairs <= CI_REPAIR_ATTEMPTS
    ensures sessions == CiUses(ci, repairs) <= repairs * REPAIR_SESSIONS
    ensures forall i :: 0 <= i < repairs ==> !ci[i].passed && ci[i].repairable
    ensures forall i :: 0 <= i < repairs - 1 ==> RepairSucceeds(ci[i])
    ensures ok ==> CiPassesAt(ci, repairs)
    ensures ok <==> exists k :: 0 <= k < |ci| && CiPassesAt(ci, k)
    ensures !ok ==>
      || (repairs > 0 && !RepairSucceeds(ci[repairs - 1]))
      || (!ci[repairs].passed && (!ci[repairs].repairable || repairs == CI_REPAIR_ATTEMPTS))
  {
    hide RoundFits, RepairSucceeds, RepairUses;
    repairs, sessions := 0, 0;
    while true
      invariant 0 <= repairs <= CI_REPAIR_ATTEMPTS
      invariant sessions == CiUses(ci, repairs) <= repairs * REPAIR_SESSIONS
      invariant forall i :: 0 <= i < repairs ==> !ci[i].passed && ci[i].repairable && RepairSucceeds(ci[i])
      decreases CI_REPAIR_ATTEMPTS - repairs
    {
      var round := ci[repairs];
      if round.passed {
        assert CiPassesAt(ci, repairs);
        return repairs, sessions, true;
      }
      if !round.repairable || repairs == CI_REPAIR_ATTEMPTS {
        return repairs, sessions, false;
      }
      repairs := repairs + 1;
      var used, repaired := RepairOnce(round);
      sessions := sessions + used;
      if !repaired {
        return repairs, sessions, false;
      }
    }
  }

  /** Implemented, gated and committed by this run or by the one it recovers. */
  predicate HasCommit(r: RunScript)
    requires Enough(r.prompt) && GateScript(r.gates)
  {
    r.recovered || (PromptSucceeds(r.prompt) && r.hasPaths && GatesSucceed(r.gates))
  }

  /** What the run uses when it makes `repairs` repairs. */
  ghost function RunUses(r: RunScript, repairs: nat): nat
    requires RunFits(r) && repairs <= |r.ci|
  {
    (if r.recovered then 0 else ImplementationUses(r.prompt, r.gates))
    + (if HasCommit(r) then PublicationUses(r.publication) else 0)
    + CiUses(r.ci, repairs)
  }

  /**
   A run from implementation or recovery to the last CI verdict: however sessions, gates,
   other writers and CI behave, it uses a bounded number of agent sessions, and it succeeds
   exactly with a commit, its publication and, where workflows are required, a round of
   them that passes. Without required workflows nothing is waited for and nothing repaired.
   */
  method Execute(r: RunScript) returns (repairs: nat, sessions: nat, ok: bool)
    requires RunFits(r)
    ensures repairs <= if r.required then CI_REPAIR_ATTEMPTS else 0
    ensures sessions == RunUses(r, repairs) <= (1 + repairs) * REPAIR_SESSIONS <= RUN_SESSIONS
    ensures r.recovered ==> sessions <= (1 + repairs) * REPAIR_SESSIONS - PROMPT_SESSIONS - GATE_SESSIONS
    ensures ok <==> HasCommit(r) && PublicationSucceeds(r.publication)
                    && (r.required ==> exists k :: 0 <= k < |r.ci| && CiPassesAt(r.ci, k))
    ensures repairs > 0 ==> HasCommit(r) && PublicationSucceeds(r.publication)
    ensures ok && r.required ==> CiPassesAt(r.ci, repairs)
  {
    hide PublicationFits, PublicationUses, PublicationSucceeds, GateScript, GatesUse, PromptSucceeds, GatesPassAt,
         RoundFits, CiFits, CiPassesAt, ImplementationUses, RepairUses, PromptUses;
    repairs, sessions, ok := 0, 0, true;
    if !r.recovered {
      sessions, ok := ImplementAndCommit(r.prompt, r.gates, r.hasPaths);
    }
    if ok {
      var used;
      used, ok := Publish(r.publication);
      sessions := sessions + used;
      if ok && r.required {
        repairs, used, ok := WaitForCi(r.ci);
        sessions := sessions + used;
      }
    }
  }

  // ---------------------------------------------------------------- usage across sessions

  /** The hash-map orders the source could have met, on a clock that does not go back, in the source's widths. */
  predicate Plausible(run: SessionRun, initialPrompt: nat) {
    && |run.clock| == |run.steps| + 1
    && (forall i, j :: 0 <= i <= j < |run.clock| ==> run.clock[i] <= run.clock[j])
    && OrdersFit(run.steps)
    && Enumerates(run.order, ObserveAll(run.steps).activeTools.Keys)
    && FitsWidths(SessionUsage(run, initialPrompt))
  }

  /** The session's own usage once it has finished. */
  function SessionUsage(run: SessionRun, initialPrompt: nat): BudgetUsage
    requires OrdersFit(run.steps) && |run.clock| > 0
    requires Enumerates(run.order, ObserveAll(run.steps).activeTools.Keys)
  {
    BudgetOf(Finish(ObserveAll(run.steps), run.status, run.order), initialPrompt, run.clock[|run.clock| - 1])
  }

  predicate AllPlausible(runs: seq<SessionRun>, initialPrompt: nat) {
    initialPrompt <= U64_MAX && forall i :: 0 <= i < |runs| ==> Plausible(runs[i], initialPrompt)
  }

  /** `accumulated_usage` after `n` sessions. */
  function Accumulated(runs: seq<SessionRun>, initialPrompt: nat, n: nat): (u: BudgetUsage)
    requires n <= |runs| && AllPlausible(runs, initialPrompt)
    ensures FitsWidths(u)
  {
    if n == 0 then BudgetUsage(initialPrompt, 0, 0, 0, 0, 0, 0, 0)
    else
      CombinedLattice(Accumulated(runs, initialPrompt, n - 1), SessionUsage(runs[n - 1], initialPrompt),
                      SessionUsage(runs[n - 1], initialPrompt));
      CombinedWith(Accumulated(runs, initialPrompt, n - 1), SessionUsage(runs[n - 1], initialPrompt))
  }

  /** The usage of the first `n` sessions, whatever its size. */
  function TotalUsage(runs: seq<SessionRun>, initialPrompt: nat, n: nat): BudgetUsage
    requires n <= |runs| && AllPlausible(runs, initialPrompt)
  {
    if n == 0 then BudgetUsage(initialPrompt, 0, 0, 0, 0, 0, 0, 0)
    else Together(TotalUsage(runs, initialPrompt, n - 1), SessionUsage(runs[n - 1], initialPrompt))
  }

  /** What a prompt has accumulated is the sum over its sessions, cut to the widths once. */
  lemma {:induction false} AccumulatedIsTheTotal(runs: seq<SessionRun>, initialPrompt: nat, n: nat)
    requires n <= |runs| && AllPlausible(runs, initialPrompt)
    ensures Accumulated(runs, initialPrompt, n) == Clipped(TotalUsage(runs, initialPrompt, n))
  {
    hide SessionUsage, CombinedWith, Together, Clipped, FitsWidths;
    if n == 0 {
      NothingClipped(initialPrompt);
    } else {
      AccumulatedIsTheTotal(runs, initialPrompt, n - 1);
      CombinedIsClipped(TotalUsage(runs, initialPrompt, n - 1), SessionUsage(runs[n - 1], initialPrompt));
    }
  }

  lemma NothingClipped(initialPrompt: nat)
    requires initialPrompt <= U64_MAX
    ensures var u := BudgetUsage(initialPrompt, 0, 0, 0, 0, 0, 0, 0); Clipped(u) == u
  {
  }

  lemma {:induction false} StepsPrefix(steps: seq<Step>, k: nat)
    requires OrdersFit(steps) && k <= |steps|
    ensures OrdersFit(steps[..k])
  {
    hide Observe, Enumerates;
    if k == |steps| {
      assert steps[..k] == steps;
    } else {
      StepsPrefix(steps[..|steps| - 1], k);
      assert steps[..|steps| - 1][..k] == steps[..k];
    }
  }

  /** The usage the budget check sees after `k` lines of session `n` (at least one). */
  function UsageAt(runs: seq<SessionRun>, initialPrompt: nat, n: nat, k: nat): BudgetUsage
    requires AllPlausible(runs, initialPrompt) && n < |runs| && 0 < k <= |runs[n].steps|
  {
    StepsPrefix(runs[n].steps, k);
    CombinedWith(Accumulated(runs, initialPrompt, n),
                 BudgetOf(ObserveAll(runs[n].steps[..k]), initialPrompt, runs[n].clock[k - 1]))
  }

  lemma {:induction false} WithinSession(run: SessionRun, initialPrompt: nat, i: nat, j: nat)
    requires Plausible(run, initialPrompt) && 0 < i <= j <= |run.steps|
    ensures OrdersFit(run.steps[..i]) && OrdersFit(run.steps[..j])
    ensures AtMost(BudgetOf(ObserveAll(run.steps[..i]), initialPrompt, run.clock[i - 1]),
                   BudgetOf(ObserveAll(run.steps[..j]), initialPrompt, run.clock[j - 1]))
    decreases j
  {
    hide Observe, Finish, BudgetOf, FitsWidths, Sane, Enumerates;
    StepsPrefix(run.steps, i);
    StepsPrefix(run.steps, j);
    if i < j {
      WithinSession(run, initialPrompt, i, j - 1);
      OneMoreLine(run, initialPrompt, j);
    }
  }

  lemma OneMoreLine(run: SessionRun, initialPrompt: nat, j: nat)
    requires Plausible(run, initialPrompt) && 1 < j <= |run.steps|
    requires OrdersFit(run.steps[..j]) && OrdersFit(run.steps[..j - 1])
    ensures AtMost(BudgetOf(ObserveAll(run.steps[..j - 1]), initialPrompt, run.clock[j - 2]),
                   BudgetOf(ObserveAll(run.steps[..j]), initialPrompt, run.clock[j - 1]))
  {
    hide Observe, Finish, BudgetOf, FitsWidths, Sane, Enumerates, AtMost;
    var steps := run.steps[..j];
    var front := steps[..j - 1];
    assert front == run.steps[..j - 1];
    ObserveAllSane(front);
    UsageGrowsWithinSession(ObserveAll(front), steps[j - 1].line, steps[j - 1].order, initialPrompt,
                            run.clock[j - 2], run.clock[j - 1]);
  }

  lemma UntilFinish(run: SessionRun, initialPrompt: nat, i: nat)
    requires Plausible(run, initialPrompt) && 0 < i <= |run.steps|
    ensures OrdersFit(run.steps[..i])
    ensures AtMost(BudgetOf(ObserveAll(run.steps[..i]), initialPrompt, run.clock[i - 1]), SessionUsage(run, initialPrompt))
  {
    hide Observe, Finish, BudgetOf, FitsWidths, Sane, Enumerates;
    var j := |run.steps|;
    WithinSession(run, initialPrompt, i, j);
    assert run.steps[..j] == run.steps;
    ObserveAllSane(run.steps);
    UsageGrowsAtFinish(ObserveAll(run.steps), run.status, run.order, initialPrompt, run.clock[j - 1], run.clock[j]);
  }

  lemma OneMoreSession(runs: seq<SessionRun>, initialPrompt: nat, n: nat)
    requires AllPlausible(runs, initialPrompt) && n < |runs|
    ensures AtMost(Accumulated(runs, initialPrompt, n), Accumulated(runs, initialPrompt, n + 1))
  {
    var last := SessionUsage(runs[n], initialPrompt);
    CombinedLattice(Accumulated(runs, initialPrompt, n), last, last);
  }

  lemma {:induction false} AccumulatedGrows(runs: seq<SessionRun>, initialPrompt: nat, n: nat, m: nat)
    requires AllPlausible(runs, initialPrompt) && n <= m <= |runs|
    ensures AtMost(Accumulated(runs, initialPrompt, n), Accumulated(runs, initialPrompt, m))
  {
    hide Plausible, FitsWidths, Accumulated;
    if n < m {
      AccumulatedGrows(runs, initialPrompt, n, m - 1);
      OneMoreSession(runs, initialPrompt, m - 1);
    }
  }

  /** What the budget check sees sits between the totals before and after its session. */
  lemma UsageIsBetween(runs: seq<SessionRun>, initialPrompt: nat, n: nat, k: nat)
    requires AllPlausible(runs, initialPrompt) && n < |runs| && 0 < k <= |runs[n].steps|
    ensures AtMost(Accumulated(runs, initialPrompt, n), UsageAt(runs, initialPrompt, n, k))
    ensures AtMost(UsageAt(runs, initialPrompt, n, k), Accumulated(runs, initialPrompt, n + 1))
  {
    hide Plausible, BudgetOf, ObserveAll;
    UntilFinish(runs[n], initialPrompt, k);
  }

  /**
   Over a whole prompt, however many sessions it takes: usage never decreases, component
   by component, from any budget check to any later one or to a later total, so the
   budget stage never falls.
   */
  lemma UsageNeverFalls(runs: seq<SessionRun>, initialPrompt: nat, budget: BudgetUsage, n: nat, k: nat, m: nat, j: nat)
    requires AllPlausible(runs, initialPrompt)
    requires n < |runs| && 0 < k <= |runs[n].steps| && m < |runs| && 0 < j <= |runs[m].steps|
    requires n < m || (n == m && k <= j)
    ensures AtMost(UsageAt(runs, initialPrompt, n, k), UsageAt(runs, initialPrompt, m, j))
    ensures Rank(Stage(UsageAt(runs, initialPrompt, n, k), budget)) <= Rank(Stage(UsageAt(runs, initialPrompt, m, j), budget))
  {
    hide *;
    var early, late := UsageAt(runs, initialPrompt, n, k), UsageAt(runs, initialPrompt, m, j);
    if n == m {
      SameSession(runs, initialPrompt, n, k, j);
    } else {
      var after, before := Accumulated(runs, initialPrompt, n + 1), Accumulated(runs, initialPrompt, m);
      UsageIsBetween(runs, initialPrompt, n, k);
      AccumulatedGrows(runs, initialPrompt, n + 1, m);
      UsageIsBetween(runs, initialPrompt, m, j);
      AtMostTransitive(early, after, before);
      AtMostTransitive(early, before, late);
    }
    StageMonotone(early, late, budget);
  }

  lemma AtMostTransitive(a: BudgetUsage, b: BudgetUsage, c: BudgetUsage)
    requires AtMost(a, b) && AtMost(b, c)
    ensures AtMost(a, c)
  {
  }

  lemma SameSession(runs: seq<SessionRun>, initialPrompt: nat, n: nat, k: nat, j: nat)
    requires AllPlausible(runs, initialPrompt) && n < |runs| && 0 < k <= j <= |runs[n].steps|
    ensures AtMost(UsageAt(runs, initialPrompt, n, k), UsageAt(runs, initialPrompt, n, j))
  {
    hide Plausible, BudgetOf, ObserveAll;
    WithinSession(runs[n], initialPrompt, k, j);
  }
}
