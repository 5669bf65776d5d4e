# A model of the RustGrid worker

The worker claims tickets, supervises a lease, runs a coding agent, publishes its branch and
reports events. These modules model the state machines, protocols and arithmetic inside it and
prove what they keep. `dafny verify dfyconfig.toml` checks everything.

Code that changes things step by step is modelled by classes and loops, each method proved
against a specification function; the theorems are about those functions and their runs.
Whatever the worker does not decide (other writers, clocks, crashes, agents, hash-map order) is
an explicit parameter: a script of what each step meets.

| modules | model |
|---|---|
| `CommitGraph`, `Publication` | publishing a commit to a branch other writers move (`git.rs`, `runner.rs`) |
| `Calendar`, `Timestamps` | RFC 3339 times, printed and parsed (`telemetry.rs`, `token.rs`) |
| `Supervisor` | the lease (`supervisor.rs`, bounds of `config.rs`) |
| `LineReader` | bounded output readers (`command.rs`) |
| `Bracketing`, `Telemetry`, `SessionRecord`, `Usage`, `ClaudeStream`, `ClaudeRecord`, `Batcher` | telemetry sessions and what they record, token accounting, the Claude translator, batching (`telemetry.rs`, `agent.rs`, `mission.rs`, `token_consumption.rs`) |
| `Sessions`, `SessionBound` | how many agent sessions a run can use, a run that uses them all, and budget usage (`execution.rs`, `runner.rs`) |
| `Architecture` | path globs and boundary checks (`architecture.rs`) |
| `Journal` | crash recovery and adoption (`journal.rs`, `lifecycle.rs`, `workspace.rs`) |
| `Utf8`, `TreeHash`, `Gates` | decoding of git's output, the source-tree fingerprint and the gate cache (`command.rs`, `execution.rs`) |
| `Events` | the event cursor and client sequences (`reporting.rs`, `api.rs`) |
| `Scheduler` | the watch loop (`runner.rs`) |
| `Redaction` | redacted diagnostics (`error.rs`) |
| `Capacity` | host planning against validation (`setup.rs`, `config.rs`) |
| `Common`, `Text` | shared types, decimal numbers and splitting |

## What turned out not to hold

Each of these has a concrete run in the project, named first, and the exact condition beside it.

- A publication can drop another writer's work, because the lease is read after reconciling
  (`Publication.SecondReadLosesTheirWork`). The replaced head's work is kept if and only if it
  is in what was reconciled, in the fetched base or in a repair
  (`Publication.ReplacedHeadKeptExactly`).
- A publication can drop the agent's own work on its second pass, although it started with one
  unpublished commit (`Publication.RetryLosesAgentWork`). One pass keeps it exactly under the
  condition of `Publication.ReconcileKeepsAgentWork`; what any number of passes keep is exactly
  `Publication.SurvivesExactly`.
- A step goes on when its checkpoint cannot be written; after a crash the next event can be
  swallowed under the same sequence (`Events.UnsavedStepSwallowsAnEvent`). So can an event of a
  run that reported a failed adoption from a journal of its own and adopts after all
  (`Events.OtherJournalSwallowsAnEvent`). A start is safe if and only if the journal it reads
  has caught up by then (`Events.StartIsSafeExactly`).
- Absence of an event is reported only up to 9,500 events, not 10,000
  (`Events.AbsenceNotReported`): the last request has to come back empty, exactly as
  `Events.FindEventByClientSequence` says.
- A source run can be adopted twice after a machine crash undoes an unsynced rename
  (`Journal.MachineCrashAdmitsSecondAdopter`): such a crash is harmless if and only if every
  reported adoption is durable (`Journal.MachineCrashExactly`). It can also be adopted twice
  when a run id comes back (`Journal.ReusedIdAdmitsSecondAdopter`): the return is harmless if
  and only if no adoption from that run was reported (`Journal.ReturnIsHarmlessExactly`).
- An untracked file whose name is not UTF-8 is looked up under its decoded name and not found,
  so its contents are not part of the fingerprint (`TreeHash.LatinNameHidesContents`) and a gate
  can be skipped where it would fail (`Gates.LatinNameSkipsAGate`). Short of a hash collision,
  a tree has a fingerprint of its own, and gates are skipped on it soundly, if and only if
  git's answers about it are UTF-8 without U+FFFD (`TreeHash.IdentifiedExactly`,
  `Gates.SourceSkipsSoundlyExactly`).
- The gate cache changes the outcome as soon as some passing gate edits the tree
  (`Gates.SkippedFormatterFailsTheLinter`, exactly `Gates.CacheIsTransparentExactly`).
- An assignment list that names one run under two tickets starts it twice
  (`Scheduler.TwoTicketsSpawnTwice`, exactly `Scheduler.SelectsOnceExactly`).
- Setup's own recommendation can fail validation (`Capacity.LargeHostIsRefused`): exactly above
  64 jobs (`Capacity.RecommendationValidatesExactly`).
- Turn indices collide once the counter saturates (`Telemetry.SaturatedTurnsCollide`): exactly
  from u32::MAX + 2 turns on (`Telemetry.SessionIsBracketed`).

## Model

| member | source | states |
|---|---|---|
| CommitGraph.ReplayKeeps | src/git.rs:350-377 | a rebase keeps its new base as an ancestor, and its history changes exactly what the base and the replayed commits change |
| CommitGraph.RebaseFromShared | src/git.rs:417-456 | a rebase from a common ancestor onto another head loses no change of either side and adds none |
| CommitGraph.RebaseFromParent | src/git.rs:328-377 | a rebase from the commit's own parent carries over that one commit's change, however many commits are unpublished |
| Publication.ReconcileMeaning | src/git.rs:265-379 | what reconciling leaves to publish: the listed remote head stays an ancestor, and the change set in each of the three outcomes |
| Publication.ReconcilesExactly | src/git.rs:265-379 | for any local branch and answers: exactly when reconciling succeeds, which of the three outcomes it is and with which commit, and exactly which refusal it is otherwise |
| Publication.ReconcileKeepsAgentWork | src/git.rs:312-377 | the agent's changes survive reconciling if and only if the branch had not diverged or everything below its last commit was already published |
| Publication.BaseMeaning | src/git.rs:381-461 | after rebasing onto the fetched base, the base is an ancestor and the changes are exactly those of both sides |
| Publication.NothingToPublishExactly | src/git.rs:417-430 | the empty pull request is refused exactly when the base already contains the commit |
| Publication.RebasesExactly | src/git.rs:381-461 | exactly when rebasing onto the base succeeds, and with which commit |
| Publication.AdoptMeaning | src/runner.rs:702-784 | validation adopts the reconciled commit and adds at most the gates' repair on top of it |
| Publication.AttemptMeaning | src/runner.rs:808-874 | the exact change set of the commit a pass offers to the push, and that it is the local branch head and contains the base |
| Publication.AttemptSucceedsExactly | src/runner.rs:808-874 | exactly when a pass publishes, finds its commit already published, or loses a race, in terms of what it read; and the commit and lease it pushes |
| Publication.RoundsDecideExactly | src/runner.rs:808-890 | the loop goes on exactly while its passes lose races before a new base, three at most; the pass it ends with decides |
| Publication.UndisturbedPublishes | src/runner.rs:786-898 | with nobody else on the branch a publication succeeds in its first pass exactly when both steps do and their gates pass, and pushes unless the branch was there already |
| Publication.CommitOnTopIsPublished | src/git.rs:302-307 | every commit on top of the branch head and the base is published as it is, without another gate run |
| Publication.OfferedExactly | src/runner.rs:808-874 | the changes of the commit offered to the push, as a function of what the pass read: the listed head, the picks, the fetched base and the repairs, the second one exactly when the base is in no history that was read or made |
| Publication.IncludedExactly | src/git.rs:410-416 | the base is already part of the reconciled commit exactly when it is an ancestor of the listed head or commit that was read, or one of the commits the pass made on top |
| Publication.EveryMoveIsGuarded | src/runner.rs:808-890 | over every run and all other writers: each move of the remote head goes forward or replaces exactly the head read as the lease; only the last pass forces; at most three passes and four gate runs |
| Publication.ValidationsAreGateRuns | src/runner.rs:808-874 | the gate rounds of a publication are those its passes asked for, and none failed when it succeeds |
| Publication.SuccessWasObserved | src/git.rs:222-254 | a publication reported as done saw the remote branch at the commit, which contains the fetched base; a push that moved it is on record |
| Publication.NothingIsLost | src/runner.rs:808-890 | each move publishes exactly what its pass offered: the fetched base and the listed head always, the head it replaced if and only if the move went forward or the offer holds its work, and this pass's commit when one change was unpublished |
| Publication.ReplacedHeadKeptExactly | src/runner.rs:811-874 | a forced push keeps the work of the head it replaces if and only if that work is in what was reconciled, in the fetched base or in a repair |
| Publication.SurvivesExactly | src/runner.rs:808-890 | exactly which changes survive any number of retries, each pass replaying what the one before it left |
| Publication.AgentWorkSurvives | src/runner.rs:808-890 | through the whole retry loop everything the agent committed is published, if every pass that met a diverged branch had one change unpublished |
| Publication.SecondReadLosesTheirWork | src/runner.rs:811-874 | the branch is read a second time for the lease: a concrete run in which another writer's work vanishes |
| Publication.RetryLosesAgentWork | src/runner.rs:808-890 | a concrete run that starts with one unpublished commit and loses the agent's change: the repair of the first pass makes two |
| Publication.Publisher.ReconcileRemoteBranch | src/git.rs:265-379 | the imperative reconciliation computes the specified outcome and moves the local branch only to it |
| Publication.Publisher.RebaseOntoRemoteBase | src/git.rs:381-461 | likewise for the rebase onto the base |
| Publication.Publisher.ValidateReconciledCommit | src/runner.rs:702-784 | likewise for adopting a reconciled commit and committing the repair |
| Publication.Publisher.Push | src/git.rs:212-254 | likewise for the push under a lease, with every move of the remote recorded |
| Publication.Publisher.PublishOnce | src/runner.rs:808-874 | one pass of the loop refines its specification |
| Publication.Publisher.PublishCommit | src/runner.rs:786-898 | the publication loop refines the specification the theorems are about |
| Calendar.DaysRoundTrip | src/telemetry.rs:1370-1383 | for every day number, the printed date is a real date whose day number is that number |
| Calendar.DateRoundTrip | src/token.rs:116-122 | for every real date, the parser's day number prints as that date |
| Calendar.NextDayAdvances | src/token.rs:116-122 | the calendar's next day is the next day number |
| Calendar.PrintsTheCalendar | src/telemetry.rs:1370-1383 | day n prints as the date n calendar steps after 1 January 1970 |
| Calendar.OrderPreserved | src/token.rs:116-122 | dates and day numbers are in order-preserving bijection |
| Timestamps.PrintedStampReadsBack | src/telemetry.rs:1360-1368 | the parser reads the printed fields back |
| Timestamps.EveryFormIsRead | src/token.rs:75-104 | fields of any width, with no fraction or any, and either zone: what is read is the instant of those fields and that zone |
| Timestamps.OtherZonesAreRefused | src/token.rs:76-93 | a zone beyond 23 hours or 59 minutes, or none, is refused |
| Timestamps.InstantOfCalendarDay | src/token.rs:105-131 | for the date n calendar days after the epoch and any time of day, leap seconds included, the instant by plain counting |
| Timestamps.RefusedExactly | src/token.rs:105-125 | fields outside the calendar and dates before the epoch are refused, and every other date is a calendar day |
| Timestamps.DaysFitExactly | src/token.rs:116-122 | the day number passes its overflow check exactly when every i64 step on the way to it fits |
| Timestamps.FormatParseRoundTrip | src/token.rs:75-132 | parsing a printed time gives exactly its second count up to i64::MAX, and overflows above it |
| Timestamps.ParseFormatRoundTrip | src/token.rs:75-132 | printing an accepted Z time gives its own civil fields if and only if its second is at most 59 |
| Timestamps.OffsetMovesTheInstant | src/token.rs:76-132 | a numeric offset moves the instant by exactly that many minutes |
| Supervisor.LeaseMonitor.Observe | src/supervisor.rs:147-172 | the decision on a renewal's answer, and the one field it updates |
| Supervisor.RunSupervisor.MakePass | src/supervisor.rs:228-275 | one pass of the supervising loop against its specification |
| Supervisor.RunSupervisor.Supervise | src/supervisor.rs:209-280 | the loop against the specification the theorems are about |
| Supervisor.FlagsOverRuns | src/supervisor.rs:228-275 | over every run: raised stop flags stay, lease loss and timeout are never both set, and the row version only comes from a granted renewal |
| Supervisor.StoppedExactly | src/supervisor.rs:209-280 | over every run: the loop has stopped if and only if some pass met the stop flag, a shutdown, the timeout, a refused lease or silence for the limit since the last grant; and each flag is set exactly when its own cause came first |
| Supervisor.PassDecides | src/supervisor.rs:228-275 | what one pass does to every flag, for each cause and for none |
| Supervisor.GoesOn | src/supervisor.rs:228-275 | a run nothing has stopped: its health, row version and last success are those of the passes so far |
| Supervisor.StoppingClearsExecution | src/supervisor.rs:228-275 | every way the loop ends by itself clears the execution flag |
| Supervisor.LeaseSafety | src/config.rs:858-863 | under the enforced bounds and latency up to half a heartbeat, no timely run executes past the expiry of its last granted lease |
| Supervisor.LeaseSafetyIsTight | src/supervisor.rs:122-172 | for every configuration validation accepts, all timely runs are safe if and only if twice the latency is at most a heartbeat and a nanosecond |
| LineReader.BoundedLineReader.Segment | src/command.rs:640-689 | one segment of a chunk keeps the unfinished line within its limit |
| LineReader.BoundedLineReader.ReadAll | src/command.rs:607-689 | the reading loop sends exactly the specified messages |
| LineReader.ChunkInvariance | src/command.rs:607-689 | within the byte limit the messages depend on the stream, not on how it was cut |
| LineReader.CompleteGrows | src/command.rs:607-689 | messages once complete never change when more data arrives |
| LineReader.PastTheLimit | src/command.rs:607-689 | past the limit: a prefix of the stream's messages, then exactly one failure |
| LineReader.LinesCoverTheStream | src/command.rs:607-689 | the specification's lines and tail rejoin to the stream |
| LineReader.OutputComesBack | src/command.rs:607-689 | whatever lines a program writes, ended either way, come back in order without their ends, or by length when too long; and last what follows the last newline, with nothing taken off |
| LineReader.FailsExactly | src/command.rs:622-651 | a read error or too much output: every line complete by then, then one failure that says which |
| LineReader.CapturedExactly | src/command.rs:804-859 | what is captured is the stream, or its start and a note |
| LineReader.ReadBoundedObserved | src/command.rs:804-859 | the capturing loop keeps the stream cut at the limit and counts every byte |
| LineReader.StreamOfChunks | src/command.rs:804-826 | what is captured depends only on the concatenation |
| Bracketing.AcceptedIsBracketed | src/telemetry.rs:803-1055 | a log the nesting rules accept starts and ends each entity at most once, in that order |
| Bracketing.ClosedLogIsComplete | src/telemetry.rs:738-769 | a log that closes everything ends each started entity exactly once |
| Bracketing.TurnsAreNumbered | src/telemetry.rs:803-864 | turn indices are 0, 1, 2 without gaps |
| Bracketing.ToolsStayInTheirTurn | src/telemetry.rs:956-992 | an open tool implies an open turn with the tool's index |
| Telemetry.ObserveInv | src/telemetry.rs:685-736 | every observed line keeps the session's log accepted and its maps in step with it, as long as no turn index has been used twice |
| Telemetry.FinishInv | src/telemetry.rs:738-769 | finishing closes everything that was open, under the same condition |
| Telemetry.SessionIsBracketed | src/telemetry.rs:641-769 | for every sequence of lines and hash-map orders, then finish: turn indices are 0, 1, 2 up to u32::MAX and then repeat it; the log is bracketed if and only if it has at most u32::MAX + 1 turns, and then complete |
| Telemetry.SaturatedTurnsCollide | src/telemetry.rs:803-830 | an observed session whose last two turns share an index: its log is not bracketed |
| Telemetry.TurnsCanBeReached | src/telemetry.rs:803-830 | lines that start turns reach any number of them, so the saturated counter is reached |
| Telemetry.UsageGrowsWithinSession | src/telemetry.rs:787-801 | no component of a session's budget usage falls when a line is observed, saturated turn counter included |
| Telemetry.UsageGrowsAtFinish | src/telemetry.rs:738-801 | nor when the session finishes |
| Telemetry.AgentTelemetrySession.ObserveLine | src/telemetry.rs:685-736 | the session object's line handling refines the specification |
| Telemetry.AgentTelemetrySession.FinishSession | src/telemetry.rs:738-769 | likewise for finishing |
| Telemetry.AgentTelemetrySession.FinishOpenTools | src/telemetry.rs:1031-1055 | draining the open tools in any order closes each once |
| SessionRecord.TokensAreTheSum | src/telemetry.rs:703-709 | a session's token counts are exactly the sum of what its completed turns reported, as long as it fits |
| SessionRecord.FinishCountsNothing | src/telemetry.rs:738-769 | finishing adds nothing to them |
| SessionRecord.EndsAreExplained | src/telemetry.rs:685-769 | every end in a session's log was recorded by one line and has its outcome: turns and model calls succeeded if and only if a completed turn ended them, tools have their own completion's status or failed with their turn; and there are as many succeeded turns as lines that complete one |
| SessionRecord.EndingLine | src/telemetry.rs:703-715 | a line that ends a turn ends the active one, or one started for it, with the line's outcome |
| SessionRecord.StartingLine | src/telemetry.rs:697-702 | a line that starts a turn fails the active one and starts the next |
| SessionRecord.ToolLine | src/telemetry.rs:956-1029 | a line about a tool opens it once, or closes it once with the status it gives |
| SessionRecord.FinishIsExplained | src/telemetry.rs:738-769 | finishing ends the open turn with the session's outcome, its tools no better than failed, then the phase and the execution |
| SessionRecord.SessionHasSeen | src/telemetry.rs:803-1029 | from the lines alone: the tools seen, whether a turn is open, how many began, and the largest context one began with |
| SessionRecord.BudgetIsCounted | src/telemetry.rs:787-801 | the budget usage of a session, from its lines alone |
| Usage.AdapterBoundsCached | src/telemetry.rs:285-332 | the adapter never passes on cached input above input |
| Usage.CanonicalUsagePassesThrough | src/agent.rs:390-419 | when the canonical counts exist, and that the adapter passes each on unchanged |
| Usage.NormalizedExactly | src/telemetry.rs:285-332 | every count of a usage object passes on, but impossible cached input; the total is the reported or the worked out one, and the source says which |
| Usage.AddCountsGrows | src/token_consumption.rs:38-60 | the checked addition is exact when everything fits and never lowers a count when it fails half-way |
| Usage.CombinedLattice | src/mission.rs:157-174 | merging usage is associative, commutative, inflationary and monotone |
| Usage.CombinedIsClipped | src/mission.rs:157-174 | merging with saturation at each step is adding everything up and saturating once |
| Usage.StageMonotone | src/mission.rs:176-207 | more usage never means an earlier stage |
| Usage.StageExactly | src/mission.rs:176-207 | each stage exactly: some of the eight dimensions at its whole limit, nine tenths or seven tenths of it, or none |
| ClaudeStream.TranslateInv | src/agent.rs:141-296 | the ids started but not completed are the pending calls, no completion precedes its start, and a result leaves none |
| ClaudeStream.StreamInv | src/agent.rs:141-296 | the same over whole streams |
| ClaudeStream.ClaudeSessionIsBracketed | src/agent.rs:141-296 | a whole translated stream is bracketed if and only if it has at most u32::MAX + 1 turns; only pending calls are open in telemetry, and none when the result ends the turn |
| ClaudeStream.ClaudeStreamTranslator.TranslateEvent | src/agent.rs:141-184 | the translator object refines the specification |
| ClaudeStream.ClaudeStreamTranslator.CancelPending | src/agent.rs:260-296 | draining the pending calls in any order cancels each once |
| ClaudeRecord.EventSays | src/agent.rs:141-296 | the lines each event may give, how many of each kind it gives, and which calls a message leaves pending |
| ClaudeRecord.StreamSays | src/agent.rs:141-296 | over a whole stream: a turn starts with each init, completes with each result that succeeds and fails with each other; each call and text is said once |
| ClaudeRecord.ToolsAreNamed | src/agent.rs:309-388 | what each tool counts as, by name |
| ClaudeRecord.ClaudeTokensAreTheSum | src/agent.rs:260-419 | end to end: telemetry counts exactly what the successful results of a Claude stream report, as long as it fits |
| Batcher.DeliveryThread.FlushPending | src/telemetry.rs:469-482 | a flush delivers one batch for each run that has events, with all of them, in any hash order |
| Batcher.DeliveryThread.Receive | src/telemetry.rs:444-464 | one message: the hundredth pending event sends its run's batch and no earlier one does; every event is in exactly one place |
| Batcher.DeliveryThread.DeliveryLoop | src/telemetry.rs:437-467 | over any interleaving, what was delivered for a run is what arrived for it, in order, once the channel closes |
| Batcher.FlushedIsComplete | src/telemetry.rs:469-482 | with nothing pending, the concatenated batches of a run are exactly its events |
| Sessions.FiveSessionsDecide | src/execution.rs:472-765 | each undecided session spends one of the restarts left, so the fifth decides at the latest |
| Sessions.FiveSessionsMayBeUsed | src/execution.rs:472-765 | the bound is reached by a concrete prompt that delivers |
| Sessions.DeliveryNeedsEvidence | src/execution.rs:684-706 | delivery means a clean last exit, and completion evidence or an escalation from some session |
| Sessions.DeliveredExactly | src/execution.rs:684-706 | a prompt is delivered if and only if, with no verdict before, a session exits cleanly with evidence or an escalation reported so far; and that session is its last |
| Sessions.DecidedExactly | src/execution.rs:472-765 | a prompt is decided at the first session with a verdict, by that verdict, and uses no further session |
| Sessions.RunAgentPrompt | src/execution.rs:472-765 | the session loop computes the specified outcome within five sessions |
| Sessions.RunGatesWithRepairs | src/execution.rs:1179-1258 | Ok exactly after a round with no required failure that only successful repairs precede; at most ten sessions |
| Sessions.Publish | src/runner.rs:786-898 | one publication uses exactly what its validations' gates use, at most forty sessions, and when it succeeds all of them passed |
| Sessions.ImplementAndCommit | src/execution.rs:119-200 | implementation succeeds exactly with a delivered prompt, passing gates and something to commit |
| Sessions.RepairOnce | src/runner.rs:1121-1242 | one CI repair: the sessions it uses, at most fifty-five, and exactly when it ends without an error |
| Sessions.WaitForCi | src/runner.rs:1091-1243 | at most three repairs, each after a repairable failure and all but the last successful; Ok exactly when a round of workflows passes after such repairs; and why it fails otherwise |
| Sessions.Execute | src/runner.rs:900-1243 | a whole run uses at most 220 agent sessions, 205 when it recovers a commit; it succeeds exactly with a commit, its publication and, where workflows are required, a round of them that passes; without required workflows it repairs nothing |
| SessionBound.ContendedPublication | src/runner.rs:808-890 | from any commit, a publication with honest answers that is overtaken twice and succeeds on its third pass after four gate runs |
| SessionBound.SessionBoundIsReached | src/runner.rs:900-1243 | a concrete successful run, its publications one on top of the other, that uses all 220 sessions |
| Sessions.UsageNeverFalls | src/execution.rs:633-658 | over all sessions of a prompt, however many turns they have, usage never decreases in any component and the budget stage never falls |
| Sessions.UsageIsBetween | src/execution.rs:674-682 | every usage the budget check sees lies between the totals before and after its session |
| Sessions.AccumulatedIsTheTotal | src/execution.rs:633-658 | what a prompt has accumulated is the sum over its sessions, cut to the widths once |
| Architecture.GlobLanguage | src/architecture.rs:386-403 | both matchers decide exactly the language in which stars take any share and other items one |
| Architecture.MatcherIsTable | src/architecture.rs:386-403 | the backtracking matcher agrees with a dynamic-programming table at every position |
| Architecture.GlobIsTable | src/architecture.rs:372-403 | a whole glob is decided by a table whose segment test is a table too, without backtracking at either level |
| Architecture.DirectoryGlob | src/architecture.rs:370-384 | a literal directory glob matches exactly the directory and everything below it |
| Architecture.OwnersFrom | src/architecture.rs:158-165 | the owners of a path are the boundaries with a matching glob |
| Architecture.FirstCovering | src/architecture.rs:237-247 | the first open escalation that covers the request |
| Architecture.CheckPaths | src/architecture.rs:170-208 | the crossings map holds each crossed boundary with exactly its out-of-scope paths, and the verdict follows from it |
| Architecture.CrossingsAreForeign | src/architecture.rs:170-208 | crossings are disjoint from the declared boundaries, empty exactly when every path is in scope, and grow with the paths |
| Architecture.DeclaringSettles | src/architecture.rs:167-187 | declaring what was crossed leaves nothing out of scope |
| Journal.SuccessPassedReview | src/lifecycle.rs:106-127 | an attempt that reached Succeeded was in AwaitingReview just before, in Publishing before that, and ends there |
| Journal.PhaseSuccessors | src/lifecycle.rs:106-127 | from each phase, exactly where an attempt may go |
| Journal.EveryJournalIsRecoverable | src/journal.rs:181-204 | after any history of failing persists, crashes and adoptions in the run's order, the file gives a well-formed plan with the last commit, at or after every acknowledged one, and a phase reached along the graph |
| Journal.OrderPublishes | src/runner.rs:979-1080 | the run's order (a commit recorded or recovered before the pull request) gives every journal, in memory and on disk, a commit under its pull request, across crashes and restarts |
| Journal.PullRequestFirstIsIncomplete | src/journal.rs:345-349 | the journal itself does not insist: recorded the other way round, the plan is incomplete |
| Journal.AcknowledgedCommitsLast | src/journal.rs:335-383 | an acknowledged commit stays in every later journal |
| Journal.AcknowledgedIsReloaded | src/journal.rs:206-256 | an acknowledged record is what the next start loads, even after a machine crash |
| Journal.EveryFieldIsItsLastChange | src/journal.rs:258-383 | after any changes every field of a record is what the last change to that field made it, and what no change is about stays |
| Journal.ResumedExactly | src/journal.rs:264-271 | resuming an ended run changes its phase and error alone |
| Journal.CreatedExactly | src/journal.rs:206-256 | what a start finds: its own record, a new one, or a refusal that changes nothing |
| Journal.FailedWrites | src/reporting.rs:289-308 | a change that cannot be written goes on in memory; a resumption that cannot is given up |
| Journal.AdoptionKeepsArtifacts | src/journal.rs:273-326 | when adoption succeeds, that it keeps every artifact, and that repeating it after a crash changes nothing |
| Journal.AdoptedExactly | src/journal.rs:273-326 | adoption is taken exactly from the named run, for its own ticket, when it was left for others or taken before; and every field of the record after it |
| Journal.AtMostOneAdopter | src/workspace.rs:25-76 | with fresh run ids, and every reported adoption durable at each machine crash, at most one run ever adopts a source |
| Journal.MachineCrashExactly | src/journal.rs:290-295 | a machine crash is harmless, whatever careful operations follow it, if and only if every adoption reported so far is durable |
| Journal.MachineCrashAdmitsSecondAdopter | src/journal.rs:290-295 | a concrete history: an unsynced adoption retried, then a machine crash, then a second adopter |
| Journal.ReturnIsHarmlessExactly | src/journal.rs:296-326 | a run that adopts a file it owned before is harmless, whatever careful operations follow, if and only if no adoption from it was reported |
| Journal.ReusedIdAdmitsSecondAdopter | src/journal.rs:296-326 | a concrete history: a run that takes its own work back is adopted from twice |
| Journal.EventStore.PersistAtomic | src/journal.rs:103-127 | what each way of ending leaves visible and durable |
| Journal.RunJournal.Create | src/journal.rs:206-256 | creating or loading the journal refines the state machine |
| Journal.RunJournal.ResumeActiveRun | src/journal.rs:264-271 | likewise for resuming a claimed run |
| Journal.RunJournal.AdoptRecovery | src/journal.rs:273-326 | likewise for adoption |
| Journal.RunJournal.SetPhase | src/reporting.rs:289-308 | likewise for a phase change, invalid ones ignored |
| Journal.RunJournal.Checkpoint | src/journal.rs:258-262 | likewise for a checkpoint |
| Journal.RunJournal.RecordCommit | src/journal.rs:340-343 | likewise for a commit |
| Journal.RunJournal.RecordPullRequest | src/journal.rs:345-349 | likewise for a pull request, whose two fields change together |
| TreeHash.StreamDecodes | src/execution.rs:1447-1452 | the length-prefixed stream determines the fields it was made of |
| TreeHash.ListingOrderIrrelevant | src/execution.rs:1477-1494 | the order git lists untracked files in does not matter, decoded or not |
| TreeHash.FingerprintIsExact | src/execution.rs:1446-1515 | among trees git describes in UTF-8, and short of such a collision, equal fingerprints exactly when git sees no difference between the trees |
| Utf8.FixedExactly | src/command.rs:106-126 | decoding git's output leaves exactly the well-formed bytes alone, and decoding twice is decoding once |
| Utf8.NotPlainExactly | src/command.rs:106-126 | a text has a decoding of its own exactly when it is well-formed and without U+FFFD |
| Utf8.SequencesAreScalars | src/command.rs:106-126 | the byte ranges are exactly the encodings of Unicode scalar values |
| Utf8.SubpartIsMaximal | src/command.rs:106-126 | each replacement stands for as much as could still have become one sequence, and no more |
| TreeHash.ListingDecodes | src/execution.rs:1477-1482 | splitting the decoded listing gives each path decoded: decoding never disturbs the NULs between them |
| TreeHash.FingerprintCovers | src/execution.rs:1446-1515 | for any trees and any hash without a collision between what the two fingerprints hash, equal fingerprints exactly when the decoded answers and the lookups at decoded paths are the same |
| TreeHash.IdentifiedExactly | src/execution.rs:1446-1515 | short of a collision with it, a tree shares its fingerprint with no other if and only if every answer of git about it is well-formed UTF-8 without U+FFFD |
| TreeHash.LatinNameHidesContents | src/execution.rs:1483-1494 | two trees that differ in the contents of an untracked file with a Latin-1 name have the same fingerprint |
| TreeHash.SortedSorts | src/execution.rs:1477-1482 | sorting gives an ascending rearrangement |
| TreeHash.Digest.AppendField | src/execution.rs:1447-1452 | one field appended to the digest's input |
| TreeHash.Digest.AppendUntracked | src/execution.rs:1483-1494 | the loop over the untracked paths, each looked up at its decoded path |
| TreeHash.Fingerprint | src/execution.rs:1446-1515 | from git's own output, decoding, splitting, sorting and the loops over files and lock files feed the digest exactly the specified fields |
| Gates.FingerprintsAreCollisionFree | src/execution.rs:1446-1515 | over any trees git describes in UTF-8 and the hash tells apart, the source's fingerprints are collision-free, as the cache theorem assumes, exactly when no two of the trees look the same to git |
| Gates.SomeTreesAreDescribed | src/execution.rs:1446-1515 | two repositories and a hash that meet those hypotheses |
| Gates.RunGatesEarned | src/execution.rs:1379-1381 | the cache only ever learns gates that passed on their tree |
| Gates.CachedIsUncached | src/execution.rs:1260-1444 | with any earned cache, skipping finds the same failures and leaves the same tree |
| Gates.CacheIsTransparentExactly | src/execution.rs:1293-1307 | the cache is invisible if and only if passing gates leave the tree as it was |
| Gates.SkippedFormatterFailsTheLinter | src/execution.rs:1293-1307 | a concrete history: the second round skips a formatter that passed, and the linter fails where a full run would not |
| Gates.LatinNameSkipsAGate | src/execution.rs:1293-1307 | a gate that passed on one tree is skipped on another that differs in a file whose name is not UTF-8, where it would fail |
| Gates.SkippingIsSoundExactly | src/execution.rs:1293-1307 | skipping at a tree is sound, in every world whose passing gates keep the tree and with every cache earned, if and only if no tree met has its fingerprint but those no gate tells apart |
| Gates.SourceSkipsSoundlyExactly | src/execution.rs:1293-1515 | with the source's own fingerprint, and short of a collision: if and only if git's answers about the tree are UTF-8 without U+FFFD |
| Gates.EveryRoundIsUncached | src/execution.rs:1184-1190 | over all repair rounds, whatever the repairs edit |
| Gates.FailuresExactly | src/execution.rs:1260-1444 | running every gate reports exactly the required gates that fail on the trees they meet, in order, and leaves the last tree |
| Gates.RunQualityGates | src/execution.rs:1260-1444 | the gate loop refines its specification |
| Events.FindEventByClientSequence | src/api.rs:596-618 | the paged search is a linear search of the first 10,000 events after the cursor, absent reported only up to 9,500, otherwise an error |
| Events.SearchedExactly | src/api.rs:590-618 | found exactly when among the first 10,000 after the cursor, absent exactly when no event after the cursor is it and at most 9,500 follow |
| Events.AbsenceNotReported | src/api.rs:596-618 | a log of 9,501 events without the one looked for, on which the search gives up instead of reporting it absent |
| Events.PublishEventOnce | src/reporting.rs:219-247 | a publish, however ambiguous and whatever lands meanwhile, leaves at most one entry; a successful one exactly one, with its content, beyond the cursor |
| Events.LateRequestsAddNothing | src/reporting.rs:219-247 | requests that land at any later time leave at most that one entry, with its content, where it was |
| Events.PublishSucceedsExactly | src/reporting.rs:219-247 | when a publish succeeds; a second request is made exactly when the event was absent, and neither it nor a search on a lost lease |
| Events.EmittedExactly | src/reporting.rs:249-276 | one event: its number is used up, it is sent unless strict and unsaved, and what the journal then holds |
| Events.EveryLogIsLegal | src/api.rs:564-581 | in every history, with or without checkpoints, the log has at most one entry for a client sequence, and of an event that was issued |
| Events.EventsAreNotConfused | src/reporting.rs:258-276 | over all runs, failed checkpoints, requests landing at any later time, changes of journal and crashes in which the journal has caught up at every start: no client sequence is used for two events, the log holds only issued events, and server sequences only increase |
| Events.StartIsSafeExactly | src/reporting.rs:258-276 | coming up is safe, whatever follows until the next start, if and only if the journal knows every client sequence issued so far |
| Events.MadeUpCheckpointIsCaughtUp | src/reporting.rs:267-273 | a failed checkpoint that a later save makes up before the crash is harmless |
| Events.EmittedOnce | src/reporting.rs:387-401 | under the same condition each event reported published has exactly one entry, and the cursor moves up to its sequence |
| Events.UnsavedStepSwallowsAnEvent | src/reporting.rs:267-273 | a concrete run: a step whose checkpoint failed, a crash, and the next event swallowed |
| Events.OtherJournalSwallowsAnEvent | src/runner.rs:643-669 | a concrete run: a failed preparation reports under a journal of its own, the run then adopts another, and its first event is swallowed |
| Events.Reporter.PublishRunEvent | src/reporting.rs:219-239 | the publishing method refines its specification |
| Events.Reporter.EmitEvent | src/reporting.rs:249-276 | numbering, checkpointing, publishing and moving the cursor, likewise |
| Scheduler.SelectionIsMaximal | src/runner.rs:1522-1535 | a selection has the size of the smaller of slots and distinct eligible tickets, one eligible run each |
| Scheduler.SelectionKeepsOrder | src/runner.rs:1522-1535 | it keeps the server's order and takes each ticket's first eligible run |
| Scheduler.SelectUnstartedAssignments | src/runner.rs:1522-1535 | the selecting loop refines its specification |
| Scheduler.ReapKeeps | src/runner.rs:1388-1398 | reaping with swap_remove removes exactly the finished tasks |
| Scheduler.WatchIsSafe | src/runner.rs:1344-1484 | over every run of the loop: within capacity, one task a ticket, and each task one of the spawned runs |
| Scheduler.DrainedSpawnsNothing | src/runner.rs:1387-1436 | the drain flag stays set, so nothing is spawned from the first pass that sees it to the end of the run |
| Scheduler.PassExactly | src/runner.rs:1387-1490 | one pass: when it is the last, which tasks are left, and that it starts as many offered runs, one a ticket, as the unfinished tasks leave places and tickets |
| Scheduler.SpawnedExactly | src/runner.rs:1436-1484 | each run whose ticket is fetched gets a task of its own, in order, and what there was stays |
| Scheduler.RunsSpawnOnce | src/runner.rs:1344-1484 | no run is spawned twice when each answer gives an id one ticket |
| Scheduler.SelectsOnceExactly | src/runner.rs:1522-1535 | selections from one answer never repeat a run, for every started set, busy set and slot count, if and only if the answer gives each id one ticket |
| Scheduler.TwoTicketsSpawnTwice | src/runner.rs:1522-1535 | an answer that lists an id under two tickets starts it twice |
| Scheduler.Watcher.ReapFinished | src/runner.rs:1388-1398 | the in-place reaping loop refines its specification |
| Scheduler.Watcher.SpawnAll | src/runner.rs:1436-1484 | likewise for starting what was selected |
| Scheduler.Watcher.Poll | src/runner.rs:1387-1484 | likewise for a whole pass |
| Redaction.EveryMarkerIsMasked | src/error.rs:439-454 | in the result every marker is followed by the mask and then a delimiter or the end |
| Redaction.PassKeeps | src/error.rs:440-452 | a later pass never undoes an earlier one |
| Redaction.PassMasks | src/error.rs:442-452 | a pass masks every occurrence of its marker |
| Redaction.RedactionIsIdempotent | src/error.rs:439-454 | redacting twice is redacting once |
| Redaction.NothingToRedact | src/error.rs:439-454 | a message without markers is left alone |
| Redaction.PassChangesOnlyValues | src/error.rs:440-452 | one pass changes whole values after its marker to the mask and keeps every other character in its place |
| Redaction.AsciiDelimiters | src/error.rs:445-449 | where a value ends in ASCII text |
| Redaction.RedactMarker | src/error.rs:441-452 | the in-place loop of one pass ends, because what is left to scan shrinks, and refines its specification |
| Redaction.RedactDiagnostic | src/error.rs:439-454 | the four passes together |
| Capacity.PrintedSizeReadsBack | src/config.rs:269-290 | a printed memory size reads back as itself exactly when it is a positive whole number of mebibytes |
| Capacity.SizesAreRead | src/config.rs:269-290 | every number, unit, case and surrounding white space: the product when the unit exists, the number is positive and it fits |
| Capacity.AcceptedPlanValidatesExactly | src/setup.rs:201-223 | an accepted plan passes both validations after printing and parsing, exactly when the host has a mebibyte and the jobs' CPUs fit 256 |
| Capacity.CapacityFieldSuffices | src/setup.rs:208-217 | which hosts and job counts meet that, among them all with at most 256 CPUs or at most 64 jobs |
| Capacity.RecommendationValidatesExactly | src/setup.rs:189-199 | the recommendation never exceeds the maximum, and validates exactly up to 64 jobs |
| Capacity.ConcurrencyIsTheMost | src/setup.rs:189-199 | the recommendation is the most jobs up to 100 that all have four CPUs and eight gibibytes, the maximum the most that have one of each; one at least |
| Capacity.PlanIsTheMost | src/setup.rs:201-219 | a plan exists for every number up to the maximum, and gives each job as much as the host has for all of them, up to the targets |
| Capacity.ValidationBounds | src/config.rs:164-220 | the bounds of both validations |
| Capacity.LargeHostIsRefused | src/setup.rs:189-223 | such a host: on 512 CPUs and a tebibyte the recommended 100 jobs of four CPUs exceed the 256 CPUs the plan can offer |

## Left out

- HTTP, retries, sleeps, login, keychain, prompts, processes and signals: only what each step gets back from them.
- The texts of messages, prompts and reports, and the JSON they travel in.
- Git itself: a commit is its parents, one change and a salt; a merge carries no change of its own; a replayed change already present is dropped, as a rebase drops commits that become empty.
- Agent sessions and gates leave the local branch where it is; only the worker commits.
- The abort of a conflicting rebase is taken to restore the branch.
- Publication.EveryMoveIsGuarded: says nothing about remote protocols beyond compare-and-swap pushes and forward-only plain pushes.
- Timestamps: a release build would wrap where the model says Overflow; a checked build stops there.
- LineReader: the lossy UTF-8 decoding of finished lines, and streams of 2^64 bytes.
- Supervisor: threads and atomics appear as one pass after another, with the clock readings as inputs.
- Telemetry: narration characters, snapshots and the timing fields of events; events dropped when the channel is full.
- Batcher: the outbox files and their replay; delivery itself always ends.
- Usage: the rounding of f64 ratios; thresholds are exact tenths.
- Sessions: dependency bootstrap, feedback parsing, completion evidence parsing and the architecture check appear as outcomes; opening and attaching the pull request, and API calls beside those modelled, are taken to succeed.
- Architecture: validation of contracts, the order of boundary ids in a request, and the wording of escalations.
- Journal: serialization, schema versions and the scan for the one workspace to adopt; one journal file, with one worker at a time, as the process lock has it (a second journal of the same run is in `Events`).
- Gates: the reuse of installed dependencies, transient retries (part of a gate's one verdict) and gate reports.
- TreeHash: the hash is any function; theorems that compare fingerprints say which inputs it must not collide on. Files that are not regular are not told apart from missing ones; the remote's address and the head stand for git's answers as trimmed.
- Events: the server keeps its contract of pages of 500 and one entry per idempotency key; the log does not grow while it is being paged.
- Scheduler: queue events, heartbeats' delays and process locks; a thread is finished or not when it is looked at.
- Capacity: everything in the configuration that a plan does not decide.
- `parse_porcelain_z`, the GitHub token cache, outcome tables, keyword classifiers, manifest and URL checks: small or finite facts.
