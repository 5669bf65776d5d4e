/**
 The session bound is reached: a run whose every prompt needs all its restarts, whose every
 gate run needs both its repairs, and whose every publication meets other writers on all
 three passes uses all 220 sessions, and succeeds.
 */
module SessionBound {
  import opened Common
  import opened CommitGraph
  import opened Publication
  import Bracketing
  import opened Sessions

  // ---------------------------------------------------------------- a publication that needs every pass

  predicate Below(c: Commit, x: Patch) { forall p :: p in Patches(c) ==> p < x }

  lemma FreshChild(c: Commit, x: Patch)
    requires Below(c, x)
    ensures var child := Child(c, x);
      && Below(child, x + 1) && IsAncestor(c, child) && !IsAncestor(child, c)
      && History(child) == History(c) + {child} && Patches(child) == Patches(c) + {x}
  {
    hide History;
    var child := Child(c, x);
    ChildHistory(c, x);
    SelfAncestor(c);
    SelfAncestor(child);
    if IsAncestor(child, c) {
      AncestorPatches(child, c);
      assert false;
    }
  }

  lemma SharedIsMergeBase(a: Commit, c: Commit)
    requires IsAncestor(a, c)
    ensures IsMergeBase(Some(a), c, a) && IsMergeBase(Some(a), a, c)
  {
    hide History;
    AncestorIsMergeBase(c, a);
    assert History(a) * History(c) == History(c) * History(a);
  }

  /** Another writer's `remote` is fast-forwarded to; two more writers arrive around the push. */
  function Overtaken(commit: Commit, remote: Commit, base: Commit, x: Patch): Script {
    var next := Child(remote, x);
    Script(
      BranchAnswers(Some(remote), Some(remote), true, Some(commit), None), GatesPass, Some(next),
      BaseAnswers(Some(base), Some(base), None), GatesPass,
      PushAnswers(Some(next), Some(next), true, true, Some(Child(next, x + 1))))
  }

  lemma OvertakenPass(commit: Commit, remote: Commit, base: Commit, x: Patch)
    requires IsAncestor(base, commit) && IsAncestor(commit, remote) && !IsAncestor(remote, commit) && Below(remote, x)
    ensures var l := Local(commit, commit);
      var s := Overtaken(commit, remote, base, x);
      && Honest(l, s) && Validations(l, s) == [GatesPass]
      && Attempt(l, s) == Attempted(Local(remote, remote), false, 1, Failed(BranchMoved), None, false)
  {
    hide History, Patches, Enumerates, IsMergeBase, ReplayOnto;
    var l, s := Local(commit, commit), Overtaken(commit, remote, base, x);
    var next := Child(remote, x);
    FreshChild(remote, x);
    FreshChild(next, x + 1);
    SharedIsMergeBase(commit, remote);
    AncestryTransitive(base, commit, remote);
    SharedIsMergeBase(base, remote);
    SelfAncestor(commit);
    SelfAncestor(remote);
    assert next != Child(next, x + 1);
    assert Reconcile(l, s.branch) == Done(Reconciled(remote, RemoteAdvanced));
    assert BranchStage(l, s) == Stage(Local(remote, remote), RemoteAdvanced, None);
    assert BaseStage(Local(remote, remote), s) == Stage(Local(remote, remote), Unchanged, None);
  }

  /** The last pass: the branch and the base have both moved, and nobody comes in between. */
  function Settled(commit: Commit, parent: Commit, change: Patch, x: Patch): Script {
    var remote, base := Child(parent, change), Child(parent, x);
    Script(
      BranchAnswers(Some(remote), Some(remote), true, Some(commit), None), GatesPass, Some(remote),
      BaseAnswers(Some(base), Some(parent), Some([Pick(remote, 0)])), GatesPass,
      PushAnswers(Some(remote), Some(remote), true, true, Some(Child(base, change))))
  }

  lemma SettledPass(commit: Commit, parent: Commit, change: Patch, x: Patch)
    requires IsAncestor(commit, parent) && Below(parent, change) && change < x
    ensures var l := Local(commit, commit);
      var s := Settled(commit, parent, change, x);
      var published := Child(Child(parent, x), change);
      && Honest(l, s) && Validations(l, s) == [GatesPass, GatesPass]
      && Attempt(l, s).local == Local(published, published) && Attempt(l, s).outcome == Done(true)
      && IsAncestor(Child(parent, x), published) && Below(published, x + 1)
  {
    hide History, Patches, Enumerates, IsMergeBase, ReplayOnto;
    var l, s := Local(commit, commit), Settled(commit, parent, change, x);
    var remote, base := Child(parent, change), Child(parent, x);
    var published := Child(base, change);
    FreshChild(parent, change);
    FreshChild(parent, x);
    ChildHistory(base, change);
    SelfAncestor(base);
    AncestryTransitive(commit, parent, remote);
    NotBelow(commit, parent, remote);
    SharedIsMergeBase(commit, remote);
    SiblingsDiffer(parent, change, x);
    ParentIsMergeBase(remote, base);
    LastCommitEnumerated(remote, 0);
    ReplayOne(base, Pick(remote, 0));
    assert Reconcile(l, s.branch) == Done(Reconciled(remote, RemoteAdvanced));
    assert BranchStage(l, s) == Stage(Local(remote, remote), RemoteAdvanced, None);
    assert RebaseOntoBase(Local(remote, remote), s.base) == Done(Reconciled(published, Rebased));
    assert BaseStage(Local(remote, remote), s) == Stage(Local(published, published), Rebased, None);
  }

  lemma NotBelow(a: Commit, b: Commit, c: Commit)
    requires IsAncestor(a, b) && !IsAncestor(c, b)
    ensures !IsAncestor(c, a)
  {
    if IsAncestor(c, a) {
      AncestryTransitive(c, a, b);
    }
  }

  lemma SiblingsDiffer(parent: Commit, change: Patch, x: Patch)
    requires Below(parent, change) && change < x
    ensures !IsAncestor(Child(parent, change), Child(parent, x)) && !IsAncestor(Child(parent, x), Child(parent, change))
    ensures IsAncestor(parent, Child(parent, x)) && change !in Patches(Child(parent, x))
  {
    hide History, Patches;
    FreshChild(parent, change);
    FreshChild(parent, x);
  }

  function Contended(commit: Commit, base: Commit, x: Patch): (scripts: seq<Script>)
    ensures |scripts| == ATTEMPTS
  {
    var first, second := First(commit, x), Second(commit, x);
    [Overtaken(commit, first, base, x + 1), Overtaken(first, second, base, x + 3),
     Settled(second, Child(second, x + 3), x + 4, x + 5)]
  }

  /** What it publishes, on top of `NextBase`. */
  function NextBase(commit: Commit, x: Patch): Commit {
    Child(Child(Second(commit, x), x + 3), x + 5)
  }

  function Published(commit: Commit, x: Patch): Commit { Child(NextBase(commit, x), x + 4) }

  function First(commit: Commit, x: Patch): Commit { Child(commit, x) }

  function Second(commit: Commit, x: Patch): Commit { Child(Child(First(commit, x), x + 1), x + 2) }

  lemma ChainAncestry(commit: Commit, base: Commit, x: Patch)
    requires IsAncestor(base, commit) && Below(commit, x)
    ensures var first, second := First(commit, x), Second(commit, x);
      && IsAncestor(commit, first) && !IsAncestor(first, commit) && IsAncestor(base, first) && Below(first, x + 1)
      && IsAncestor(first, second) && !IsAncestor(second, first) && Below(second, x + 3)
      && IsAncestor(second, Child(second, x + 3)) && Below(Child(second, x + 3), x + 4)
  {
    hide IsAncestor, Below;
    var first, second := First(commit, x), Second(commit, x);
    var between := Child(first, x + 1);
    FreshChild(commit, x);
    FreshChild(first, x + 1);
    FreshChild(between, x + 2);
    FreshChild(second, x + 3);
    AncestryTransitive(base, commit, first);
    AncestryTransitive(first, between, second);
    NotBelow(first, between, second);
  }

  /** Three passes: two overtaken, and a third that publishes. */
  lemma ThreeRounds(l: Local, scripts: seq<Script>, second: Local, third: Local)
    requires |scripts| == ATTEMPTS
    requires Attempt(l, scripts[0]) == Attempted(second, false, 1, Failed(BranchMoved), None, false)
    requires Attempt(second, scripts[1]) == Attempted(third, false, 1, Failed(BranchMoved), None, false)
    requires Attempt(third, scripts[2]).outcome == Done(true)
    ensures Rounds(l, scripts, 0) == Progress(l, 0, [], 0, None)
    ensures Rounds(l, scripts, 1) == Progress(second, 1, [], 1, None)
    ensures Rounds(l, scripts, 2) == Progress(third, 2, [], 2, None)
    ensures var p := Rounds(l, scripts, 3);
      p.passes == 3 && p.outcome == Some(Done(true)) && p.local == Attempt(third, scripts[2]).local
  {
    hide Attempt;
    assert Rounds(l, scripts, 0) == Progress(l, 0, [], 0, None);
    assert Rounds(l, scripts, 1) == Progress(second, 1, [], 1, None);
    assert Rounds(l, scripts, 2) == Progress(third, 2, [], 2, None);
  }

  lemma ThreeValidations(l: Local, scripts: seq<Script>)
    requires |scripts| == ATTEMPTS && Rounds(l, scripts, 1).outcome.None? && Rounds(l, scripts, 2).outcome.None?
    ensures AllValidations(l, scripts, 3)
      == Validations(Rounds(l, scripts, 0).local, scripts[0]) + Validations(Rounds(l, scripts, 1).local, scripts[1])
         + Validations(Rounds(l, scripts, 2).local, scripts[2])
  {
    hide Attempt, Validations;
    assert AllValidations(l, scripts, 0) == [];
    assert AllValidations(l, scripts, 1) == [] + Validations(Rounds(l, scripts, 0).local, scripts[0]);
    assert AllValidations(l, scripts, 2) == AllValidations(l, scripts, 1) + Validations(Rounds(l, scripts, 1).local, scripts[1]);
  }

  lemma ContendedPublication(commit: Commit, base: Commit, x: Patch)
    requires IsAncestor(base, commit) && Below(commit, x)
    ensures var l := Local(commit, commit);
      var scripts := Contended(commit, base, x);
      var p := Rounds(l, scripts, ATTEMPTS);
      && AllHonest(l, scripts) && p.passes == ATTEMPTS && p.outcome == Some(Done(true))
      && p.local == Local(Published(commit, x), Published(commit, x))
      && AllValidations(l, scripts, ATTEMPTS) == [GatesPass, GatesPass, GatesPass, GatesPass]
      && IsAncestor(NextBase(commit, x), Published(commit, x)) && Below(Published(commit, x), x + 6)
  {
    hide IsAncestor, Below, Attempt, Honest, Overtaken, Settled, Validations, Rounds, AllValidations;
    var l, scripts := Local(commit, commit), Contended(commit, base, x);
    var first, second := First(commit, x), Second(commit, x);
    ChainAncestry(commit, base, x);
    OvertakenPass(commit, first, base, x + 1);
    OvertakenPass(first, second, base, x + 3);
    SettledPass(second, Child(second, x + 3), x + 4, x + 5);
    ThreeRounds(l, scripts, Local(first, first), Local(second, second));
    ThreeValidations(l, scripts);
  }

  // ---------------------------------------------------------------- a run that uses every session

  const SLOW_PROMPT := PromptScript(SLOW_SESSIONS, true)

  const SLOW_GATES: seq<GateRound> := [GateRound(1, SLOW_PROMPT), GateRound(1, SLOW_PROMPT), GateRound(0, SLOW_PROMPT)]

  lemma SlowGates()
    ensures Enough(SLOW_PROMPT) && PromptSucceeds(SLOW_PROMPT) && PromptUses(SLOW_PROMPT) == PROMPT_SESSIONS
    ensures GateScript(SLOW_GATES) && GatesSucceed(SLOW_GATES) && GatesUse(SLOW_GATES) == GATE_SESSIONS
  {
    hide AfterSessions;
    FiveSessionsMayBeUsed();
    assert GatesPassAt(SLOW_GATES, 2);
    assert RepairsUse(SLOW_GATES, 1) == PROMPT_SESSIONS;
    assert RepairsUse(SLOW_GATES, 2) == GATE_SESSIONS;
    assert GatesUseFrom(SLOW_GATES, 2) == GATE_SESSIONS;
    assert GatesUseFrom(SLOW_GATES, 1) == GATE_SESSIONS;
  }

  /** A patch number no commit before the `k`th publication uses. */
  function Fresh(k: nat): Patch { 2 + 7 * k }

  /** The commit of the `k`th publication: the agent's, then one repair on top of each publication. */
  function CommitAt(k: nat): Commit {
    if k == 0 then Child(ROOT, 1) else Child(Published(CommitAt(k - 1), Fresh(k - 1)), Fresh(k) - 1)
  }

  function BaseAt(k: nat): Commit { if k == 0 then ROOT else NextBase(CommitAt(k - 1), Fresh(k - 1)) }

  lemma {:induction false} CommitsAreFresh(k: nat)
    ensures IsAncestor(BaseAt(k), CommitAt(k)) && Below(CommitAt(k), Fresh(k))
  {
    hide History, Rounds, AllValidations, Attempt, Patches;
    if k == 0 {
      SmallHistories();
    } else {
      CommitsAreFresh(k - 1);
      var commit, x := CommitAt(k - 1), Fresh(k - 1);
      ContendedPublication(commit, BaseAt(k - 1), x);
      FreshChild(Published(commit, x), x + 6);
      AncestryTransitive(NextBase(commit, x), Published(commit, x), CommitAt(k));
    }
  }

  function PublicationAt(k: nat): PublicationScript {
    PublicationScript(Local(CommitAt(k), CommitAt(k)), Contended(CommitAt(k), BaseAt(k), Fresh(k)),
                      [SLOW_GATES, SLOW_GATES, SLOW_GATES, SLOW_GATES])
  }

  /** Four validations, every one passed with all its repairs. */
  lemma FourValidations(p: PublicationScript)
    requires |p.attempts| == ATTEMPTS && Sessions.Progress(p).outcome == Some(Done(true))
    requires AllValidations(p.start, p.attempts, ATTEMPTS) == [GatesPass, GatesPass, GatesPass, GatesPass]
    requires p.gates == [SLOW_GATES, SLOW_GATES, SLOW_GATES, SLOW_GATES]
    ensures PublicationFits(p) && PublicationSucceeds(p) && PublicationUses(p) == PUBLICATION_SESSIONS
  {
    hide GateScript, GatesSucceed, GatesUse, Rounds, AllValidations, SLOW_GATES;
    SlowGates();
    forall i | 0 <= i < 4 ensures p.gates[i] == SLOW_GATES {
    }
    assert AllGatesUse(p.gates, 0) == 0;
    assert AllGatesUse(p.gates, 1) == GATE_SESSIONS;
    assert AllGatesUse(p.gates, 2) == 2 * GATE_SESSIONS;
    assert AllGatesUse(p.gates, 3) == 3 * GATE_SESSIONS;
  }

  lemma SlowPublication(k: nat)
    ensures var p := PublicationAt(k);
      && PublicationFits(p) && PublicationSucceeds(p) && PublicationUses(p) == PUBLICATION_SESSIONS
      && AllHonest(p.start, p.attempts)
      && CommitAt(k + 1).parents == [Sessions.Progress(p).local.head]
  {
    hide GateScript, GatesSucceed, GatesUse, Rounds, AllValidations, AllHonest, Below, IsAncestor, Contended,
         PublicationFits, PublicationUses, PublicationSucceeds;
    CommitsAreFresh(k);
    ContendedPublication(CommitAt(k), BaseAt(k), Fresh(k));
    FourValidations(PublicationAt(k));
  }

  function SlowRound(k: nat): CiRound {
    CiRound(k == CI_REPAIR_ATTEMPTS, true, SLOW_PROMPT, SLOW_GATES, true, PublicationAt(k + 1))
  }

  const SLOW_RUN := RunScript(false, SLOW_PROMPT, SLOW_GATES, true, PublicationAt(0), true,
                              [SlowRound(0), SlowRound(1), SlowRound(2), SlowRound(3)])

  lemma SlowRoundUses(k: nat)
    ensures RoundFits(SlowRound(k)) && RepairSucceeds(SlowRound(k)) && RepairUses(SlowRound(k)) == REPAIR_SESSIONS
  {
    hide GateScript, GatesSucceed, GatesUse, PublicationFits, PublicationUses, PublicationSucceeds, PromptSucceeds, PromptUses,
         PublicationAt;
    SlowGates();
    SlowPublication(k + 1);
  }

  /** A publication with honest answers, of a commit on top of what the one before it published. */
  ghost predicate Continues(before: PublicationScript, after: PublicationScript) {
    && |before.attempts| == ATTEMPTS
    && after.start.head == after.start.commit
    && after.start.commit.parents == [Sessions.Progress(before).local.head]
    && AllHonest(after.start, after.attempts)
  }

  /** The publications of a run follow one another in one repository, and git is honest throughout. */
  ghost predicate Consistent(r: RunScript) {
    && AllHonest(r.publication.start, r.publication.attempts)
    && forall k :: 0 <= k < |r.ci| ==>
         Continues(if k == 0 then r.publication else r.ci[k - 1].publication, r.ci[k].publication)
  }

  /** The bound on a run's sessions is reached, by a run that publishes and passes its required workflows. */
  lemma SessionBoundIsReached()
    ensures RunFits(SLOW_RUN) && HasCommit(SLOW_RUN) && PublicationSucceeds(SLOW_RUN.publication)
    ensures forall k :: 0 <= k < |SLOW_RUN.ci| ==> (CiPassesAt(SLOW_RUN.ci, k) <==> k == CI_REPAIR_ATTEMPTS)
    ensures RunUses(SLOW_RUN, CI_REPAIR_ATTEMPTS) == RUN_SESSIONS == 220
    ensures Consistent(SLOW_RUN)
  {
    hide Consistent, RoundFits, RepairSucceeds, RepairUses, PublicationSucceeds, PublicationUses, GateScript, GatesUse,
         GatesSucceed, PromptSucceeds, PromptUses, PublicationFits, PublicationAt, SLOW_RUN, CiUses;
    SlowGates();
    SlowPublication(0);
    SlowRunParts();
    ThreeRepairs(SLOW_RUN.ci);
    SlowRunIsConsistent();
  }

  lemma {:induction false} ThreeRepairs(ci: seq<CiRound>)
    requires |ci| == 4 && forall k :: 0 <= k < 4 ==> ci[k] == SlowRound(k)
    ensures CiFits(ci) && CiUses(ci, CI_REPAIR_ATTEMPTS) == CI_REPAIR_ATTEMPTS * REPAIR_SESSIONS
    ensures forall k :: 0 <= k < |ci| ==> (CiPassesAt(ci, k) <==> k == CI_REPAIR_ATTEMPTS)
  {
    hide RoundFits, RepairSucceeds, RepairUses, PublicationAt;
    forall k | 0 <= k < 4 ensures RoundFits(ci[k]) && RepairSucceeds(ci[k]) && RepairUses(ci[k]) == REPAIR_SESSIONS {
      SlowRoundUses(k);
    }
    assert CiUses(ci, 0) == 0;
    assert CiUses(ci, 1) == REPAIR_SESSIONS;
    assert CiUses(ci, 2) == 2 * REPAIR_SESSIONS;
  }

  lemma SlowRunContinues(k: nat)
    ensures Continues(PublicationAt(k), PublicationAt(k + 1))
  {
    hide GateScript, GatesSucceed, CommitAt, AllHonest, Rounds, AllValidations, Contended;
    SlowPublication(k);
    SlowPublication(k + 1);
  }

  lemma SlowRunIsConsistent()
    ensures Consistent(SLOW_RUN)
  {
    hide PublicationAt, CommitAt, AllHonest, Continues, SLOW_RUN;
    SlowRunParts();
    SlowPublication(0);
    assert AllHonest(PublicationAt(0).start, PublicationAt(0).attempts);
    forall k | 0 <= k < 4 ensures Continues(PublicationAt(k), PublicationAt(k + 1)) {
      SlowRunContinues(k);
    }
  }

  lemma SlowRunParts()
    ensures SLOW_RUN.publication == PublicationAt(0) && |SLOW_RUN.ci| == 4
    ensures !SLOW_RUN.recovered && SLOW_RUN.hasPaths && SLOW_RUN.prompt == SLOW_PROMPT && SLOW_RUN.gates == SLOW_GATES
    ensures forall k :: 0 <= k < 4 ==> SLOW_RUN.ci[k] == SlowRound(k) && SLOW_RUN.ci[k].publication == PublicationAt(k + 1)
  {
    hide PublicationAt;
  }
}
