/**
 Publishing a commit (git.rs and `publish_commit` in runner.rs): reconcile with the remote
 branch, rebase onto the remote base, push. Other writers may move the remote branch
 between any two of this worker's remote operations, so each operation meets a head of
 its own, given by the attempt's script.
 */
module Publication {
  import opened Common
  import opened CommitGraph

  const ATTEMPTS: nat := 3

  datatype Failure =
    | FetchFailed | MovedDuringFetch | HeadMismatch | FastForwardRefused | NotSingleParent
    | Unrelated | Conflict | NothingToPublish | GatesFailed | BranchMoved | PushRejected

  datatype Outcome<+T> = Done(value: T) | Failed(failure: Failure)

  datatype Kind = Unchanged | RemoteAdvanced | Rebased

  datatype Reconciled = Reconciled(commit: Commit, kind: Kind)

  /** The local branch, and the commit the run is publishing. */
  datatype Local = Local(head: Commit, commit: Commit)

  // ---------------------------------------------------------------- what an attempt meets

  /** `listed` is what `ls-remote` read; a rebase without an answer conflicted and was aborted. */
  datatype BranchAnswers = BranchAnswers(
    listed: Option<Commit>, fetched: Option<Commit>, fastForwards: bool,
    mergeBase: Option<Commit>, replay: Option<seq<Pick>>)

  datatype BaseAnswers = BaseAnswers(fetched: Option<Commit>, mergeBase: Option<Commit>, replay: Option<seq<Pick>>)

  /** The gates after a reconciliation, and the commit their repairs needed, if any. */
  datatype Validation = GatesFail | GatesPass | GatesRepaired(patch: Patch, salt: nat)

  /** `at` is the remote head when the server took the push up; the client may miss its answer. */
  datatype PushAnswers = PushAnswers(
    before: Option<Commit>, at: Option<Commit>, delivered: bool, acknowledged: bool, after: Option<Commit>)

  datatype Script = Script(
    branch: BranchAnswers, first: Validation, lease: Option<Commit>,
    base: BaseAnswers, second: Validation, push: PushAnswers)

  /** This worker moved the remote head, under a lease or only forward. */
  datatype Move = Move(attempt: nat, from: Option<Commit>, to: Commit, lease: Option<Commit>)

  // ---------------------------------------------------------------- the steps

  function Reconcile(l: Local, g: BranchAnswers): Outcome<Reconciled> {
    match g.listed
    case None => Done(Reconciled(l.commit, Unchanged))
    case Some(remote) =>
      if remote == l.commit then Done(Reconciled(l.commit, Unchanged))
      else if g.fetched.None? then Failed(FetchFailed)
      else if g.fetched.value != remote then Failed(MovedDuringFetch)
      else if IsAncestor(remote, l.commit) then Done(Reconciled(l.commit, Unchanged))
      else if l.head != l.commit then Failed(HeadMismatch)
      else if IsAncestor(l.commit, remote) then
        if g.fastForwards then Done(Reconciled(remote, RemoteAdvanced)) else Failed(FastForwardRefused)
      else if |l.commit.parents| != 1 then Failed(NotSingleParent)
      else if g.mergeBase.None? then Failed(Unrelated)
      else
        match g.replay
        case None => Failed(Conflict)
        case Some(picks) => Done(Reconciled(ReplayOnto(g.fetched.value, picks), Rebased))
  }

  function RebaseOntoBase(l: Local, g: BaseAnswers): Outcome<Reconciled> {
    if l.head != l.commit then Failed(HeadMismatch)
    else
      match g.fetched
      case None => Failed(FetchFailed)
      case Some(base) =>
        if IsAncestor(base, l.commit) then Done(Reconciled(l.commit, Unchanged))
        else if g.mergeBase.None? then Failed(Unrelated)
        else if g.mergeBase.value == l.commit then Failed(NothingToPublish)
        else
          match g.replay
          case None => Failed(Conflict)
          case Some(picks) => Done(Reconciled(ReplayOnto(base, picks), Rebased))
  }

  /** A fast-forward or a rebase leaves the local branch at its result. */
  function HeadAfter(l: Local, r: Outcome<Reconciled>): Commit {
    if r.Done? && r.value.kind != Unchanged then r.value.commit else l.head
  }

  datatype Stage = Stage(local: Local, kind: Kind, failure: Option<Failure>)

  /** `validate_reconciled_commit`: adopt the commit, run the gates, commit their repairs. */
  function Validate(l: Local, r: Reconciled, gates: Validation): Stage {
    if r.kind == Unchanged then Stage(l, Unchanged, None)
    else
      match gates
      case GatesFail => Stage(Local(l.head, r.commit), r.kind, Some(GatesFailed))
      case GatesPass => Stage(Local(l.head, r.commit), r.kind, None)
      case GatesRepaired(patch, salt) =>
        var repair := Commit([l.head], patch, salt);
        Stage(Local(repair, repair), r.kind, None)
  }

  function Adopt(l: Local, r: Outcome<Reconciled>, gates: Validation): Stage {
    match r
    case Failed(failure) => Stage(l, Unchanged, Some(failure))
    case Done(reconciled) => Validate(Local(HeadAfter(l, r), l.commit), reconciled, gates)
  }

  function BranchStage(l: Local, s: Script): Stage { Adopt(l, Reconcile(l, s.branch), s.first) }

  function BaseStage(l: Local, s: Script): Stage { Adopt(l, RebaseOntoBase(l, s.base), s.second) }

  /** The remote applies a plain push only forward, a forced one only over its lease. */
  predicate RemoteAccepts(at: Option<Commit>, head: Commit, lease: Option<Commit>) {
    if lease.Some? then at == lease || at == Some(head)
    else at.None? || IsAncestor(at.value, head)
  }

  datatype Pushed = Pushed(outcome: Outcome<bool>, moved: bool)

  function PushWithLease(l: Local, lease: Option<Commit>, g: PushAnswers): Pushed {
    if g.before == Some(l.commit) then Pushed(Done(false), false)
    else if lease.Some? && g.before != lease then Pushed(Failed(BranchMoved), false)
    else
      var applied := g.delivered && RemoteAccepts(g.at, l.head, lease);
      var moved := applied && g.at != Some(l.head);
      if !(applied && g.acknowledged) then
        Pushed(Failed(if g.after != g.before then BranchMoved else PushRejected), moved)
      else if g.after != Some(l.commit) then Pushed(Failed(BranchMoved), moved)
      else Pushed(Done(true), moved)
  }

  datatype Attempted = Attempted(
    local: Local, baseChanged: bool, gateRuns: nat, outcome: Outcome<bool>, lease: Option<Commit>, moved: bool)

  function GateRuns(stage: Stage): nat { if stage.kind == Unchanged then 0 else 1 }

  function Attempt(l: Local, s: Script): Attempted {
    var branch := BranchStage(l, s);
    if branch.failure.Some? then
      Attempted(branch.local, false, GateRuns(branch), Failed(branch.failure.value), None, false)
    else
      var base := BaseStage(branch.local, s);
      var runs := GateRuns(branch) + GateRuns(base);
      var changed := base.kind != Unchanged;
      if base.failure.Some? then Attempted(base.local, changed, runs, Failed(base.failure.value), None, false)
      else
        var lease := if changed then s.lease else None;
        var pushed := PushWithLease(base.local, lease, s.push);
        Attempted(base.local, changed, runs, pushed.outcome, lease, pushed.moved)
  }

  datatype Progress = Progress(
    local: Local, passes: nat, moves: seq<Move>, gateRuns: nat, outcome: Option<Outcome<bool>>)

  predicate Retries(a: Attempted, attempt: nat) {
    a.outcome == Failed(BranchMoved) && !a.baseChanged && attempt < ATTEMPTS
  }

  /** The first `n` passes of the publication loop. */
  function Rounds(l: Local, scripts: seq<Script>, n: nat): Progress
    requires n <= |scripts|
  {
    if n == 0 then Progress(l, 0, [], 0, None)
    else
      var p := Rounds(l, scripts, n - 1);
      if p.outcome.Some? then p else AfterPass(p, scripts[n - 1], n)
  }

  /** What the `n`th pass makes of the progress so far. */
  function AfterPass(p: Progress, s: Script, n: nat): Progress
    requires n > 0
  {
    var a := Attempt(p.local, s);
    Progress(a.local,
             n,
             if a.moved then p.moves + [Move(n - 1, s.push.at, a.local.head, a.lease)] else p.moves,
             p.gateRuns + a.gateRuns,
             if Retries(a, n) then None else Some(a.outcome))
  }

  // ---------------------------------------------------------------- git keeps its promises

  /** A rebase replays the local branch, from the point it is told. */
  predicate BranchHonest(l: Local, g: BranchAnswers) {
    g.listed.Some? ==>
      IsMergeBase(g.mergeBase, l.commit, g.listed.value)
      && (|l.commit.parents| == 1 && g.replay.Some? ==> Enumerates(g.replay.value, l.head, l.commit.parents[0]))
  }

  predicate BaseHonest(l: Local, g: BaseAnswers) {
    g.fetched.Some? ==>
      IsMergeBase(g.mergeBase, l.commit, g.fetched.value)
      && (g.mergeBase.Some? && g.replay.Some? ==> Enumerates(g.replay.value, l.head, g.mergeBase.value))
  }

  /** Git answered truthfully for the commits this attempt asked it about. */
  predicate Honest(l: Local, s: Script) {
    BranchHonest(l, s.branch) && BaseHonest(BranchStage(l, s).local, s.base)
  }

  predicate AllHonest(l: Local, scripts: seq<Script>) {
    forall i :: 0 <= i < |scripts| ==> Honest(Rounds(l, scripts, i).local, scripts[i])
  }

  // ---------------------------------------------------------------- one attempt

  function Repairs(stage: Stage, gates: Validation): set<Patch> {
    if stage.kind != Unchanged && gates.GatesRepaired? then {gates.patch} else {}
  }

  /** Neither side contains the other. */
  predicate Diverged(commit: Commit, g: BranchAnswers) {
    g.listed.Some? && !IsAncestor(g.listed.value, commit) && !IsAncestor(commit, g.listed.value)
  }

  /** Everything below the commit is already in the remote head: one agent change is unpublished. */
  predicate OneUnpublished(commit: Commit, remote: Commit) {
    |commit.parents| == 1 ==> Patches(commit.parents[0]) <= Patches(remote) + {commit.patch}
  }

  /** What reconciling leaves to publish. */
  lemma ReconcileMeaning(l: Local, g: BranchAnswers)
    requires BranchHonest(l, g) && Reconcile(l, g).Done?
    ensures var r := Reconcile(l, g).value;
      && (g.listed.Some? ==> IsAncestor(g.listed.value, r.commit) && Patches(g.listed.value) <= Patches(r.commit))
      && Patches(r.commit) ==
         (if Diverged(l.commit, g) then Patches(g.listed.value) + {l.commit.patch}
          else if r.kind == RemoteAdvanced then Patches(g.listed.value)
          else Patches(l.commit))
      && (r.kind == Rebased <==> Diverged(l.commit, g))
      && (r.kind == Unchanged ==> r.commit == l.commit)
  {
    var r := Reconcile(l, g).value;
    if g.listed.Some? {
      var remote := g.listed.value;
      if r.kind == Rebased {
        RebaseFromParent(remote, l.commit, g.replay.value);
        ReplayKeeps(remote, g.replay.value);
      } else {
        AncestorPatches(remote, r.commit);
      }
    }
  }

  /**
   The agent's changes survive reconciling exactly when the branch did not diverge or at
   most the last commit's change was unpublished: the rebase replays that commit alone.
   */
  lemma ReconcileKeepsAgentWork(l: Local, g: BranchAnswers)
    requires BranchHonest(l, g) && Reconcile(l, g).Done?
    ensures Patches(l.commit) <= Patches(Reconcile(l, g).value.commit)
      <==> (Diverged(l.commit, g) ==> OneUnpublished(l.commit, g.listed.value))
  {
    ReconcileMeaning(l, g);
    var r := Reconcile(l, g).value;
    if r.kind == Rebased {
      ChildPatches(l.commit);
      assert Patches(l.commit) == Patches(l.commit.parents[0]) + {l.commit.patch};
    } else if r.kind == RemoteAdvanced {
      AncestorPatches(l.commit, r.commit);
    }
  }

  /** Rebasing onto the base replays everything unpublished: both sides survive, and nothing else appears. */
  lemma BaseMeaning(l: Local, g: BaseAnswers)
    requires BaseHonest(l, g) && RebaseOntoBase(l, g).Done?
    ensures var r := RebaseOntoBase(l, g).value;
      && g.fetched.Some? && IsAncestor(g.fetched.value, r.commit)
      && Patches(r.commit) == Patches(l.commit) + Patches(g.fetched.value)
      && (r.kind == Unchanged ==> r.commit == l.commit)
  {
    var r := RebaseOntoBase(l, g).value;
    var base := g.fetched.value;
    if r.kind == Unchanged {
      AncestorPatches(base, l.commit);
    } else {
      RebaseFromShared(base, l.commit, g.mergeBase.value, g.replay.value);
      ReplayKeeps(base, g.replay.value);
    }
  }

  /** An empty pull request is refused exactly when the base already contains the commit. */
  lemma NothingToPublishExactly(l: Local, g: BaseAnswers)
    requires BaseHonest(l, g)
    ensures RebaseOntoBase(l, g) == Failed(NothingToPublish)
      <==> l.head == l.commit && g.fetched.Some? && IsAncestor(l.commit, g.fetched.value)
           && g.fetched.value != l.commit
  {
    if g.fetched.Some? {
      var base := g.fetched.value;
      assert l.commit in History(l.commit) && base in History(base);
      if IsAncestor(l.commit, base) {
        assert l.commit in History(l.commit) * History(base);
        assert g.mergeBase.Some?;
        if IsAncestor(base, l.commit) {
          AncestorsAreLower(l.commit, base);
          AncestorsAreLower(base, l.commit);
        }
        var m := g.mergeBase.value;
        assert l.commit == m;
      }
    }
  }

  /** Validation only ever adds a repair commit on top. */
  lemma AdoptMeaning(l: Local, r: Outcome<Reconciled>, gates: Validation)
    requires r.Done? && (r.value.kind == Unchanged ==> r.value.commit == l.commit)
    requires Adopt(l, r, gates).failure.None?
    ensures var stage := Adopt(l, r, gates);
      && stage.kind == r.value.kind
      && IsAncestor(r.value.commit, stage.local.commit)
      && Patches(stage.local.commit) == Patches(r.value.commit) + Repairs(stage, gates)
      && (stage.kind != Unchanged ==> stage.local.head == stage.local.commit)
      && (stage.kind == Unchanged ==> stage.local == l)
  {
    var stage := Adopt(l, r, gates);
    if stage.kind != Unchanged && gates.GatesRepaired? {
      ChildPatches(stage.local.commit);
    }
  }

  /** What the commit offered to the push contains, exactly. */
  lemma AttemptMeaning(l: Local, s: Script)
    requires Honest(l, s)
    requires BranchStage(l, s).failure.None? && BaseStage(BranchStage(l, s).local, s).failure.None?
    ensures var branch := BranchStage(l, s);
      var base := BaseStage(branch.local, s);
      var commit := base.local.commit;
      && Attempt(l, s).local == base.local && base.local.head == commit
      && s.base.fetched.Some? && IsAncestor(s.base.fetched.value, commit)
      && Reconcile(l, s.branch).Done?
      && Patches(commit) == Patches(Reconcile(l, s.branch).value.commit) + Repairs(branch, s.first)
                            + Patches(s.base.fetched.value) + Repairs(base, s.second)
  {
    var r := Reconcile(l, s.branch);
    var branch := BranchStage(l, s);
    ReconcileMeaning(l, s.branch);
    AdoptMeaning(l, r, s.first);
    var b := RebaseOntoBase(branch.local, s.base);
    BaseMeaning(branch.local, s.base);
    AdoptMeaning(branch.local, b, s.second);
    var base := BaseStage(branch.local, s);
    AncestryTransitive(s.base.fetched.value, b.value.commit, base.local.commit);
  }

  // ---------------------------------------------------------------- the exact change set, from the inputs

  /** Reconciling changes the commit: the listed head is not part of its history. */
  predicate Behind(commit: Commit, g: BranchAnswers) { g.listed.Some? && !IsAncestor(g.listed.value, commit) }

  function RepairOf(validated: bool, gates: Validation): set<Patch> {
    if validated && gates.GatesRepaired? then {gates.patch} else {}
  }

  /** What reconciling makes of the changes a commit had. */
  function AfterReconciling(had: set<Patch>, commit: Commit, g: BranchAnswers): set<Patch> {
    if Diverged(commit, g) then Patches(g.listed.value) + {commit.patch}
    else if Behind(commit, g) then had + Patches(g.listed.value)
    else had
  }

  /** What the commit starts from when the listed head is not part of it. */
  function Upstream(commit: Commit, g: BranchAnswers): Commit {
    if Behind(commit, g) then g.listed.value else commit
  }

  /** The commits reconciling makes, each from what it read: one for each pick, and a repair on top. */
  function MadeByReconciling(commit: Commit, s: Script): set<Commit> {
    if !Behind(commit, s.branch) then {}
    else
      var remote := s.branch.listed.value;
      var picks := if Diverged(commit, s.branch) && s.branch.replay.Some? then s.branch.replay.value else [];
      (set i | 0 < i <= |picks| :: ReplayOnto(remote, picks[..i]))
      + match s.first
        case GatesRepaired(patch, salt) => {Commit([ReplayOnto(remote, picks)], patch, salt)}
        case _ => {}
  }

  /** The fetched base is part of what was reconciled: of what was read, or of what this pass made of it. */
  predicate BaseIncluded(commit: Commit, s: Script)
    requires s.base.fetched.Some?
  {
    IsAncestor(s.base.fetched.value, Upstream(commit, s.branch)) || s.base.fetched.value in MadeByReconciling(commit, s)
  }

  /** What a pass that gets as far as its push offers, from the changes its commit had. */
  function Offered(had: set<Patch>, l: Local, s: Script): set<Patch>
    requires s.base.fetched.Some?
  {
    var base := s.base.fetched.value;
    AfterReconciling(had, l.commit, s.branch) + RepairOf(Behind(l.commit, s.branch), s.first)
    + Patches(base) + RepairOf(!BaseIncluded(l.commit, s), s.second)
  }

  predicate ReachesPush(l: Local, s: Script) {
    BranchStage(l, s).failure.None? && BaseStage(BranchStage(l, s).local, s).failure.None?
  }

  lemma StageKinds(l: Local, s: Script)
    requires ReachesPush(l, s) && Honest(l, s)
    ensures s.base.fetched.Some?
    ensures (BranchStage(l, s).kind == Unchanged) == !Behind(l.commit, s.branch)
    ensures (BaseStage(BranchStage(l, s).local, s).kind == Unchanged) == BaseIncluded(l.commit, s)
  {
    hide Patches, IsMergeBase, Enumerates, ReplayOnto, History, BaseIncluded;
    SelfAncestor(l.commit);
    IncludedExactly(l, s);
  }

  /** The history of a reconciled commit: what was read, and the commits made on top. */
  lemma IncludedExactly(l: Local, s: Script)
    requires BranchStage(l, s).failure.None? && s.base.fetched.Some?
    ensures IsAncestor(s.base.fetched.value, BranchStage(l, s).local.commit) <==> BaseIncluded(l.commit, s)
  {
    hide Patches, IsMergeBase, Enumerates, ReplayOnto, History;
    SelfAncestor(l.commit);
    if Behind(l.commit, s.branch) {
      var remote := s.branch.listed.value;
      SelfAncestor(remote);
      var picks := if Diverged(l.commit, s.branch) && s.branch.replay.Some? then s.branch.replay.value else [];
      var reconciled := ReplayOnto(remote, picks);
      NothingReplayed(remote);
      assert Reconcile(l, s.branch).value.commit == reconciled;
      ReplayHistory(remote, picks);
      if s.first.GatesRepaired? {
        RepairHistory(reconciled, s.first.patch, s.first.salt);
      }
    }
  }

  lemma NothingReplayed(onto: Commit)
    ensures ReplayOnto(onto, []) == onto
  {
  }

  lemma RepairHistory(parent: Commit, patch: Patch, salt: nat)
    ensures History(Commit([parent], patch, salt)) == History(parent) + {Commit([parent], patch, salt)}
  {
    ChildPatches(Commit([parent], patch, salt));
  }

  lemma {:induction false} ReplayHistory(onto: Commit, picks: seq<Pick>)
    ensures History(ReplayOnto(onto, picks)) == History(onto) + (set i | 0 < i <= |picks| :: ReplayOnto(onto, picks[..i]))
  {
    hide Patches, ReplayOnto, History;
    if picks == [] {
      NothingReplayed(onto);
    } else {
      ReplayHistory(onto, picks[..|picks| - 1]);
      ReplayedBefore(onto, picks);
      ReplayStep(onto, picks);
    }
  }

  /** The commits replayed so far, and the last. */
  lemma ReplayedBefore(onto: Commit, picks: seq<Pick>)
    requires picks != []
    ensures var front := picks[..|picks| - 1];
      (set i | 0 < i <= |picks| :: ReplayOnto(onto, picks[..i]))
      == (set i | 0 < i <= |front| :: ReplayOnto(onto, front[..i])) + {ReplayOnto(onto, picks)}
  {
    hide ReplayOnto;
    var front := picks[..|picks| - 1];
    assert picks[..|picks|] == picks;
    assert forall i :: 0 <= i <= |front| ==> front[..i] == picks[..i];
  }

  lemma ReplayStep(onto: Commit, picks: seq<Pick>)
    requires picks != []
    ensures var before, after := ReplayOnto(onto, picks[..|picks| - 1]), ReplayOnto(onto, picks);
      History(after) == History(before) + {after}
  {
    hide Patches, History;
    var before, after := ReplayOnto(onto, picks[..|picks| - 1]), ReplayOnto(onto, picks);
    SelfAncestor(before);
    if after != before {
      ChildPatches(after);
    }
  }

  lemma SelfAncestor(c: Commit)
    ensures IsAncestor(c, c)
  {
  }

  /** The commit offered to the push holds exactly these changes. */
  lemma OfferedExactly(l: Local, s: Script)
    requires ReachesPush(l, s) && Honest(l, s)
    ensures s.base.fetched.Some? && Patches(Attempt(l, s).local.commit) == Offered(Patches(l.commit), l, s)
  {
    hide Patches, IsMergeBase, Enumerates, Reconcile, RebaseOntoBase, Attempt, Honest, BranchHonest, BaseHonest, Adopt;
    AttemptMeaning(l, s);
    HonestBranch(l, s);
    ReconcileMeaning(l, s.branch);
    StageKinds(l, s);
    AdvancedKeeps(l, s.branch);
  }

  lemma HonestBranch(l: Local, s: Script)
    requires Honest(l, s)
    ensures BranchHonest(l, s.branch)
  {
  }

  lemma AdvancedKeeps(l: Local, g: BranchAnswers)
    requires BranchHonest(l, g) && Reconcile(l, g).Done?
    ensures Behind(l.commit, g) && !Diverged(l.commit, g) ==>
      Reconcile(l, g).value.kind == RemoteAdvanced && Patches(l.commit) <= Patches(g.listed.value)
    ensures !Behind(l.commit, g) ==> Reconcile(l, g).value.kind == Unchanged && !Diverged(l.commit, g)
  {
    hide Patches, IsMergeBase, Enumerates, ReplayOnto;
    SelfAncestor(l.commit);
    if Behind(l.commit, g) && !Diverged(l.commit, g) {
      AncestorPatches(l.commit, g.listed.value);
    }
  }

  /**
   A forced push keeps the work of the head it replaces if and only if that work is in what
   was reconciled, in the fetched base, or in a repair.
   */
  lemma ReplacedHeadKeptExactly(l: Local, s: Script)
    requires Honest(l, s) && Attempt(l, s).moved && Attempt(l, s).lease.Some?
    ensures s.lease.Some? && s.push.at == s.lease && s.base.fetched.Some?
    ensures Patches(s.lease.value) <= Patches(Attempt(l, s).local.head)
      <==> Patches(s.lease.value) <= Offered(Patches(l.commit), l, s)
  {
    hide Patches, Honest, BranchStage, BaseStage, Offered;
    AttemptIsGuarded(l, s, 0);
    OfferedExactly(l, s);
  }

  // ---------------------------------------------------------------- exactly when each step succeeds

  /** The fetched head is the listed one, and the local branch can be moved to it or over it. */
  predicate CanMove(l: Local, g: BranchAnswers)
    requires g.listed.Some?
  {
    var remote := g.listed.value;
    l.head == l.commit
    && if IsAncestor(l.commit, remote) then g.fastForwards
       else |l.commit.parents| == 1 && g.mergeBase.Some? && g.replay.Some?
  }

  /** There is no remote branch, it is at the commit, or it was fetched where it was listed and is below or can be reconciled. */
  predicate Reconcilable(l: Local, g: BranchAnswers) {
    g.listed.None? || g.listed.value == l.commit
    || (g.fetched == g.listed && (IsAncestor(g.listed.value, l.commit) || CanMove(l, g)))
  }

  /** Reconciling succeeds exactly then, leaves a commit that holds the branch alone, and is told why otherwise. */
  lemma ReconcilesExactly(l: Local, g: BranchAnswers)
    ensures Reconcile(l, g).Done? <==> Reconcilable(l, g)
    ensures Reconcilable(l, g) ==>
      var r := Reconcile(l, g).value;
      && (r.kind == Unchanged <==> !Behind(l.commit, g))
      && (r.kind == Rebased <==> Diverged(l.commit, g))
      && (!Behind(l.commit, g) ==> r.commit == l.commit)
      && (r.kind == RemoteAdvanced ==> r.commit == g.listed.value)
      && (r.kind == Rebased ==> r.commit == ReplayOnto(g.listed.value, g.replay.value))
    ensures Reconcile(l, g) == Failed(FetchFailed) <==>
      g.listed.Some? && g.listed.value != l.commit && g.fetched.None?
    ensures Reconcile(l, g) == Failed(MovedDuringFetch) <==>
      g.listed.Some? && g.listed.value != l.commit && g.fetched.Some? && g.fetched != g.listed
    ensures Reconcile(l, g) == Failed(HeadMismatch) <==> g.fetched == g.listed && Behind(l.commit, g) && l.head != l.commit
    ensures Reconcile(l, g) == Failed(FastForwardRefused) <==>
      g.fetched == g.listed && Behind(l.commit, g) && l.head == l.commit && !Diverged(l.commit, g) && !g.fastForwards
    ensures Reconcile(l, g) == Failed(Conflict) <==>
      g.fetched == g.listed && Diverged(l.commit, g) && l.head == l.commit && |l.commit.parents| == 1
      && g.mergeBase.Some? && g.replay.None?
  {
    hide History, Patches, ReplayOnto;
    SelfAncestor(l.commit);
  }

  /** The base was fetched, the branch is at the commit, and the base is part of it or the two can be joined. */
  predicate Rebasable(l: Local, g: BaseAnswers) {
    l.head == l.commit && g.fetched.Some?
    && (IsAncestor(g.fetched.value, l.commit)
        || (g.mergeBase.Some? && g.mergeBase.value != l.commit && g.replay.Some?))
  }

  lemma RebasesExactly(l: Local, g: BaseAnswers)
    ensures RebaseOntoBase(l, g).Done? <==> Rebasable(l, g)
    ensures Rebasable(l, g) ==>
      var r := RebaseOntoBase(l, g).value;
      if IsAncestor(g.fetched.value, l.commit) then r == Reconciled(l.commit, Unchanged)
      else r == Reconciled(ReplayOnto(g.fetched.value, g.replay.value), Rebased)
  {
    hide History, Patches, ReplayOnto;
  }

  /** The commit left after reconciling and its gates, from what was read. */
  function AfterBranch(l: Local, s: Script): Local {
    if !Behind(l.commit, s.branch) then l
    else
      var remote := s.branch.listed.value;
      var reconciled :=
        if Diverged(l.commit, s.branch) && s.branch.replay.Some? then ReplayOnto(remote, s.branch.replay.value) else remote;
      Repaired(reconciled, s.first)
  }

  function Repaired(commit: Commit, gates: Validation): Local {
    match gates
    case GatesRepaired(patch, salt) => var repair := Commit([commit], patch, salt); Local(repair, repair)
    case _ => Local(commit, commit)
  }

  /** And the commit offered to the push. */
  function AfterBase(l: Local, s: Script): Local
    requires s.base.fetched.Some?
  {
    var after := AfterBranch(l, s);
    if IsAncestor(s.base.fetched.value, after.commit) || s.base.replay.None? then after
    else Repaired(ReplayOnto(s.base.fetched.value, s.base.replay.value), s.second)
  }

  /** Both steps succeed, and every gate round they ask for passes. */
  predicate Ready(l: Local, s: Script) {
    && Reconcilable(l, s.branch) && (Behind(l.commit, s.branch) ==> s.first != GatesFail)
    && Rebasable(AfterBranch(l, s), s.base)
    && (!IsAncestor(s.base.fetched.value, AfterBranch(l, s).commit) ==> s.second != GatesFail)
  }

  lemma BranchStageExactly(l: Local, s: Script)
    ensures BranchStage(l, s).failure.None? <==> Reconcilable(l, s.branch) && (Behind(l.commit, s.branch) ==> s.first != GatesFail)
    ensures BranchStage(l, s).failure.None? ==>
      BranchStage(l, s).local == AfterBranch(l, s)
      && (BranchStage(l, s).kind == Unchanged <==> !Behind(l.commit, s.branch))
    ensures BranchStage(l, s).failure != Some(BranchMoved)
  {
    hide History, Patches, ReplayOnto, Reconcile;
    ReconcilesExactly(l, s.branch);
    OnlyPushesMove(l, s.branch);
    SelfAncestor(l.commit);
    if Reconcilable(l, s.branch) && Diverged(l.commit, s.branch) {
      assert s.branch.replay.Some?;
    }
  }

  lemma OnlyPushesMove(l: Local, g: BranchAnswers)
    ensures Reconcile(l, g) != Failed(BranchMoved)
  {
    hide ReplayOnto, History;
  }

  lemma BaseStageExactly(l: Local, s: Script)
    ensures BaseStage(l, s).failure.None? <==>
      Rebasable(l, s.base) && (!IsAncestor(s.base.fetched.value, l.commit) ==> s.second != GatesFail)
    ensures BaseStage(l, s).failure.None? ==>
      var included := IsAncestor(s.base.fetched.value, l.commit);
      && BaseStage(l, s).local == (if included then l else Repaired(ReplayOnto(s.base.fetched.value, s.base.replay.value), s.second))
      && (BaseStage(l, s).kind == Unchanged <==> included)
    ensures BaseStage(l, s).failure != Some(BranchMoved)
  {
    hide History, Patches, ReplayOnto, IsAncestor;
    RebasesExactly(l, s.base);
  }

  /** The lease the push carries: only a commit rebased onto the base is forced. */
  function LeaseOf(l: Local, s: Script): Option<Commit>
    requires s.base.fetched.Some?
  {
    if IsAncestor(s.base.fetched.value, AfterBranch(l, s).commit) then None else s.lease
  }

  /** The push changes the remote, hears so, and reads it back. */
  predicate PushTaken(commit: Commit, lease: Option<Commit>, g: PushAnswers) {
    g.before != Some(commit) && (lease.Some? ==> g.before == lease)
    && g.delivered && RemoteAccepts(g.at, commit, lease) && g.acknowledged && g.after == Some(commit)
  }

  /**
   A pass succeeds exactly when both steps do, their gates pass, and the remote is at the
   commit already (nothing is pushed) or takes the push. It fails as a race, to be retried,
   exactly when the branch was not at its lease, or the push was not taken or not seen
   although the branch has changed.
   */
  lemma AttemptSucceedsExactly(l: Local, s: Script)
    ensures Ready(l, s) ==>
      var commit, lease := AfterBase(l, s).commit, LeaseOf(l, s);
      && Attempt(l, s).local == AfterBase(l, s) && AfterBase(l, s).head == commit && Attempt(l, s).lease == lease
      && (Attempt(l, s).baseChanged <==> !IsAncestor(s.base.fetched.value, AfterBranch(l, s).commit))
      && (Attempt(l, s).outcome == Done(false) <==> s.push.before == Some(commit))
      && (Attempt(l, s).outcome == Done(true) <==> PushTaken(commit, lease, s.push))
      && (Attempt(l, s).outcome == Failed(BranchMoved) <==>
            && s.push.before != Some(commit)
            && ((lease.Some? && s.push.before != lease)
                || (!(s.push.delivered && RemoteAccepts(s.push.at, commit, lease) && s.push.acknowledged)
                    && s.push.after != s.push.before)
                || (s.push.delivered && RemoteAccepts(s.push.at, commit, lease) && s.push.acknowledged
                    && s.push.after != Some(commit))))
    ensures !Ready(l, s) ==>
      Attempt(l, s).outcome.Failed? && Attempt(l, s).outcome != Failed(BranchMoved) && !Attempt(l, s).moved
    ensures Attempt(l, s).moved ==> Ready(l, s)
  {
    hide History, Patches, ReplayOnto, BranchStage, BaseStage, Reconcilable, IsAncestor;
    BranchStageExactly(l, s);
    BaseStageExactly(AfterBranch(l, s), s);
  }

  /** The pass lost a race for the branch before it had to rebase onto a new base. */
  predicate Races(l: Local, scripts: seq<Script>, i: nat)
    requires i < |scripts|
  {
    var a := Attempt(Rounds(l, scripts, i).local, scripts[i]);
    a.outcome == Failed(BranchMoved) && !a.baseChanged
  }

  /** The loop goes on exactly while its passes lose such races and it has one left; the pass it ends with decides. */
  lemma {:induction false} RoundsDecideExactly(l: Local, scripts: seq<Script>, n: nat)
    requires n <= |scripts| && n <= ATTEMPTS
    ensures var p := Rounds(l, scripts, n);
      && (p.outcome.None? <==> n < ATTEMPTS && forall i :: 0 <= i < n ==> Races(l, scripts, i))
      && (p.outcome.None? ==> p.passes == n)
      && (p.outcome.Some? ==>
            && 0 < p.passes <= n && (forall i :: 0 <= i < p.passes - 1 ==> Races(l, scripts, i))
            && (Races(l, scripts, p.passes - 1) ==> p.passes == ATTEMPTS)
            && p.outcome == Some(Attempt(Rounds(l, scripts, p.passes - 1).local, scripts[p.passes - 1]).outcome))
  {
    hide Attempt, Rounds;
    FirstRound(l, scripts);
    if n > 0 {
      RoundsDecideExactly(l, scripts, n - 1);
      NextRound(l, scripts, n);
      var before := Rounds(l, scripts, n - 1);
      if before.outcome.None? {
        assert n < ATTEMPTS ==> (Races(l, scripts, n - 1) <==> Retries(Attempt(before.local, scripts[n - 1]), n));
        if n < ATTEMPTS && Races(l, scripts, n - 1) {
          assert forall i :: 0 <= i < n ==> Races(l, scripts, i);
        }
      } else if n < ATTEMPTS {
        var i :| 0 <= i < n - 1 && !Races(l, scripts, i);
      }
    }
  }

  // ---------------------------------------------------------------- an undisturbed publication succeeds

  /** Nobody else moves the branch from `remote`, and the push gets through. */
  predicate Undisturbed(remote: Option<Commit>, published: Commit, s: Script) {
    && s.branch.listed == remote && (remote.Some? ==> s.branch.fetched == remote) && s.lease == remote
    && s.push.before == remote && s.push.at == remote && s.push.delivered && s.push.acknowledged
    && s.push.after == Some(published)
  }

  /** What is offered lies above the remote branch, or replaces it as the head the lease was read from. */
  lemma OfferGoesForward(l: Local, s: Script, remote: Option<Commit>)
    requires Ready(l, s) && Undisturbed(remote, AfterBase(l, s).commit, s)
    ensures RemoteAccepts(remote, AfterBase(l, s).commit, LeaseOf(l, s))
  {
    hide Patches, ReplayOnto, History;
    SelfAncestor(AfterBranch(l, s).commit);
    if remote.Some? && IsAncestor(s.base.fetched.value, AfterBranch(l, s).commit) {
      AboveTheBranch(l, s);
    }
  }

  lemma AboveTheBranch(l: Local, s: Script)
    requires Reconcilable(l, s.branch) && s.branch.listed.Some?
    ensures IsAncestor(s.branch.listed.value, AfterBranch(l, s).commit)
  {
    hide Patches, ReplayOnto, History;
    var remote := s.branch.listed.value;
    SelfAncestor(remote);
    if Behind(l.commit, s.branch) {
      var picks := if Diverged(l.commit, s.branch) && s.branch.replay.Some? then s.branch.replay.value else [];
      NothingReplayed(remote);
      ReplayAncestor(remote, picks);
      var reconciled := ReplayOnto(remote, picks);
      if s.first.GatesRepaired? {
        RepairHistory(reconciled, s.first.patch, s.first.salt);
        AncestorOfRepair(remote, reconciled, s.first.patch, s.first.salt);
      }
    }
  }

  lemma ReplayAncestor(onto: Commit, picks: seq<Pick>)
    ensures IsAncestor(onto, ReplayOnto(onto, picks))
  {
    ReplayKeeps(onto, picks);
  }

  lemma AncestorOfRepair(a: Commit, parent: Commit, patch: Patch, salt: nat)
    requires IsAncestor(a, parent)
    ensures IsAncestor(a, Commit([parent], patch, salt))
  {
    hide Patches;
    RepairHistory(parent, patch, salt);
  }

  /**
   With nobody in between, a publication succeeds in its first pass exactly when both steps
   do and their gates pass; and it pushes unless the remote branch was there already.
   */
  lemma UndisturbedPublishes(l: Local, scripts: seq<Script>, remote: Option<Commit>)
    requires |scripts| > 0
    requires Ready(l, scripts[0]) ==> Undisturbed(remote, AfterBase(l, scripts[0]).commit, scripts[0])
    ensures Ready(l, scripts[0]) <==> Attempt(l, scripts[0]).outcome.Done?
    ensures Ready(l, scripts[0]) ==>
      var p := Rounds(l, scripts, 1);
      p.outcome == Some(Done(remote != Some(AfterBase(l, scripts[0]).commit))) && p.passes == 1
      && p.local == AfterBase(l, scripts[0])
  {
    hide Attempt, History, Patches, Reconcilable, Rebasable, ReplayOnto, IsAncestor, RemoteAccepts;
    var s := scripts[0];
    AttemptSucceedsExactly(l, s);
    FirstRound(l, scripts);
    NextRound(l, scripts, 1);
    if Ready(l, s) {
      OfferGoesForward(l, s, remote);
    }
  }

  /**
   The ordinary case: a commit on top of the branch head (or of none) and of the base. Nothing
   has to be reconciled, no gate runs again, and the commit itself is published.
   */
  lemma CommitOnTopIsPublished(commit: Commit, scripts: seq<Script>, remote: Option<Commit>)
    requires |scripts| > 0 && (remote.Some? ==> IsAncestor(remote.value, commit))
    requires Undisturbed(remote, commit, scripts[0])
    requires scripts[0].base.fetched.Some? && IsAncestor(scripts[0].base.fetched.value, commit)
    ensures var p := Rounds(Local(commit, commit), scripts, 1);
      && p.outcome == Some(Done(remote != Some(commit))) && p.local == Local(commit, commit) && p.gateRuns == 0
      && (remote != Some(commit) ==> p.moves == [Move(0, remote, commit, None)])
  {
    hide Attempt, History, Patches, ReplayOnto;
    var l, s := Local(commit, commit), scripts[0];
    SelfAncestor(commit);
    UndisturbedPublishes(l, scripts, remote);
    FirstRound(l, scripts);
    NextRound(l, scripts, 1);
    PlainPush(commit, s, remote);
  }

  lemma PlainPush(commit: Commit, s: Script, remote: Option<Commit>)
    requires remote.Some? ==> IsAncestor(remote.value, commit)
    requires Undisturbed(remote, commit, s) && s.base.fetched.Some? && IsAncestor(s.base.fetched.value, commit)
    ensures var a := Attempt(Local(commit, commit), s);
      a.gateRuns == 0 && a.lease.None? && (remote != Some(commit) ==> a.moved)
  {
    hide History, Patches, ReplayOnto;
  }

  // ---------------------------------------------------------------- whole runs

  /** The move went forward from what it replaced, or replaced exactly the head read as its lease. */
  predicate Guarded(m: Move, s: Script) {
    && m.from == s.push.at
    && (m.lease.None? ==> m.from.None? || IsAncestor(m.from.value, m.to))
    && (m.lease.Some? ==> m.lease == s.lease == s.push.before && m.from == m.lease)
  }

  lemma AttemptIsGuarded(l: Local, s: Script, attempt: nat)
    requires Attempt(l, s).moved
    ensures var a := Attempt(l, s);
      && a.local.head == a.local.commit
      && Guarded(Move(attempt, s.push.at, a.local.head, a.lease), s)
      && BranchStage(l, s).failure.None? && BaseStage(BranchStage(l, s).local, s).failure.None?
      && (a.lease.Some? ==> a.baseChanged)
  {
  }

  /**
   Over every run, against any other writers: each time this worker moved the remote head
   it moved it forward, or from exactly the head it held a lease on; only the last pass
   can force; and the loop always decides within three passes and four rounds of gates.
   */
  lemma {:induction false} EveryMoveIsGuarded(l: Local, scripts: seq<Script>, n: nat)
    requires n <= |scripts| && n <= ATTEMPTS
    ensures var p := Rounds(l, scripts, n);
      && p.passes <= n && (p.outcome.None? ==> p.passes == n < ATTEMPTS || n == 0)
      && (p.outcome.None? ==> p.gateRuns <= p.passes) && p.gateRuns <= p.passes + 1
      && forall i :: 0 <= i < |p.moves| ==>
           && p.moves[i].attempt < p.passes
           && Guarded(p.moves[i], scripts[p.moves[i].attempt])
           && (p.moves[i].lease.Some? ==> p.outcome.Some? && p.moves[i].attempt == p.passes - 1)
           && p.moves[i].to == Rounds(l, scripts, p.moves[i].attempt + 1).local.commit
  {
    hide Attempt, Guarded, Rounds;
    FirstRound(l, scripts);
    if n > 0 {
      EveryMoveIsGuarded(l, scripts, n - 1);
      var p := Rounds(l, scripts, n - 1);
      if p.outcome.None? {
        var s := scripts[n - 1];
        NextRound(l, scripts, n);
        AttemptGateRuns(p.local, s);
        if Attempt(p.local, s).moved {
          AttemptIsGuarded(p.local, s, n - 1);
        }
      } else {
        NextRound(l, scripts, n);
      }
    }
  }

  lemma FirstRound(l: Local, scripts: seq<Script>)
    ensures Rounds(l, scripts, 0) == Progress(l, 0, [], 0, None)
  {
  }

  lemma NextRound(l: Local, scripts: seq<Script>, n: nat)
    requires 0 < n <= |scripts|
    ensures var p := Rounds(l, scripts, n - 1);
      Rounds(l, scripts, n) == if p.outcome.Some? then p else AfterPass(p, scripts[n - 1], n)
  {
  }

  lemma AttemptGateRuns(l: Local, s: Script)
    ensures Attempt(l, s).gateRuns <= if Attempt(l, s).baseChanged then 2 else 1
  {
    hide Reconcile, RebaseOntoBase, PushWithLease;
  }

  /** The gate rounds one pass asks for, in order. */
  function Validations(l: Local, s: Script): seq<Validation> {
    var branch := BranchStage(l, s);
    var first := if branch.kind == Unchanged then [] else [s.first];
    if branch.failure.Some? || BaseStage(branch.local, s).kind == Unchanged then first else first + [s.second]
  }

  function AllValidations(l: Local, scripts: seq<Script>, n: nat): seq<Validation>
    requires n <= |scripts|
  {
    if n == 0 then []
    else
      var before := AllValidations(l, scripts, n - 1);
      var p := Rounds(l, scripts, n - 1);
      if p.outcome.Some? then before else before + Validations(p.local, scripts[n - 1])
  }

  lemma AttemptValidations(l: Local, s: Script)
    ensures |Validations(l, s)| == Attempt(l, s).gateRuns
    ensures Attempt(l, s).outcome.Done? || Attempt(l, s).outcome == Failed(BranchMoved) ==> GatesFail !in Validations(l, s)
  {
    hide Reconcile, RebaseOntoBase, PushWithLease;
  }

  /** The gate rounds of a run are those it asked for, and a run that succeeds had none fail. */
  lemma {:induction false} ValidationsAreGateRuns(l: Local, scripts: seq<Script>, n: nat)
    requires n <= |scripts|
    ensures var p := Rounds(l, scripts, n);
      && |AllValidations(l, scripts, n)| == p.gateRuns
      && (p.outcome.None? || p.outcome.value.Done? ==> GatesFail !in AllValidations(l, scripts, n))
  {
    hide Attempt, Validations;
    if n > 0 {
      ValidationsAreGateRuns(l, scripts, n - 1);
      var p := Rounds(l, scripts, n - 1);
      if p.outcome.None? {
        AttemptValidations(p.local, scripts[n - 1]);
      }
    }
  }

  /** The remote branch was read at the commit, which contains the fetched base. */
  predicate SeenPublished(commit: Commit, pushed: bool, s: Script) {
    && (if pushed then s.push.after else s.push.before) == Some(commit)
    && s.base.fetched.Some? && IsAncestor(s.base.fetched.value, commit)
  }

  predicate EndsWithMoveTo(moves: seq<Move>, commit: Commit) { moves != [] && moves[|moves| - 1].to == commit }

  lemma AttemptSucceeds(l: Local, s: Script)
    requires Honest(l, s) && Attempt(l, s).outcome.Done?
    ensures var a := Attempt(l, s);
      && SeenPublished(a.local.commit, a.outcome.value, s)
      && a.local.head == a.local.commit
      && (a.outcome.value && s.push.at != Some(a.local.commit) ==> a.moved)
  {
    hide Reconcile, RebaseOntoBase, Adopt, Patches, IsMergeBase, Enumerates;
    AttemptMeaning(l, s);
  }

  /** A push reported as done saw the commit on the remote branch, and moved it there unless it was there. */
  lemma {:induction false} SuccessWasObserved(l: Local, scripts: seq<Script>, n: nat)
    requires n <= |scripts| && n <= ATTEMPTS && AllHonest(l, scripts)
    requires Rounds(l, scripts, n).outcome.Some? && Rounds(l, scripts, n).outcome.value.Done?
    ensures var p := Rounds(l, scripts, n);
      && 0 < p.passes <= n
      && SeenPublished(p.local.commit, p.outcome.value.value, scripts[p.passes - 1])
      && (p.outcome.value.value && scripts[p.passes - 1].push.at != Some(p.local.commit) ==>
            EndsWithMoveTo(p.moves, p.local.commit))
  {
    hide Attempt, Honest, SeenPublished;
    var q := Rounds(l, scripts, n - 1);
    if q.outcome.Some? {
      SuccessWasObserved(l, scripts, n - 1);
    } else {
      AttemptSucceeds(q.local, scripts[n - 1]);
    }
  }

  /** What an offer always holds. */
  lemma OfferKeeps(l: Local, s: Script)
    requires ReachesPush(l, s) && Honest(l, s)
    ensures s.base.fetched.Some? && IsAncestor(s.base.fetched.value, Attempt(l, s).local.commit)
    ensures var offered := Patches(Attempt(l, s).local.commit);
      && Patches(s.base.fetched.value) <= offered
      && (s.branch.listed.Some? ==> Patches(s.branch.listed.value) <= offered)
      && ((Diverged(l.commit, s.branch) ==> OneUnpublished(l.commit, s.branch.listed.value)) ==>
            Patches(l.commit) <= offered)
  {
    hide Patches, IsMergeBase, Enumerates, Reconcile, RebaseOntoBase, Attempt, Honest, BranchHonest, BaseHonest, Adopt,
         OneUnpublished, Diverged;
    HonestBranch(l, s);
    AttemptMeaning(l, s);
    ReconcileMeaning(l, s.branch);
    ReconcileKeepsAgentWork(l, s.branch);
  }

  /**
   What a move left published: exactly what its pass offered, the fetched base and the
   listed head always; the head it replaced if and only if it went forward or the offer
   holds its work, as it does when the lease was the head just reconciled; and this
   attempt's commit when the branch had not diverged or one change was unpublished.
   */
  predicate LosesNothingElse(m: Move, before: Local, s: Script) {
    && s.base.fetched.Some? && IsAncestor(s.base.fetched.value, m.to)
    && Patches(m.to) == Offered(Patches(before.commit), before, s)
    && Patches(s.base.fetched.value) <= Patches(m.to)
    && (s.branch.listed.Some? ==> Patches(s.branch.listed.value) <= Patches(m.to))
    && (m.lease.Some? ==> s.lease.Some?)
    && (m.from.Some? ==>
          (Patches(m.from.value) <= Patches(m.to)
           <==> m.lease.None? || Patches(s.lease.value) <= Offered(Patches(before.commit), before, s)))
    && (m.from.Some? && (m.lease.None? || s.lease == s.branch.listed) ==> Patches(m.from.value) <= Patches(m.to))
    && ((Diverged(before.commit, s.branch) ==> OneUnpublished(before.commit, s.branch.listed.value)) ==>
          Patches(before.commit) <= Patches(m.to))
  }

  lemma AttemptLosesNothingElse(l: Local, s: Script, attempt: nat)
    requires Honest(l, s) && Attempt(l, s).moved
    ensures LosesNothingElse(Move(attempt, s.push.at, Attempt(l, s).local.head, Attempt(l, s).lease), l, s)
  {
    hide Attempt, Honest, BranchStage, BaseStage, Patches, Offered, OneUnpublished, Diverged, IsAncestor;
    AttemptIsGuarded(l, s, attempt);
    OfferedExactly(l, s);
    OfferKeeps(l, s);
    var m := Move(attempt, s.push.at, Attempt(l, s).local.head, Attempt(l, s).lease);
    if m.from.Some? && m.lease.None? {
      ForwardKeeps(m, s);
    }
  }

  lemma ForwardKeeps(m: Move, s: Script)
    requires Guarded(m, s) && m.from.Some? && m.lease.None?
    ensures Patches(m.from.value) <= Patches(m.to)
  {
    AncestorPatches(m.from.value, m.to);
  }

  lemma NothingIsLost(l: Local, scripts: seq<Script>, n: nat, i: nat)
    requires n <= |scripts| && n <= ATTEMPTS && AllHonest(l, scripts)
    requires i < |Rounds(l, scripts, n).moves|
    ensures var m := Rounds(l, scripts, n).moves[i];
      m.attempt < n && LosesNothingElse(m, Rounds(l, scripts, m.attempt).local, scripts[m.attempt])
  {
    hide Attempt, Honest, LosesNothingElse, Guarded;
    EveryMoveIsGuarded(l, scripts, n);
    MoveAttempt(l, scripts, n, i);
    var m := Rounds(l, scripts, n).moves[i];
    AttemptLosesNothingElse(Rounds(l, scripts, m.attempt).local, scripts[m.attempt], m.attempt);
  }

  lemma {:induction false} MoveAttempt(l: Local, scripts: seq<Script>, n: nat, i: nat)
    requires n <= |scripts| && n <= ATTEMPTS
    requires i < |Rounds(l, scripts, n).moves|
    ensures var m := Rounds(l, scripts, n).moves[i];
      m.attempt < n
      && var a := Attempt(Rounds(l, scripts, m.attempt).local, scripts[m.attempt]);
         a.moved && m == Move(m.attempt, scripts[m.attempt].push.at, a.local.head, a.lease)
  {
    hide Attempt;
    if i < |Rounds(l, scripts, n - 1).moves| {
      MoveAttempt(l, scripts, n - 1, i);
    }
  }

  lemma AdoptKeeps(l: Local, r: Outcome<Reconciled>, gates: Validation)
    requires r.Done? ==> Patches(l.commit) <= Patches(r.value.commit)
    requires r.Done? && r.value.kind == Unchanged ==> r.value.commit == l.commit
    ensures Patches(l.commit) <= Patches(Adopt(l, r, gates).local.commit)
  {
    if r.Done? && Adopt(l, r, gates).failure.None? {
      AdoptMeaning(l, r, gates);
    }
  }

  lemma AttemptKeepsAgentWork(l: Local, s: Script)
    requires Honest(l, s)
    requires Diverged(l.commit, s.branch) ==> OneUnpublished(l.commit, s.branch.listed.value)
    ensures Patches(l.commit) <= Patches(Attempt(l, s).local.commit)
  {
    hide Reconcile, RebaseOntoBase, Adopt, Patches, PushWithLease, Diverged, OneUnpublished, IsMergeBase, Enumerates;
    var r := Reconcile(l, s.branch);
    if r.Done? {
      ReconcileMeaning(l, s.branch);
      ReconcileKeepsAgentWork(l, s.branch);
    }
    AdoptKeeps(l, r, s.first);
    var branch := BranchStage(l, s);
    var b := RebaseOntoBase(branch.local, s.base);
    if b.Done? {
      BaseMeaning(branch.local, s.base);
    }
    AdoptKeeps(branch.local, b, s.second);
  }

  /** At every pass that met a diverged branch, one change was unpublished. */
  predicate OneUnpublishedThroughout(l: Local, scripts: seq<Script>, n: nat)
    requires n <= |scripts|
  {
    forall i :: 0 <= i < n ==>
      var commit := Rounds(l, scripts, i).local.commit;
      Diverged(commit, scripts[i].branch) ==> OneUnpublished(commit, scripts[i].branch.listed.value)
  }

  /** Then the whole loop, retries included, publishes everything the agent committed. */
  lemma {:induction false} AgentWorkSurvives(l: Local, scripts: seq<Script>, n: nat)
    requires n <= |scripts| && n <= ATTEMPTS && AllHonest(l, scripts)
    requires OneUnpublishedThroughout(l, scripts, n)
    ensures Patches(l.commit) <= Patches(Rounds(l, scripts, n).local.commit)
    ensures forall m :: m in Rounds(l, scripts, n).moves ==> Patches(l.commit) <= Patches(m.to)
  {
    hide Attempt, Honest, Patches, Diverged, OneUnpublished, Guarded;
    if n > 0 {
      AgentWorkSurvives(l, scripts, n - 1);
      var p := Rounds(l, scripts, n - 1);
      if p.outcome.None? {
        AttemptKeepsAgentWork(p.local, scripts[n - 1]);
        if Attempt(p.local, scripts[n - 1]).moved {
          AttemptIsGuarded(p.local, scripts[n - 1], n - 1);
        }
      }
    }
  }

  /** The passes made so far all got as far as their push. */
  predicate AllReachPush(l: Local, scripts: seq<Script>, n: nat)
    requires n <= |scripts|
  {
    forall i :: 0 <= i < n ==> Rounds(l, scripts, i).outcome.None? && ReachesPush(Rounds(l, scripts, i).local, scripts[i])
  }

  /** A pass that is retried got as far as its push. */
  lemma {:induction false} RetriedReachedPush(l: Local, scripts: seq<Script>, n: nat)
    requires n <= |scripts| && Rounds(l, scripts, n).outcome.None?
    ensures AllReachPush(l, scripts, n)
  {
    hide Reconcile, RebaseOntoBase, Patches;
    if n > 0 {
      RetriedReachedPush(l, scripts, n - 1);
      OnlyPushesRace(Rounds(l, scripts, n - 1).local, scripts[n - 1]);
    }
  }

  lemma OnlyPushesRace(l: Local, s: Script)
    requires Attempt(l, s).outcome == Failed(BranchMoved)
    ensures ReachesPush(l, s)
  {
    hide Patches, ReplayOnto;
  }

  /** The changes still there after `n` passes, each pass replaying what the one before it left. */
  function Surviving(l: Local, scripts: seq<Script>, n: nat): set<Patch>
    requires n <= |scripts| && forall i :: 0 <= i < n ==> scripts[i].base.fetched.Some?
  {
    if n == 0 then Patches(l.commit)
    else Offered(Surviving(l, scripts, n - 1), Rounds(l, scripts, n - 1).local, scripts[n - 1])
  }

  /** Exactly what survives the retries: nothing the loop loses comes back but through the branch or the base. */
  lemma {:induction false} SurvivesExactly(l: Local, scripts: seq<Script>, n: nat)
    requires n <= |scripts| && AllHonest(l, scripts) && AllReachPush(l, scripts, n)
    ensures forall i :: 0 <= i < n ==> scripts[i].base.fetched.Some?
    ensures Patches(Rounds(l, scripts, n).local.commit) == Surviving(l, scripts, n)
  {
    hide Attempt, Honest, Patches, Offered, BranchStage, BaseStage, ReachesPush;
    if n > 0 {
      SurvivesExactly(l, scripts, n - 1);
      OfferedExactly(Rounds(l, scripts, n - 1).local, scripts[n - 1]);
    }
  }

  // ---------------------------------------------------------------- both conditions are needed

  function Child(parent: Commit, patch: Patch): Commit { Commit([parent], patch, 0) }

  lemma ChildHistory(parent: Commit, patch: Patch)
    ensures History(Child(parent, patch)) == History(parent) + {Child(parent, patch)}
    ensures Patches(Child(parent, patch)) == Patches(parent) + {patch}
  {
    ChildPatches(Child(parent, patch));
  }

  const ROOT := Commit([], 0, 0)

  const AGENT := Child(ROOT, 1)
  const THEIRS := Child(ROOT, 2)
  const NEW_BASE := Child(ROOT, 3)
  const OVER_BASE := Child(NEW_BASE, 1)

  /** The branch appears between the two reads, and the base has moved. */
  const SECOND_READ := Script(
    BranchAnswers(None, None, true, None, None), GatesPass, Some(THEIRS),
    BaseAnswers(Some(NEW_BASE), Some(ROOT), Some([Pick(AGENT, 0)])), GatesPass,
    PushAnswers(Some(THEIRS), Some(THEIRS), true, true, Some(OVER_BASE)))

  lemma SmallHistories()
    ensures History(ROOT) == {ROOT} && Patches(ROOT) == {0}
    ensures History(AGENT) == {ROOT, AGENT} && Patches(AGENT) == {0, 1}
    ensures History(THEIRS) == {ROOT, THEIRS} && Patches(THEIRS) == {0, 2}
    ensures History(NEW_BASE) == {ROOT, NEW_BASE} && Patches(NEW_BASE) == {0, 3}
    ensures AGENT.patch == 1 && THEIRS.patch == 2 && NEW_BASE.patch == 3 && ROOT.patch == 0
  {
    assert History(ROOT) == {ROOT};
    assert ROOT in History(ROOT);
    hide History, Patches;
    ChildHistory(ROOT, 1);
    ChildHistory(ROOT, 2);
    ChildHistory(ROOT, 3);
  }

  /**
   The lease is read after reconciling: a head that arrives in between becomes the lease
   and is then replaced, its work gone from the published history.
   */
  lemma SecondReadLosesTheirWork()
    ensures var l := Local(AGENT, AGENT);
      var a := Attempt(l, SECOND_READ);
      && Honest(l, SECOND_READ) && !Diverged(l.commit, SECOND_READ.branch)
      && a.outcome == Done(true) && a.moved && a.lease == Some(THEIRS)
      && THEIRS.patch in Patches(THEIRS) && THEIRS.patch !in Patches(a.local.head)
  {
    hide History, Patches, ReplayOnto, IsMergeBase, Enumerates;
    SmallHistories();
    ChildHistory(NEW_BASE, 1);
    LastCommitEnumerated(AGENT, 0);
    ReplayOne(NEW_BASE, Pick(AGENT, 0));
    ParentIsMergeBase(AGENT, NEW_BASE);
    var l := Local(AGENT, AGENT);
    assert BranchStage(l, SECOND_READ) == Stage(l, Unchanged, None);
    assert RebaseOntoBase(l, SECOND_READ.base) == Done(Reconciled(OVER_BASE, Rebased));
  }

  const REPLAYED := Child(THEIRS, 1)
  const REPAIR := Child(REPLAYED, 4)
  const THEIRS_TOO := Child(THEIRS, 5)
  const ONLY_REPAIR := Child(THEIRS_TOO, 4)

  const RACED := Script(
    BranchAnswers(Some(THEIRS), Some(THEIRS), true, Some(ROOT), Some([Pick(AGENT, 0)])), GatesRepaired(4, 0), None,
    BaseAnswers(Some(ROOT), Some(ROOT), None), GatesPass,
    PushAnswers(Some(THEIRS), Some(THEIRS_TOO), true, true, Some(THEIRS_TOO)))

  const RETRIED := Script(
    BranchAnswers(Some(THEIRS_TOO), Some(THEIRS_TOO), true, Some(THEIRS), Some([Pick(REPAIR, 0)])), GatesPass, None,
    BaseAnswers(Some(ROOT), Some(ROOT), None), GatesPass,
    PushAnswers(Some(THEIRS_TOO), Some(THEIRS_TOO), true, true, Some(ONLY_REPAIR)))

  lemma LargerHistories()
    ensures History(REPLAYED) == {ROOT, THEIRS, REPLAYED}
    ensures History(REPAIR) == {ROOT, THEIRS, REPLAYED, REPAIR} && Patches(REPAIR) == {0, 1, 2, 4}
    ensures History(THEIRS_TOO) == {ROOT, THEIRS, THEIRS_TOO} && Patches(THEIRS_TOO) == {0, 2, 5}
    ensures History(ONLY_REPAIR) == {ROOT, THEIRS, THEIRS_TOO, ONLY_REPAIR} && Patches(ONLY_REPAIR) == {0, 2, 4, 5}
    ensures REPLAYED.patch == 1 && REPAIR.patch == 4 && THEIRS_TOO.patch == 5
    ensures Patches(REPLAYED) == {0, 1, 2}
  {
    hide History, Patches;
    SmallHistories();
    ChildHistory(THEIRS, 1);
    ChildHistory(REPLAYED, 4);
    ChildHistory(THEIRS, 5);
    ChildHistory(THEIRS_TOO, 4);
  }

  lemma FirstPassRaces()
    ensures var l := Local(AGENT, AGENT);
      var a := Attempt(l, RACED);
      && Honest(l, RACED) && OneUnpublished(AGENT, THEIRS)
      && a.local == Local(REPAIR, REPAIR) && a.outcome == Failed(BranchMoved) && !a.baseChanged && !a.moved
  {
    hide History, Patches, ReplayOnto, IsMergeBase, Enumerates;
    SmallHistories();
    LargerHistories();
    LastCommitEnumerated(AGENT, 0);
    ReplayOne(THEIRS, Pick(AGENT, 0));
    ParentIsMergeBase(AGENT, THEIRS);
    AncestorIsMergeBase(REPAIR, ROOT);
    var l := Local(AGENT, AGENT);
    assert Reconcile(l, RACED.branch) == Done(Reconciled(REPLAYED, Rebased));
    assert BranchStage(l, RACED) == Stage(Local(REPAIR, REPAIR), Rebased, None);
    assert BaseStage(Local(REPAIR, REPAIR), RACED) == Stage(Local(REPAIR, REPAIR), Unchanged, None);
  }

  lemma SecondPassPublishes()
    ensures var l := Local(REPAIR, REPAIR);
      var a := Attempt(l, RETRIED);
      && Honest(l, RETRIED) && !OneUnpublished(REPAIR, THEIRS_TOO)
      && a.local.head == a.local.commit == ONLY_REPAIR && a.outcome == Done(true) && a.moved
      && AGENT.patch !in Patches(ONLY_REPAIR)
  {
    hide History, Patches, ReplayOnto, IsMergeBase, Enumerates;
    SmallHistories();
    LargerHistories();
    LastCommitEnumerated(REPAIR, 0);
    ReplayOne(THEIRS_TOO, Pick(REPAIR, 0));
    ParentIsMergeBase(THEIRS_TOO, REPAIR);
    AncestorIsMergeBase(ONLY_REPAIR, ROOT);
    var l := Local(REPAIR, REPAIR);
    assert Reconcile(l, RETRIED.branch) == Done(Reconciled(ONLY_REPAIR, Rebased));
    assert BranchStage(l, RETRIED) == Stage(Local(ONLY_REPAIR, ONLY_REPAIR), Rebased, None);
    assert BaseStage(Local(ONLY_REPAIR, ONLY_REPAIR), RETRIED) == Stage(Local(ONLY_REPAIR, ONLY_REPAIR), Unchanged, None);
  }

  /**
   One unpublished commit at the start is not enough over a retry: a repair committed on
   top of the replayed commit makes two, and the second rebase replays the repair alone.
   */
  lemma RetryLosesAgentWork()
    ensures var l := Local(AGENT, AGENT);
      var scripts := [RACED, RETRIED];
      var p := Rounds(l, scripts, 2);
      && AllHonest(l, scripts) && OneUnpublished(AGENT, THEIRS)
      && p.outcome == Some(Done(true))
      && AGENT.patch in Patches(AGENT) && AGENT.patch !in Patches(p.local.commit)
  {
    FirstPassRaces();
    SecondPassPublishes();
    SmallHistories();
    hide Attempt, Honest, OneUnpublished, Patches, History;
    var l, scripts := Local(AGENT, AGENT), [RACED, RETRIED];
    assert Rounds(l, scripts, 0) == Progress(l, 0, [], 0, None);
    assert Rounds(l, scripts, 1).local == Local(REPAIR, REPAIR);
    assert Rounds(l, scripts, 1).outcome.None?;
    assert forall i :: 0 <= i < 2 ==> Honest(Rounds(l, scripts, i).local, scripts[i]);
  }

  // ---------------------------------------------------------------- the publisher

  /** The run's repository and the remote branch it publishes to. */
  class Publisher {
    var head: Commit
    var remote: Option<Commit>
    var moves: seq<Move>

    constructor (head: Commit, remote: Option<Commit>)
      ensures this.head == head && this.remote == remote && moves == []
    {
      this.head, this.remote, this.moves := head, remote, [];
    }

    /** `reconcile_remote_branch`. */
    method ReconcileRemoteBranch(commit: Commit, g: BranchAnswers) returns (r: Outcome<Reconciled>)
      modifies `head, `remote
      ensures r == Reconcile(Local(old(head), commit), g)
      ensures head == HeadAfter(Local(old(head), commit), r)
    {
      remote := g.listed;
      if remote.None? || remote.value == commit {
        return Done(Reconciled(commit, Unchanged));
      }
      var remoteCommit := remote.value;
      remote := g.fetched;
      if remote.None? {
        return Failed(FetchFailed);
      }
      if remote.value != remoteCommit {
        return Failed(MovedDuringFetch);
      }
      if IsAncestor(remoteCommit, commit) {
        return Done(Reconciled(commit, Unchanged));
      }
      if head != commit {
        return Failed(HeadMismatch);
      }
      if IsAncestor(commit, remoteCommit) {
        if !g.fastForwards {
          return Failed(FastForwardRefused);
        }
        head := remoteCommit;
        return Done(Reconciled(remoteCommit, RemoteAdvanced));
      }
      if |commit.parents| != 1 {
        return Failed(NotSingleParent);
      }
      if g.mergeBase.None? {
        return Failed(Unrelated);
      }
      if g.replay.None? {
        return Failed(Conflict);
      }
      head := ReplayOnto(remote.value, g.replay.value);
      return Done(Reconciled(head, Rebased));
    }

    /** `rebase_onto_remote_base`. */
    method RebaseOntoRemoteBase(commit: Commit, g: BaseAnswers) returns (r: Outcome<Reconciled>)
      modifies `head
      ensures r == RebaseOntoBase(Local(old(head), commit), g)
      ensures head == HeadAfter(Local(old(head), commit), r)
    {
      if head != commit {
        return Failed(HeadMismatch);
      }
      if g.fetched.None? {
        return Failed(FetchFailed);
      }
      var base := g.fetched.value;
      if IsAncestor(base, commit) {
        return Done(Reconciled(commit, Unchanged));
      }
      if g.mergeBase.None? {
        return Failed(Unrelated);
      }
      if g.mergeBase.value == commit {
        return Failed(NothingToPublish);
      }
      if g.replay.None? {
        return Failed(Conflict);
      }
      head := ReplayOnto(base, g.replay.value);
      return Done(Reconciled(head, Rebased));
    }

    /** `validate_reconciled_commit`. */
    method ValidateReconciledCommit(commit: Commit, r: Reconciled, gates: Validation)
      returns (published: Commit, failure: Option<Failure>)
      modifies `head
      ensures Stage(Local(head, published), r.kind, failure) == Validate(Local(old(head), commit), r, gates)
    {
      published, failure := commit, None;
      if r.kind == Unchanged {
        return;
      }
      published := r.commit;
      match gates {
        case GatesFail => failure := Some(GatesFailed);
        case GatesPass =>
        case GatesRepaired(patch, salt) =>
          head := Commit([head], patch, salt);
          published := head;
      }
    }

    /** `push_with_lease`. */
    method Push(attempt: nat, commit: Commit, lease: Option<Commit>, g: PushAnswers) returns (r: Outcome<bool>)
      modifies `remote, `moves
      ensures var p := PushWithLease(Local(head, commit), lease, g);
        r == p.outcome
        && moves == (if p.moved then old(moves) + [Move(attempt, g.at, head, lease)] else old(moves))
    {
      remote := g.before;
      var remoteBefore := remote;
      if remoteBefore == Some(commit) {
        return Done(false);
      }
      if lease.Some? && remoteBefore != lease {
        return Failed(BranchMoved);
      }
      remote := g.at;
      var accepted := g.delivered && RemoteAccepts(remote, head, lease);
      if accepted && remote != Some(head) {
        moves := moves + [Move(attempt, remote, head, lease)];
        remote := Some(head);
      }
      var succeeded := accepted && g.acknowledged;
      remote := g.after;
      if !succeeded {
        return Failed(if remote != remoteBefore then BranchMoved else PushRejected);
      }
      if remote != Some(commit) {
        return Failed(BranchMoved);
      }
      return Done(true);
    }

    /** One pass of the loop. */
    method PublishOnce(attempt: nat, start: Commit, s: Script)
      returns (commit: Commit, baseChanged: bool, runs: nat, outcome: Outcome<bool>)
      modifies this
      ensures var a := Attempt(Local(old(head), start), s);
        && Local(head, commit) == a.local && baseChanged == a.baseChanged && runs == a.gateRuns && outcome == a.outcome
        && moves == (if a.moved then old(moves) + [Move(attempt, s.push.at, a.local.head, a.lease)] else old(moves))
    {
      commit, baseChanged, runs := start, false, 0;
      var reconciled := ReconcileRemoteBranch(commit, s.branch);
      if reconciled.Failed? {
        return commit, false, 0, Failed(reconciled.failure);
      }
      var failure;
      runs := if reconciled.value.kind == Unchanged then 0 else 1;
      commit, failure := ValidateReconciledCommit(commit, reconciled.value, s.first);
      if failure.Some? {
        return commit, false, runs, Failed(failure.value);
      }
      remote := s.lease;
      var baseLease := remote;
      var based := RebaseOntoRemoteBase(commit, s.base);
      if based.Failed? {
        return commit, false, runs, Failed(based.failure);
      }
      baseChanged := based.value.kind != Unchanged;
      runs := if baseChanged then runs + 1 else runs;
      commit, failure := ValidateReconciledCommit(commit, based.value, s.second);
      if failure.Some? {
        return commit, baseChanged, runs, Failed(failure.value);
      }
      outcome := Push(attempt, commit, if baseChanged then baseLease else None, s.push);
    }

    /** `publish_commit`. */
    method PublishCommit(start: Commit, scripts: seq<Script>) returns (commit: Commit, outcome: Outcome<bool>)
      requires |scripts| == ATTEMPTS
      modifies this
      ensures var p := Rounds(Local(old(head), start), scripts, ATTEMPTS);
        && Local(head, commit) == p.local && Some(outcome) == p.outcome && moves == old(moves) + p.moves
    {
      hide Rounds, Attempt;
      ghost var l, before := Local(head, start), moves;
      FirstRound(l, scripts);
      commit := start;
      var attempt: nat := 1;
      outcome := Failed(PushRejected);
      var runs: nat := 0;
      while attempt <= ATTEMPTS
        invariant 1 <= attempt <= ATTEMPTS
        invariant var p := Rounds(l, scripts, attempt - 1);
          p.outcome.None? && p.local == Local(head, commit) && moves == before + p.moves && p.gateRuns == runs
      {
        var baseChanged, spent;
        commit, baseChanged, spent, outcome := PublishOnce(attempt - 1, commit, scripts[attempt - 1]);
        runs := runs + spent;
        NextRound(l, scripts, attempt);
        if !(outcome == Failed(BranchMoved) && !baseChanged && attempt < ATTEMPTS) {
          RoundsSettle(l, scripts, attempt);
          return;
        }
        attempt := attempt + 1;
      }
    }
  }

  lemma {:induction false} RoundsSettle(l: Local, scripts: seq<Script>, n: nat)
    requires n <= ATTEMPTS == |scripts| && Rounds(l, scripts, n).outcome.Some?
    ensures Rounds(l, scripts, ATTEMPTS) == Rounds(l, scripts, n)
    decreases ATTEMPTS - n
  {
    if n < ATTEMPTS {
      RoundsSettle(l, scripts, n + 1);
    }
  }
}
