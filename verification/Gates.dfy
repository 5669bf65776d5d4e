/**
 The quality-gate cache (`run_quality_gates` and its callers in execution.rs): a gate that
 passed is not run again on the same tree. When is that the same as running every gate?
 */
module Gates {
  import opened Utf8
  import opened TreeHash

  datatype Gate = Gate(id: string, command: string, required: bool)

  datatype Verdict<T> = Verdict(passed: bool, after: T)

  /** Gates are deterministic in command and tree; trees are known by fingerprint. */
  datatype World<!T> = World(applies: (Gate, T) -> bool, run: (string, T) -> Verdict<T>, fingerprint: T -> Bytes)

  /** Different trees have different fingerprints. */
  ghost predicate CollisionFree<T(!new)>(w: World<T>) {
    forall a: T, b: T :: w.fingerprint(a) == w.fingerprint(b) ==> a == b
  }

  /** The trees a world is about, as git sees them: in UTF-8, and told apart by the hash. */
  ghost predicate Described<T(!new)>(hash: Bytes -> Bytes, tree: T -> Snapshot, list: T -> seq<Bytes>) {
    && (forall t: T :: CountableSnapshot(tree(t)) && Readable(tree(t)) && Lists(list(t), tree(t).untracked))
    && forall a: T, b: T :: Separates(hash, SeenBy(tree(a), list(a)), SeenBy(tree(b), list(b)))
  }

  /**
   On such trees the source's fingerprints are collision-free exactly when no two of them
   look the same to git, in whatever order git lists files and whatever other files lie about.
   */
  lemma FingerprintsAreCollisionFree<T(!new)>(
      w: World<T>, hash: Bytes -> Bytes, tree: T -> Snapshot, list: T -> seq<Bytes>)
    requires Described(hash, tree, list)
    requires forall t: T :: w.fingerprint(t) == SourceTreeHash(hash, tree(t), list(t))
    ensures CollisionFree(w) <==> forall a: T, b: T :: SameForGit(tree(a), tree(b)) ==> a == b
  {
    hide SourceTreeHash, SameForGit, SeenBy, Separates, Readable, CountableSnapshot, Lists;
    forall a: T, b: T ensures w.fingerprint(a) == w.fingerprint(b) <==> SameForGit(tree(a), tree(b)) {
      FingerprintIsExact(hash, tree(a), tree(b), list(a), list(b));
    }
  }

  function OneOfTwo(second: bool): Snapshot { WithHead(if second then [65] else []) }

  /** Two repositories that differ in their head are described so, by a hash there is. */
  lemma SomeTreesAreDescribed()
    ensures Described(Itself, OneOfTwo, (second: bool) => [])
    ensures !SameForGit(OneOfTwo(true), OneOfTwo(false))
  {
    hide Separates, SeenBy, Readable, CountableSnapshot, Lists, Hashed;
    BareTree([]);
    BareTree([65]);
    ItselfSeparates(SeenBy(OneOfTwo(true), []), SeenBy(OneOfTwo(true), []));
    ItselfSeparates(SeenBy(OneOfTwo(true), []), SeenBy(OneOfTwo(false), []));
    ItselfSeparates(SeenBy(OneOfTwo(false), []), SeenBy(OneOfTwo(true), []));
    ItselfSeparates(SeenBy(OneOfTwo(false), []), SeenBy(OneOfTwo(false), []));
    assert OneOfTwo(true) == WithHead([65]) && OneOfTwo(false) == WithHead([]);
  }

  /** The tree, what has failed this round, and what the cache knows. */
  datatype Progress<T> = Progress(tree: T, failures: seq<string>, executed: set<(string, Bytes)>)

  function RunGate<T>(w: World<T>, p: Progress<T>, gate: Gate): Progress<T> {
    if !w.applies(gate, p.tree) then p
    else if (gate.command, w.fingerprint(p.tree)) in p.executed then p
    else
      var verdict := w.run(gate.command, p.tree);
      Progress(verdict.after,
               if gate.required && !verdict.passed then p.failures + [gate.id] else p.failures,
               if verdict.passed then p.executed + {(gate.command, w.fingerprint(p.tree))} else p.executed)
  }

  function RunGates<T>(w: World<T>, p: Progress<T>, gates: seq<Gate>): Progress<T> {
    if gates == [] then p else RunGate(w, RunGates(w, p, gates[..|gates| - 1]), gates[|gates| - 1])
  }

  /** The same gates without a cache. */
  function RunEveryGate<T>(w: World<T>, tree: T, gates: seq<Gate>): Progress<T> {
    if gates == [] then Progress(tree, [], {})
    else
      var p := RunEveryGate(w, tree, gates[..|gates| - 1]);
      var gate := gates[|gates| - 1];
      if !w.applies(gate, p.tree) then p
      else
        var verdict := w.run(gate.command, p.tree);
        p.(tree := verdict.after,
           failures := if gate.required && !verdict.passed then p.failures + [gate.id] else p.failures)
  }

  /** The tree the `i`th gate meets when every gate that applies is run. */
  function TreeAt<T>(w: World<T>, tree: T, gates: seq<Gate>, i: nat): T
    requires i <= |gates|
  {
    if i == 0 then tree
    else
      var before := TreeAt(w, tree, gates, i - 1);
      if w.applies(gates[i - 1], before) then w.run(gates[i - 1].command, before).after else before
  }

  /** The gate is required, applies to the tree it meets, and fails on it. */
  predicate Fails<T>(w: World<T>, tree: T, gates: seq<Gate>, i: nat)
    requires i < |gates|
  {
    var met := TreeAt(w, tree, gates, i);
    gates[i].required && w.applies(gates[i], met) && !w.run(gates[i].command, met).passed
  }

  lemma {:induction false} TreeOfPrefix<T>(w: World<T>, tree: T, gates: seq<Gate>, n: nat, i: nat)
    requires i <= n <= |gates|
    ensures TreeAt(w, tree, gates[..n], i) == TreeAt(w, tree, gates, i)
  {
    if i > 0 {
      TreeOfPrefix(w, tree, gates, n, i - 1);
    }
  }

  /** `at` lists the gates that fail on the trees they meet, in order, and these are their ids. */
  predicate Reported<T>(w: World<T>, tree: T, gates: seq<Gate>, at: seq<nat>, failures: seq<string>) {
    && |failures| == |at|
    && (forall i, j :: 0 <= i < j < |at| ==> at[i] < at[j])
    && (forall k :: 0 <= k < |at| ==> at[k] < |gates| && Fails(w, tree, gates, at[k]) && failures[k] == gates[at[k]].id)
    && forall i: nat :: i < |gates| && Fails(w, tree, gates, i) ==> i in at
  }

  /** Running every gate leaves the last tree, and reports exactly the gates that fail on the trees they meet. */
  lemma {:induction false} FailuresExactly<T>(w: World<T>, tree: T, gates: seq<Gate>) returns (at: seq<nat>)
    ensures RunEveryGate(w, tree, gates).tree == TreeAt(w, tree, gates, |gates|)
    ensures Reported(w, tree, gates, at, RunEveryGate(w, tree, gates).failures)
  {
    if gates == [] {
      at := [];
    } else {
      var n := |gates| - 1;
      var before := FailuresExactly(w, tree, gates[..n]);
      TreeOfPrefix(w, tree, gates, n, n);
      OneMoreReported(w, tree, gates, before, RunEveryGate(w, tree, gates[..n]).failures);
      OneMoreRun(w, tree, gates);
      at := if Fails(w, tree, gates, n) then before + [n] else before;
    }
  }

  lemma OneMoreRun<T>(w: World<T>, tree: T, gates: seq<Gate>)
    requires gates != []
    requires RunEveryGate(w, tree, gates[..|gates| - 1]).tree == TreeAt(w, tree, gates, |gates| - 1)
    ensures var p, q, n := RunEveryGate(w, tree, gates[..|gates| - 1]), RunEveryGate(w, tree, gates), |gates| - 1;
      && q.failures == p.failures + (if Fails(w, tree, gates, n) then [gates[n].id] else [])
      && q.tree == TreeAt(w, tree, gates, |gates|)
  {
  }

  lemma OneMoreReported<T>(w: World<T>, tree: T, gates: seq<Gate>, at: seq<nat>, failures: seq<string>)
    requires gates != [] && Reported(w, tree, gates[..|gates| - 1], at, failures)
    ensures var n := |gates| - 1;
      if Fails(w, tree, gates, n) then Reported(w, tree, gates, at + [n], failures + [gates[n].id])
      else Reported(w, tree, gates, at, failures)
  {
    hide Fails;
    var n := |gates| - 1;
    forall i: nat | i < n ensures Fails(w, tree, gates[..n], i) == Fails(w, tree, gates, i) && gates[..n][i] == gates[i] {
      SameFate(w, tree, gates, n, i);
    }
    forall i: nat | i < n && Fails(w, tree, gates, i) ensures i in at {
      assert Fails(w, tree, gates[..n], i);
    }
    assert n in at + [n];
  }

  lemma SameFate<T>(w: World<T>, tree: T, gates: seq<Gate>, n: nat, i: nat)
    requires i < n <= |gates|
    ensures Fails(w, tree, gates[..n], i) == Fails(w, tree, gates, i)
  {
    TreeOfPrefix(w, tree, gates, n, i);
  }

  /** Whatever the cache holds did pass on a tree of that fingerprint. */
  ghost predicate Earned<T(!new)>(w: World<T>, executed: set<(string, Bytes)>) {
    forall entry :: entry in executed ==> exists tree: T :: w.fingerprint(tree) == entry.1 && w.run(entry.0, tree).passed
  }

  /** A gate that passes leaves the tree as it was. */
  ghost predicate PassingGatesKeepTheTree<T(!new)>(w: World<T>) {
    forall command, tree: T :: w.run(command, tree).passed ==> w.run(command, tree).after == tree
  }

  lemma RunGateEarned<T(!new)>(w: World<T>, p: Progress<T>, gate: Gate)
    requires Earned(w, p.executed)
    ensures Earned(w, RunGate(w, p, gate).executed) && p.executed <= RunGate(w, p, gate).executed
  {
    var q := RunGate(w, p, gate);
    forall entry | entry in q.executed ensures exists tree: T :: w.fingerprint(tree) == entry.1 && w.run(entry.0, tree).passed {
      if entry !in p.executed {
        assert w.fingerprint(p.tree) == entry.1 && w.run(entry.0, p.tree).passed;
      }
    }
  }

  /** The cache only ever learns passes, never a failure. */
  lemma {:induction false} RunGatesEarned<T(!new)>(w: World<T>, p: Progress<T>, gates: seq<Gate>)
    requires Earned(w, p.executed)
    ensures Earned(w, RunGates(w, p, gates).executed) && p.executed <= RunGates(w, p, gates).executed
  {
    hide Earned, RunGate;
    if gates != [] {
      RunGatesEarned(w, p, gates[..|gates| - 1]);
      RunGateEarned(w, RunGates(w, p, gates[..|gates| - 1]), gates[|gates| - 1]);
    }
  }

  /** With any earned cache, skipping finds the same failures and leaves the same tree. */
  lemma {:induction false} CachedIsUncached<T(!new)>(w: World<T>, tree: T, executed: set<(string, Bytes)>, gates: seq<Gate>)
    requires CollisionFree(w) && PassingGatesKeepTheTree(w) && Earned(w, executed)
    ensures var cached, every := RunGates(w, Progress(tree, [], executed), gates), RunEveryGate(w, tree, gates);
      cached.failures == every.failures && cached.tree == every.tree
  {
    if gates != [] {
      var front, gate := gates[..|gates| - 1], gates[|gates| - 1];
      CachedIsUncached(w, tree, executed, front);
      RunGatesEarned(w, Progress(tree, [], executed), front);
      var p := RunGates(w, Progress(tree, [], executed), front);
      if (gate.command, w.fingerprint(p.tree)) in p.executed {
        var t: T :| w.fingerprint(t) == w.fingerprint(p.tree) && w.run(gate.command, t).passed;
        assert t == p.tree;
      }
    }
  }

  ghost predicate Transparent<T(!new)>(w: World<T>) {
    forall tree: T, executed: set<(string, Bytes)>, gates: seq<Gate> :: Earned(w, executed) ==>
      var cached, every := RunGates(w, Progress(tree, [], executed), gates), RunEveryGate(w, tree, gates);
      cached.failures == every.failures && cached.tree == every.tree
  }

  /**
   The cache is invisible, for every list of gates, tree and earned cache, exactly when
   passing gates leave the tree alone. (Every gate applies, or it could not tell.)
   */
  lemma CacheIsTransparentExactly<T(!new)>(w: World<T>)
    requires CollisionFree(w) && forall gate, tree: T :: w.applies(gate, tree)
    ensures Transparent(w) <==> PassingGatesKeepTheTree(w)
  {
    if PassingGatesKeepTheTree(w) {
      forall tree: T, executed: set<(string, Bytes)>, gates: seq<Gate> | Earned(w, executed)
        ensures var cached, every := RunGates(w, Progress(tree, [], executed), gates), RunEveryGate(w, tree, gates);
          cached.failures == every.failures && cached.tree == every.tree
      {
        CachedIsUncached(w, tree, executed, gates);
      }
    }
    if Transparent(w) {
      forall command, tree: T | w.run(command, tree).passed ensures w.run(command, tree).after == tree {
        var executed := {(command, w.fingerprint(tree))};
        var gate := Gate("", command, true);
        assert Earned(w, executed);
        OneGate(w, Progress(tree, [], executed), gate);
        assert RunGates(w, Progress(tree, [], executed), [gate]).tree == tree;
      }
    }
  }

  lemma OneGate<T(!new)>(w: World<T>, p: Progress<T>, gate: Gate)
    ensures RunGates(w, p, [gate]) == RunGate(w, p, gate)
    ensures w.applies(gate, p.tree) ==> RunEveryGate(w, p.tree, [gate]).tree == w.run(gate.command, p.tree).after
    ensures w.applies(gate, p.tree) && gate.required ==>
      RunEveryGate(w, p.tree, [gate]).failures == if w.run(gate.command, p.tree).passed then [] else [gate.id]
  {
    assert [gate][..0] == [];
    assert RunGates(w, p, []) == p;
    assert RunEveryGate(w, p.tree, []) == Progress(p.tree, [], {});
  }

  /** The cache after rounds that began on the given trees, as the repairs left them. */
  function Rounds<T>(w: World<T>, gates: seq<Gate>, trees: seq<T>): (executed: set<(string, Bytes)>) {
    if trees == [] then {}
    else
      var last := trees[|trees| - 1];
      RunGates(w, Progress(last, [], Rounds(w, gates, trees[..|trees| - 1])), gates).executed
  }

  lemma {:induction false} RoundsEarned<T(!new)>(w: World<T>, gates: seq<Gate>, trees: seq<T>)
    ensures Earned(w, Rounds(w, gates, trees))
  {
    if trees != [] {
      RoundsEarned(w, gates, trees[..|trees| - 1]);
      RunGatesEarned(w, Progress(trees[|trees| - 1], [], Rounds(w, gates, trees[..|trees| - 1])), gates);
    }
  }

  /** However the repairs edit the tree between rounds, every round reports what running all gates would. */
  lemma EveryRoundIsUncached<T(!new)>(w: World<T>, gates: seq<Gate>, trees: seq<T>, k: nat)
    requires CollisionFree(w) && PassingGatesKeepTheTree(w) && k < |trees|
    ensures RunGates(w, Progress(trees[k], [], Rounds(w, gates, trees[..k])), gates).failures
      == RunEveryGate(w, trees[k], gates).failures
  {
    RoundsEarned(w, gates, trees[..k]);
    CachedIsUncached(w, trees[k], Rounds(w, gates, trees[..k]), gates);
  }

  // ---------------------------------------------------------------- exactly where a skip is sound

  /** A relation of trees no gate can tell apart. */
  ghost predicate Equivalence<T(!new)>(same: (T, T) -> bool) {
    && (forall a: T :: same(a, a))
    && (forall a: T, b: T :: same(a, b) ==> same(b, a))
    && forall a: T, b: T, c: T :: same(a, b) && same(b, c) ==> same(a, c)
  }

  ghost predicate Respects<T(!new)>(w: World<T>, same: (T, T) -> bool) {
    forall command, a: T, b: T | same(a, b) :: w.run(command, a).passed == w.run(command, b).passed
  }

  /** Earned on trees among those the worker has met. */
  ghost predicate EarnedOn<T(!new)>(w: World<T>, met: iset<T>, executed: set<(string, Bytes)>) {
    forall entry :: entry in executed ==>
      exists tree: T :: tree in met && w.fingerprint(tree) == entry.1 && w.run(entry.0, tree).passed
  }

  /** With any such cache, one more gate on the tree reports and leaves what running it would. */
  ghost predicate SkipsSoundly<T(!new)>(w: World<T>, met: iset<T>, tree: T) {
    forall gate: Gate, executed: set<(string, Bytes)> | EarnedOn(w, met, executed) ::
      var cached, every := RunGates(w, Progress(tree, [], executed), [gate]), RunEveryGate(w, tree, [gate]);
      cached.failures == every.failures && cached.tree == every.tree
  }

  /** So it does in every world with these fingerprints whose passing gates keep the tree. */
  ghost predicate AlwaysSkipsSoundly<T(!new)>(fingerprint: T -> Bytes, same: (T, T) -> bool, met: iset<T>, tree: T) {
    forall w: World<T> |
      (forall t: T :: w.fingerprint(t) == fingerprint(t)) && PassingGatesKeepTheTree(w) && Respects(w, same) ::
      SkipsSoundly(w, met, tree)
  }

  /** Skipping is sound at a tree if and only if no tree met before has its fingerprint but those no gate tells apart. */
  lemma SkippingIsSoundExactly<T(!new)>(fingerprint: T -> Bytes, same: (T, T) -> bool, met: iset<T>, tree: T)
    requires Equivalence(same)
    ensures AlwaysSkipsSoundly(fingerprint, same, met, tree)
      <==> forall other: T :: other in met && fingerprint(other) == fingerprint(tree) ==> same(tree, other)
  {
    if forall other: T :: other in met && fingerprint(other) == fingerprint(tree) ==> same(tree, other) {
      forall w: World<T> |
        (forall t: T :: w.fingerprint(t) == fingerprint(t)) && PassingGatesKeepTheTree(w) && Respects(w, same)
        ensures SkipsSoundly(w, met, tree)
      {
        IdentifiedSkips(w, same, met, tree);
      }
    } else {
      var other: T :| other in met && fingerprint(other) == fingerprint(tree) && !same(tree, other);
      var w := OnlyPassesOn(fingerprint, same, other);
      OnlyPassesKeeps(fingerprint, same, other);
      ConfusedSkip(w, met, tree, other);
    }
  }

  lemma IdentifiedSkips<T(!new)>(w: World<T>, same: (T, T) -> bool, met: iset<T>, tree: T)
    requires PassingGatesKeepTheTree(w) && Respects(w, same)
    requires forall other: T :: other in met && w.fingerprint(other) == w.fingerprint(tree) ==> same(tree, other)
    ensures SkipsSoundly(w, met, tree)
  {
    hide RunGates, RunEveryGate;
    forall gate: Gate, executed: set<(string, Bytes)> | EarnedOn(w, met, executed)
      ensures var cached, every := RunGates(w, Progress(tree, [], executed), [gate]), RunEveryGate(w, tree, [gate]);
        cached.failures == every.failures && cached.tree == every.tree
    {
      OneGate(w, Progress(tree, [], executed), gate);
      OneUncached(w, tree, gate);
      if (gate.command, w.fingerprint(tree)) in executed {
        var other: T :| other in met && w.fingerprint(other) == w.fingerprint(tree) && w.run(gate.command, other).passed;
        assert same(tree, other);
      }
    }
  }

  lemma OneUncached<T(!new)>(w: World<T>, tree: T, gate: Gate)
    ensures RunEveryGate(w, tree, [gate]) ==
      if !w.applies(gate, tree) then Progress(tree, [], {})
      else Progress(w.run(gate.command, tree).after,
                    if gate.required && !w.run(gate.command, tree).passed then [gate.id] else [], {})
  {
    assert [gate][..0] == [];
  }

  /** Gates that pass on one kind of tree only, and change nothing. */
  function OnlyPassesOn<T>(fingerprint: T -> Bytes, same: (T, T) -> bool, other: T): World<T> {
    World((gate: Gate, t: T) => true, (command: string, t: T) => Verdict(same(other, t), t), fingerprint)
  }

  lemma OnlyPassesKeeps<T(!new)>(fingerprint: T -> Bytes, same: (T, T) -> bool, other: T)
    requires Equivalence(same)
    ensures var w := OnlyPassesOn(fingerprint, same, other); PassingGatesKeepTheTree(w) && Respects(w, same)
  {
    var w := OnlyPassesOn(fingerprint, same, other);
    forall command, a: T, b: T | same(a, b) ensures w.run(command, a).passed == w.run(command, b).passed {
      assert same(b, a);
    }
  }

  lemma ConfusedSkip<T(!new)>(w: World<T>, met: iset<T>, tree: T, other: T)
    requires other in met && w.fingerprint(other) == w.fingerprint(tree)
    requires forall gate :: w.applies(gate, tree)
    requires w.run("test", other).passed && !w.run("test", tree).passed
    ensures !SkipsSoundly(w, met, tree)
  {
    var gate, executed := Gate("test", "test", true), {("test", w.fingerprint(tree))};
    assert EarnedOn(w, met, executed);
    OneGate(w, Progress(tree, [], executed), gate);
    OneUncached(w, tree, gate);
  }

  /** A tree and the order git lists its untracked files in. */
  datatype Checkout = Checkout(tree: Snapshot, listing: seq<Bytes>)

  ghost predicate Presented(c: Checkout) { CountableSnapshot(c.tree) && Lists(c.listing, c.tree.untracked) }

  /** The checkouts the hash separates from this one: all it ever meets, short of a collision. */
  ghost function SeparatedFrom(hash: Bytes -> Bytes, c: Checkout): iset<Checkout> {
    iset d: Checkout | Presented(d) && Separates(hash, SeenBy(c.tree, c.listing), SeenBy(d.tree, d.listing))
  }

  /**
   With the source's fingerprint, and a cache earned on trees the hash separates from this
   one: skipping gates is sound in every world in which passing gates keep the tree and see
   no more of it than git, if and only if git's answers are UTF-8 without U+FFFD.
   */
  lemma SourceSkipsSoundlyExactly(hash: Bytes -> Bytes, c: Checkout)
    requires Presented(c) && c in SeparatedFrom(hash, c)
    ensures AlwaysSkipsSoundly((d: Checkout) => SourceTreeHash(hash, d.tree, d.listing),
                               (a: Checkout, b: Checkout) => SameForGit(a.tree, b.tree), SeparatedFrom(hash, c), c)
      <==> PlainSnapshot(c.tree)
  {
    hide AlwaysSkipsSoundly, SourceTreeHash, Separates, SeenBy, PlainSnapshot, CountableSnapshot, Lists;
    var fingerprint := (d: Checkout) => SourceTreeHash(hash, d.tree, d.listing);
    var same := (a: Checkout, b: Checkout) => SameForGit(a.tree, b.tree);
    SkippingIsSoundExactly(fingerprint, same, SeparatedFrom(hash, c), c);
    IdentifiedExactly(hash, c.tree, c.listing);
    IdentifiedAmongMet(hash, c);
  }

  lemma IdentifiedAmongMet(hash: Bytes -> Bytes, c: Checkout)
    ensures Identified(hash, c.tree, c.listing) <==>
      forall d: Checkout ::
        d in SeparatedFrom(hash, c) && SourceTreeHash(hash, d.tree, d.listing) == SourceTreeHash(hash, c.tree, c.listing)
        ==> SameForGit(c.tree, d.tree)
  {
    hide SourceTreeHash, SameForGit, Separates, SeenBy, CountableSnapshot, Lists;
    if !Identified(hash, c.tree, c.listing) {
      var t, other :| CountableSnapshot(t) && Lists(other, t.untracked)
        && Separates(hash, SeenBy(c.tree, c.listing), SeenBy(t, other))
        && SourceTreeHash(hash, c.tree, c.listing) == SourceTreeHash(hash, t, other) && !SameForGit(c.tree, t);
      assert Checkout(t, other) in SeparatedFrom(hash, c);
    }
  }

  // ---------------------------------------------------------------- runs in which the cache shows

  /** Tree 0 is unformatted and tree 1 formatted; `fmt` formats, `lint` accepts only tree 1. */
  const FORMATTED: World<nat> := World(
    (gate: Gate, tree: nat) => true,
    (command: string, tree: nat) => if command == "fmt" then Verdict(true, 1) else Verdict(tree == 1, tree),
    (tree: nat) => seq(tree, _ => 0 as Byte))

  const FMT := Gate("fmt", "fmt", true)
  const LINT := Gate("lint", "lint", true)

  /** What the first round, on the unformatted tree, leaves in the cache. */
  const LEARNED: set<(string, Bytes)> := {("fmt", FORMATTED.fingerprint(0)), ("lint", FORMATTED.fingerprint(1))}

  lemma FormattedPrints()
    ensures CollisionFree(FORMATTED) && FORMATTED.fingerprint(0) == [] && |FORMATTED.fingerprint(1)| == 1
  {
    forall a: nat, b: nat | FORMATTED.fingerprint(a) == FORMATTED.fingerprint(b) ensures a == b {
      assert |FORMATTED.fingerprint(a)| == a && |FORMATTED.fingerprint(b)| == b;
    }
  }

  lemma FirstRound()
    ensures RunGates(FORMATTED, Progress(0, [], {}), [FMT, LINT]) == Progress(1, [], LEARNED)
  {
    hide RunGates;
    var formatted := Progress(1, [], {("fmt", FORMATTED.fingerprint(0))});
    assert RunGate(FORMATTED, Progress(0, [], {}), FMT) == formatted;
    TwoGates(FORMATTED, Progress(0, [], {}), FMT, LINT);
    assert FMT.command != LINT.command;
  }

  lemma SecondRound()
    ensures RunGates(FORMATTED, Progress(0, [], LEARNED), [FMT, LINT]).failures == ["lint"]
  {
    hide RunGates, RunGate;
    TwoGates(FORMATTED, Progress(0, [], LEARNED), FMT, LINT);
    SkipsFmt();
    RunsLint();
  }

  lemma SkipsFmt()
    ensures RunGate(FORMATTED, Progress(0, [], LEARNED), FMT) == Progress(0, [], LEARNED)
  {
  }

  lemma RunsLint()
    ensures RunGate(FORMATTED, Progress(0, [], LEARNED), LINT).failures == ["lint"]
  {
    FormattedPrints();
    assert FMT.command != LINT.command;
    assert ("lint", FORMATTED.fingerprint(0)) !in LEARNED;
  }

  lemma Uncached()
    ensures RunEveryGate(FORMATTED, 0, [FMT, LINT]).failures == []
  {
    assert [FMT, LINT][..1] == [FMT] && [FMT][..0] == [];
    assert RunEveryGate(FORMATTED, 0, [FMT]) == Progress(1, [], {});
  }

  /** Two rounds on an unformatted tree: the second skips the formatter, so the linter fails. */
  lemma SkippedFormatterFailsTheLinter()
    ensures CollisionFree(FORMATTED) && !PassingGatesKeepTheTree(FORMATTED)
    ensures var gates := [FMT, LINT];
      && RunEveryGate(FORMATTED, 0, gates).failures == []
      && RunGates(FORMATTED, Progress(0, [], Rounds(FORMATTED, gates, [])), gates).failures == []
      && RunGates(FORMATTED, Progress(0, [], Rounds(FORMATTED, gates, [0])), gates).failures == ["lint"]
  {
    hide *;
    FormattedPrints();
    FormatterChangesTheTree();
    FirstRound();
    SecondRound();
    Uncached();
    RoundsLearn();
  }

  lemma FormatterChangesTheTree()
    ensures !PassingGatesKeepTheTree(FORMATTED)
  {
    assert FORMATTED.run("fmt", 0).passed && FORMATTED.run("fmt", 0).after != 0;
  }

  lemma RoundsLearn()
    ensures Rounds(FORMATTED, [FMT, LINT], []) == {} && Rounds(FORMATTED, [FMT, LINT], [0]) == LEARNED
  {
    hide RunGates, LEARNED, FORMATTED;
    FirstRound();
    var trees: seq<nat> := [0];
    assert trees[..0] == [];
    assert Rounds(FORMATTED, [FMT, LINT], trees[..0]) == {};
  }

  lemma TwoGates<T(!new)>(w: World<T>, p: Progress<T>, first: Gate, second: Gate)
    ensures RunGates(w, p, [first, second]) == RunGate(w, RunGate(w, p, first), second)
  {
    assert [first, second][..1] == [first];
    OneGate(w, p, first);
  }

  /** A gate that reads the Latin-1 named file and passes while it is empty. */
  function LatinWorld(hash: Bytes -> Bytes): World<Bytes> {
    World((gate: Gate, content: Bytes) => true,
          (command: string, content: Bytes) => Verdict(content == [], content),
          (content: Bytes) => SourceTreeHash(hash, WithLatinFile(content), [LATIN_NAME]))
  }

  /**
   With the source's own fingerprint, a gate that passed on one tree is skipped on another
   that differs in a file whose name is not UTF-8, where it would fail.
   */
  lemma LatinNameSkipsAGate(hash: Bytes -> Bytes, content: Bytes)
    requires content != []
    ensures var w, gate := LatinWorld(hash), Gate("test", "test", true);
      && PassingGatesKeepTheTree(w) && !CollisionFree(w)
      && RunEveryGate(w, content, [gate]).failures == ["test"]
      && RunGates(w, Progress(content, [], Rounds(w, [gate], [[]])), [gate]).failures == []
  {
    hide SourceTreeHash;
    var w, gate := LatinWorld(hash), Gate("test", "test", true);
    LatinNameHidesContents(hash, [], content);
    assert w.fingerprint([]) == w.fingerprint(content);
    OneGate(w, Progress([], [], {}), gate);
    OneGate(w, Progress(content, [], {}), gate);
    var trees: seq<Bytes> := [[]];
    assert trees[..0] == [];
    assert Rounds(w, [gate], trees[..0]) == {};
    assert Rounds(w, [gate], trees) == {("test", w.fingerprint([]))};
    OneGate(w, Progress(content, [], {("test", w.fingerprint([]))}), gate);
  }

  // ---------------------------------------------------------------- the gate loop

  /** `run_quality_gates`. */
  method RunQualityGates<T>(w: World<T>, gates: seq<Gate>, start: T, known: set<(string, Bytes)>)
    returns (tree: T, failures: seq<string>, executed: set<(string, Bytes)>)
    ensures Progress(tree, failures, executed) == RunGates(w, Progress(start, [], known), gates)
  {
    tree, failures, executed := start, [], known;
    for i := 0 to |gates|
      invariant Progress(tree, failures, executed) == RunGates(w, Progress(start, [], known), gates[..i])
    {
      assert gates[..i + 1][..i] == gates[..i];
      var gate := gates[i];
      if !w.applies(gate, tree) {
        continue;
      }
      var fingerprint := w.fingerprint(tree);
      if (gate.command, fingerprint) in executed {
        continue;
      }
      var verdict := w.run(gate.command, tree);
      tree := verdict.after;
      if verdict.passed {
        executed := executed + {(gate.command, fingerprint)};
      }
      if gate.required && !verdict.passed {
        failures := failures + [gate.id];
      }
    }
    assert gates[..|gates|] == gates;
  }
}
