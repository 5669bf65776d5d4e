/**
 Commits as git sees them: a graph of immutable commits, what a history changed, and what
 `merge-base` and `rebase` answer.
 */
module CommitGraph {
  import opened Common

  type Patch = nat

  /** `salt` stands for everything else a commit id hashes: author, time, message. */
  datatype Commit = Commit(parents: seq<Commit>, patch: Patch, salt: nat)

  // ---------------------------------------------------------------- history and patches

  /** The commit and all its ancestors. */
  function History(c: Commit): set<Commit> {
    {c} + (set i, a | 0 <= i < |c.parents| && a in History(c.parents[i]) :: a)
  }

  /** What the history changed; a merge carries no change of its own. */
  function Patches(c: Commit): set<Patch> {
    set a | a in History(c) && |a.parents| <= 1 :: a.patch
  }

  predicate IsAncestor(a: Commit, c: Commit) { a in History(c) }

  function Tallest(commits: seq<Commit>): nat {
    if commits == [] then 0
    else
      var last := Height(commits[|commits| - 1]);
      var rest := Tallest(commits[..|commits| - 1]);
      if last < rest then rest else last
  }

  function Height(c: Commit): nat { 1 + Tallest(c.parents) }

  lemma {:induction false} TallestBounds(commits: seq<Commit>, i: nat)
    requires i < |commits|
    ensures Height(commits[i]) <= Tallest(commits)
  {
    if i < |commits| - 1 {
      TallestBounds(commits[..|commits| - 1], i);
    }
  }

  lemma {:induction false} AncestorsAreLower(a: Commit, c: Commit)
    requires IsAncestor(a, c)
    ensures a == c || Height(a) < Height(c)
  {
    if a != c {
      var i :| 0 <= i < |c.parents| && a in History(c.parents[i]);
      AncestorsAreLower(a, c.parents[i]);
      TallestBounds(c.parents, i);
    }
  }

  lemma {:induction false} AncestryTransitive(a: Commit, b: Commit, c: Commit)
    requires IsAncestor(a, b) && IsAncestor(b, c)
    ensures IsAncestor(a, c)
  {
    if b != c {
      var i :| 0 <= i < |c.parents| && b in History(c.parents[i]);
      AncestryTransitive(a, b, c.parents[i]);
    }
  }

  lemma AncestorPatches(a: Commit, c: Commit)
    requires IsAncestor(a, c)
    ensures Patches(a) <= Patches(c)
  {
    forall p | p in Patches(a) ensures p in Patches(c) {
      var x :| x in History(a) && |x.parents| <= 1 && x.patch == p;
      AncestryTransitive(x, a, c);
    }
  }

  lemma ChildPatches(c: Commit)
    requires |c.parents| == 1
    ensures Patches(c) == Patches(c.parents[0]) + {c.patch}
    ensures History(c) == History(c.parents[0]) + {c}
  {
    var p := c.parents[0];
    assert History(c) == History(p) + {c};
    forall q | q in Patches(p) ensures q in Patches(c) {
      var x :| x in History(p) && |x.parents| <= 1 && x.patch == q;
      assert x in History(c);
    }
    assert c in History(c);
  }

  // ---------------------------------------------------------------- git's answers

  /** One commit replayed by a rebase; the copy gets a salt of its own. */
  datatype Pick = Pick(commit: Commit, salt: nat)

  function Commits(picks: seq<Pick>): set<Commit> { set pick | pick in picks :: pick.commit }

  function PatchesOf(picks: seq<Pick>): set<Patch> { set pick | pick in picks :: pick.commit.patch }

  /** A rebase replays each pick in turn and drops one whose change is already there. */
  function ReplayOnto(onto: Commit, picks: seq<Pick>): Commit {
    if picks == [] then onto
    else
      var before := ReplayOnto(onto, picks[..|picks| - 1]);
      var pick := picks[|picks| - 1];
      if pick.commit.patch in Patches(before) then before else Commit([before], pick.commit.patch, pick.salt)
  }

  /** The commits `git rebase upstream` takes: reachable from the head only, without merges. */
  function Unshared(head: Commit, upstream: Commit): set<Commit> {
    set c | c in History(head) - History(upstream) && |c.parents| <= 1
  }

  predicate Enumerates(picks: seq<Pick>, head: Commit, upstream: Commit) {
    Commits(picks) == Unshared(head, upstream)
  }

  /** `git merge-base`: a common ancestor below no other, or nothing for unrelated histories. */
  predicate IsMergeBase(answer: Option<Commit>, a: Commit, b: Commit) {
    match answer
    case None => History(a) !! History(b)
    case Some(m) =>
      m in History(a) && m in History(b)
      && forall other :: other in History(a) * History(b) && m in History(other) ==> other == m
  }

  lemma {:induction false} ReplayKeeps(onto: Commit, picks: seq<Pick>)
    ensures IsAncestor(onto, ReplayOnto(onto, picks))
    ensures Patches(ReplayOnto(onto, picks)) == Patches(onto) + PatchesOf(picks)
  {
    if picks != [] {
      var front, pick := picks[..|picks| - 1], picks[|picks| - 1];
      ReplayKeeps(onto, front);
      assert picks == front + [pick];
      assert PatchesOf(picks) == PatchesOf(front) + {pick.commit.patch};
      var after := ReplayOnto(onto, picks);
      if pick.commit.patch !in Patches(ReplayOnto(onto, front)) {
        ChildPatches(after);
      }
    }
  }

  /** Rebasing from a shared commit loses nothing of either side. */
  lemma RebaseFromShared(onto: Commit, head: Commit, upstream: Commit, picks: seq<Pick>)
    requires IsAncestor(upstream, head) && IsAncestor(upstream, onto) && Enumerates(picks, head, upstream)
    ensures Patches(ReplayOnto(onto, picks)) == Patches(onto) + Patches(head)
  {
    ReplayKeeps(onto, picks);
    AncestorPatches(upstream, onto);
    forall p | p in Patches(head) ensures p in Patches(onto) + PatchesOf(picks) {
      var x :| x in History(head) && |x.parents| <= 1 && x.patch == p;
      if x !in History(upstream) {
        assert x in Commits(picks);
      }
    }
    forall p | p in PatchesOf(picks) ensures p in Patches(head) {
      var pick :| pick in picks && pick.commit.patch == p;
      assert pick.commit in Commits(picks);
    }
  }

  lemma LastCommitEnumerated(head: Commit, salt: nat)
    requires |head.parents| == 1
    ensures Unshared(head, head.parents[0]) == {head}
    ensures Enumerates([Pick(head, salt)], head, head.parents[0])
  {
    var parent := head.parents[0];
    ChildPatches(head);
    if head in History(parent) {
      AncestorsAreLower(head, parent);
      TallestBounds(head.parents, 0);
    }
    assert Unshared(head, parent) == {head};
    assert Pick(head, salt) in [Pick(head, salt)];
    assert Commits([Pick(head, salt)]) == {head};
  }

  /** Rebasing from the commit's own parent takes that one commit, however many are unpublished. */
  lemma RebaseFromParent(onto: Commit, head: Commit, picks: seq<Pick>)
    requires |head.parents| == 1 && Enumerates(picks, head, head.parents[0])
    ensures Patches(ReplayOnto(onto, picks)) == Patches(onto) + {head.patch}
  {
    ReplayKeeps(onto, picks);
    LastCommitEnumerated(head, 0);
    assert head in Commits(picks);
    forall p | p in PatchesOf(picks) ensures p == head.patch {
      var pick :| pick in picks && pick.commit.patch == p;
      assert pick.commit in Commits(picks);
    }
    assert head.patch in PatchesOf(picks);
  }

  lemma ReplayOne(onto: Commit, pick: Pick)
    requires pick.commit.patch !in Patches(onto)
    ensures ReplayOnto(onto, [pick]) == Commit([onto], pick.commit.patch, pick.salt)
  {
    assert [pick][..0] == [];
    assert ReplayOnto(onto, []) == onto;
  }

  lemma AncestorIsMergeBase(c: Commit, a: Commit)
    requires IsAncestor(a, c)
    ensures IsMergeBase(Some(a), c, a)
  {
    assert a in History(a);
    forall other | other in History(c) * History(a) && a in History(other) ensures other == a {
      AncestorsAreLower(other, a);
      AncestorsAreLower(a, other);
    }
  }

  lemma ParentIsMergeBase(c: Commit, d: Commit)
    requires |c.parents| == 1 && IsAncestor(c.parents[0], d) && !IsAncestor(c, d)
    ensures IsMergeBase(Some(c.parents[0]), c, d) && IsMergeBase(Some(c.parents[0]), d, c)
  {
    var m := c.parents[0];
    ChildPatches(c);
    assert m in History(m);
    forall other | other in History(c) * History(d) && m in History(other) ensures other == m {
      AncestorsAreLower(other, m);
      AncestorsAreLower(m, other);
    }
  }
}
