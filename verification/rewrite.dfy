/**
 Rewriting a diverged commit in the middle of the unclean branch and replaying
 everything above it.
 */
module Rewrite {
  import opened Options
  import opened GitTree
  import opened Commits
  import opened SyncSplits
  import opened SyncUnclean

  // ------------------------------------------------------------ the line

  /** The commits of a line are its own ends: position k ends a line of k + 1 commits. */
  lemma {:induction false} LineAt(tip: Commit, k: nat)
    requires k < |Line(tip)|
    ensures Line(Line(tip)[k]) == Line(tip)[..k + 1]
  {
    var n := |Line(tip)| - 1;
    if k < n {
      LineAt(tip.first, k);
      assert Line(tip)[..k + 1] == Line(tip.first)[..k + 1];
    } else {
      assert Line(tip)[..k + 1] == Line(tip);
    }
  }

  /** A commit occurs on a line only at the position its own line length says. */
  lemma LinePosition(tip: Commit, c: Commit)
    requires c in Line(tip)
    ensures |Line(c)| <= |Line(tip)| && Line(tip)[|Line(c)| - 1] == c && Line(c) == Line(tip)[..|Line(c)|]
    ensures IndexOf(Line(tip), c) == |Line(c)| - 1
  {
    var k := IndexOf(Line(tip), c);
    assert Line(tip)[k] == c;
    LineAt(tip, k);
    assert Line(c) == Line(tip)[..k + 1];
  }

  /** The commits above `c`, oldest first. */
  function Above(tip: Commit, c: Commit): seq<Commit>
    requires c in Line(tip)
  {
    LinePosition(tip, c);
    Line(tip)[|Line(c)|..]
  }

  lemma {:induction false} LineLinks(tip: Commit, k: nat)
    requires k + 1 < |Line(tip)|
    ensures Line(tip)[k + 1].Child? && Line(tip)[k + 1].first == Line(tip)[k]
  {
    if k + 2 < |Line(tip)| { LineLinks(tip.first, k); }
  }

  /** Each commit above `c` follows the one before it, the first one follows `c`. */
  lemma AboveFollows(tip: Commit, c: Commit, i: nat)
    requires c in Line(tip) && i < |Above(tip, c)|
    ensures var ds := Above(tip, c);
      ds[i].Child? && ds[i].first == if i == 0 then c else ds[i - 1]
  {
    LinePosition(tip, c);
    LineLinks(tip, |Line(c)| + i - 1);
  }

  lemma AboveEnds(tip: Commit, c: Commit)
    requires c in Line(tip)
    ensures Above(tip, c) == [] ==> tip == c
    ensures Above(tip, c) != [] ==> Above(tip, c)[|Above(tip, c)| - 1] == tip
  {
    LinePosition(tip, c);
    assert Line(tip)[|Line(tip)| - 1] == tip;
  }

  lemma AboveIsLinked(tip: Commit, c: Commit)
    requires c in Line(tip)
    ensures Linked(c.tree, Above(tip, c))
    ensures Above(tip, c) == [] ==> tip == c
    ensures Above(tip, c) != [] ==> Above(tip, c)[|Above(tip, c)| - 1] == tip
  {
    AboveEnds(tip, c);
    var ds := Above(tip, c);
    if ds != [] { AboveFollows(tip, c, 0); }
    forall i | 0 < i < |ds| ensures ds[i].Child? && ds[i].first == ds[i - 1] { AboveFollows(tip, c, i); }
  }

  // ------------------------------------------------------------- one path

  /** Some commit of the list changes the path. */
  predicate TouchedIn(ds: seq<Commit>, p: Path) {
    exists i :: 0 <= i < |ds| && !SameAt(ParentTree(ds[i]), ds[i].tree, p)
  }

  predicate SteadyAt(ds: seq<Commit>, p: Path) {
    forall i :: 0 <= i < |ds| ==> !KindFlip(ParentTree(ds[i]), ds[i].tree, p)
  }

  lemma ReplayedAt(prev: Commit, d: Commit, t: Tools, p: Path)
    requires Sound(t) && !KindFlip(ParentTree(d), d.tree, p)
    ensures SameAt(ReplayOnto(prev, d, t).tree, if SameAt(ParentTree(d), d.tree, p) then prev.tree else d.tree, p)
  {
    var changes := t.diff(ParentTree(d), d.tree);
    assert IsDiff(ParentTree(d), d.tree, changes);
    BuiltTree(prev.tree, ParentTree(d), d.tree, changes, BothSides, t.ai);
  }

  /** Replaying a linked list gives its last tree where the list touches, and leaves the rest. */
  lemma {:induction false} ReplayAllAt(prev: Commit, base: Tree, ds: seq<Commit>, t: Tools, p: Path)
    requires Sound(t) && Linked(base, ds) && SteadyAt(ds, p)
    ensures SameAt(ReplayAllOnto(prev, ds, t).tree, if TouchedIn(ds, p) then TreeAt(base, ds, |ds|) else prev.tree, p)
    ensures !TouchedIn(ds, p) ==> SameAt(base, TreeAt(base, ds, |ds|), p)
  {
    if ds != [] {
      var n := |ds| - 1;
      assert forall i :: 0 <= i < n ==> ds[..n][i] == ds[i];
      ReplayAllAt(prev, base, ds[..n], t, p);
      LinkedTrees(base, ds, n);
      assert TreeAt(base, ds[..n], n) == ParentTree(ds[n]);
      ReplayedAt(ReplayAllOnto(prev, ds[..n], t), ds[n], t, p);
      assert TouchedIn(ds, p) <==> TouchedIn(ds[..n], p) || !SameAt(ParentTree(ds[n]), ds[n].tree, p);
    }
  }

  // ---------------------------------------------------------- the new line

  function ReplayedLine(prev: Commit, ds: seq<Commit>, t: Tools): (r: seq<Commit>)
    ensures |r| == |ds| && forall i :: 0 <= i < |ds| ==> r[i].msg == ds[i].msg
  {
    if ds == [] then [] else ReplayedLine(prev, ds[..|ds| - 1], t) + [ReplayAllOnto(prev, ds, t)]
  }

  lemma {:induction false} ReplayedLineIs(prev: Commit, ds: seq<Commit>, t: Tools)
    ensures Line(ReplayAllOnto(prev, ds, t)) == Line(prev) + ReplayedLine(prev, ds, t)
  {
    if ds == [] {
      assert Line(prev) + [] == Line(prev);
    } else {
      ReplayedLineIs(prev, ds[..|ds| - 1], t);
    }
  }

  lemma AmendedLine(c: Commit, tree: Tree)
    ensures Line(Amended(c, tree)) == Line(c)[..|Line(c)| - 1] + [Amended(c, tree)]
  {
    assert Line(c) == (if c.Child? then Line(c.first) else []) + [c];
  }

  function RewrittenTip(tip: Commit, c: Commit, tree: Tree, t: Tools): Commit
    requires c in Line(tip)
  {
    ReplayAllOnto(Amended(c, tree), Above(tip, c), t)
  }

  lemma RewriteIs(tip: Commit, c: Commit, tree: Tree, t: Tools)
    requires c in Line(tip)
    ensures RewriteFrom(tip, c, tree, t) == Ok(RewrittenTip(tip, c, tree, t))
  {
    LinePosition(tip, c);
  }

  /**
   The rewrite theorem, path by path: the old content where a later commit
   touches the path or the new tree agrees with the amended commit, the new
   tree's content elsewhere.
   */
  lemma RewrittenContent(tip: Commit, c: Commit, tree: Tree, t: Tools, p: Path)
    requires Sound(t) && c in Line(tip) && SteadyAt(Above(tip, c), p)
    ensures var r := RewriteFrom(tip, c, tree, t);
      && r.Ok?
      && SameAt(r.value.tree, if TouchedIn(Above(tip, c), p) || SameAt(tree, c.tree, p) then tip.tree else tree, p)
  {
    RewriteIs(tip, c, tree, t);
    AboveIsLinked(tip, c);
    ReplayAllAt(Amended(c, tree), c.tree, Above(tip, c), t, p);
  }

  lemma RewrittenParts(tip: Commit, c: Commit, tree: Tree, t: Tools)
    requires c in Line(tip)
    ensures Line(RewrittenTip(tip, c, tree, t))
         == Line(c)[..|Line(c)| - 1] + [Amended(c, tree)] + ReplayedLine(Amended(c, tree), Above(tip, c), t)
  {
    ReplayedLineIs(Amended(c, tree), Above(tip, c), t);
    AmendedLine(c, tree);
  }

  /** Replacing position n - 1 and everything from n on by commits with the same messages. */
  lemma PartsAt(old_: seq<Commit>, n: nat, c: Commit, tail: seq<Commit>)
    requires 0 < n <= |old_| && |tail| == |old_| - n && c.msg == old_[n - 1].msg
    requires forall i :: 0 <= i < |tail| ==> tail[i].msg == old_[n..][i].msg
    ensures var line := old_[..n][..n - 1] + [c] + tail;
      && |line| == |old_|
      && (forall i :: 0 <= i < n - 1 ==> line[i] == old_[i])
      && line[n - 1] == c
      && (forall i :: 0 <= i < |line| ==> line[i].msg == old_[i].msg)
  {
    var line := old_[..n][..n - 1] + [c] + tail;
    forall i | n <= i < |line| ensures line[i].msg == old_[i].msg {
      assert line[i] == tail[i - n] && old_[n..][i - n] == old_[i];
    }
  }

  /** The rewritten line, position by position. */
  lemma RewrittenLine(tip: Commit, c: Commit, tree: Tree, t: Tools)
    requires c in Line(tip)
    ensures var n := |Line(c)|; var line := Line(RewrittenTip(tip, c, tree, t));
      && |line| == |Line(tip)| && 0 < n <= |line|
      && (forall i :: 0 <= i < n - 1 ==> line[i] == Line(tip)[i])
      && line[n - 1] == Amended(c, tree)
      && forall i :: 0 <= i < |line| ==> line[i].msg == Line(tip)[i].msg
  {
    LinePosition(tip, c);
    RewrittenParts(tip, c, tree, t);
    PartsAt(Line(tip), |Line(c)|, Amended(c, tree), ReplayedLine(Amended(c, tree), Above(tip, c), t));
  }

  lemma {:induction false} ReplayedAreFlat(prev: Commit, ds: seq<Commit>, t: Tools, j: nat)
    requires j < |ds|
    ensures !IsMerge(ReplayedLine(prev, ds, t)[j])
  {
    if j < |ds| - 1 { ReplayedAreFlat(prev, ds[..|ds| - 1], t, j); }
  }

  lemma TailAt(before: seq<Commit>, now: Commit, tail: seq<Commit>, j: nat)
    requires j < |tail|
    ensures (before + [now] + tail)[|before| + 1 + j] == tail[j]
  {
  }

  /** The commits above the amended one are the replayed ones. */
  lemma ReplayedAbove(tip: Commit, c: Commit, tree: Tree, t: Tools, j: nat)
    requires c in Line(tip) && j < |Above(tip, c)|
    ensures var n, line := |Line(c)|, Line(RewrittenTip(tip, c, tree, t));
      n + j < |line| && line[n + j] == ReplayedLine(Amended(c, tree), Above(tip, c), t)[j]
  {
    var before, tail := Line(c)[..|Line(c)| - 1], ReplayedLine(Amended(c, tree), Above(tip, c), t);
    RewrittenParts(tip, c, tree, t);
    TailAt(before, Amended(c, tree), tail, j);
  }

  /** From the amended commit on, merges are flattened: only the line's own parent is kept. */
  lemma RewriteFlattens(tip: Commit, c: Commit, tree: Tree, t: Tools, j: nat)
    requires c in Line(tip)
    ensures !IsMerge(Amended(c, tree))
    ensures j < |Above(tip, c)| ==> var line := Line(RewrittenTip(tip, c, tree, t));
      |Line(c)| + j < |line| && !IsMerge(line[|Line(c)| + j])
  {
    if j < |Above(tip, c)| {
      ReplayedAbove(tip, c, tree, t, j);
      ReplayedAreFlat(Amended(c, tree), Above(tip, c), t, j);
    }
  }

  lemma {:induction false} SameMessagesSameKeys(a: seq<Commit>, b: seq<Commit>)
    requires |a| == |b| && forall i :: 0 <= i < |a| ==> a[i].msg == b[i].msg
    ensures KeysOf(a) == KeysOf(b)
  {
    if a != [] { SameMessagesSameKeys(a[..|a| - 1], b[..|b| - 1]); }
  }

  /** Commit count, messages and the order of reconstruction keys survive a rewrite. */
  lemma RewriteKeepsKeys(tip: Commit, c: Commit, tree: Tree, t: Tools)
    requires c in Line(tip)
    ensures var r := RewriteFrom(tip, c, tree, t);
      && r.Ok?
      && |Line(r.value)| == |Line(tip)|
      && (forall i :: 0 <= i < |Line(tip)| ==> Line(r.value)[i].msg == Line(tip)[i].msg)
      && KeysOf(Line(r.value)) == KeysOf(Line(tip))
  {
    RewriteIs(tip, c, tree, t);
    RewrittenLine(tip, c, tree, t);
    SameMessagesSameKeys(Line(RewrittenTip(tip, c, tree, t)), Line(tip));
  }

  // ------------------------------------------------------------ divergence

  /** Position of the newest commit built for a key. */
  lemma {:induction false} NewestWithKey(cs: seq<Commit>, k: Commit) returns (i: nat)
    requires k in KeyToSha(cs)
    ensures i < |cs| && KeyToSha(cs)[k] == cs[i] && ReadReconstructed(cs[i].msg.trailers) == Some(k)
    ensures forall j :: i < j < |cs| ==> ReadReconstructed(cs[j].msg.trailers) != Some(k)
  {
    var n := |cs| - 1;
    if ReadReconstructed(cs[n].msg.trailers) == Some(k) {
      i := n;
    } else {
      i := NewestWithKey(cs[..n], k);
    }
  }

  lemma {:induction false} NewestIs(cs: seq<Commit>, k: Commit, i: nat)
    requires i < |cs| && ReadReconstructed(cs[i].msg.trailers) == Some(k)
    requires forall j :: i < j < |cs| ==> ReadReconstructed(cs[j].msg.trailers) != Some(k)
    ensures k in KeyToSha(cs) && KeyToSha(cs)[k] == cs[i]
  {
    var n := |cs| - 1;
    if i < n { NewestIs(cs[..n], k, i); }
  }

  /** After its rewrite, a diverged key maps to the amended commit, which does not diverge. */
  lemma RewriteSettlesKey(tip: Commit, k: Commit, clean: CommitInfo, history: CommitInfo, t: Tools)
    requires k in KeyToSha(Line(tip))
    ensures var c := KeyToSha(Line(tip))[k];
            var r := RewriteFrom(tip, c, ExpectedTree(c, clean, history, t), t);
      && r.Ok?
      && k in KeyToSha(Line(r.value))
      && !Diverges(KeyToSha(Line(r.value))[k], clean, history, t)
  {
    var i := NewestWithKey(Line(tip), k);
    var c := Line(tip)[i];
    var tree := ExpectedTree(c, clean, history, t);
    LineAt(tip, i);
    RewriteIs(tip, c, tree, t);
    NewestStays(tip, c, i, k, tree, t);
  }

  /** The newest commit of a key is still its newest one once amended. */
  lemma NewestStays(tip: Commit, c: Commit, i: nat, k: Commit, tree: Tree, t: Tools)
    requires i < |Line(tip)| && c == Line(tip)[i] && |Line(c)| == i + 1
    requires ReadReconstructed(c.msg.trailers) == Some(k)
    requires forall j :: i < j < |Line(tip)| ==> ReadReconstructed(Line(tip)[j].msg.trailers) != Some(k)
    ensures var line := Line(RewrittenTip(tip, c, tree, t));
      k in KeyToSha(line) && KeyToSha(line)[k] == Amended(c, tree)
  {
    RewrittenLine(tip, c, tree, t);
    NewestIs(Line(RewrittenTip(tip, c, tree, t)), k, i);
  }

  /** Two lines through one commit coincide up to it. */
  lemma SharedBelow(a: Commit, b: Commit, d: Commit)
    requires d in Line(a) && d in Line(b)
    ensures |Line(d)| <= |Line(a)| && |Line(d)| <= |Line(b)|
    ensures forall i :: 0 <= i < |Line(d)| ==> Line(a)[i] == Line(b)[i]
  {
    LinePosition(a, d);
    LinePosition(b, d);
    forall i | 0 <= i < |Line(d)| ensures Line(a)[i] == Line(b)[i] {
      assert Line(a)[..|Line(d)|][i] == Line(b)[..|Line(d)|][i];
    }
  }

  lemma AboveIsGone(tip0: Commit, tip: Commit, c: Commit, tree: Tree, t: Tools, d: Commit)
    requires c in Line(tip0) && d in Line(tip0) && c in Line(tip) && tree != c.tree
    requires d in Line(RewrittenTip(tip, c, tree, t))
    ensures |Line(d)| < |Line(c)|
  {
    LinePosition(tip0, c);
    RewrittenLine(tip, c, tree, t);
    SharedBelow(tip0, RewrittenTip(tip, c, tree, t), d);
  }

  lemma BelowStays(tip0: Commit, tip: Commit, c: Commit, tree: Tree, t: Tools, d: Commit)
    requires c in Line(tip0) && d in Line(tip0) && c in Line(tip) && |Line(d)| < |Line(c)|
    ensures d in Line(RewrittenTip(tip, c, tree, t))
  {
    LinePosition(tip0, d);
    SharedBelow(tip0, tip, c);
    RewrittenLine(tip, c, tree, t);
    assert Line(RewrittenTip(tip, c, tree, t))[|Line(d)| - 1] == d;
  }

  /**
   A rewrite that changes a tree replaces that commit and everything above it,
   on whichever branch: of a line through it only what lies below stays.
   */
  lemma RewriteReplacesAbove(tip0: Commit, tip: Commit, c: Commit, tree: Tree, t: Tools, d: Commit)
    requires c in Line(tip0) && d in Line(tip0) && c in Line(tip) && tree != c.tree
    ensures d in Line(RewrittenTip(tip, c, tree, t)) <==> |Line(d)| < |Line(c)|
  {
    if d in Line(RewrittenTip(tip, c, tree, t)) { AboveIsGone(tip0, tip, c, tree, t, d); }
    if |Line(d)| < |Line(c)| { BelowStays(tip0, tip, c, tree, t, d); }
  }

  // -------------------------------------------------- several divergences

  /** Each commit lies strictly below the one before it. */
  predicate Descending(ds: seq<Divergence>) {
    forall i :: 0 < i < |ds| ==> |Line(ds[i].oldSha)| < |Line(ds[i - 1].oldSha)|
  }

  predicate Ascending(ds: seq<Divergence>) {
    forall i, j :: 0 <= i < j < |ds| ==> |Line(ds[i].oldSha)| < |Line(ds[j].oldSha)|
  }

  /** Divergences of one branch, each calling for another tree than the recorded one. */
  predicate RecordedOn(tip: Commit, ds: seq<Divergence>) {
    forall d :: d in ds ==> d.oldSha in Line(tip) && d.expected != d.oldSha.tree
  }

  lemma DescendingSplits(d1: Divergence, ds: seq<Divergence>)
    ensures Descending([d1] + ds)
       <==> Descending(ds) && (ds != [] ==> |Line(ds[0].oldSha)| < |Line(d1.oldSha)|)
  {
    var all := [d1] + ds;
    if Descending(ds) && (ds != [] ==> |Line(ds[0].oldSha)| < |Line(d1.oldSha)|) {
      forall i | 0 < i < |all| ensures |Line(all[i].oldSha)| < |Line(all[i - 1].oldSha)| {
        assert all[i] == ds[i - 1];
        if i > 1 { assert all[i - 1] == ds[i - 2]; }
      }
    }
    if Descending(all) {
      forall i | 0 < i < |ds| ensures |Line(ds[i].oldSha)| < |Line(ds[i - 1].oldSha)| {
        assert all[i + 1] == ds[i] && all[i] == ds[i - 1];
      }
      if ds != [] { assert all[1] == ds[0] && |Line(all[1].oldSha)| < |Line(all[1 - 1].oldSha)|; }
    }
  }

  lemma RecordedRest(tip: Commit, ds: seq<Divergence>)
    requires RecordedOn(tip, ds) && ds != []
    ensures RecordedOn(tip, ds[1..]) && ds[0].oldSha in Line(tip) && ds[0].expected != ds[0].oldSha.tree
  {
    assert ds[0] in ds;
    assert forall d :: d in ds[1..] ==> d in ds;
  }

  lemma RewriteFirst(tip: Commit, ds: seq<Divergence>, t: Tools)
    requires ds != []
    ensures if ds[0].oldSha in Line(tip)
      then RewriteEach(tip, ds, t) == RewriteEach(RewrittenTip(tip, ds[0].oldSha, ds[0].expected, t), ds[1..], t)
      else RewriteEach(tip, ds, t).1.Some?
  {
    if ds[0].oldSha in Line(tip) { RewriteIs(tip, ds[0].oldSha, ds[0].expected, t); }
  }

  /** The next recorded commit is still there exactly if it lies below the one just rewritten. */
  lemma NextStays(tip0: Commit, tip: Commit, d: Divergence, next: Divergence, t: Tools)
    requires RecordedOn(tip0, [d, next]) && d.oldSha in Line(tip)
    ensures next.oldSha in Line(RewrittenTip(tip, d.oldSha, d.expected, t))
       <==> |Line(next.oldSha)| < |Line(d.oldSha)|
  {
    assert d in [d, next] && next in [d, next];
    RewriteReplacesAbove(tip0, tip, d.oldSha, d.expected, t, next.oldSha);
  }

  /** Rewriting one after the other, from a tip that shares the first of them with the recorded branch. */
  lemma {:induction false} RewritesIffDescending(tip0: Commit, tip: Commit, ds: seq<Divergence>, t: Tools)
    requires RecordedOn(tip0, ds)
    ensures RewriteEach(tip, ds, t).1 == None <==> ds == [] || (ds[0].oldSha in Line(tip) && Descending(ds))
    decreases |ds|
  {
    if ds != [] {
      RewriteFirst(tip, ds, t);
      if ds[0].oldSha in Line(tip) {
        var d, rest := ds[0], ds[1..];
        assert ds == [d] + rest;
        DescendingSplits(d, rest);
        RecordedRest(tip0, ds);
        RewritesIffDescending(tip0, RewrittenTip(tip, d.oldSha, d.expected, t), rest, t);
        if rest != [] {
          assert d in ds && rest[0] in ds;
          NextStays(tip0, tip, d, rest[0], t);
        }
      }
    }
  }

  /** Oldest first is the wrong order: the second rewrite of a branch is refused. */
  lemma SecondIsRefused(tip: Commit, ds: seq<Divergence>, t: Tools)
    requires RecordedOn(tip, ds) && Ascending(ds) && |ds| >= 2
    ensures RewriteFrom(tip, ds[0].oldSha, ds[0].expected, t).Ok?
    ensures RewriteEach(tip, ds, t)
         == (RewriteFrom(tip, ds[0].oldSha, ds[0].expected, t).value, Some(NotOnBranch(ds[1].oldSha)))
  {
    assert ds[0] in ds && ds[1] in ds;
    RewriteIs(tip, ds[0].oldSha, ds[0].expected, t);
    RewriteReplacesAbove(tip, tip, ds[0].oldSha, ds[0].expected, t, ds[1].oldSha);
    var r := RewrittenTip(tip, ds[0].oldSha, ds[0].expected, t);
    assert RewriteEach(r, ds[1..], t) == (r, Some(NotOnBranch(ds[1].oldSha)));
  }

  /** A recorded commit that its current pair would no longer build, with the tree the pair gives. */
  predicate Genuine(
      d: Divergence, keyToSha: map<Commit, Commit>, clean: map<Commit, CommitInfo>, history: map<Commit, CommitInfo>,
      t: Tools)
  {
    && d.key in keyToSha && d.key in clean && d.key in history
    && d.oldSha == keyToSha[d.key]
    && d.expected == ExpectedTree(d.oldSha, clean[d.key], history[d.key], t)
    && d.expected != d.oldSha.tree
  }

  /** Detection reports exactly the genuine divergences among the given keys. */
  lemma {:induction false} DivergencesExact(
      keys: seq<Commit>, keyToSha: map<Commit, Commit>, clean: map<Commit, CommitInfo>,
      history: map<Commit, CommitInfo>, t: Tools, d: Divergence)
    ensures d in DivergencesOf(keys, keyToSha, clean, history, t)
          <==> d.key in keys && Genuine(d, keyToSha, clean, history, t)
  {
    if keys != [] {
      var n := |keys| - 1;
      DivergencesExact(keys[..n], keyToSha, clean, history, t, d);
      assert d.key in keys <==> d.key in keys[..n] || d.key == keys[n];
    }
  }

  // ------------------------------------------- the order detection finds

  predicate Distinct(keys: seq<Commit>) {
    forall i, j :: 0 <= i < j < |keys| ==> keys[i] != keys[j]
  }

  lemma {:induction false} DistinctStays(keys: seq<Commit>)
    requires Distinct(keys)
    ensures FirstOccurrences(keys) == keys
  {
    if keys != [] {
      var n := |keys| - 1;
      DistinctStays(keys[..n]);
      assert keys[n] !in keys[..n];
      assert keys == keys[..n] + [keys[n]];
    }
  }

  /** Where the commit recorded for a key lies on the branch. */
  function Height(keyToSha: map<Commit, Commit>, k: Commit): nat {
    if k in keyToSha then |Line(keyToSha[k])| else 0
  }

  /** In the order of the keys, their recorded commits lie higher and higher. */
  predicate Climbs(keys: seq<Commit>, keyToSha: map<Commit, Commit>) {
    forall i, j :: 0 <= i < j < |keys| ==> Height(keyToSha, keys[i]) < Height(keyToSha, keys[j])
  }

  /** A list that lines up: its commits stand on their own lines where they stand in the list. */
  predicate LinesUp(cs: seq<Commit>) {
    forall i :: 0 <= i < |cs| ==> |Line(cs[i])| == i + 1
  }

  lemma LineLinesUp(tip: Commit)
    ensures LinesUp(Line(tip))
  {
    forall i | 0 <= i < |Line(tip)| ensures |Line(Line(tip)[i])| == i + 1 { LineAt(tip, i); }
  }

  lemma LinesUpSplits(before: seq<Commit>, c: Commit)
    requires LinesUp(before + [c])
    ensures LinesUp(before) && |Line(c)| == |before| + 1
  {
    var cs := before + [c];
    assert cs[|before|] == c;
    forall i | 0 <= i < |before| ensures |Line(before[i])| == i + 1 { assert cs[i] == before[i]; }
  }

  lemma {:induction false} KeysClimb(cs: seq<Commit>)
    requires LinesUp(cs) && Distinct(KeysOf(cs))
    ensures ClimbsTo(KeysOf(cs), KeyToSha(cs), |cs|)
  {
    if cs != [] {
      var before, c := cs[..|cs| - 1], cs[|cs| - 1];
      assert cs == before + [c];
      LinesUpSplits(before, c);
      KeysOneMore(before, c);
      KeysClimb(before);
      ClimbOneMore(before, c);
    }
  }

  /** One more commit adds its key, if it has one, behind all others. */
  lemma KeysOneMore(cs: seq<Commit>, c: Commit)
    ensures var key := ReadReconstructed(c.msg.trailers);
      && KeysOf(cs + [c]) == (if key.Some? then KeysOf(cs) + [key.value] else KeysOf(cs))
      && KeyToSha(cs + [c]) == (if key.Some? then KeyToSha(cs)[key.value := c] else KeyToSha(cs))
    ensures Distinct(KeysOf(cs + [c])) ==> Distinct(KeysOf(cs))
  {
    assert (cs + [c])[..|cs|] == cs;
    var keys, all := KeysOf(cs), KeysOf(cs + [c]);
    assert forall i :: 0 <= i < |keys| ==> all[i] == keys[i];
  }

  lemma ClimbOneMore(cs: seq<Commit>, c: Commit)
    requires Distinct(KeysOf(cs + [c])) && ClimbsTo(KeysOf(cs), KeyToSha(cs), |Line(c)| - 1)
    ensures ClimbsTo(KeysOf(cs + [c]), KeyToSha(cs + [c]), |Line(c)|)
  {
    KeysOneMore(cs, c);
    var key := ReadReconstructed(c.msg.trailers);
    if key.Some? { ClimbOn(KeysOf(cs), KeyToSha(cs), key.value, c); }
  }

  predicate ClimbsTo(keys: seq<Commit>, keyToSha: map<Commit, Commit>, n: nat) {
    Climbs(keys, keyToSha) && forall k :: k in keys ==> Height(keyToSha, k) <= n
  }

  lemma ClimbOn(keys: seq<Commit>, m: map<Commit, Commit>, k: Commit, c: Commit)
    requires ClimbsTo(keys, m, |Line(c)| - 1) && Distinct(keys + [k])
    ensures ClimbsTo(keys + [k], m[k := c], |Line(c)|)
  {
    var all := keys + [k];
    forall i, j | 0 <= i < j < |all| ensures Height(m[k := c], all[i]) < Height(m[k := c], all[j]) {
      assert all[i] == keys[i] && keys[i] in keys && all[i] != all[|keys|];
      if j < |keys| { assert all[j] == keys[j] && all[j] != all[|keys|]; }
    }
    forall j | j in all ensures Height(m[k := c], j) <= |Line(c)| {
      if j != k { assert j in keys; }
    }
  }

  /** Detection lists divergences in the order of the keys. */
  lemma {:induction false} DetectedAscend(
    keys: seq<Commit>, m: map<Commit, Commit>, clean: map<Commit, CommitInfo>, history: map<Commit, CommitInfo>,
      t: Tools)
    requires Climbs(keys, m)
    ensures Ascending(DivergencesOf(keys, m, clean, history, t))
  {
    if keys != [] {
      var n := |keys| - 1;
      DetectedAscend(keys[..n], m, clean, history, t);
      var found := DivergencesOf(keys[..n], m, clean, history, t);
      forall d | d in found ensures d.key in keys[..n] && d.key in m && d.oldSha == m[d.key] {
        DivergencesExact(keys[..n], m, clean, history, t, d);
      }
      forall d | d in found ensures |Line(d.oldSha)| < Height(m, keys[n]) {
        var i :| 0 <= i < n && keys[..n][i] == d.key;
        assert keys[i] == d.key && Height(m, keys[i]) < Height(m, keys[n]);
      }
    }
  }

  /** What a run finds is recorded on the branch it would rewrite. */
  lemma DetectedAreRecorded(r: ReconRefs, f: Fixed, t: Tools)
    requires FullDivergences(r, f, t).Ok?
    ensures RecordedOn(OrElse(r.unclean, f.main), FullDivergences(r, f, t).value)
  {
    var ds := FullDivergences(r, f, t).value;
    var history := ReadInfos(LineOf(r.history), t);
    var clean := Correlated(ReadInfos(LineOf(r.clean), t), SourceByClean(history, f.resolves).value);
    forall d | d in ds ensures d.oldSha in Line(OrElse(r.unclean, f.main)) && d.expected != d.oldSha.tree {
      DivergencesExact(FirstOccurrences(KeysOf(LineOf(r.unclean))), KeyToSha(LineOf(r.unclean)),
                       LatestByKey(clean, f.resolves), LatestByKey(history, f.resolves), t, d);
      var i := NewestWithKey(LineOf(r.unclean), d.key);
    }
  }

  /** On a branch that has each key once, divergences are found oldest first. */
  lemma DetectedOldestFirst(r: ReconRefs, f: Fixed, t: Tools)
    requires FullDivergences(r, f, t).Ok? && Distinct(KeysOf(LineOf(r.unclean)))
    ensures Ascending(FullDivergences(r, f, t).value)
  {
    var history := ReadInfos(LineOf(r.history), t);
    var clean := Correlated(ReadInfos(LineOf(r.clean), t), SourceByClean(history, f.resolves).value);
    var line := LineOf(r.unclean);
    DistinctStays(KeysOf(line));
    if r.unclean.Some? { LineLinesUp(r.unclean.value); }
    KeysClimb(line);
    DetectedAscend(KeysOf(line), KeyToSha(line), LatestByKey(clean, f.resolves), LatestByKey(history, f.resolves), t);
  }

  /**
   When a run that may rewrite gets through: exactly if the divergences it finds
   lie one below the other.  On a branch that has each key once they lie the
   other way, so it gets through exactly if it finds at most one, and otherwise
   stops at the second with the first one fixed.
   */
  lemma RewritingRun(r: ReconRefs, force: bool, f: Fixed, t: Tools, extra: ExtraText)
    requires (r.clean.Some? || r.history.Some?) && EntriesToBuild(r, force, f, t).Ok? && FullDivergences(r, f, t).Ok?
    ensures var ds := FullDivergences(r, f, t).value; var refusal := Reconstruct(r, true, force, f, t, extra).1;
      && (refusal == None <==> Descending(ds))
      && (Distinct(KeysOf(LineOf(r.unclean))) ==>
            && (refusal == None <==> |ds| <= 1)
            && (|ds| >= 2 ==> refusal == Some(NotOnBranch(ds[1].oldSha))))
  {
    var ds := FullDivergences(r, f, t).value;
    var tip := OrElse(r.unclean, f.main);
    DetectedAreRecorded(r, f, t);
    RewritesIffDescending(tip, tip, ds, t);
    assert ds != [] ==> ds[0] in ds;
    assert Reconstruct(r, true, force, f, t, extra).1 == RewriteEach(tip, ds, t).1;
    if Distinct(KeysOf(LineOf(r.unclean))) {
      DetectedOldestFirst(r, f, t);
      if |ds| >= 2 { SecondIsRefused(tip, ds, t); }
    }
  }
}
