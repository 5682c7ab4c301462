/**
 What forward splitting guarantees over any sequence of runs on a growing
 unclean branch.
 */
module SplitInvariant {
  import opened Options
  import opened GitTree
  import opened Commits
  import opened Classify
  import opened SyncSplits

  // ---------------------------------------------------- trees of a pass

  /** A pass seen as a function on trees only, with no commit skipped. */
  function TreeRun(tree: Tree, srcs: seq<Commit>, side: Side, t: Tools): Tree {
    if srcs == [] then tree else
      FilteredTree(TreeRun(tree, srcs[..|srcs| - 1], side, t), srcs[|srcs| - 1], side, t)
  }

  /** The clean loop's two `continue`s drop no content. */
  lemma SkipLosesNothing(s: CleanState, src: Commit, t: Tools)
    requires Sound(t)
    ensures CleanStep(s, src, t).tip.tree == FilteredTree(s.tip.tree, src, CleanSide, t)
  {
    if IsAiOnly(src, t.ai) {
      AiOnlyKeepsCode(src, t.ai);
      var changes := t.diff(ParentTree(src), src.tree);
      assert IsDiff(ParentTree(src), src.tree, changes);
      BuiltTree(s.tip.tree, ParentTree(src), src.tree, changes, CleanSide, t.ai);
      forall p ensures SameAt(FilteredTree(s.tip.tree, src, CleanSide, t), s.tip.tree, p) {
        assert Keeps(CleanSide, t.ai, p) ==> SameAt(ParentTree(src), src.tree, p);
      }
      SameEverywhere(FilteredTree(s.tip.tree, src, CleanSide, t), s.tip.tree);
    }
  }

  lemma {:induction false} CleanRunTree(s: CleanState, srcs: seq<Commit>, t: Tools)
    requires Sound(t)
    ensures CleanRun(s, srcs, t).tip.tree == TreeRun(s.tip.tree, srcs, CleanSide, t)
  {
    if srcs != [] {
      var n := |srcs| - 1;
      CleanRunTree(s, srcs[..n], t);
      SkipLosesNothing(CleanRun(s, srcs[..n], t), srcs[n], t);
    }
  }

  lemma {:induction false} HistoryRunTree(tip: Commit, srcs: seq<Commit>, m: map<Commit, Commit>, t: Tools)
    ensures HistoryRun(tip, srcs, m, t).tree == TreeRun(tip.tree, srcs, HistorySide, t)
  {
    if srcs != [] {
      HistoryRunTree(tip, srcs[..|srcs| - 1], m, t);
    }
  }

  // ---------------------------------------------------- agreement

  /** No commit of the list turns a path of this side into another object type. */
  ghost predicate Steady(side: Side, ai: Path -> bool, srcs: seq<Commit>) {
    forall i, p :: 0 <= i < |srcs| && Keeps(side, ai, p) ==> !KindFlip(ParentTree(srcs[i]), srcs[i].tree, p)
  }

  lemma FilteredAt(target: Tree, src: Commit, side: Side, t: Tools, p: Path)
    requires Sound(t)
    ensures SameAt(FilteredTree(target, src, side, t),
                   if Keeps(side, t.ai, p) && !SameAt(ParentTree(src), src.tree, p)
                     && !KindFlip(ParentTree(src), src.tree, p)
                   then src.tree else target, p)
  {
    var changes := t.diff(ParentTree(src), src.tree);
    assert IsDiff(ParentTree(src), src.tree, changes);
    BuiltTree(target, ParentTree(src), src.tree, changes, side, t.ai);
  }

  ghost predicate Unchanged(base: Tree, srcs: seq<Commit>, n: nat, p: Path)
    requires n <= |srcs|
  {
    forall k: nat :: k <= n ==> SameAt(base, TreeAt(base, srcs, k), p)
  }

  /**
   At every point of a replay, a kept path either already has its replayed value,
   or has not been touched by the range so far.
   */
  lemma {:induction false} ReplayPath(tree: Tree, base: Tree, srcs: seq<Commit>, n: nat, side: Side, t: Tools, p: Path)
    requires Sound(t) && Linked(base, srcs) && Steady(side, t.ai, srcs) && n <= |srcs|
    requires Keeps(side, t.ai, p)
    ensures var r := TreeRun(tree, srcs[..n], side, t);
            SameAt(r, TreeAt(base, srcs, n), p) || (SameAt(r, tree, p) && Unchanged(base, srcs, n, p))
  {
    if n == 0 {
    } else {
      ReplayPath(tree, base, srcs, n - 1, side, t, p);
      assert srcs[..n][..n - 1] == srcs[..n - 1];
      LinkedTrees(base, srcs, n - 1);
      FilteredAt(TreeRun(tree, srcs[..n - 1], side, t), srcs[n - 1], side, t, p);
      assert !KindFlip(ParentTree(srcs[n - 1]), srcs[n - 1].tree, p);
    }
  }

  /**
   A replay ends in agreement with its last source even when the target is
   already ahead: it may start from a tree that agrees with any point of the range.
   */
  lemma ReplayAgrees(tree: Tree, base: Tree, srcs: seq<Commit>, ahead: nat, side: Side, t: Tools)
    requires Sound(t) && Linked(base, srcs) && Steady(side, t.ai, srcs) && ahead <= |srcs|
    requires Agree(side, t.ai, tree, TreeAt(base, srcs, ahead))
    ensures Agree(side, t.ai, TreeRun(tree, srcs, side, t), TreeAt(base, srcs, |srcs|))
  {
    assert srcs[..|srcs|] == srcs;
    forall p | Keeps(side, t.ai, p) ensures SameAt(TreeRun(tree, srcs, side, t), TreeAt(base, srcs, |srcs|), p) {
      ReplayPath(tree, base, srcs, |srcs|, side, t, p);
      assert SameAt(tree, TreeAt(base, srcs, ahead), p);
    }
  }

  /** A replay never alters a path of the other side. */
  lemma {:induction false} ReplayKeepsOtherSide(tree: Tree, srcs: seq<Commit>, side: Side, t: Tools, p: Path)
    requires Sound(t) && !Keeps(side, t.ai, p)
    ensures SameAt(TreeRun(tree, srcs, side, t), tree, p)
  {
    if srcs != [] {
      var n := |srcs| - 1;
      ReplayKeepsOtherSide(tree, srcs[..n], side, t, p);
      FilteredAt(TreeRun(tree, srcs[..n], side, t), srcs[n], side, t, p);
    }
  }

  /** The tree a target branch must agree with before its first replay. */
  function CleanBase(r: Refs, unclean: Commit, f: Fixed): Tree {
    BaseTree(CleanFrom(r, unclean, f), unclean)
  }

  function HistoryBase(r: Refs, unclean: Commit, f: Fixed): Tree {
    BaseTree(HistoryFrom(r, unclean, f), unclean)
  }

  /** Each branch agrees, on its own side, with the unclean commit its replay starts from. */
  ghost predicate StartsInAgreement(r: Refs, unclean: Commit, f: Fixed, t: Tools) {
    && Agree(CleanSide, t.ai, OrElse(r.clean, f.main).tree, CleanBase(r, unclean, f))
    && Agree(HistorySide, t.ai, OrElse(r.history, f.historyMain).tree, HistoryBase(r, unclean, f))
    && Steady(CleanSide, t.ai, CleanSources(r, unclean, f))
    && Steady(HistorySide, t.ai, HistorySources(r, unclean, f))
  }

  predicate Opposite(a: Side, b: Side) {
    (a == CleanSide && b == HistorySide) || (a == HistorySide && b == CleanSide)
  }

  /** A whole pass over a linked list: agreement with its last commit on its side, nothing else changed. */
  lemma PassAgrees(start: Tree, base: Tree, srcs: seq<Commit>, side: Side, other: Side, t: Tools)
    requires Sound(t) && Opposite(side, other) && Linked(base, srcs)
    requires Agree(side, t.ai, start, base) && Steady(side, t.ai, srcs)
    ensures Agree(side, t.ai, TreeRun(start, srcs, side, t), TreeAt(base, srcs, |srcs|))
    ensures Agree(other, t.ai, TreeRun(start, srcs, side, t), start)
  {
    ReplayAgrees(start, base, srcs, 0, side, t);
    PassKeepsOther(start, srcs, side, other, t);
  }

  /** A range is a linked list that ends at its tip's tree. */
  lemma RangeEnds(x: Commit, tip: Commit)
    ensures Linked(BaseTree(x, tip), Range(x, tip))
    ensures TreeAt(BaseTree(x, tip), Range(x, tip), |Range(x, tip)|) == tip.tree
  {
    RangeIsLinked(x, tip);
  }

  lemma PassKeepsOther(start: Tree, srcs: seq<Commit>, side: Side, other: Side, t: Tools)
    requires Sound(t) && Opposite(side, other)
    ensures Agree(other, t.ai, TreeRun(start, srcs, side, t), start)
  {
    forall p | Keeps(other, t.ai, p) ensures SameAt(TreeRun(start, srcs, side, t), start, p) {
      assert !Keeps(side, t.ai, p);
      ReplayKeepsOtherSide(start, srcs, side, t, p);
    }
  }

  /** The trees of both tips after a finished run over two lists. */
  lemma SyncedTrees(r: Refs, xs: seq<Commit>, ys: seq<Commit>, fakeMerges: bool, t: Tools)
    requires Sound(t) && r.clean.Some? && r.history.Some? && SyncFrom(r, xs, ys, fakeMerges, t).1.Synced?
    ensures var r' := SyncFrom(r, xs, ys, fakeMerges, t).0;
      && r'.clean.Some? && r'.history.Some?
      && r'.clean.value.tree == TreeRun(r.clean.value.tree, xs, CleanSide, t)
      && r'.history.value.tree == TreeRun(r.history.value.tree, ys, HistorySide, t)
  {
    assert xs[..|xs|] == xs && ys[..|ys|] == ys;
    CleanRunTree(CleanStart(r.clean.value), xs, t);
    HistoryRunTree(r.history.value, ys, CleanRun(CleanStart(r.clean.value), xs, t).produced, t);
  }

  /** One finished run: both tips mirror the unclean tip on their side and are unchanged on the other. */
  lemma SyncedAgrees(r: Refs, unclean: Commit, fakeMerges: bool, f: Fixed, t: Tools)
    requires Sound(t) && StartsInAgreement(r, unclean, f, t)
    requires Sync(r, unclean, fakeMerges, f, t).1.Synced?
    ensures var r' := Sync(r, unclean, fakeMerges, f, t).0;
      && r'.clean.Some? && r'.history.Some?
      && Agree(CleanSide, t.ai, r'.clean.value.tree, unclean.tree)
      && Agree(HistorySide, t.ai, r'.clean.value.tree, OrElse(r.clean, f.main).tree)
      && Agree(HistorySide, t.ai, r'.history.value.tree, unclean.tree)
      && Agree(CleanSide, t.ai, r'.history.value.tree, OrElse(r.history, f.historyMain).tree)
  {
    SyncedTrees(Started(r, f), CleanSources(r, unclean, f), HistorySources(r, unclean, f), fakeMerges, t);
    var c0, h0 := OrElse(r.clean, f.main), OrElse(r.history, f.historyMain);
    RangeEnds(CleanFrom(r, unclean, f), unclean);
    RangeEnds(HistoryFrom(r, unclean, f), unclean);
    PassAgrees(c0.tree, CleanBase(r, unclean, f), CleanSources(r, unclean, f), CleanSide, HistorySide, t);
    PassAgrees(h0.tree, HistoryBase(r, unclean, f), HistorySources(r, unclean, f), HistorySide, CleanSide, t);
  }

  // ---------------------------------------------------- batches

  lemma {:induction false} CleanRunAppend(s: CleanState, a: seq<Commit>, b: seq<Commit>, t: Tools)
    ensures CleanRun(s, a + b, t) == CleanRun(CleanRun(s, a, t), b, t)
  {
    if b == [] {
      assert a + b == a;
    } else {
      var n := |b| - 1;
      assert (a + b)[..|a + b| - 1] == a + b[..n];
      CleanRunAppend(s, a, b[..n], t);
    }
  }

  /** The same pass started with entries and counters already there. */
  predicate Shifted(s: CleanState, r: CleanState, r0: CleanState, srcs: seq<Commit>) {
    && r.tip == r0.tip
    && r.counts == Plus(s.counts, r0.counts)
    && r.produced == s.produced + r0.produced
    && forall c :: c in r0.produced ==> c in srcs
  }

  lemma ShiftedStep(s: CleanState, r: CleanState, r0: CleanState, srcs: seq<Commit>, src: Commit, t: Tools)
    requires Shifted(s, r, r0, srcs) && src !in s.produced
    ensures Shifted(s, CleanStep(r, src, t), CleanStep(r0, src, t), srcs + [src])
  {
  }

  /** Where a run starts only shifts its counters and keeps the entries it already had. */
  lemma {:induction false} CleanRunFrom(s: CleanState, srcs: seq<Commit>, t: Tools)
    requires forall c :: c in srcs ==> c !in s.produced
    ensures Shifted(s, CleanRun(s, srcs, t), CleanRun(CleanStart(s.tip), srcs, t), srcs)
  {
    if srcs == [] {
      assert s.produced + map[] == s.produced;
    } else {
      var n := |srcs| - 1;
      forall c | c in srcs[..n] ensures c !in s.produced { assert c in srcs; }
      CleanRunFrom(s, srcs[..n], t);
      assert srcs[n] in srcs;
      ShiftedStep(s, CleanRun(s, srcs[..n], t), CleanRun(CleanStart(s.tip), srcs[..n], t), srcs[..n], srcs[n], t);
      assert srcs == srcs[..n] + [srcs[n]];
    }
  }

  function Plus(a: CleanCounts, b: CleanCounts): CleanCounts {
    CleanCounts(a.created + b.created, a.aiOnly + b.aiOnly, a.noop + b.noop)
  }

  lemma {:induction false} HistoryRunAppend(
      tip: Commit, a: seq<Commit>, b: seq<Commit>, m: map<Commit, Commit>, t: Tools)
    ensures HistoryRun(tip, a + b, m, t) == HistoryRun(HistoryRun(tip, a, m, t), b, m, t)
  {
    if b == [] {
      assert a + b == a;
    } else {
      var n := |b| - 1;
      assert (a + b)[..|a + b| - 1] == a + b[..n];
      HistoryRunAppend(tip, a, b[..n], m, t);
    }
  }

  /** Only the entries of the replayed sources matter to the history pass. */
  lemma {:induction false} HistoryRunSameMap(
      tip: Commit, srcs: seq<Commit>, m: map<Commit, Commit>, m': map<Commit, Commit>, t: Tools)
    requires forall c :: c in srcs ==> Lookup(m, c) == Lookup(m', c)
    ensures HistoryRun(tip, srcs, m, t) == HistoryRun(tip, srcs, m', t)
  {
    if srcs != [] {
      var n := |srcs| - 1;
      assert srcs[n] in srcs;
      forall c | c in srcs[..n] ensures Lookup(m, c) == Lookup(m', c) { assert c in srcs; }
      HistoryRunSameMap(tip, srcs[..n], m, m', t);
    }
  }

  /** Reading a sub-range of a line: a member of Range(x, tip) is on the line and outside x. */
  lemma {:induction false} RangeMember(x: Commit, tip: Commit, c: Commit)
    ensures c in Range(x, tip) <==> OnLine(c, tip) && !IsAncestor(c, x)
  {
    if IsAncestor(tip, x) {
      if OnLine(c, tip) {
        LineIsAncestry(c, tip);
        AncestorTransitive(c, tip, x);
      }
    } else if tip.Child? {
      RangeMember(x, tip.first, c);
    }
  }

  /** Where the next run resumes after a run over Range(x, b). */
  function NextStart(x: Commit, b: Commit): Commit {
    if Range(x, b) == [] then x else b
  }

  /** A range falls apart into what a first run up to `b` handles and what the next run handles. */
  lemma RangeInBatches(x: Commit, b: Commit, c: Commit)
    requires OnLine(b, c)
    ensures Range(x, c) == Range(x, b) + Range(NextStart(x, b), c)
    ensures forall d :: d in Range(x, b) ==> OnLine(d, b)
    ensures forall d :: d in Range(NextStart(x, b), c) ==> !OnLine(d, b)
  {
    RangeIsLinked(x, b);
    if Range(x, b) != [] { RangeSplits(x, b, c); }
    forall d ensures d in Range(x, b) ==> OnLine(d, b)
             ensures d in Range(NextStart(x, b), c) ==> !OnLine(d, b)
    {
      RangeMember(x, b, d);
      RangeMember(NextStart(x, b), c, d);
      if OnLine(d, b) {
        LineIsAncestry(d, b);
        if Range(x, b) == [] { AncestorTransitive(d, b, x); }
      }
    }
  }

  lemma HandledAll(srcs: seq<Commit>, fakeMerges: bool)
    ensures Handled(srcs, fakeMerges) == |srcs| <==> fakeMerges || forall c :: c in srcs ==> !IsMerge(c)
  {
    if Handled(srcs, fakeMerges) < |srcs| {
      assert srcs[Handled(srcs, fakeMerges)] in srcs;
    }
  }

  /** Commits appended to the unclean branch by people, not by reconstruction. */
  ghost predicate Appended(b: Commit, c: Commit) {
    OnLine(b, c) && forall d :: d in Range(b, c) ==> ReadReconstructed(d.msg.trailers) == None
  }

  lemma {:induction false} SameReconstructedCursor(b: Commit, c: Commit, target: Commit, resolves: Commit -> bool)
    requires Appended(b, c)
    ensures ReconstructedCursor(c, target, resolves) == ReconstructedCursor(b, target, resolves)
  {
    if b != c {
      NotItsOwnAncestor(b, c);
      assert c in Range(b, c);
      assert forall d :: d in Range(b, c.first) ==> d in Range(b, c);
      SameReconstructedCursor(b, c.first, target, resolves);
    }
  }

  /** A run over two lists finishes exactly if no merge stops it, and then it does what a flattening run does. */
  lemma FinishedFrom(r: Refs, xs: seq<Commit>, ys: seq<Commit>, fakeMerges: bool, t: Tools)
    requires r.clean.Some? && r.history.Some?
    ensures SyncFrom(r, xs, ys, fakeMerges, t).1.Synced?
       <==> Handled(xs, fakeMerges) == |xs| && Handled(ys, fakeMerges) == |ys|
    ensures SyncFrom(r, xs, ys, true, t).1.Synced?
    ensures SyncFrom(r, xs, ys, fakeMerges, t).1.Synced? ==>
      SyncFrom(r, xs, ys, fakeMerges, t) == SyncFrom(r, xs, ys, true, t)
  {
    HandledAll(xs, true);
    HandledAll(ys, true);
  }

  /** A forward run finishes exactly if it flattens merges or there is none in its two replay ranges. */
  lemma FinishesIff(r: Refs, unclean: Commit, fakeMerges: bool, f: Fixed, t: Tools)
    ensures Sync(r, unclean, fakeMerges, f, t).1.Synced?
       <==> fakeMerges
            || forall c :: c in CleanSources(r, unclean, f) || c in HistorySources(r, unclean, f) ==> !IsMerge(c)
    ensures Sync(r, unclean, fakeMerges, f, t).1.Synced? ==>
      Sync(r, unclean, fakeMerges, f, t) == Sync(r, unclean, true, f, t)
  {
    FinishedFrom(Started(r, f), CleanSources(r, unclean, f), HistorySources(r, unclean, f), fakeMerges, t);
    HandledAll(CleanSources(r, unclean, f), fakeMerges);
    HandledAll(HistorySources(r, unclean, f), fakeMerges);
  }

  /** The clean part of a batched run: same tip and cursor, and the produced maps fit together. */
  lemma CleanBatches(c0: Commit, a: seq<Commit>, b: seq<Commit>, t: Tools)
    requires forall d :: d in a ==> d !in b
    ensures var s1 := CleanRun(CleanStart(c0), a, t);
            var s2 := CleanRun(CleanStart(s1.tip), b, t);
            var s := CleanRun(CleanStart(c0), a + b, t);
      && s.tip == s2.tip
      && s.counts == Plus(s1.counts, s2.counts)
      && s.produced == s1.produced + s2.produced
      && (forall d :: d in s1.produced ==> d in a) && (forall d :: d in s2.produced ==> d in b)
  {
    var s1 := CleanRun(CleanStart(c0), a, t);
    CleanRunAppend(CleanStart(c0), a, b, t);
    CleanRunFrom(CleanStart(c0), a, t);
    CleanRunFrom(s1, b, t);
  }

  /** A run whose passes are not stopped by a merge. */
  lemma FullRun(r: Refs, xs: seq<Commit>, ys: seq<Commit>, fakeMerges: bool, t: Tools)
    requires r.clean.Some? && r.history.Some?
    requires Handled(xs, fakeMerges) == |xs| && Handled(ys, fakeMerges) == |ys|
    ensures var s := CleanRun(CleanStart(r.clean.value), xs, t);
            SyncFrom(r, xs, ys, fakeMerges, t)
            == (Refs(Some(s.tip), Some(HistoryRun(r.history.value, ys, s.produced, t)),
                     CursorAfter(r.cleanCursor, xs, |xs|), CursorAfter(r.historyCursor, ys, |ys|)),
                Synced(s.counts, |ys|))
  {
    assert xs[..|xs|] == xs && ys[..|ys|] == ys;
  }

  /** Two consecutive flattening runs over disjoint lists are one run over their concatenation. */
  lemma RunsCompose(r: Refs, xs1: seq<Commit>, ys1: seq<Commit>, xs2: seq<Commit>, ys2: seq<Commit>, t: Tools)
    requires r.clean.Some? && r.history.Some?
    requires forall d :: d in xs1 || d in ys1 ==> d !in xs2 && d !in ys2
    ensures var (r1, o1) := SyncFrom(r, xs1, ys1, true, t);
            var (r2, o2) := SyncFrom(r1, xs2, ys2, true, t);
            var (r', o) := SyncFrom(r, xs1 + xs2, ys1 + ys2, true, t);
      && r2 == r'
      && o1.Synced? && o2.Synced? && o.Synced?
      && o.clean == Plus(o1.clean, o2.clean)
      && o.historyCreated == o1.historyCreated + o2.historyCreated
  {
    var c0, h0 := r.clean.value, r.history.value;
    FlatRun(r, xs1, ys1, t);
    FlatRun(r, xs1 + xs2, ys1 + ys2, t);
    var r1 := SyncFrom(r, xs1, ys1, true, t).0;
    FlatRun(r1, xs2, ys2, t);
    CleanBatches(c0, xs1, xs2, t);
    var s1 := CleanRun(CleanStart(c0), xs1, t);
    var s2 := CleanRun(CleanStart(s1.tip), xs2, t);
    var m := s1.produced + s2.produced;
    HistoryRunSameMap(h0, ys1, s1.produced, m, t);
    HistoryRunSameMap(HistoryRun(h0, ys1, s1.produced, t), ys2, s2.produced, m, t);
    HistoryRunAppend(h0, ys1, ys2, m, t);
    CursorsCompose(r.cleanCursor, xs1, xs2);
    CursorsCompose(r.historyCursor, ys1, ys2);
    var r2 := SyncFrom(r1, xs2, ys2, true, t).0;
    var r' := SyncFrom(r, xs1 + xs2, ys1 + ys2, true, t).0;
    assert r2.clean == r'.clean;
    assert r2.history == r'.history;
    assert r2.cleanCursor == r'.cleanCursor && r2.historyCursor == r'.historyCursor;
  }

  /** A run that flattens merges, spelled out. */
  lemma FlatRun(r: Refs, xs: seq<Commit>, ys: seq<Commit>, t: Tools)
    requires r.clean.Some? && r.history.Some?
    ensures var s := CleanRun(CleanStart(r.clean.value), xs, t);
            SyncFrom(r, xs, ys, true, t)
            == (Refs(Some(s.tip), Some(HistoryRun(r.history.value, ys, s.produced, t)),
                     CursorAfter(r.cleanCursor, xs, |xs|), CursorAfter(r.historyCursor, ys, |ys|)),
                Synced(s.counts, |ys|))
  {
    HandledAll(xs, true);
    HandledAll(ys, true);
    FullRun(r, xs, ys, true, t);
  }

  lemma CursorsCompose(cursor: Option<Commit>, a: seq<Commit>, b: seq<Commit>)
    ensures CursorAfter(CursorAfter(cursor, a, |a|), b, |b|) == CursorAfter(cursor, a + b, |a + b|)
  {
    if b == [] { assert a + b == a; }
  }

  function Started(r: Refs, f: Fixed): Refs {
    r.(clean := Some(OrElse(r.clean, f.main)), history := Some(OrElse(r.history, f.historyMain)))
  }

  function CleanFrom(r: Refs, unclean: Commit, f: Fixed): Commit {
    ReplayStart(r.cleanCursor, OrElse(r.clean, f.main), unclean, f.main, f.resolves)
  }

  function HistoryFrom(r: Refs, unclean: Commit, f: Fixed): Commit {
    ReplayStart(r.historyCursor, OrElse(r.history, f.historyMain), unclean, f.historyMain, f.resolves)
  }

  /** A tip and a cursor that a finished pass over a list up to `b` may leave. */
  predicate LeftBy(
      xs: seq<Commit>, b: Commit, tip0: Commit, cursor0: Option<Commit>, tip: Option<Commit>, cursor: Option<Commit>)
  {
    && tip.Some?
    && cursor == (if xs == [] then cursor0 else Some(b))
    && (xs == [] ==> tip.value == tip0)
  }

  /** The refs a flattening run over two lists leaves, side by side. */
  lemma FinishedRefs(r: Refs, xs: seq<Commit>, ys: seq<Commit>, b: Commit, t: Tools)
    requires r.clean.Some? && r.history.Some?
    requires (xs != [] ==> xs[|xs| - 1] == b) && (ys != [] ==> ys[|ys| - 1] == b)
    ensures var r1 := SyncFrom(r, xs, ys, true, t).0;
      && LeftBy(xs, b, r.clean.value, r.cleanCursor, r1.clean, r1.cleanCursor)
      && LeftBy(ys, b, r.history.value, r.historyCursor, r1.history, r1.historyCursor)
  {
    FlatRun(r, xs, ys, t);
  }

  lemma RangeReaches(x: Commit, b: Commit)
    ensures Range(x, b) != [] ==> Range(x, b)[|Range(x, b)| - 1] == b
  {
    RangeIsLinked(x, b);
  }

  /** After a flattening run, the next one resumes right behind it on both sides. */
  lemma ResumesBehind(r: Refs, b: Commit, c: Commit, f: Fixed, t: Tools)
    requires Appended(b, c)
    ensures var r1 := Sync(r, b, true, f, t).0;
      && CleanFrom(r, c, f) == CleanFrom(r, b, f) && HistoryFrom(r, c, f) == HistoryFrom(r, b, f)
      && CleanFrom(r1, c, f) == NextStart(CleanFrom(r, b, f), b)
      && HistoryFrom(r1, c, f) == NextStart(HistoryFrom(r, b, f), b)
      && Started(r1, f) == r1
  {
    SameReconstructedCursor(b, c, OrElse(r.clean, f.main), f.resolves);
    SameReconstructedCursor(b, c, OrElse(r.history, f.historyMain), f.resolves);
    RangeReaches(CleanFrom(r, b, f), b);
    RangeReaches(HistoryFrom(r, b, f), b);
    FinishedRefs(Started(r, f), CleanSources(r, b, f), HistorySources(r, b, f), b, t);
  }

  /** Two flattening runs, and the sources each of them and their union has. */
  lemma FlatBatches(r: Refs, b: Commit, c: Commit, f: Fixed, t: Tools)
    requires Appended(b, c)
    ensures var (r1, o1) := Sync(r, b, true, f, t);
            var (r2, o2) := Sync(r1, c, true, f, t);
            var (r', o) := Sync(r, c, true, f, t);
      && r2 == r'
      && o1.Synced? && o2.Synced? && o.Synced?
      && o.clean == Plus(o1.clean, o2.clean)
      && o.historyCreated == o1.historyCreated + o2.historyCreated
      && CleanSources(r, c, f) == CleanSources(r, b, f) + CleanSources(r1, c, f)
      && HistorySources(r, c, f) == HistorySources(r, b, f) + HistorySources(r1, c, f)
  {
    ResumesBehind(r, b, c, f, t);
    var x, y := CleanFrom(r, b, f), HistoryFrom(r, b, f);
    RangeInBatches(x, b, c);
    RangeInBatches(y, b, c);
    RunsCompose(Started(r, f), Range(x, b), Range(y, b), Range(NextStart(x, b), c), Range(NextStart(y, b), c), t);
  }

  /**
   Syncing up to `b` and later up to `c`, both times to the end, leaves the very
   same refs as syncing up to `c` once, which gets to the end too if it flattens
   merges in case one of the two did; and the reported counts add up.
   */
  lemma BatchesEqualOneRun(r: Refs, b: Commit, c: Commit, first: bool, second: bool, f: Fixed, t: Tools)
    requires Appended(b, c)
    requires Sync(r, b, first, f, t).1.Synced? && Sync(Sync(r, b, first, f, t).0, c, second, f, t).1.Synced?
    ensures var (r1, o1) := Sync(r, b, first, f, t);
            var (r2, o2) := Sync(r1, c, second, f, t);
            var (r', o) := Sync(r, c, first || second, f, t);
      && r2 == r'
      && o.Synced?
      && o.clean == Plus(o1.clean, o2.clean)
      && o.historyCreated == o1.historyCreated + o2.historyCreated
  {
    FlatBatches(r, b, c, f, t);
    FinishesIff(r, b, first, f, t);
    FinishesIff(Sync(r, b, true, f, t).0, c, second, f, t);
    FinishesIff(r, c, first || second, f, t);
  }

  lemma AppendedToItself(b: Commit)
    ensures Appended(b, b)
  {
    assert Range(b, b) == [];
  }

  /** Once a run got to its end, another one with nothing new moves no ref and creates nothing. */
  lemma RerunCreatesNothing(r: Refs, b: Commit, fakeMerges: bool, again: bool, f: Fixed, t: Tools)
    requires Sync(r, b, fakeMerges, f, t).1.Synced?
    ensures var r1 := Sync(r, b, fakeMerges, f, t).0;
            Sync(r1, b, again, f, t) == (r1, Synced(CleanCounts(0, 0, 0), 0))
  {
    FinishesIff(r, b, fakeMerges, f, t);
    AppendedToItself(b);
    ResumesBehind(r, b, b, f, t);
    assert Range(b, b) == [];
    FullRun(Sync(r, b, true, f, t).0, [], [], again, t);
  }

  // ---------------------------------------------------- whole lifetimes

  /** One forward run: the unclean tip it saw, and whether it was told to flatten merges. */
  datatype ForwardRun = ForwardRun(tip: Commit, fakeMerges: bool)

  /** The unclean branch grows from run to run. */
  ghost predicate Growing(runs: seq<ForwardRun>) {
    forall i :: 0 < i < |runs| ==> Appended(runs[i - 1].tip, runs[i].tip)
  }

  function SyncEach(r: Refs, runs: seq<ForwardRun>, f: Fixed, t: Tools): Refs {
    if runs == [] then r else
      var n := |runs| - 1;
      Sync(SyncEach(r, runs[..n], f, t), runs[n].tip, runs[n].fakeMerges, f, t).0
  }

  /** No run of the sequence is stopped by a merge. */
  predicate EachFinishes(r: Refs, runs: seq<ForwardRun>, f: Fixed, t: Tools) {
    runs == [] ||
      var n := |runs| - 1;
      && EachFinishes(r, runs[..n], f, t)
      && Sync(SyncEach(r, runs[..n], f, t), runs[n].tip, runs[n].fakeMerges, f, t).1.Synced?
  }

  predicate SomeFlattens(runs: seq<ForwardRun>) {
    runs != [] && (SomeFlattens(runs[..|runs| - 1]) || runs[|runs| - 1].fakeMerges)
  }

  /** Any number of runs along a growing branch amounts to one run at the end, flattening if one of them did. */
  lemma {:induction false} ManyRunsEqualOne(r: Refs, runs: seq<ForwardRun>, f: Fixed, t: Tools)
    requires runs != [] && Growing(runs) && EachFinishes(r, runs, f, t)
    ensures SyncEach(r, runs, f, t) == Sync(r, runs[|runs| - 1].tip, SomeFlattens(runs), f, t).0
    ensures Sync(r, runs[|runs| - 1].tip, SomeFlattens(runs), f, t).1.Synced?
  {
    var n := |runs| - 1;
    if n == 0 {
      assert runs[..0] == [];
    } else {
      assert Appended(runs[n - 1].tip, runs[n].tip);
      ManyRunsEqualOne(r, runs[..n], f, t);
      BatchesEqualOneRun(r, runs[n - 1].tip, runs[n].tip, SomeFlattens(runs[..n]), runs[n].fakeMerges, f, t);
    }
  }

  /**
   The split invariant: after any sequence of finished runs along a growing
   branch, the clean tip equals the unclean tip on every code path and has its
   original content on every AI path, and the history tip the other way round.
   */
  lemma SplitInvariant(r: Refs, runs: seq<ForwardRun>, f: Fixed, t: Tools)
    requires Sound(t) && runs != [] && Growing(runs) && EachFinishes(r, runs, f, t)
    requires StartsInAgreement(r, runs[|runs| - 1].tip, f, t)
    ensures var last := runs[|runs| - 1].tip;
            var r' := SyncEach(r, runs, f, t);
      && r'.clean.Some? && r'.history.Some?
      && Agree(CleanSide, t.ai, r'.clean.value.tree, last.tree)
      && Agree(HistorySide, t.ai, r'.clean.value.tree, OrElse(r.clean, f.main).tree)
      && Agree(HistorySide, t.ai, r'.history.value.tree, last.tree)
      && Agree(CleanSide, t.ai, r'.history.value.tree, OrElse(r.history, f.historyMain).tree)
  {
    ManyRunsEqualOne(r, runs, f, t);
    SyncedAgrees(r, runs[|runs| - 1].tip, SomeFlattens(runs), f, t);
  }

  // ------------------------------------------- stopping at a merge commit

  /** Where the clean side stands when a merge stops it: `n` of its sources are on the tip, the cursor is not moved. */
  ghost predicate CleanStop(r: Refs, unclean: Commit, f: Fixed, t: Tools) {
    var (r1, o1) := Sync(r, unclean, false, f, t);
    o1.MergeDetected? && o1.target == CleanSide && CleanFrom(r1, unclean, f) == CleanFrom(r, unclean, f)
  }

  /** No commit of the unclean line is recorded as built from one that `after` contains and `before` does not. */
  predicate NoKeyBetween(unclean: Commit, before: Commit, after: Commit) {
    && (var key := ReadReconstructed(unclean.msg.trailers);
        key.Some? ==> (IsAncestor(key.value, before) <==> IsAncestor(key.value, after)))
    && (unclean.Child? ==> NoKeyBetween(unclean.first, before, after))
  }

  lemma {:induction false} SameCursorBetween(unclean: Commit, before: Commit, after: Commit, resolves: Commit -> bool)
    requires NoKeyBetween(unclean, before, after)
    ensures ReconstructedCursor(unclean, before, resolves) == ReconstructedCursor(unclean, after, resolves)
  {
    if unclean.Child? { SameCursorBetween(unclean.first, before, after, resolves); }
  }

  lemma {:induction false} CleanTipUnstamped(s: CleanState, srcs: seq<Commit>, t: Tools)
    requires ReadSource(s.tip.msg.trailers) == None
    ensures ReadSource(CleanRun(s, srcs, t).tip.msg.trailers) == None
  {
    if srcs != [] {
      CleanTipUnstamped(s, srcs[..|srcs| - 1], t);
      UnstampedOthers(StripBase(srcs[|srcs| - 1].msg.trailers));
    }
  }

  /**
   A stop leaves the clean start where it was if there is a cursor or the branch
   did not move.  Without a cursor it does so too if the old tip carries no
   source trailer, as in a first run and in the first one after a reconstruction,
   and no commit the stopped pass made was recorded on the unclean branch before.
   */
  lemma StopKeepsStart(r: Refs, unclean: Commit, f: Fixed, t: Tools)
    requires Sync(r, unclean, false, f, t).1.MergeDetected? && Sync(r, unclean, false, f, t).1.target == CleanSide
    requires var c0, c1 := OrElse(r.clean, f.main), OrElse(Sync(r, unclean, false, f, t).0.clean, f.main);
      || r.cleanCursor.Some? || c1 == c0
      || (ReadSource(c0.msg.trailers) == None && NoKeyBetween(unclean, c0, c1))
    ensures CleanStop(r, unclean, f, t)
  {
    var c0 := OrElse(r.clean, f.main);
    var xs := CleanSources(r, unclean, f);
    var c1 := CleanRun(CleanStart(c0), xs[..Handled(xs, false)], t).tip;
    if r.cleanCursor.None? && c1 != c0 {
      CleanTipUnstamped(CleanStart(c0), xs[..Handled(xs, false)], t);
      SameCursorBetween(unclean, c0, c1, f.resolves);
    }
  }

  /** The tip a stopped clean pass leaves agrees with the last source it handled. */
  lemma StoppedTip(r: Refs, unclean: Commit, f: Fixed, t: Tools)
    requires Sound(t) && StartsInAgreement(r, unclean, f, t) && CleanStop(r, unclean, f, t)
    ensures var xs := CleanSources(r, unclean, f); var r1 := Sync(r, unclean, false, f, t).0;
      && Linked(CleanBase(r, unclean, f), xs) && Handled(xs, false) < |xs|
      && r1.clean.Some?
      && Agree(CleanSide, t.ai, r1.clean.value.tree, TreeAt(CleanBase(r, unclean, f), xs, Handled(xs, false)))
  {
    var c0 := OrElse(r.clean, f.main);
    var xs := CleanSources(r, unclean, f);
    var n := Handled(xs, false);
    RangeIsLinked(CleanFrom(r, unclean, f), unclean);
    LinkedPrefix(CleanBase(r, unclean, f), xs, n);
    assert Steady(CleanSide, t.ai, xs[..n]);
    CleanRunTree(CleanStart(c0), xs[..n], t);
    ReplayAgrees(c0.tree, CleanBase(r, unclean, f), xs[..n], 0, CleanSide, t);
  }

  /** The run after a stop, flattening merges, replays all sources of the stopped one. */
  lemma ResumedRun(r: Refs, unclean: Commit, f: Fixed, t: Tools)
    requires CleanStop(r, unclean, f, t)
    ensures var r1 := Sync(r, unclean, false, f, t).0;
            r1.clean.Some? && ResumesAs(r1, CleanSources(r, unclean, f), unclean, f, t)
  {
    var r1 := Sync(r, unclean, false, f, t).0;
    FinishedRun(r1, unclean, f, t);
  }

  ghost predicate ResumesAs(r1: Refs, xs: seq<Commit>, unclean: Commit, f: Fixed, t: Tools)
    requires r1.clean.Some?
  {
    var (r2, o2) := Sync(r1, unclean, true, f, t);
    var s2 := CleanRun(CleanStart(r1.clean.value), xs, t);
    r2.clean == Some(s2.tip) && o2.Synced? && o2.clean == s2.counts
  }

  lemma FinishedRun(r1: Refs, unclean: Commit, f: Fixed, t: Tools)
    requires r1.clean.Some?
    ensures ResumesAs(r1, CleanSources(r1, unclean, f), unclean, f, t)
  {
    FlatRun(Started(r1, f), CleanSources(r1, unclean, f), HistorySources(r1, unclean, f), t);
  }

  /**
   A clean pass stopped by a merge has moved the branch but not its cursor, so
   the next run replays the same sources on top of themselves.  Trees still
   come out right; commits in between are repeated as `MergeStopRepeats` says.
   */
  lemma ResumeAfterMergeStop(r: Refs, unclean: Commit, f: Fixed, t: Tools)
    requires Sound(t) && StartsInAgreement(r, unclean, f, t) && CleanStop(r, unclean, f, t)
    ensures var (r2, o2) := Sync(Sync(r, unclean, false, f, t).0, unclean, true, f, t);
      && o2.Synced? && r2.clean.Some?
      && Agree(CleanSide, t.ai, r2.clean.value.tree, unclean.tree)
      && Agree(HistorySide, t.ai, r2.clean.value.tree, Sync(r, unclean, false, f, t).0.clean.value.tree)
  {
    var xs := CleanSources(r, unclean, f);
    StoppedTip(r, unclean, f, t);
    ResumedRun(r, unclean, f, t);
    RangeIsLinked(CleanFrom(r, unclean, f), unclean);
    AheadOfItself(Sync(r, unclean, false, f, t).0.clean.value, CleanBase(r, unclean, f), xs, Handled(xs, false), t);
  }

  /** A clean run over sources the tip is already `n` ahead in. */
  lemma AheadOfItself(tip: Commit, base: Tree, srcs: seq<Commit>, n: nat, t: Tools)
    requires Sound(t) && Linked(base, srcs) && Steady(CleanSide, t.ai, srcs) && n <= |srcs|
    requires Agree(CleanSide, t.ai, tip.tree, TreeAt(base, srcs, n))
    ensures Agree(CleanSide, t.ai, CleanRun(CleanStart(tip), srcs, t).tip.tree, TreeAt(base, srcs, |srcs|))
    ensures Agree(HistorySide, t.ai, CleanRun(CleanStart(tip), srcs, t).tip.tree, tip.tree)
  {
    CleanRunTree(CleanStart(tip), srcs, t);
    ReplayAgrees(tip.tree, base, srcs, n, CleanSide, t);
    PassKeepsOther(tip.tree, srcs, CleanSide, HistorySide, t);
  }

  /** The commit changed some code path to a content other than `target`'s. */
  ghost predicate Writes(src: Commit, target: Tree, t: Tools) {
    exists p :: Keeps(CleanSide, t.ai, p) && !SameAt(ParentTree(src), src.tree, p) && !SameAt(src.tree, target, p)
  }

  /** The filtered tree is the target itself exactly if the commit writes nothing new. */
  lemma IdleTree(target: Tree, src: Commit, t: Tools)
    requires Sound(t) && forall p :: Keeps(CleanSide, t.ai, p) ==> !KindFlip(ParentTree(src), src.tree, p)
    ensures FilteredTree(target, src, CleanSide, t) == target <==> !Writes(src, target, t)
  {
    var tree := FilteredTree(target, src, CleanSide, t);
    if Writes(src, target, t) {
      var p :| Keeps(CleanSide, t.ai, p) && !SameAt(ParentTree(src), src.tree, p) && !SameAt(src.tree, target, p);
      FilteredAt(target, src, CleanSide, t, p);
      assert !SameAt(tree, target, p);
    } else {
      forall p ensures SameAt(tree, target, p) {
        FilteredAt(target, src, CleanSide, t, p);
        if Keeps(CleanSide, t.ai, p) && !SameAt(ParentTree(src), src.tree, p) { assert SameAt(src.tree, target, p); }
      }
      SameEverywhere(tree, target);
    }
  }

  /** A clean step makes no commit exactly if the commit writes nothing new on any code path. */
  lemma IdleStep(s: CleanState, src: Commit, t: Tools)
    requires Sound(t) && forall p :: Keeps(CleanSide, t.ai, p) ==> !KindFlip(ParentTree(src), src.tree, p)
    ensures CleanStep(s, src, t).counts.created == s.counts.created <==> !Writes(src, s.tip.tree, t)
    ensures CleanStep(s, src, t).counts.created == s.counts.created ==> CleanStep(s, src, t).tip == s.tip
    ensures CleanStep(s, src, t).counts.created >= s.counts.created
  {
    IdleTree(s.tip.tree, src, t);
    SkipLosesNothing(s, src, t);
  }

  /** Being written anew depends on the code paths of the target only. */
  lemma WritesOnSide(src: Commit, a: Tree, b: Tree, t: Tools)
    requires Agree(CleanSide, t.ai, a, b)
    ensures Writes(src, a, t) <==> Writes(src, b, t)
  {
    if Writes(src, a, t) {
      var p :| Keeps(CleanSide, t.ai, p) && !SameAt(ParentTree(src), src.tree, p) && !SameAt(src.tree, a, p);
      assert SameAt(a, b, p);
    }
    if Writes(src, b, t) {
      var p :| Keeps(CleanSide, t.ai, p) && !SameAt(ParentTree(src), src.tree, p) && !SameAt(src.tree, b, p);
      assert SameAt(a, b, p);
    }
  }

  /** The commit wrote a code path that a later one of the first `n` wrote again, with other content. */
  ghost predicate Overwritten(base: Tree, srcs: seq<Commit>, n: nat, i: nat, t: Tools)
    requires i < n <= |srcs|
  {
    Writes(srcs[i], TreeAt(base, srcs, n), t)
  }

  /** One of the first `k` was overwritten by the time the first `n` were through. */
  ghost predicate SomeOverwritten(base: Tree, srcs: seq<Commit>, n: nat, k: nat, t: Tools)
    requires k <= n <= |srcs|
  {
    exists i :: 0 <= i < k && Overwritten(base, srcs, n, i, t)
  }

  lemma OneMoreOverwritten(base: Tree, srcs: seq<Commit>, n: nat, k: nat, t: Tools)
    requires k < n <= |srcs|
    ensures SomeOverwritten(base, srcs, n, k + 1, t)
       <==> SomeOverwritten(base, srcs, n, k, t) || Overwritten(base, srcs, n, k, t)
  {
  }

  /** One more replayed source: what the run has made so far, and the next commit's part in it. */
  lemma ReplayOneMore(s: CleanState, tip: Commit, src: Commit, target: Tree, some: bool, t: Tools)
    requires Sound(t) && forall p :: Keeps(CleanSide, t.ai, p) ==> !KindFlip(ParentTree(src), src.tree, p)
    requires Agree(CleanSide, t.ai, tip.tree, target)
    requires (s.counts.created > 0 <==> some) && (s.counts.created == 0 ==> s.tip == tip)
    ensures var s' := CleanStep(s, src, t);
      && (s'.counts.created > 0 <==> some || Writes(src, target, t))
      && (s'.counts.created == 0 ==> s'.tip == tip)
  {
    IdleStep(s, src, t);
    WritesOnSide(src, tip.tree, target, t);
  }

  /** On a tip that is already at `n`, replaying the first `k` makes a commit exactly if one of them was overwritten. */
  lemma {:induction false} ReplayOnItself(tip: Commit, base: Tree, srcs: seq<Commit>, n: nat, k: nat, t: Tools)
    requires Sound(t) && Steady(CleanSide, t.ai, srcs) && k <= n <= |srcs|
    requires Agree(CleanSide, t.ai, tip.tree, TreeAt(base, srcs, n))
    ensures var s := CleanRun(CleanStart(tip), srcs[..k], t);
      && (s.counts.created > 0 <==> SomeOverwritten(base, srcs, n, k, t))
      && (s.counts.created == 0 ==> s.tip == tip)
  {
    if k > 0 {
      var s := CleanRun(CleanStart(tip), srcs[..k - 1], t);
      ReplayOnItself(tip, base, srcs, n, k - 1, t);
      CleanRunNext(CleanStart(tip), srcs, k - 1, t);
      OneMoreOverwritten(base, srcs, n, k - 1, t);
      ReplayOneMore(s, tip, srcs[k - 1], TreeAt(base, srcs, n), SomeOverwritten(base, srcs, n, k - 1, t), t);
    }
  }

  /** What a clean run counts depends on the tree it starts from only. */
  lemma {:induction false} CountsByTree(c: Commit, d: Commit, srcs: seq<Commit>, t: Tools)
    requires c.tree == d.tree
    ensures CleanRun(CleanStart(c), srcs, t).counts == CleanRun(CleanStart(d), srcs, t).counts
    ensures CleanRun(CleanStart(c), srcs, t).tip.tree == CleanRun(CleanStart(d), srcs, t).tip.tree
  {
    if srcs != [] {
      CountsByTree(c, d, srcs[..|srcs| - 1], t);
    }
  }

  lemma TreeComesBack(tip: Commit, base: Tree, srcs: seq<Commit>, n: nat, t: Tools)
    requires Sound(t) && Linked(base, srcs) && Steady(CleanSide, t.ai, srcs) && n <= |srcs|
    requires Agree(CleanSide, t.ai, tip.tree, TreeAt(base, srcs, n))
    ensures CleanRun(CleanStart(tip), srcs[..n], t).tip.tree == tip.tree
  {
    LinkedPrefix(base, srcs, n);
    assert Steady(CleanSide, t.ai, srcs[..n]);
    assert TreeAt(base, srcs[..n], n) == TreeAt(base, srcs, n);
    AheadOfItself(tip, base, srcs[..n], n, t);
    var r := CleanRun(CleanStart(tip), srcs[..n], t).tip.tree;
    forall p ensures SameAt(r, tip.tree, p) {
      if Keeps(CleanSide, t.ai, p) {
        assert SameAt(r, TreeAt(base, srcs, n), p) && SameAt(tip.tree, TreeAt(base, srcs, n), p);
      } else {
        assert Keeps(HistorySide, t.ai, p);
      }
    }
    SameEverywhere(r, tip.tree);
  }

  /** A run over the whole list makes the commits of its first `n` and those that the rest makes on the same tip. */
  lemma ReplayCounts(tip: Commit, base: Tree, srcs: seq<Commit>, n: nat, t: Tools)
    requires Sound(t) && Linked(base, srcs) && Steady(CleanSide, t.ai, srcs) && n <= |srcs|
    requires Agree(CleanSide, t.ai, tip.tree, TreeAt(base, srcs, n))
    ensures CleanRun(CleanStart(tip), srcs, t).counts.created
         == CleanRun(CleanStart(tip), srcs[..n], t).counts.created
           + CleanRun(CleanStart(tip), srcs[n..], t).counts.created
  {
    var s := CleanRun(CleanStart(tip), srcs[..n], t);
    assert srcs == srcs[..n] + srcs[n..];
    LinkedDistinct(base, srcs);
    CleanRunAppend(CleanStart(tip), srcs[..n], srcs[n..], t);
    CleanRunFrom(CleanStart(tip), srcs[..n], t);
    assert forall c :: c in srcs[n..] ==> c !in srcs[..n];
    CleanRunFrom(s, srcs[n..], t);
    TreeComesBack(tip, base, srcs, n, t);
    CountsByTree(s.tip, tip, srcs[n..], t);
  }

  /** The clean commits some sources make on a tip. */
  function Due(tip: Commit, srcs: seq<Commit>, t: Tools): nat {
    CleanRun(CleanStart(tip), srcs, t).counts.created
  }

  /**
   When commits are repeated: the run after a stop makes more clean commits than
   the sources from the merge on call for, exactly if some source before the
   merge wrote a code path that another one before the merge wrote differently.
   */
  lemma MergeStopRepeats(r: Refs, unclean: Commit, f: Fixed, t: Tools)
    requires Sound(t) && StartsInAgreement(r, unclean, f, t) && CleanStop(r, unclean, f, t)
    ensures var r1 := Sync(r, unclean, false, f, t).0; var o2 := Sync(r1, unclean, true, f, t).1;
            var xs := CleanSources(r, unclean, f); var n := Handled(xs, false);
      && r1.clean.Some? && o2.Synced? && n < |xs|
      && o2.clean.created >= Due(r1.clean.value, xs[n..], t)
      && (o2.clean.created > Due(r1.clean.value, xs[n..], t)
          <==> SomeOverwritten(CleanBase(r, unclean, f), xs, n, n, t))
  {
    var xs, base := CleanSources(r, unclean, f), CleanBase(r, unclean, f);
    var n := Handled(xs, false);
    StoppedTip(r, unclean, f, t);
    ResumedRun(r, unclean, f, t);
    var c1 := Sync(r, unclean, false, f, t).0.clean.value;
    ReplayOnItself(c1, base, xs, n, n, t);
    ReplayCounts(c1, base, xs, n, t);
  }

  /** The history side stopped by a merge, which takes a clean side that is not. */
  ghost predicate HistoryStop(r: Refs, unclean: Commit, f: Fixed, t: Tools) {
    var o1 := Sync(r, unclean, false, f, t).1;
    o1.MergeDetected? && o1.target == HistorySide
  }

  lemma {:induction false} HistoryRunSize(tip: Commit, srcs: seq<Commit>, m: map<Commit, Commit>, t: Tools)
    ensures Size(HistoryRun(tip, srcs, m, t)) == Size(tip) + |srcs|
  {
    if srcs != [] { HistoryRunSize(tip, srcs[..|srcs| - 1], m, t); }
  }

  lemma HistoryTipNamesSource(tip: Commit, src: Commit, counterpart: Option<Commit>, t: Tools)
    requires ReadSource(src.msg.trailers) == None
    ensures ReadSource(HistoryStep(tip, src, counterpart, t).msg.trailers) == Some(src)
  {
    ReadWritten(src.msg.trailers, HistoryTrailers(src, counterpart, t));
  }

  /** What the history branch is like after a stop. */
  lemma HistoryStopped(r: Refs, unclean: Commit, f: Fixed, t: Tools)
    requires HistoryStop(r, unclean, f, t)
    ensures var r1 := Sync(r, unclean, false, f, t).0; var ys := HistorySources(r, unclean, f);
      && Handled(ys, false) < |ys| && r1.history.Some? && r1.historyCursor == r.historyCursor
      && StoppedHistory(OrElse(r.history, f.historyMain), r1.history.value, ys, Handled(ys, false))
  {
    var xs, ys := CleanSources(r, unclean, f), HistorySources(r, unclean, f);
    var m := CleanRun(CleanStart(OrElse(r.clean, f.main)), xs[..Handled(xs, false)], t).produced;
    HistoryRunEnds(OrElse(r.history, f.historyMain), ys, Handled(ys, false), m, t);
  }

  /** `n` commits further on, the tip naming the last source it was made of. */
  predicate StoppedHistory(h0: Commit, h: Commit, ys: seq<Commit>, n: nat)
    requires n <= |ys|
  {
    && Size(h) == Size(h0) + n
    && (n == 0 ==> h == h0)
    && (n > 0 && ReadSource(ys[n - 1].msg.trailers) == None ==> ReadSource(h.msg.trailers) == Some(ys[n - 1]))
  }

  lemma HistoryRunEnds(h0: Commit, ys: seq<Commit>, n: nat, m: map<Commit, Commit>, t: Tools)
    requires n <= |ys|
    ensures StoppedHistory(h0, HistoryRun(h0, ys[..n], m, t), ys, n)
  {
    HistoryRunSize(h0, ys[..n], m, t);
    if n > 0 && ReadSource(ys[n - 1].msg.trailers) == None {
      assert ys[..n][n - 1] == ys[n - 1] && ys[..n][..n - 1] == ys[..n - 1];
      HistoryTipNamesSource(HistoryRun(h0, ys[..n - 1], m, t), ys[n - 1], Lookup(m, ys[n - 1]), t);
    }
  }

  /**
   The history side has no skip, so what repeats is decided by the start alone:
   with a cursor every handled source gets a second commit, and without one the
   tip's own trailer points behind them and none does.
   */
  lemma HistoryStopRepeats(r: Refs, unclean: Commit, f: Fixed, t: Tools)
    requires HistoryStop(r, unclean, f, t)
    requires forall d :: d in HistorySources(r, unclean, f) ==> ReadSource(d.msg.trailers) == None
    ensures var r1 := Sync(r, unclean, false, f, t).0; var o2 := Sync(r1, unclean, true, f, t).1;
            var ys := HistorySources(r, unclean, f); var n := Handled(ys, false);
      && n < |ys| && o2.Synced?
      && o2.historyCreated == (if r.historyCursor.Some? || n == 0 then |ys| else |ys| - n)
      && (o2.historyCreated > |ys| - n <==> r.historyCursor.Some? && n > 0)
  {
    HistoryStopped(r, unclean, f, t);
    HistoryStartAfterStop(r, unclean, f, t);
    FinishedHistory(Sync(r, unclean, false, f, t).0, unclean, f, t);
  }

  lemma FinishedHistory(r1: Refs, unclean: Commit, f: Fixed, t: Tools)
    ensures Sync(r1, unclean, true, f, t).1.Synced?
    ensures Sync(r1, unclean, true, f, t).1.historyCreated == |HistorySources(r1, unclean, f)|
  {
    FlatRun(Started(r1, f), CleanSources(r1, unclean, f), HistorySources(r1, unclean, f), t);
  }

  /** The next run starts where the stopped one did if there is a cursor, else behind what it handled. */
  lemma HistoryStartAfterStop(r: Refs, unclean: Commit, f: Fixed, t: Tools)
    requires HistoryStop(r, unclean, f, t)
    requires forall d :: d in HistorySources(r, unclean, f) ==> ReadSource(d.msg.trailers) == None
    ensures var ys := HistorySources(r, unclean, f); var n := Handled(ys, false);
            HistorySources(Sync(r, unclean, false, f, t).0, unclean, f)
            == if r.historyCursor.Some? || n == 0 then ys else ys[n..]
  {
    HistoryStopped(r, unclean, f, t);
    var ys := HistorySources(r, unclean, f);
    var n := Handled(ys, false);
    if r.historyCursor.None? && n > 0 {
      assert ys[n - 1] in ys;
      RangeBehind(HistoryFrom(r, unclean, f), unclean, n - 1);
    }
  }

  /** The range behind one of its own commits is the rest of it. */
  lemma RangeBehind(x: Commit, tip: Commit, i: nat)
    requires i < |Range(x, tip)|
    ensures Range(Range(x, tip)[i], tip) == Range(x, tip)[i + 1..]
  {
    var b := Range(x, tip)[i];
    RangeMember(x, tip, b);
    RangeSplits(x, b, tip);
    RangeIsLinked(x, tip);
    RangeIsLinked(x, b);
    LinkedDistinct(BaseTree(x, tip), Range(x, tip));
    assert Range(x, tip)[|Range(x, b)| - 1] == b;
  }

  function OneFile(blob: string): Tree {
    map["f" := Entry(Regular, blob)]
  }

  /** Replaying a change of the one file "f" writes it, whatever stood there. */
  lemma ReplayWrites(target: Tree, src: Commit, v: string, t: Tools)
    requires Sound(t) && !t.ai("f") && target.Keys <= {"f"}
    requires src.tree == OneFile(v) && ParentTree(src).Keys <= {"f"} && !SameAt(ParentTree(src), src.tree, "f")
    requires forall p :: !KindFlip(ParentTree(src), src.tree, p)
    ensures FilteredTree(target, src, CleanSide, t) == OneFile(v)
  {
    forall p ensures SameAt(FilteredTree(target, src, CleanSide, t), OneFile(v), p) {
      FilteredAt(target, src, CleanSide, t, p);
      if p != "f" { assert p !in target && p !in ParentTree(src) && p !in src.tree; }
    }
    SameEverywhere(FilteredTree(target, src, CleanSide, t), OneFile(v));
  }

  lemma ReplaySkips(target: Tree, src: Commit, t: Tools)
    requires Sound(t) && ParentTree(src) == src.tree
    ensures FilteredTree(target, src, CleanSide, t) == target
  {
    forall p ensures SameAt(FilteredTree(target, src, CleanSide, t), target, p) {
      FilteredAt(target, src, CleanSide, t, p);
    }
    SameEverywhere(FilteredTree(target, src, CleanSide, t), target);
  }

  /** Two edits of one file and a merge that adds nothing, on top of an empty root. */
  function EditTwiceThenMerge(msg: Message): seq<Commit> {
    var base := Root(map[], msg);
    var c1 := Child(base, [], OneFile("1"), msg);
    var c2 := Child(c1, [], OneFile("2"), msg);
    [c1, c2, Child(c2, [base], OneFile("2"), msg)]
  }

  /** The clean loop over the two edits makes two commits, from either starting content. */
  lemma EditsReplayed(s: CleanState, msg: Message, t: Tools)
    requires Sound(t) && !t.ai("f") && (s.tip.tree == map[] || s.tip.tree == OneFile("2"))
    ensures var srcs := EditTwiceThenMerge(msg);
            var s2 := CleanRun(s, srcs[..2], t);
      && s2.counts.created == s.counts.created + 2
      && s2.tip.Child? && s2.tip.tree == OneFile("2")
      && CleanRun(s, srcs, t).counts == s2.counts.(noop := s2.counts.noop + 1)
  {
    var srcs := EditTwiceThenMerge(msg);
    assert srcs[..2] == srcs[..1] + [srcs[1]] && srcs[..1] == [srcs[0]];
    assert srcs == srcs[..2] + [srcs[2]];
    assert srcs[..2][..1] == srcs[..1] && srcs[..1][..0] == [];
    forall i | 0 <= i < 2 ensures !IsAiOnly(srcs[i], t.ai) {
      assert "f" in ChangedPaths(srcs[i]);
    }
    assert OneFile("1")["f"] != OneFile("2")["f"];
    ReplayWrites(s.tip.tree, srcs[0], "1", t);
    var s1 := CleanStep(s, srcs[0], t);
    assert CleanRun(s, srcs[..1], t) == s1;
    ReplayWrites(s1.tip.tree, srcs[1], "2", t);
    ReplaySkips(OneFile("2"), srcs[2], t);
  }

  /** A branch it happens on: the stopped run makes two clean commits, and so does the next. */
  lemma MergeStopExample(msg: Message, t: Tools)
    requires Sound(t) && !t.ai("f")
    ensures var base := Root(map[], msg);
            var unclean := EditTwiceThenMerge(msg)[2];
            var f := Fixed(base, base, c => true);
            var r := Refs(Some(base), Some(base), Some(base), Some(base));
            var (r1, o1) := Sync(r, unclean, false, f, t);
            var (r2, o2) := Sync(r1, unclean, true, f, t);
      && o1 == MergeDetected(CleanSide, unclean) && r1.clean.value.Child? && r1.clean.value.tree == OneFile("2")
      && o2.Synced? && o2.clean.created == 2
  {
    var base := Root(map[], msg);
    var srcs := EditTwiceThenMerge(msg);
    var f := Fixed(base, base, c => true);
    var r := Refs(Some(base), Some(base), Some(base), Some(base));
    assert Range(base, srcs[0]) == [srcs[0]];
    assert Range(base, srcs[1]) == [srcs[0], srcs[1]];
    assert Range(base, srcs[2]) == srcs;
    assert Handled(srcs[2..], false) == 0 && Handled(srcs[1..], false) == 1 && Handled(srcs, false) == 2 by {
      assert srcs[1..][1..] == srcs[2..];
    }
    assert srcs[..3] == srcs;
    EditsReplayed(CleanStart(base), msg, t);
    var s1 := CleanRun(CleanStart(base), srcs[..2], t);
    assert CleanSources(r, srcs[2], f) == srcs;
    var r1 := r.(clean := Some(s1.tip));
    assert Sync(r, srcs[2], false, f, t) == (r1, MergeDetected(CleanSide, srcs[2]));
    HandledAll(srcs, true);
    assert CleanSources(r1, srcs[2], f) == srcs && HistorySources(r1, srcs[2], f) == srcs;
    FullRun(r1, srcs, srcs, true, t);
    assert Sync(r1, srcs[2], true, f, t) == SyncFrom(r1, srcs, srcs, true, t);
    EditsReplayed(CleanStart(r1.clean.value), msg, t);
  }

  // ------------------------------------------------------ what a run records

  function AiOnlyAmong(srcs: seq<Commit>, ai: Path -> bool): nat {
    if srcs == [] then 0 else
      AiOnlyAmong(srcs[..|srcs| - 1], ai) + if IsAiOnly(srcs[|srcs| - 1], ai) then 1 else 0
  }

  /**
   The reported counts: each handled source once, as AI-only if it is, as created
   for each commit the tip grew by, else as a no-op.
   */
  lemma {:induction false} CountsMean(c: Commit, srcs: seq<Commit>, t: Tools)
    ensures var s := CleanRun(CleanStart(c), srcs, t);
      && s.counts.aiOnly == AiOnlyAmong(srcs, t.ai)
      && Size(s.tip) == Size(c) + s.counts.created
      && s.counts.created + s.counts.aiOnly + s.counts.noop == |srcs|
  {
    if srcs != [] {
      var n := |srcs| - 1;
      CountsMean(c, srcs[..n], t);
      CountStep(CleanRun(CleanStart(c), srcs[..n], t), srcs[n], t);
    }
  }

  lemma CountStep(s: CleanState, src: Commit, t: Tools)
    ensures var s' := CleanStep(s, src, t);
      && s'.counts.aiOnly == s.counts.aiOnly + (if IsAiOnly(src, t.ai) then 1 else 0)
      && Size(s'.tip) - Size(s.tip) == s'.counts.created - s.counts.created
      && s'.counts.created + s'.counts.aiOnly + s'.counts.noop
         == s.counts.created + s.counts.aiOnly + s.counts.noop + 1
  {
  }

  /** Writing trailers adds those lines and keeps all others. */
  lemma {:induction false} WrittenLines(ts: seq<Trailer>, add: seq<Trailer>, line: Trailer)
    ensures line in WriteTrailers(ts, add) <==> line in ts || line in add
    decreases add
  {
    if add != [] {
      assert line in add <==> line == add[0] || line in add[1..];
      if ts != [] && ts[|ts| - 1] == add[0] {
        WrittenLines(ts, add[1..], line);
      } else {
        WrittenLines(ts + [add[0]], add[1..], line);
      }
    }
  }

  predicate UntouchedBy(c: Commit, side: Side, ai: Path -> bool) {
    forall p :: p in DiffPaths(ParentTree(c), c.tree) ==> !Keeps(side, ai, p)
  }

  /**
   What a history commit of an unmerged source records, besides all its source's own
   lines: "history" if the source changed AI paths only, "code" if it changed none
   and has no AI subject, else "mixed"; its clean commit's tree, if there is one.
   */
  lemma HistoryCommitSays(tip: Commit, src: Commit, made: Option<Commit>, t: Tools)
    requires src.Child? && !IsMerge(src)
    ensures var ts := HistoryStep(tip, src, made, t).msg.trailers;
            var code, noCode := UntouchedBy(src, HistorySide, t.ai), UntouchedBy(src, CleanSide, t.ai);
      && (forall line :: line in src.msg.trailers ==> line in ts)
      && (noCode && src.tree != src.first.tree ==> KindOf(HistoryKind) in ts)
      && (code && !t.aiSubject(src.msg.subject) ==> KindOf(CodeKind) in ts)
      && (!(noCode && src.tree != src.first.tree) && !(code && !t.aiSubject(src.msg.subject)) ==>
            KindOf(MixedKind) in ts)
      && (made.Some? ==> CleanCommit(made.value) in ts && CounterpartTree(made.value.tree) in ts)
  {
    var add := HistoryTrailers(src, made, t);
    var kind := KindFor(ClassifyCommit(src, t.ai, t.aiSubject));
    assert add[1] == KindOf(kind);
    if made.Some? { assert add[2] == CleanCommit(made.value) && add[3] == CounterpartTree(made.value.tree); }
    forall line { WrittenLines(src.msg.trailers, add, line); }
    KindSaysWhatChanged(src, t.ai, t.aiSubject);
    AgreeIffUntouched(src, HistorySide, t.ai);
    AgreeIffUntouched(src, CleanSide, t.ai);
  }

  lemma AgreeIffUntouched(c: Commit, side: Side, ai: Path -> bool)
    ensures UntouchedBy(c, side, ai) <==> Agree(side, ai, ParentTree(c), c.tree)
  {
    if UntouchedBy(c, side, ai) {
      forall p | Keeps(side, ai, p) ensures SameAt(ParentTree(c), c.tree, p) {
        assert p !in DiffPaths(ParentTree(c), c.tree);
      }
    }
  }

  /** A flattened merge is recorded with its parents, in order. */
  lemma FlattenedMergeSays(tip: Commit, src: Commit, made: Option<Commit>, t: Tools)
    requires IsMerge(src)
    ensures OriginalMergeParents([src.first] + src.others) in HistoryStep(tip, src, made, t).msg.trailers
  {
    var add := HistoryTrailers(src, made, t);
    assert add[|add| - 1] == OriginalMergeParents(ParentsOf(src));
    WrittenLines(src.msg.trailers, add, OriginalMergeParents(ParentsOf(src)));
  }
}
