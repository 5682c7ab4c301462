/**
 A second trip: splitting the rebuilt branch and rebuilding it again.

 The rebuilt commits carry trailers themselves.  Those with a clean side are
 sources in their own right; the history-only ones still name the originals.
 */
module SecondTrip {
  import opened Options
  import opened GitTree
  import opened Commits
  import opened Classify
  import opened SyncSplits
  import opened SplitInvariant
  import opened SyncUnclean
  import opened Halves
  import opened Rebuild
  import opened RoundTrip

  // --------------------------------------------------------- rebuilt commits

  /** What rebuilding made of one half, on top of `prev`. */
  predicate Again(prev: Commit, h: Half, c: Commit) {
    && c.Child? && c.first == prev && c.others == []
    && c.tree == h.src.tree && SameText(c.msg, h.src.msg)
    && ReadReconstructed(c.msg.trailers) == Some(h.mark)
    && ReadCleanCommit(c.msg.trailers) == None
    && ReadSource(c.msg.trailers) == if h.made.Some? then None else Some(h.key)
  }

  lemma MergedTrailers(prev: Commit, h: Half, resolves: Commit -> bool, t: Tools, extra: ExtraText)
    requires Texts(h) && Stamped(h, resolves)
    ensures var ts := BucketMessage(Matched(h.key), BucketOf(h, t), extra).trailers;
      && ReadCleanCommit(ts) == None && ReadSource(ts) == if h.made.Some? then None else Some(h.key)
  {
    var m := if h.made.Some? then h.made.value.msg else h.hist.msg;
    ReadWritten(m.trailers, [ReconstructedFrom(h.key)]);
    assert [ReconstructedFrom(h.key)][1..] == [];
  }

  lemma MergedAgain(prev: Commit, h: Half, resolves: Commit -> bool, t: Tools, extra: ExtraText)
    requires Restorable(h, t) && Stamped(h, resolves) && prev.tree == ParentTree(h.src)
    ensures Again(prev, h, MergedCommit(prev, Matched(h.key), BucketOf(h, t), t, extra))
  {
    MergedTrailers(prev, h, resolves, t, extra);
    MessageRestored(h, t, extra);
  }

  /** What stands below position i of a list of commits on top of base. */
  function Below(base: Commit, cs: seq<Commit>, i: nat): Commit
    requires i <= |cs|
  {
    if i == 0 then base else cs[i - 1]
  }

  predicate AgainLine(base: Commit, hs: seq<Half>, cs: seq<Commit>) {
    |cs| == |hs| && forall i :: 0 <= i < |hs| ==> AgainAt(base, hs, cs, i)
  }

  predicate AgainAt(base: Commit, hs: seq<Half>, cs: seq<Commit>, i: nat) {
    i < |hs| && i < |cs| && Again(Below(base, cs, i), hs[i], cs[i])
  }

  lemma AgainLineSnoc(base: Commit, init: seq<Half>, cs: seq<Commit>, h: Half, c: Commit)
    requires AgainLine(base, init, cs) && Again(Below(base, cs, |cs|), h, c)
    ensures AgainLine(base, init + [h], cs + [c])
  {
    forall i | 0 <= i < |init + [h]| ensures AgainAt(base, init + [h], cs + [c], i) {
      if i < |init| {
        assert AgainAt(base, init, cs, i);
        AgainStays(base, init, cs, h, c, i);
      } else {
        SameBelow(base, cs, c, i);
      }
    }
  }

  lemma AgainStays(base: Commit, init: seq<Half>, cs: seq<Commit>, h: Half, c: Commit, i: nat)
    requires AgainAt(base, init, cs, i)
    ensures AgainAt(base, init + [h], cs + [c], i)
  {
    SameBelow(base, cs, c, i);
  }

  lemma SameBelow(base: Commit, cs: seq<Commit>, c: Commit, i: nat)
    requires i <= |cs|
    ensures Below(base, cs + [c], i) == Below(base, cs, i)
  {
  }

  /** The range above base grows by each commit built on it. */
  predicate Above(base: Commit, cs: seq<Commit>, tip: Commit) {
    && tip == Below(base, cs, |cs|)
    && Range(base, tip) == cs && (tip == base || Size(tip) > Size(base))
  }

  lemma AboveSnoc(base: Commit, cs: seq<Commit>, tip: Commit, c: Commit)
    requires Above(base, cs, tip) && c.Child? && c.first == tip && c.others == []
    ensures Above(base, cs + [c], c)
  {
    RangeGrows(base, tip, c);
  }

  /** The tree the next half continues. */
  lemma AgainTree(base: Commit, hs: seq<Half>, cs: seq<Commit>)
    requires AgainLine(base, hs, cs)
    ensures Below(base, cs, |cs|).tree == if hs == [] then base.tree else hs[|hs| - 1].src.tree
  {
    if hs != [] { assert AgainAt(base, hs, cs, |hs| - 1); }
  }

  lemma ChainLast(base: Tree, init: seq<Half>, h: Half, t: Tools)
    requires Chained(base, init + [h], t)
    ensures Chained(base, init, t) && Restorable(h, t)
    ensures ParentTree(h.src) == if init == [] then base else init[|init| - 1].src.tree
  {
    assert (init + [h])[..|init|] == init;
  }

  /** The halves so far, rebuilt in order on base as cs. */
  predicate RebuiltAs(base: Commit, hs: seq<Half>, cs: seq<Commit>, t: Tools, extra: ExtraText) {
    && Buildable(EntriesOf(hs, t))
    && AgainLine(base, hs, cs) && Above(base, cs, BuildAll(base, EntriesOf(hs, t), t, extra))
  }

  lemma EntriesSnoc(hs: seq<Half>, h: Half, t: Tools)
    ensures EntriesOf(hs + [h], t) == EntriesOf(hs, t) + [EntryOf(h, t)]
  {
  }

  lemma RebuiltOneMore(
      base: Commit, init: seq<Half>, cs: seq<Commit>, h: Half, resolves: Commit -> bool, t: Tools, extra: ExtraText)
    returns (c: Commit)
    requires RebuiltAs(base, init, cs, t, extra) && Chained(base.tree, init + [h], t) && Stamped(h, resolves)
    ensures RebuiltAs(base, init + [h], cs + [c], t, extra)
  {
    var tip := BuildAll(base, EntriesOf(init, t), t, extra);
    c := MergedCommit(tip, Matched(h.key), BucketOf(h, t), t, extra);
    EntriesSnoc(init, h, t);
    BuildAllSnoc(base, EntriesOf(init, t), EntryOf(h, t), t, extra);
    ChainLast(base.tree, init, h, t);
    AgainTree(base, init, cs);
    MergedAgain(tip, h, resolves, t, extra);
    AgainLineSnoc(base, init, cs, h, c);
    AboveSnoc(base, cs, tip, c);
  }

  lemma NothingRebuilt(base: Commit, t: Tools, extra: ExtraText)
    ensures RebuiltAs(base, [], [], t, extra)
  {
    SelfRange(base);
  }

  lemma {:induction false} BuiltInOrder(
      base: Commit, hs: seq<Half>, resolves: Commit -> bool, t: Tools, extra: ExtraText) returns (cs: seq<Commit>)
    requires Chained(base.tree, hs, t) && AllStamped(hs, resolves)
    ensures RebuiltAs(base, hs, cs, t, extra)
  {
    if hs == [] {
      NothingRebuilt(base, t, extra);
      cs := [];
    } else {
      var n := |hs| - 1;
      var init, h := hs[..n], hs[n];
      assert hs == init + [h];
      ChainLast(base.tree, init, h, t);
      cs := BuiltInOrder(base, init, resolves, t, extra);
      var c := RebuiltOneMore(base, init, cs, h, resolves, t, extra);
      cs := cs + [c];
    }
  }

  // --------------------------------------------------- the rebuilt as sources

  /** The rebuilt commits make the originals' changes, under the originals' dates. */
  predicate SameChanges(srcs: seq<Commit>, cs: seq<Commit>) {
    |cs| == |srcs| && forall i :: 0 <= i < |srcs| ==>
      && ParentTree(cs[i]) == ParentTree(srcs[i]) && cs[i].tree == srcs[i].tree
      && SameText(cs[i].msg, srcs[i].msg)
  }

  lemma AgainChanges(base: Commit, hs: seq<Half>, srcs: seq<Commit>, cs: seq<Commit>)
    requires AgainLine(base, hs, cs) && Linked(base.tree, srcs) && |hs| == |srcs|
    requires forall i :: 0 <= i < |hs| ==> hs[i].src == srcs[i]
    ensures SameChanges(srcs, cs)
  {
    forall i | 0 <= i < |srcs|
      ensures ParentTree(cs[i]) == ParentTree(srcs[i]) && cs[i].tree == srcs[i].tree
      ensures SameText(cs[i].msg, srcs[i].msg)
    {
      LinkedTrees(base.tree, srcs, i);
      assert AgainAt(base, hs, cs, i);
      if i > 0 { assert AgainAt(base, hs, cs, i - 1); }
    }
  }

  lemma AgainIsLinked(base: Commit, hs: seq<Half>, cs: seq<Commit>)
    requires AgainLine(base, hs, cs)
    ensures Linked(base.tree, cs) && forall i :: 0 <= i < |cs| ==> !IsMerge(cs[i])
  {
    forall i | 0 <= i < |cs| ensures cs[i].Child? && cs[i].first == Below(base, cs, i) && !IsMerge(cs[i]) {
      assert AgainAt(base, hs, cs, i);
    }
  }

  lemma SameCode(srcs: seq<Commit>, cs: seq<Commit>, ai: Path -> bool, i: nat)
    requires SameChanges(srcs, cs) && i < |srcs|
    ensures ChangesCode(cs[i], ai) == ChangesCode(srcs[i], ai)
  {
  }

  lemma SameDates(srcs: seq<Commit>, cs: seq<Commit>, ai: Path -> bool)
    requires SameChanges(srcs, cs) && DatesKeepOrder(srcs, ai)
    ensures DatesKeepOrder(cs, ai)
  {
    forall i | 0 < i < |cs|
      ensures cs[i - 1].msg.date < cs[i].msg.date || (cs[i - 1].msg.date == cs[i].msg.date &&
        (ChangesCode(cs[i - 1], ai) || !ChangesCode(cs[i], ai)))
    {
      SameCode(srcs, cs, ai, i - 1);
      SameCode(srcs, cs, ai, i);
      assert SameText(cs[i].msg, srcs[i].msg) && SameText(cs[i - 1].msg, srcs[i - 1].msg);
    }
  }

  lemma SteadyAgain(srcs: seq<Commit>, cs: seq<Commit>, ai: Path -> bool)
    requires SameChanges(srcs, cs) && Steady(BothSides, ai, srcs)
    ensures Steady(BothSides, ai, cs)
  {
  }

  // ----------------------------------------------------------- keys and marks

  /** A rebuilt commit is its own key and mark if it changes code, else the original is both. */
  function NextKey(src: Commit, c: Commit, ai: Path -> bool): Commit {
    if ChangesCode(src, ai) then c else src
  }

  predicate NextKeys(srcs: seq<Commit>, cs: seq<Commit>, ai: Path -> bool) {
    |cs| == |srcs| && forall i :: 0 <= i < |srcs| ==>
      && ReadCleanCommit(cs[i].msg.trailers) == None && ReadReconstructed(cs[i].msg.trailers).Some?
      && KeyOf(cs[i]) == NextKey(srcs[i], cs[i], ai) && MarkOf(cs[i], ai) == NextKey(srcs[i], cs[i], ai)
  }

  /** Halves of originals, each with a clean commit exactly for a change of code. */
  predicate OfOriginals(hs: seq<Half>, srcs: seq<Commit>, ai: Path -> bool) {
    |hs| == |srcs| && forall i :: 0 <= i < |hs| ==>
      && hs[i].src == srcs[i] && hs[i].key == srcs[i] && hs[i].mark == srcs[i]
      && (hs[i].made.Some? <==> ChangesCode(srcs[i], ai))
  }

  lemma AgainKeys(base: Commit, hs: seq<Half>, srcs: seq<Commit>, cs: seq<Commit>, ai: Path -> bool)
    requires AgainLine(base, hs, cs) && SameChanges(srcs, cs) && OfOriginals(hs, srcs, ai)
    ensures NextKeys(srcs, cs, ai)
  {
    forall i | 0 <= i < |srcs|
      ensures ReadCleanCommit(cs[i].msg.trailers) == None && ReadReconstructed(cs[i].msg.trailers).Some?
      ensures KeyOf(cs[i]) == NextKey(srcs[i], cs[i], ai) && MarkOf(cs[i], ai) == NextKey(srcs[i], cs[i], ai)
    {
      assert AgainAt(base, hs, cs, i);
      SameCode(srcs, cs, ai, i);
    }
  }

  /** The new keys are still apart: an original is never a rebuilt commit. */
  lemma NextAreKeyed(base: Commit, srcs: seq<Commit>, cs: seq<Commit>, resolves: Commit -> bool, ai: Path -> bool)
    requires NextKeys(srcs, cs, ai) && Linked(base.tree, srcs) && Linked(base.tree, cs) && Fresh(srcs, resolves)
    requires forall i :: 0 <= i < |cs| ==> resolves(cs[i])
    ensures Keyed(cs, resolves, ai)
  {
    LinkedDistinct(base.tree, srcs);
    LinkedDistinct(base.tree, cs);
    forall i, j | 0 <= i < j < |cs| ensures NextKey(srcs[i], cs[i], ai) != NextKey(srcs[j], cs[j], ai) {
      assert Unstamped(srcs[i].msg.trailers) && Unstamped(srcs[j].msg.trailers);
    }
    forall i | 0 <= i < |cs| ensures Readable(cs[i], resolves) { assert resolves(srcs[i]); }
  }

  // -------------------------------------------------- where a replay starts

  lemma NoCursorNext(prev: Commit, h: Half, c: Commit, target: Commit, resolves: Commit -> bool)
    requires Again(prev, h, c) && ReconstructedCursor(prev, target, resolves) == None && !IsAncestor(h.mark, target)
    ensures ReconstructedCursor(c, target, resolves) == None
  {
  }

  predicate MarksOutside(hs: seq<Half>, target: Commit) {
    forall i :: 0 <= i < |hs| ==> !IsAncestor(hs[i].mark, target)
  }

  lemma MarkIsOutside(hs: seq<Half>, i: nat, target: Commit)
    requires MarksOutside(hs, target) && i < |hs|
    ensures !IsAncestor(hs[i].mark, target)
  {
  }

  /** A rebuilt line gives no cursor if main gives none and contains none of the marks. */
  lemma {:induction false} NoCursorAbove(
      main: Commit, hs: seq<Half>, cs: seq<Commit>, n: nat, target: Commit, resolves: Commit -> bool)
    requires AgainLine(main, hs, cs) && n <= |cs| && ReconstructedCursor(main, target, resolves) == None
    requires MarksOutside(hs, target)
    ensures ReconstructedCursor(Below(main, cs, n), target, resolves) == None
  {
    if n > 0 {
      NoCursorAbove(main, hs, cs, n - 1, target, resolves);
      MarkIsOutside(hs, n - 1, target);
      assert AgainAt(main, hs, cs, n - 1);
      NoCursorNext(Below(main, cs, n - 1), hs[n - 1], cs[n - 1], target, resolves);
    }
  }

  /** Main names no source to resume after, and contains none of these. */
  predicate PlainMain(f: Fixed, srcs: seq<Commit>) {
    && ReadSource(f.main.msg.trailers) == None && ReconstructedCursor(f.main, f.main, f.resolves) == None
    && forall i :: 0 <= i < |srcs| ==> !IsAncestor(srcs[i], f.main)
  }

  /** The second split's sources are the rebuilt commits. */
  lemma RebuiltAreSources(
      hs: seq<Half>, srcs: seq<Commit>, cs: seq<Commit>, tip: Commit, ai: Path -> bool, f: Fixed)
    requires AgainLine(f.main, hs, cs) && Above(f.main, cs, tip) && OfOriginals(hs, srcs, ai) && PlainMain(f, srcs)
    ensures CleanSources(NOT_STARTED, tip, f) == cs
  {
    forall i | 0 <= i < |hs| ensures !IsAncestor(hs[i].mark, f.main) { assert hs[i].mark == srcs[i]; }
    NoCursorAbove(f.main, hs, cs, |cs|, f.main, f.resolves);
  }

  // -------------------------------------------------------- the second trip

  /** What the second split starts from. */
  ghost predicate Resplittable(srcs: seq<Commit>, cs: seq<Commit>, f: Fixed, ai: Path -> bool) {
    && SameChanges(srcs, cs) && NextKeys(srcs, cs, ai)
    && Linked(f.main.tree, cs) && (forall i :: 0 <= i < |cs| ==> !IsMerge(cs[i]))
  }

  lemma RebuiltIsResplittable(hs: seq<Half>, srcs: seq<Commit>, cs: seq<Commit>, f: Fixed, ai: Path -> bool)
    requires AgainLine(f.main, hs, cs) && OfOriginals(hs, srcs, ai) && Linked(f.main.tree, srcs)
    ensures Resplittable(srcs, cs, f, ai)
  {
    AgainChanges(f.main, hs, srcs, cs);
    AgainIsLinked(f.main, hs, cs);
    AgainKeys(f.main, hs, srcs, cs, ai);
  }

  /** Splitting the rebuilt branch is a first split like that of the originals. */
  lemma SplitsAgain(srcs: seq<Commit>, cs: seq<Commit>, tip: Commit, fakeMerges: bool, f: Fixed, t: Tools)
    requires Resplittable(srcs, cs, f, t.ai) && Linked(f.main.tree, srcs) && Fresh(srcs, f.resolves)
    requires Steady(BothSides, t.ai, srcs) && Sound(t) && OldHistoryConsistent(f, t)
    requires Agree(HistorySide, t.ai, f.historyMain.tree, f.main.tree)
    requires CleanSources(NOT_STARTED, tip, f) == HistorySources(NOT_STARTED, tip, f) == cs
    requires forall i :: 0 <= i < |cs| ==> f.resolves(cs[i])
    ensures FirstSplit(tip, fakeMerges, f, t)
  {
    NextAreKeyed(f.main, srcs, cs, f.resolves, t.ai);
    SteadyAgain(srcs, cs, t.ai);
    HandledAll(cs, fakeMerges);
  }

  /** What restores the rebuilt commits restores the originals. */
  lemma {:induction false} RestoresOriginals(
      tip: Commit, base: Commit, srcs: seq<Commit>, cs: seq<Commit>, marks: seq<Commit>)
    requires |marks| == |cs| && SameChanges(srcs, cs) && RestoredLine(tip, base, cs, marks)
    ensures RestoredLine(tip, base, srcs, marks)
  {
    if srcs != [] {
      var n := |srcs| - 1;
      assert SameChanges(srcs[..n], cs[..n]);
      RestoresOriginals(tip.first, base, srcs[..n], cs[..n], marks[..n]);
      assert SameText(cs[n].msg, srcs[n].msg);
    }
  }

  lemma MarksAreNext(srcs: seq<Commit>, cs: seq<Commit>, ai: Path -> bool)
    requires NextKeys(srcs, cs, ai)
    ensures MarksFor(cs, ai) == NextMarks(srcs, cs, ai)
  {
  }

  function NextMarks(srcs: seq<Commit>, cs: seq<Commit>, ai: Path -> bool): (r: seq<Commit>)
    requires |srcs| == |cs|
    ensures |r| == |cs| && forall i :: 0 <= i < |cs| ==> r[i] == NextKey(srcs[i], cs[i], ai)
  {
    if cs == [] then [] else
      var n := |cs| - 1; NextMarks(srcs[..n], cs[..n], ai) + [NextKey(srcs[n], cs[n], ai)]
  }

  /** The branch a first run in each direction rebuilds. */
  function TripTip(
      unclean: Commit, fakeMerges: bool, allowRewrite: bool, force: bool, f: Fixed, t: Tools, extra: ExtraText)
    : Option<Commit>
  {
    var r := Sync(NOT_STARTED, unclean, fakeMerges, f, t).0;
    Reconstruct(ReconRefs(r.clean, r.history, None, None, None), allowRewrite, force, f, t, extra).0.unclean
  }

  lemma WellSplitOriginals(hs: seq<Half>, main: Commit, srcs: seq<Commit>, resolves: Commit -> bool, t: Tools)
    requires WellSplit(hs, main, srcs, resolves, t) && Fresh(srcs, resolves)
    requires forall i :: 0 <= i < |hs| ==>
      hs[i].key == KeyOf(srcs[i]) && hs[i].mark == MarkIf(srcs[i], hs[i].made.Some?)
    ensures OfOriginals(hs, srcs, t.ai)
  {
    forall i | 0 <= i < |hs| ensures hs[i].key == srcs[i] && hs[i].mark == srcs[i] {
      assert Unstamped(srcs[i].msg.trailers);
    }
  }

  /** Halves of originals whose dates keep the order are rebuilt in that order. */
  lemma OriginalsRebuild(hs: seq<Half>, srcs: seq<Commit>, f: Fixed, t: Tools, extra: ExtraText)
    returns (cs: seq<Commit>)
    requires WellSplit(hs, f.main, srcs, f.resolves, t) && DatesKeepOrder(srcs, t.ai)
    ensures SortedEntries(hs, t) == EntriesOf(hs, t) && RebuiltAs(f.main, hs, cs, t, extra)
  {
    SortedIffDates(hs, srcs, t);
    MatchingIsStamped(hs, f.resolves);
    cs := BuiltInOrder(f.main, hs, f.resolves, t, extra);
  }

  /** What the first trip rebuilt, as the list of its commits. */
  lemma FirstTripRebuilds(
      unclean: Commit, tip: Commit, fakeMerges: bool, allowRewrite: bool, force: bool, f: Fixed, t: Tools,
      extra: ExtraText) returns (hs: seq<Half>, cs: seq<Commit>)
    requires FirstSplit(unclean, fakeMerges, f, t)
    requires var srcs := CleanSources(NOT_STARTED, unclean, f);
      Fresh(srcs, f.resolves) && DatesKeepOrder(srcs, t.ai)
    requires TripTip(unclean, fakeMerges, allowRewrite, force, f, t, extra) == Some(tip)
    ensures OfOriginals(hs, CleanSources(NOT_STARTED, unclean, f), t.ai)
    ensures AgainLine(f.main, hs, cs) && Above(f.main, cs, tip)
  {
    var srcs := CleanSources(NOT_STARTED, unclean, f);
    hs := TripHalves(unclean, f, t);
    TripIs(unclean, fakeMerges, allowRewrite, force, f, t, extra);
    cs := OriginalsRebuild(hs, srcs, f, t, extra);
    WellSplitOriginals(hs, f.main, srcs, f.resolves, t);
  }

  /**
   The second trip.  Splitting the rebuilt branch of originals from scratch, and
   rebuilding it once more, is never refused and gives back the same trees, texts
   and dates in the same order.  A commit that changes code now names the first
   trip's commit; a history-only one still names the original.
   */
  lemma SecondTrip(
      unclean: Commit, tip: Commit, fakeMerges: bool, allowRewrite: bool, force: bool,
      fakeAgain: bool, allowAgain: bool, forceAgain: bool, f: Fixed, t: Tools, extra: ExtraText)
    requires FirstSplit(unclean, fakeMerges, f, t)
    requires var srcs := CleanSources(NOT_STARTED, unclean, f);
      Fresh(srcs, f.resolves) && DatesKeepOrder(srcs, t.ai) && PlainMain(f, srcs)
    requires TripTip(unclean, fakeMerges, allowRewrite, force, f, t, extra) == Some(tip)
    requires HistorySources(NOT_STARTED, tip, f) == CleanSources(NOT_STARTED, tip, f)
    requires forall i :: 0 <= i < |CleanSources(NOT_STARTED, tip, f)| ==>
      f.resolves(CleanSources(NOT_STARTED, tip, f)[i])
    ensures var srcs := CleanSources(NOT_STARTED, unclean, f); var cs := CleanSources(NOT_STARTED, tip, f);
            var r := Sync(NOT_STARTED, tip, fakeAgain, f, t).0;
            var (r', refusal) := Reconstruct(
              ReconRefs(r.clean, r.history, None, None, None), allowAgain, forceAgain, f, t, extra);
      && |cs| == |srcs| && refusal == None && r'.unclean.Some?
      && RestoredLine(r'.unclean.value, f.main, cs, NextMarks(srcs, cs, t.ai))
      && RestoredLine(r'.unclean.value, f.main, srcs, NextMarks(srcs, cs, t.ai))
  {
    var srcs := CleanSources(NOT_STARTED, unclean, f);
    var hs, cs := FirstTripRebuilds(unclean, tip, fakeMerges, allowRewrite, force, f, t, extra);
    RebuiltAreSources(hs, srcs, cs, tip, t.ai, f);
    RebuiltIsResplittable(hs, srcs, cs, f, t.ai);
    SecondOnRebuilt(srcs, cs, tip, fakeAgain, allowAgain, forceAgain, f, t, extra);
  }

  lemma SecondOnRebuilt(
      srcs: seq<Commit>, cs: seq<Commit>, tip: Commit, fakeMerges: bool, allowRewrite: bool, force: bool, f: Fixed,
      t: Tools, extra: ExtraText)
    requires Resplittable(srcs, cs, f, t.ai) && Linked(f.main.tree, srcs) && Fresh(srcs, f.resolves)
    requires Steady(BothSides, t.ai, srcs) && Sound(t) && OldHistoryConsistent(f, t) && DatesKeepOrder(srcs, t.ai)
    requires Agree(HistorySide, t.ai, f.historyMain.tree, f.main.tree)
    requires CleanSources(NOT_STARTED, tip, f) == HistorySources(NOT_STARTED, tip, f) == cs
    requires forall i :: 0 <= i < |cs| ==> f.resolves(cs[i])
    ensures var r := Sync(NOT_STARTED, tip, fakeMerges, f, t).0;
            var (r', refusal) := Reconstruct(
              ReconRefs(r.clean, r.history, None, None, None), allowRewrite, force, f, t, extra);
      && refusal == None && r'.unclean.Some?
      && RestoredLine(r'.unclean.value, f.main, cs, NextMarks(srcs, cs, t.ai))
      && RestoredLine(r'.unclean.value, f.main, srcs, NextMarks(srcs, cs, t.ai))
  {
    SplitsAgain(srcs, cs, tip, fakeMerges, f, t);
    SameDates(srcs, cs, t.ai);
    MarksAreNext(srcs, cs, t.ai);
    RoundTrip.RoundTrip(tip, fakeMerges, allowRewrite, force, f, t, extra);
    var r := Sync(NOT_STARTED, tip, fakeMerges, f, t).0;
    var r' := Reconstruct(ReconRefs(r.clean, r.history, None, None, None), allowRewrite, force, f, t, extra).0;
    RestoresOriginals(r'.unclean.value, f.main, srcs, cs, NextMarks(srcs, cs, t.ai));
  }
}
