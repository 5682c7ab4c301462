/**
 The first forward run over a rebuilt branch: where it starts, and when it makes
 no clean commit.
 */
module FirstForward {
  import opened Options
  import opened GitTree
  import opened Commits
  import opened Classify
  import opened SyncSplits
  import opened SplitInvariant
  import opened SyncUnclean
  import opened Rebuild
  import opened Rewrite
  import opened Stale
  import opened NextRun

  // --------------------------------------------------- where a replay starts

  /** The commit was rebuilt from one that the target contains. */
  predicate Covered(c: Commit, target: Commit, resolves: Commit -> bool) {
    var key := ReadReconstructed(c.msg.trailers);
    key.Some? && resolves(key.value) && IsAncestor(key.value, target)
  }

  predicate NoneCovered(cs: seq<Commit>, target: Commit, resolves: Commit -> bool) {
    forall i :: 0 <= i < |cs| ==> !Covered(cs[i], target, resolves)
  }

  /** The newest commit of the line that was rebuilt from one the target contains. */
  predicate NewestCovered(line: seq<Commit>, target: Commit, resolves: Commit -> bool, i: int) {
    0 <= i < |line| && Covered(line[i], target, resolves) &&
      forall j :: i < j < |line| ==> !Covered(line[j], target, resolves)
  }

  lemma LineSplits(c: Commit)
    requires c.Child?
    ensures Line(c) == Line(c.first) + [c]
  {
  }

  lemma CoveredBelow(line: seq<Commit>, c: Commit, target: Commit, resolves: Commit -> bool, i: int)
    requires NewestCovered(line + [c], target, resolves, i) && !Covered(c, target, resolves)
    ensures NewestCovered(line, target, resolves, i)
  {
    var all := line + [c];
    assert all[|line|] == c;
    assert forall j :: 0 <= j < |line| ==> all[j] == line[j];
  }

  lemma {:induction false} CursorIs(c: Commit, target: Commit, resolves: Commit -> bool, i: int)
    requires NewestCovered(Line(c), target, resolves, i)
    ensures ReconstructedCursor(c, target, resolves) == Some(Line(c)[i])
  {
    var n := |Line(c)| - 1;
    assert Line(c)[n] == c;
    if !Covered(c, target, resolves) {
      LineSplits(c);
      CoveredBelow(Line(c.first), c, target, resolves, i);
      CursorIs(c.first, target, resolves, i);
    }
  }

  lemma {:induction false} NoCursor(c: Commit, target: Commit, resolves: Commit -> bool)
    requires NoneCovered(Line(c), target, resolves)
    ensures ReconstructedCursor(c, target, resolves) == None
  {
    assert Line(c)[|Line(c)| - 1] == c;
    if c.Child? {
      LineSplits(c);
      assert forall i :: 0 <= i < |Line(c.first)| ==> Line(c)[i] == Line(c.first)[i];
      NoCursor(c.first, target, resolves);
    }
  }

  /** A range from a commit of the line is what the line has above it. */
  lemma RangeAbove(tip: Commit, i: nat)
    requires i < |Line(tip)|
    ensures Range(Line(tip)[i], tip) == Line(tip)[i + 1..]
  {
    LineAt(tip, i);
    assert Line(tip) == Line(tip)[..i + 1] + Line(tip)[i + 1..];
    TailIsRange(Line(tip)[i], tip, Line(tip)[i + 1..]);
  }

  /** What is replayed onto a tip that carries no trailer, from no cursor. */
  ghost predicate Replays(
      sources: seq<Commit>, target: Commit, unclean: Commit, lowerBound: Commit, resolves: Commit -> bool)
  {
    && (forall i :: NewestCovered(Line(unclean), target, resolves, i) ==> sources == Line(unclean)[i + 1..])
    && (NoneCovered(Line(unclean), target, resolves) ==> sources == Range(lowerBound, unclean))
  }

  lemma StartsAbove(target: Commit, unclean: Commit, lowerBound: Commit, resolves: Commit -> bool)
    requires ReadSource(target.msg.trailers) == None
    ensures Replays(Range(ReplayStart(None, target, unclean, lowerBound, resolves), unclean), target, unclean,
                    lowerBound, resolves)
  {
    forall i | NewestCovered(Line(unclean), target, resolves, i)
      ensures Range(ReplayStart(None, target, unclean, lowerBound, resolves), unclean) == Line(unclean)[i + 1..]
    {
      CursorIs(unclean, target, resolves, i);
      RangeAbove(unclean, i);
    }
    if NoneCovered(Line(unclean), target, resolves) { NoCursor(unclean, target, resolves); }
  }

  /**
   A run without a cursor, onto a clean tip without a trailer, replays exactly the
   commits above the newest one rebuilt from a commit that the clean branch
   contains; without such a one, those above main.
   */
  lemma CleanReplays(r: Refs, unclean: Commit, f: Fixed)
    requires r.cleanCursor == None && ReadSource(OrElse(r.clean, f.main).msg.trailers) == None
    ensures Replays(CleanSources(r, unclean, f), OrElse(r.clean, f.main), unclean, f.main, f.resolves)
  {
    StartsAbove(OrElse(r.clean, f.main), unclean, f.main, f.resolves);
  }

  /** And likewise on the history side. */
  lemma HistoryReplays(r: Refs, unclean: Commit, f: Fixed)
    requires r.historyCursor == None && ReadSource(OrElse(r.history, f.historyMain).msg.trailers) == None
    ensures Replays(HistorySources(r, unclean, f), OrElse(r.history, f.historyMain), unclean, f.historyMain, f.resolves)
  {
    StartsAbove(OrElse(r.history, f.historyMain), unclean, f.historyMain, f.resolves);
  }

  // ------------------------------------------------- when no commit is made

  /** Every code path that the commit changes, but for its object type, is in the tree as it left it. */
  ghost predicate Settled(src: Commit, tree: Tree, ai: Path -> bool) {
    forall p :: !ai(p) && !SameAt(ParentTree(src), src.tree, p) && !KindFlip(ParentTree(src), src.tree, p) ==>
      SameAt(src.tree, tree, p)
  }

  lemma FilteredIff(tree: Tree, src: Commit, t: Tools)
    requires Sound(t)
    ensures FilteredTree(tree, src, CleanSide, t) == tree <==> Settled(src, tree, t.ai)
  {
    var r := FilteredTree(tree, src, CleanSide, t);
    forall p { FilteredAt(tree, src, CleanSide, t, p); }
    if Settled(src, tree, t.ai) {
      forall p ensures SameAt(r, tree, p) {}
      SameEverywhere(r, tree);
    }
  }

  /** An iteration of the clean loop makes nothing exactly if replaying would change nothing. */
  lemma StepMakesIff(s: CleanState, src: Commit, t: Tools)
    requires Sound(t)
    ensures CleanStep(s, src, t).counts.created == s.counts.created <==> Settled(src, s.tip.tree, t.ai)
    ensures Settled(src, s.tip.tree, t.ai) ==> CleanStep(s, src, t).tip == s.tip
    ensures CleanStep(s, src, t).counts.created >= s.counts.created
  {
    FilteredIff(s.tip.tree, src, t);
    SkipLosesNothing(s, src, t);
  }

  ghost predicate AllSettled(srcs: seq<Commit>, tree: Tree, ai: Path -> bool) {
    forall i :: 0 <= i < |srcs| ==> Settled(srcs[i], tree, ai)
  }

  lemma {:induction false} CreatedGrows(c: Commit, srcs: seq<Commit>, t: Tools)
    requires Sound(t)
    ensures CleanRun(CleanStart(c), srcs, t).counts.created == 0 <==> AllSettled(srcs, c.tree, t.ai)
    ensures AllSettled(srcs, c.tree, t.ai) ==> CleanRun(CleanStart(c), srcs, t).tip == c
  {
    if srcs != [] {
      var n := |srcs| - 1;
      CreatedGrows(c, srcs[..n], t);
      StepMakesIff(CleanRun(CleanStart(c), srcs[..n], t), srcs[n], t);
      SettledSnoc(srcs[..n], srcs[n], c.tree, t.ai);
      assert srcs == srcs[..n] + [srcs[n]];
    }
  }

  lemma SettledSnoc(srcs: seq<Commit>, src: Commit, tree: Tree, ai: Path -> bool)
    ensures AllSettled(srcs + [src], tree, ai) <==> AllSettled(srcs, tree, ai) && Settled(src, tree, ai)
  {
    var all := srcs + [src];
    if AllSettled(all, tree, ai) {
      forall i | 0 <= i < |srcs| ensures Settled(srcs[i], tree, ai) { assert all[i] == srcs[i]; }
      assert all[|srcs|] == src;
    }
  }

  /** A run that made commits left a bigger tip. */
  lemma {:induction false} MadeMoves(s: CleanState, srcs: seq<Commit>, t: Tools)
    ensures var r := CleanRun(s, srcs, t);
      && r.counts.created >= s.counts.created && Size(r.tip) >= Size(s.tip)
      && (r.counts.created > s.counts.created ==> Size(r.tip) > Size(s.tip))
  {
    if srcs != [] {
      var n := |srcs| - 1;
      MadeMoves(s, srcs[..n], t);
      OneMoves(CleanRun(s, srcs[..n], t), srcs[n], t);
    }
  }

  lemma OneMoves(s: CleanState, src: Commit, t: Tools)
    ensures var r := CleanStep(s, src, t);
      && r.counts.created >= s.counts.created && Size(r.tip) >= Size(s.tip)
      && (r.counts.created > s.counts.created ==> Size(r.tip) > Size(s.tip))
  {
  }

  /** The clean commits a run made, as far as it came. */
  lemma SyncedClean(r: Refs, unclean: Commit, fakeMerges: bool, f: Fixed, t: Tools)
    ensures var xs := CleanSources(r, unclean, f); var (r', o) := Sync(r, unclean, fakeMerges, f, t);
            var s := CleanRun(CleanStart(OrElse(r.clean, f.main)), xs[..Handled(xs, fakeMerges)], t);
      r'.clean == Some(s.tip) && (o.Synced? ==> o.clean == s.counts)
  {
  }

  /**
   When a run makes no clean commit and leaves the clean tip where it is: exactly
   if each commit it handles wrote only code that the tip has just so.
   */
  lemma LeavesCleanIff(r: Refs, unclean: Commit, fakeMerges: bool, f: Fixed, t: Tools)
    requires Sound(t)
    ensures var c := OrElse(r.clean, f.main); var xs := CleanSources(r, unclean, f);
            var (r', o) := Sync(r, unclean, fakeMerges, f, t);
            var settled := AllSettled(xs[..Handled(xs, fakeMerges)], c.tree, t.ai);
      && (r'.clean == Some(c) <==> settled)
      && (o.Synced? ==> (o.clean.created == 0 <==> settled))
  {
    var c := OrElse(r.clean, f.main);
    var xs := CleanSources(r, unclean, f);
    var handled := xs[..Handled(xs, fakeMerges)];
    SyncedClean(r, unclean, fakeMerges, f, t);
    CreatedGrows(c, handled, t);
    MadeMoves(CleanStart(c), handled, t);
  }

  /**
   The first forward run over a branch, from a clean tip without a trailer: it
   leaves that tip exactly if the commits above the newest one rebuilt from a
   commit of the clean branch wrote only code that the tip has just so.
   */
  lemma FirstRunLeavesCleanIff(
      clean: Commit, history: Option<Commit>, unclean: Commit, i: int, fakeMerges: bool, f: Fixed, t: Tools)
    requires Sound(t) && ReadSource(clean.msg.trailers) == None
    requires NewestCovered(Line(unclean), clean, f.resolves, i)
    ensures var (r', o) := Sync(Refs(Some(clean), history, None, None), unclean, fakeMerges, f, t);
            var above := Line(unclean)[i + 1..];
      && (o.Synced? ==> (o.clean.created == 0 <==> AllSettled(above, clean.tree, t.ai)))
      && (r'.clean == Some(clean) <==> AllSettled(above[..Handled(above, fakeMerges)], clean.tree, t.ai))
  {
    var r := Refs(Some(clean), history, None, None);
    CleanReplays(r, unclean, f);
    LeavesCleanIff(r, unclean, fakeMerges, f, t);
    FinishesIff(r, unclean, fakeMerges, f, t);
    HandledAll(CleanSources(r, unclean, f), fakeMerges);
    var above := Line(unclean)[i + 1..];
    if Handled(above, fakeMerges) == |above| { assert above[..|above|] == above; }
  }

  /** On the history side it commits once for each commit above the newest one rebuilt from one history contains. */
  lemma FirstRunHistory(
      clean: Option<Commit>, history: Commit, unclean: Commit, i: int, fakeMerges: bool, f: Fixed, t: Tools)
    requires ReadSource(history.msg.trailers) == None && NewestCovered(Line(unclean), history, f.resolves, i)
    ensures var (r', o) := Sync(Refs(clean, Some(history), None, None), unclean, fakeMerges, f, t);
      o.Synced? ==>
        && o.historyCreated == |Line(unclean)| - i - 1
        && r'.historyCursor == if i == |Line(unclean)| - 1 then None else Some(unclean)
  {
    var r := Refs(clean, Some(history), None, None);
    HistoryReplays(r, unclean, f);
    FinishedFrom(Started(r, f), CleanSources(r, unclean, f), HistorySources(r, unclean, f), fakeMerges, t);
    assert Line(unclean)[|Line(unclean)| - 1] == unclean;
  }

  // ------------------------------------------- right after a reconstruction

  predicate KeepsCode(c: Commit, ai: Path -> bool) {
    forall p :: p in DiffPaths(ParentTree(c), c.tree) ==> ai(p)
  }

  lemma KeptIsSettled(c: Commit, tree: Tree, ai: Path -> bool)
    requires KeepsCode(c, ai)
    ensures Settled(c, tree, ai)
  {
    forall p | !ai(p) ensures SameAt(ParentTree(c), c.tree, p) {
      assert p !in DiffPaths(ParentTree(c), c.tree);
    }
  }

  /** The commits of a branch above where it forked off. */
  function Ahead(tip: Option<Commit>, lowerBound: Commit): seq<Commit> {
    if tip.None? then [] else Range(lowerBound, tip.value)
  }

  lemma {:induction false} RangeContained(x: Commit, tip: Commit, i: nat)
    requires i < |Range(x, tip)|
    ensures IsAncestor(Range(x, tip)[i], tip)
  {
    if i < |Range(x, tip)| - 1 { RangeContained(x, tip.first, i); }
  }

  /** A clean and a history branch that no run of either direction has touched. */
  predicate Untouched(clean: Option<Commit>, history: Option<Commit>, f: Fixed, ai: Path -> bool) {
    var xs, ys := Ahead(clean, f.main), Ahead(history, f.historyMain);
    && (clean.Some? || history.Some?)
    && Unsplit(xs) && Unsplit(ys) && Unnamed(xs) && Unnamed(ys) && Unnamed(Line(f.main))
    && ReadSource(OrElse(clean, f.main).msg.trailers) == None
    && (forall i :: 0 <= i < |xs| ==> f.resolves(xs[i]))
    && (forall i :: 0 <= i < |ys| ==> KeepsCode(ys[i], ai))
  }

  function FirstRefs(clean: Option<Commit>, history: Option<Commit>): ReconRefs {
    ReconRefs(clean, history, None, None, None)
  }

  lemma FirstInfosAre(clean: Option<Commit>, history: Option<Commit>, f: Fixed, t: Tools)
    requires Unsplit(Ahead(clean, f.main)) && Unsplit(Ahead(history, f.historyMain))
    ensures NewInfos(FirstRefs(clean, history), f, t)
         == Ok((ReadInfos(Ahead(clean, f.main), t), ReadInfos(Ahead(history, f.historyMain), t)))
  {
    UnsplitInfos(Ahead(clean, f.main), Ahead(history, f.historyMain), f, t);
  }

  /** What a rebuilt commit is to the clean branch: one of its own, or one that keeps code. */
  predicate CoveredOrKept(c: Commit, target: Commit, resolves: Commit -> bool, ai: Path -> bool) {
    Covered(c, target, resolves) || KeepsCode(c, ai)
  }

  lemma InfoOf(cs: seq<Commit>, info: CommitInfo, t: Tools) returns (i: nat)
    requires info in ReadInfos(cs, t)
    ensures i < |cs| && info == ReadInfo(cs[i], t)
  {
    i :| 0 <= i < |cs| && ReadInfos(cs, t)[i] == info;
  }

  lemma OverlayKeepsCode(prev: Commit, info: CommitInfo, msg: Message, t: Tools)
    requires Sound(t) && Own(info, t) && KeepsCode(info.sha, t.ai)
    ensures KeepsCode(Child(prev, [], Overlay(prev.tree, info, t), msg), t.ai)
  {
    forall p | !t.ai(p) ensures SameAt(prev.tree, Overlay(prev.tree, info, t), p) {
      OverlaidAt(prev.tree, info, t, p);
      assert p !in DiffPaths(ParentTree(info.sha), info.sha.tree);
    }
  }

  /** Clean commits the target contains, and history commits that keep code; none carries a trailer. */
  predicate Sides(xs: seq<Commit>, ys: seq<Commit>, target: Commit, resolves: Commit -> bool, ai: Path -> bool) {
    && Unsplit(xs) && Unnamed(xs) && Unnamed(ys)
    && (forall i :: 0 <= i < |xs| ==> resolves(xs[i]) && IsAncestor(xs[i], target))
    && (forall i :: 0 <= i < |ys| ==> KeepsCode(ys[i], ai))
  }

  /** An entry with a clean side goes under that side's commit. */
  lemma CleanKey(
      e: OrderEntry, xs: seq<Commit>, ys: seq<Commit>, resolves: Commit -> bool, t: Tools, extra: ExtraText)
    returns (i: nat)
    requires Stands(e, ReadInfos(xs, t), ReadInfos(ys, t), resolves) && e.bucket.clean.Some?
    requires Unsplit(xs) && Unnamed(xs) && Unnamed(ys)
    ensures i < |xs| && EntryMark(e, extra) == Some(xs[i])
  {
    i := InfoOf(xs, e.bucket.clean.value, t);
    if e.bucket.history.Some? { var j := InfoOf(ys, e.bucket.history.value, t); }
    EntryNamesKey(e, extra);
  }

  lemma CleanKind(
      prev: Commit, e: OrderEntry, xs: seq<Commit>, ys: seq<Commit>, target: Commit, resolves: Commit -> bool,
      t: Tools, extra: ExtraText)
    requires Stands(e, ReadInfos(xs, t), ReadInfos(ys, t), resolves) && e.bucket.clean.Some?
    requires Sides(xs, ys, target, resolves, t.ai)
    ensures Covered(MergedCommit(prev, e.key, e.bucket, t, extra), target, resolves)
  {
    var i := CleanKey(e, xs, ys, resolves, t, extra);
    MemberOfSides(xs, ys, target, resolves, t.ai, i);
  }

  lemma MemberOfSides(
      xs: seq<Commit>, ys: seq<Commit>, target: Commit, resolves: Commit -> bool, ai: Path -> bool, i: nat)
    requires Sides(xs, ys, target, resolves, ai) && i < |xs|
    ensures resolves(xs[i]) && IsAncestor(xs[i], target)
  {
  }

  lemma HistoryInfoKeeps(ys: seq<Commit>, info: CommitInfo, t: Tools)
    requires info in ReadInfos(ys, t) && forall i :: 0 <= i < |ys| ==> KeepsCode(ys[i], t.ai)
    ensures Own(info, t) && KeepsCode(info.sha, t.ai)
  {
    var j := InfoOf(ys, info, t);
  }

  lemma HistoryKind(prev: Commit, e: OrderEntry, info: CommitInfo, t: Tools, extra: ExtraText)
    requires Sound(t) && e.bucket == Bucket(None, Some(info)) && Own(info, t) && KeepsCode(info.sha, t.ai)
    ensures KeepsCode(MergedCommit(prev, e.key, e.bucket, t, extra), t.ai)
  {
    OverlayKeepsCode(prev, info, BucketMessage(e.key, e.bucket, extra), t);
  }

  /** A commit with a clean side names that side's commit, one without keeps code. */
  lemma MergedKind(
      prev: Commit, e: OrderEntry, xs: seq<Commit>, ys: seq<Commit>, target: Commit, resolves: Commit -> bool,
      t: Tools, extra: ExtraText)
    requires Sound(t) && Stands(e, ReadInfos(xs, t), ReadInfos(ys, t), resolves)
    requires Sides(xs, ys, target, resolves, t.ai)
    ensures CoveredOrKept(MergedCommit(prev, e.key, e.bucket, t, extra), target, resolves, t.ai)
  {
    if e.bucket.clean.Some? {
      CleanKind(prev, e, xs, ys, target, resolves, t, extra);
    } else {
      HistoryInfoKeeps(ys, e.bucket.history.value, t);
      HistoryKind(prev, e, e.bucket.history.value, t, extra);
    }
  }

  predicate AllCoveredOrKept(cs: seq<Commit>, target: Commit, resolves: Commit -> bool, ai: Path -> bool) {
    forall i :: 0 <= i < |cs| ==> CoveredOrKept(cs[i], target, resolves, ai)
  }

  lemma BuiltKinds(
      base: Commit, es: seq<OrderEntry>, xs: seq<Commit>, ys: seq<Commit>, target: Commit, resolves: Commit -> bool,
      t: Tools, extra: ExtraText)
    requires Sound(t) && Buildable(es) && AllStand(es, ReadInfos(xs, t), ReadInfos(ys, t), resolves)
    requires Sides(xs, ys, target, resolves, t.ai)
    ensures AllCoveredOrKept(BuiltList(base, es, t, extra), target, resolves, t.ai)
  {
    var made := BuiltList(base, es, t, extra);
    forall i | 0 <= i < |made| ensures CoveredOrKept(made[i], target, resolves, t.ai) {
      BuiltAt(base, es, i, t, extra);
      assert Stands(es[i], ReadInfos(xs, t), ReadInfos(ys, t), resolves);
      MergedKind(BuildAll(base, es[..i], t, extra), es[i], xs, ys, target, resolves, t, extra);
    }
  }

  /** What a first reconstruction leaves: main's line, and on it commits of those two kinds. */
  lemma FirstRebuiltLine(
      clean: Option<Commit>, history: Option<Commit>, allowRewrite: bool, force: bool, f: Fixed, t: Tools,
      extra: ExtraText) returns (made: seq<Commit>)
    requires Sound(t) && Untouched(clean, history, f, t.ai)
    requires Reconstruct(FirstRefs(clean, history), allowRewrite, force, f, t, extra).1 == None
    ensures var u := Reconstruct(FirstRefs(clean, history), allowRewrite, force, f, t, extra).0.unclean;
      && u.Some? && Line(u.value) == Line(f.main) + made
      && AllCoveredOrKept(made, OrElse(clean, f.main), f.resolves, t.ai)
  {
    var r := FirstRefs(clean, history);
    var xs, ys := Ahead(clean, f.main), Ahead(history, f.historyMain);
    FirstInfosAre(clean, history, f, t);
    FirstBuilds(r, allowRewrite, force, f, t, extra);
    PlanIs(r, force, f, t);
    var es := EntriesToBuild(r, force, f, t).value;
    forall i | 0 <= i < |xs| ensures IsAncestor(xs[i], OrElse(clean, f.main)) {
      RangeContained(f.main, clean.value, i);
    }
    BuiltKinds(f.main, es, xs, ys, OrElse(clean, f.main), f.resolves, t, extra);
    made := BuiltList(f.main, es, t, extra);
  }

  /** With no unclean branch there is nothing to diverge, and main is what is built on. */
  lemma FirstBuilds(r: ReconRefs, allowRewrite: bool, force: bool, f: Fixed, t: Tools, extra: ExtraText)
    requires r.unclean == None && (r.clean.Some? || r.history.Some?)
    requires Reconstruct(r, allowRewrite, force, f, t, extra).1 == None
    ensures EntriesToBuild(r, force, f, t).Ok?
    ensures var es := EntriesToBuild(r, force, f, t).value;
            var u := Reconstruct(r, allowRewrite, force, f, t, extra).0.unclean;
      u.Some? && Line(u.value) == Line(f.main) + BuiltList(f.main, es, t, extra)
  {
    var es := EntriesToBuild(r, force, f, t).value;
    assert FullDivergences(r, f, t) == Ok([]);
    BuiltLine(f.main, es, t, extra);
  }

  /** Commits of those two kinds, none of the first: replaying them makes nothing. */
  lemma UncoveredSettle(cs: seq<Commit>, target: Commit, resolves: Commit -> bool, tree: Tree, ai: Path -> bool)
    requires AllCoveredOrKept(cs, target, resolves, ai) && NoneCovered(cs, target, resolves)
    ensures AllSettled(cs, tree, ai)
  {
    forall i | 0 <= i < |cs| ensures Settled(cs[i], tree, ai) {
      assert CoveredOrKept(cs[i], target, resolves, ai);
      KeptIsSettled(cs[i], tree, ai);
    }
  }

  lemma {:induction false} FindNewest(line: seq<Commit>, target: Commit, resolves: Commit -> bool) returns (i: int)
    requires !NoneCovered(line, target, resolves)
    ensures NewestCovered(line, target, resolves, i)
  {
    var n := |line| - 1;
    if Covered(line[n], target, resolves) {
      i := n;
    } else {
      assert line == line[..n] + [line[n]];
      i := FindNewest(line[..n], target, resolves);
    }
  }

  lemma UnnamedNotCovered(line: seq<Commit>, target: Commit, resolves: Commit -> bool)
    requires Unnamed(line)
    ensures NoneCovered(line, target, resolves)
  {
  }

  lemma NoneAbove(line: seq<Commit>, made: seq<Commit>, target: Commit, resolves: Commit -> bool)
    requires NoneCovered(line + made, target, resolves)
    ensures NoneCovered(made, target, resolves)
  {
    assert forall i :: 0 <= i < |made| ==> made[i] == (line + made)[|line| + i];
  }

  /** On a line of main's commits and those two kinds, what is replayed settles. */
  lemma ReplayedSettle(
      sources: seq<Commit>, line: seq<Commit>, made: seq<Commit>, unclean: Commit, lowerBound: Commit, target: Commit,
      resolves: Commit -> bool, tree: Tree, ai: Path -> bool)
    requires Replays(sources, target, unclean, lowerBound, resolves)
    requires line == Line(lowerBound) && Line(unclean) == line + made && Unnamed(line)
    requires AllCoveredOrKept(made, target, resolves, ai)
    ensures AllSettled(sources, tree, ai)
  {
    UnnamedNotCovered(line, target, resolves);
    if NoneCovered(Line(unclean), target, resolves) {
      TailIsRange(lowerBound, unclean, made);
      NoneAbove(line, made, target, resolves);
      UncoveredSettle(made, target, resolves, tree, ai);
    } else {
      var i := FindNewest(Line(unclean), target, resolves);
      AboveNewest(line, made, target, resolves, i, tree, ai);
    }
  }

  lemma AboveNewest(
      line: seq<Commit>, made: seq<Commit>, target: Commit, resolves: Commit -> bool, i: int, tree: Tree,
      ai: Path -> bool)
    requires NewestCovered(line + made, target, resolves, i) && NoneCovered(line, target, resolves)
    requires AllCoveredOrKept(made, target, resolves, ai)
    ensures AllSettled((line + made)[i + 1..], tree, ai)
  {
    var all, n := line + made, |line|;
    assert forall j :: 0 <= j < n ==> all[j] == line[j];
    assert i >= n;
    var above := made[i + 1 - n..];
    assert all[i + 1..] == above;
    assert forall j :: 0 <= j < |above| ==> above[j] == made[i + 1 - n + j] == all[i + 1 + j];
    UncoveredSettle(above, target, resolves, tree, ai);
  }

  lemma RunOverRebuilt(r: Refs, u: Commit, made: seq<Commit>, fakeMerges: bool, f: Fixed, t: Tools)
    requires Sound(t) && r.cleanCursor == None && ReadSource(OrElse(r.clean, f.main).msg.trailers) == None
    requires Line(u) == Line(f.main) + made && Unnamed(Line(f.main))
    requires AllCoveredOrKept(made, OrElse(r.clean, f.main), f.resolves, t.ai)
    ensures var (r', o) := Sync(r, u, fakeMerges, f, t);
      r'.clean == Some(OrElse(r.clean, f.main)) && (o.Synced? ==> o.clean.created == 0)
  {
    var c, xs := OrElse(r.clean, f.main), CleanSources(r, u, f);
    CleanReplays(r, u, f);
    ReplayedSettle(xs, Line(f.main), made, u, f.main, c, f.resolves, c.tree, t.ai);
    LeavesCleanIff(r, u, fakeMerges, f, t);
  }

  /**
   The first forward run after a branch was rebuilt from clean and history
   branches that no run had touched: it leaves the clean branch as it is and
   makes no clean commit, if the history commits keep code.
   */
  lemma FirstRunLeavesClean(
      clean: Option<Commit>, history: Option<Commit>, allowRewrite: bool, force: bool, fakeMerges: bool, f: Fixed,
      t: Tools, extra: ExtraText)
    requires Sound(t) && Untouched(clean, history, f, t.ai)
    requires Reconstruct(FirstRefs(clean, history), allowRewrite, force, f, t, extra).1 == None
    ensures var u := Reconstruct(FirstRefs(clean, history), allowRewrite, force, f, t, extra).0.unclean;
      && u.Some?
      && var (r', o) := Sync(Refs(clean, history, None, None), u.value, fakeMerges, f, t);
        r'.clean == Some(OrElse(clean, f.main)) && (o.Synced? ==> o.clean.created == 0)
  {
    var made := FirstRebuiltLine(clean, history, allowRewrite, force, f, t, extra);
    var u := Reconstruct(FirstRefs(clean, history), allowRewrite, force, f, t, extra).0.unclean.value;
    RunOverRebuilt(Refs(clean, history, None, None), u, made, fakeMerges, f, t);
  }
}
