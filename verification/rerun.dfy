/**
 Running the reverse direction again: when a second run leaves every ref as it
 is, and that it does so after a round trip.
 */
module Rerun {
  import opened Options
  import opened GitTree
  import opened Commits
  import opened SyncSplits
  import opened SyncUnclean
  import opened Rewrite

  // ------------------------------------------------------- nothing to build

  /** Both cursors stand at their branches' tips. */
  predicate CaughtUp(r: ReconRefs) {
    && (r.clean.Some? ==> r.cleanCursor == r.clean)
    && (r.history.Some? ==> r.historyCursor == r.history)
  }

  predicate TipsResolve(r: ReconRefs, f: Fixed) {
    && (r.clean.Some? ==> f.resolves(r.clean.value))
    && (r.history.Some? ==> f.resolves(r.history.value))
  }

  /** What a finished run leaves, whatever it did to the branch itself. */
  predicate Finished(r: ReconRefs, r': ReconRefs) {
    && r'.clean == r.clean && r'.history == r.history && CaughtUp(r')
    && (r.clean.Some? || r.history.Some? ==> r'.unclean.Some?)
  }

  lemma RebuiltIsFinished(
      r: ReconRefs, ds: seq<Divergence>, entries: seq<OrderEntry>, f: Fixed, t: Tools, extra: ExtraText)
    requires Buildable(entries) && Rebuilt(r, ds, entries, f, t, extra).1 == None
    ensures Finished(r, Rebuilt(r, ds, entries, f, t, extra).0)
  {
  }

  lemma FinishedIsCaughtUp(r: ReconRefs, allowRewrite: bool, force: bool, f: Fixed, t: Tools, extra: ExtraText)
    requires Reconstruct(r, allowRewrite, force, f, t, extra).1 == None
    ensures Finished(r, Reconstruct(r, allowRewrite, force, f, t, extra).0)
  {
    if r.clean.Some? || r.history.Some? {
      var entries, ds := EntriesToBuild(r, force, f, t), FullDivergences(r, f, t);
      assert entries.Ok? && ds.Ok?;
      RebuiltIsFinished(r, if allowRewrite then ds.value else [], entries.value, f, t, extra);
    }
  }

  lemma NothingNew(tip: Option<Commit>, cursor: Option<Commit>, lowerBound: Commit, resolves: Commit -> bool)
    requires tip.Some? ==> cursor == tip && resolves(tip.value)
    ensures NewSinceCursor(tip, cursor, lowerBound, resolves) == []
  {
  }

  /** With both cursors at the tips there is nothing to correlate, to bucket or to put in order. */
  lemma NothingToBuild(r: ReconRefs, force: bool, f: Fixed, t: Tools)
    requires CaughtUp(r) && TipsResolve(r, f)
    ensures EntriesToBuild(r, force, f, t) == Ok([])
  {
    NothingNew(r.clean, r.cleanCursor, f.main, f.resolves);
    NothingNew(r.history, r.historyCursor, f.historyMain, f.resolves);
    assert NewInfos(r, f, t) == Ok(([], []));
    assert BucketAll([], [], f.resolves) == Ok(NO_BUCKETS);
  }

  // ------------------------------------------------------ rewriting moves

  /** The rewritten line differs from the recorded one at the rewritten commit. */
  lemma RewriteMoves(tip0: Commit, tip: Commit, c: Commit, tree: Tree, t: Tools)
    requires c in Line(tip0) && c in Line(tip) && tree != c.tree
    ensures RewrittenTip(tip, c, tree, t) != tip0
  {
    LinePosition(tip0, c);
    RewrittenLine(tip, c, tree, t);
  }

  /** Rewriting for recorded divergences never ends at the recorded tip. */
  lemma {:induction false} RewritesMove(tip0: Commit, tip: Commit, ds: seq<Divergence>, t: Tools)
    requires RecordedOn(tip0, ds) && ds != [] && ds[0].oldSha in Line(tip)
    ensures RewriteEach(tip, ds, t).0 != tip0
    decreases |ds|
  {
    var d := ds[0];
    assert d in ds;
    RewriteIs(tip, d.oldSha, d.expected, t);
    RewriteMoves(tip0, tip, d.oldSha, d.expected, t);
    var r := RewrittenTip(tip, d.oldSha, d.expected, t);
    if |ds| > 1 && ds[1].oldSha in Line(r) { RewritesMove(tip0, r, ds[1..], t); }
  }

  // --------------------------------------------------------- a second run

  /** What a run does that has nothing to build. */
  lemma CaughtUpRun(r: ReconRefs, allowRewrite: bool, force: bool, f: Fixed, t: Tools, extra: ExtraText)
    requires CaughtUp(r) && TipsResolve(r, f) && r.unclean.Some? && (r.clean.Some? || r.history.Some?)
    ensures var ds := FullDivergences(r, f, t);
      Reconstruct(r, allowRewrite, force, f, t, extra)
      == if ds.Err? then (r, Some(ds.error))
         else if !allowRewrite then (r, None)
         else (r.(unclean := Some(RewriteEach(r.unclean.value, ds.value, t).0)),
               RewriteEach(r.unclean.value, ds.value, t).1)
  {
    NothingToBuild(r, force, f, t);
  }

  lemma {:induction false} NoPairsNoDivergence(keys: seq<Commit>, keyToSha: map<Commit, Commit>, t: Tools)
    ensures DivergencesOf(keys, keyToSha, map[], map[], t) == []
  {
    if keys != [] { NoPairsNoDivergence(keys[..|keys| - 1], keyToSha, t); }
  }

  lemma NoBranchesNoDivergence(r: ReconRefs, f: Fixed, t: Tools)
    requires r.clean == None && r.history == None
    ensures FullDivergences(r, f, t) == Ok([])
  {
    NoPairsNoDivergence(FirstOccurrences(KeysOf(LineOf(r.unclean))), KeyToSha(LineOf(r.unclean)), t);
  }

  /**
   Idempotence: after a run that got to its end, another one leaves every ref as
   it is, exactly if it may not rewrite, or is refused because the branches
   contradict each other, or finds no divergence.
   */
  lemma RerunIff(
      r: ReconRefs, allowRewrite: bool, force: bool, again: bool, forceAgain: bool, f: Fixed, t: Tools,
      extra: ExtraText)
    requires Reconstruct(r, allowRewrite, force, f, t, extra).1 == None && TipsResolve(r, f)
    ensures var r' := Reconstruct(r, allowRewrite, force, f, t, extra).0;
      Reconstruct(r', again, forceAgain, f, t, extra).0 == r'
      <==> !again || FullDivergences(r', f, t).Err? || FullDivergences(r', f, t).value == []
  {
    FinishedIsCaughtUp(r, allowRewrite, force, f, t, extra);
    var r' := Reconstruct(r, allowRewrite, force, f, t, extra).0;
    if r.clean.None? && r.history.None? {
      NoBranchesNoDivergence(r', f, t);
    } else {
      SecondRunIff(r', again, forceAgain, f, t, extra);
    }
  }

  lemma SecondRunIff(r: ReconRefs, again: bool, force: bool, f: Fixed, t: Tools, extra: ExtraText)
    requires CaughtUp(r) && TipsResolve(r, f) && r.unclean.Some? && (r.clean.Some? || r.history.Some?)
    ensures Reconstruct(r, again, force, f, t, extra).0 == r
       <==> !again || FullDivergences(r, f, t).Err? || FullDivergences(r, f, t).value == []
  {
    CaughtUpRun(r, again, force, f, t, extra);
    if FullDivergences(r, f, t).Ok? && FullDivergences(r, f, t).value != [] {
      DetectedAreRecorded(r, f, t);
      var ds := FullDivergences(r, f, t).value;
      assert ds[0] in ds;
      RewritesMove(r.unclean.value, r.unclean.value, ds, t);
    }
  }
}
