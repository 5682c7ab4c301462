/**
 sync_splits.py: replaying `ai/UNCLEAN/{branch}` onto the code-only branch and
 the AI-only branch.
 */
module SyncSplits {
  import opened Options
  import opened GitTree
  import opened Commits
  import opened Classify

  /** The AI predicate, the AI-subject test and the diff command, fixed over all runs. */
  datatype Tools = Tools(ai: Path -> bool, aiSubject: string -> bool, diff: (Tree, Tree) -> seq<PathChange>)

  ghost predicate Sound(t: Tools) {
    GitDiff(t.diff)
  }

  // ------------------------------------------------------------ one commit

  function FilteredTree(target: Tree, src: Commit, side: Side, t: Tools): Tree {
    ApplyAll(target, t.diff(ParentTree(src), src.tree), src.tree, side, t.ai)
  }

  function CleanMessage(src: Commit): Message {
    src.msg.(trailers := StripBase(src.msg.trailers))
  }

  function HistoryTrailers(src: Commit, counterpart: Option<Commit>, t: Tools): seq<Trailer> {
    [SplitSource(src), KindOf(KindFor(ClassifyCommit(src, t.ai, t.aiSubject)))]
    + (if counterpart.Some? then [CleanCommit(counterpart.value), CounterpartTree(counterpart.value.tree)] else [])
    + (if IsMerge(src) then [OriginalMergeParents(ParentsOf(src))] else [])
  }

  function HistoryMessage(src: Commit, counterpart: Option<Commit>, t: Tools): Message {
    src.msg.(trailers := WriteTrailers(src.msg.trailers, HistoryTrailers(src, counterpart, t)))
  }

  function HistoryStep(tip: Commit, src: Commit, counterpart: Option<Commit>, t: Tools): Commit {
    Child(tip, [], FilteredTree(tip.tree, src, HistorySide, t), HistoryMessage(src, counterpart, t))
  }

  // ---------------------------------------------------------------- passes

  datatype CleanCounts = CleanCounts(created: nat, aiOnly: nat, noop: nat)

  /** The clean loop's variables; `produced` is `source_to_clean_commit`. */
  datatype CleanState = CleanState(tip: Commit, produced: map<Commit, Commit>, counts: CleanCounts)

  function CleanStart(tip: Commit): CleanState {
    CleanState(tip, map[], CleanCounts(0, 0, 0))
  }

  /** One iteration of the clean loop: AI-only and no-op commits leave the tip alone. */
  function CleanStep(s: CleanState, src: Commit, t: Tools): CleanState {
    if IsAiOnly(src, t.ai) then
      s.(counts := s.counts.(aiOnly := s.counts.aiOnly + 1))
    else
      var tree := FilteredTree(s.tip.tree, src, CleanSide, t);
      if tree == s.tip.tree then
        s.(counts := s.counts.(noop := s.counts.noop + 1))
      else
        var made := Child(s.tip, [], tree, CleanMessage(src));
        CleanState(made, s.produced[src := made], s.counts.(created := s.counts.created + 1))
  }

  function CleanRun(s: CleanState, srcs: seq<Commit>, t: Tools): CleanState {
    if srcs == [] then s else CleanStep(CleanRun(s, srcs[..|srcs| - 1], t), srcs[|srcs| - 1], t)
  }

  function Lookup(m: map<Commit, Commit>, c: Commit): Option<Commit> {
    if c in m then Some(m[c]) else None
  }

  function HistoryRun(tip: Commit, srcs: seq<Commit>, counterparts: map<Commit, Commit>, t: Tools): Commit {
    if srcs == [] then tip else
      var n := |srcs| - 1;
      HistoryStep(HistoryRun(tip, srcs[..n], counterparts, t), srcs[n], Lookup(counterparts, srcs[n]), t)
  }

  // ----------------------------------------------------------- a sync run

  /** The refs a run reads and moves. */
  datatype Refs = Refs(clean: Option<Commit>, history: Option<Commit>, cleanCursor: Option<Commit>,
    historyCursor: Option<Commit>)

  /** What stays fixed around a branch: where new branches start, and which shas resolve. */
  datatype Fixed = Fixed(main: Commit, historyMain: Commit, resolves: Commit -> bool)

  datatype Outcome =
    | Synced(clean: CleanCounts, historyCreated: nat)
    | MergeDetected(target: Side, sha: Commit)

  function OrElse(c: Option<Commit>, d: Commit): Commit {
    if c.Some? then c.value else d
  }

  /** `find_reconstruction_correlated_cursor` along the first-parent line. */
  function ReconstructedCursor(unclean: Commit, target: Commit, resolves: Commit -> bool): Option<Commit> {
    var key := ReadReconstructed(unclean.msg.trailers);
    if key.Some? && resolves(key.value) && IsAncestor(key.value, target) then Some(unclean)
    else if unclean.Child? then ReconstructedCursor(unclean.first, target, resolves)
    else None
  }

  /** Where replay resumes: side cursor, old message trailer, reconstruction trailer, lower bound. */
  function ReplayStart(
      cursor: Option<Commit>, target: Commit, unclean: Commit, lowerBound: Commit, resolves: Commit -> bool): Commit
  {
    if cursor.Some? then cursor.value
    else if ReadSource(target.msg.trailers).Some? then ReadSource(target.msg.trailers).value
    else OrElse(ReconstructedCursor(unclean, target, resolves), lowerBound)
  }

  function CleanSources(r: Refs, unclean: Commit, f: Fixed): seq<Commit> {
    Range(ReplayStart(r.cleanCursor, OrElse(r.clean, f.main), unclean, f.main, f.resolves), unclean)
  }

  function HistorySources(r: Refs, unclean: Commit, f: Fixed): seq<Commit> {
    Range(ReplayStart(r.historyCursor, OrElse(r.history, f.historyMain), unclean, f.historyMain, f.resolves), unclean)
  }

  /** The number of leading commits a pass handles before an unexpected merge stops it. */
  function Handled(srcs: seq<Commit>, fakeMerges: bool): (n: nat)
    ensures n <= |srcs|
    ensures !fakeMerges ==> forall i :: 0 <= i < n ==> !IsMerge(srcs[i])
    ensures n < |srcs| ==> !fakeMerges && IsMerge(srcs[n])
  {
    if srcs == [] then 0
    else if !fakeMerges && IsMerge(srcs[0]) then 0
    else 1 + Handled(srcs[1..], fakeMerges)
  }

  /** What a pass leaves behind once `n` of its commits are handled. */
  function CursorAfter(cursor: Option<Commit>, srcs: seq<Commit>, n: nat): Option<Commit> {
    if n < |srcs| || srcs == [] then cursor else Some(srcs[|srcs| - 1])
  }

  /** The refs after a run and what it reports. */
  function Sync(r: Refs, unclean: Commit, fakeMerges: bool, f: Fixed, t: Tools): (Refs, Outcome) {
    SyncFrom(r.(clean := Some(OrElse(r.clean, f.main)), history := Some(OrElse(r.history, f.historyMain))),
             CleanSources(r, unclean, f), HistorySources(r, unclean, f), fakeMerges, t)
  }

  function SyncFrom(r: Refs, xs: seq<Commit>, ys: seq<Commit>, fakeMerges: bool, t: Tools): (Refs, Outcome)
    requires r.clean.Some? && r.history.Some?
  {
    var nx := Handled(xs, fakeMerges);
    var s := CleanRun(CleanStart(r.clean.value), xs[..nx], t);
    var r1 := r.(clean := Some(s.tip), cleanCursor := CursorAfter(r.cleanCursor, xs, nx));
    if nx < |xs| then (r1, MergeDetected(CleanSide, xs[nx])) else
    var ny := Handled(ys, fakeMerges);
    var r2 := r1.(history := Some(HistoryRun(r.history.value, ys[..ny], s.produced, t)),
                  historyCursor := CursorAfter(r.historyCursor, ys, ny));
    if ny < |ys| then (r2, MergeDetected(HistorySide, ys[ny])) else
    (r2, Synced(s.counts, ny))
  }

  lemma CleanRunNext(s: CleanState, xs: seq<Commit>, i: nat, t: Tools)
    requires i < |xs|
    ensures CleanRun(s, xs[..i + 1], t) == CleanStep(CleanRun(s, xs[..i], t), xs[i], t)
  {
    assert xs[..i + 1][..i] == xs[..i];
  }

  /** The clean pass's loop; it stops early at a merge commit it may not flatten. */
  method CleanPass(clean0: Commit, xs: seq<Commit>, fakeMerges: bool, t: Tools)
    returns (handled: nat, cleanTip: Commit, sourceToClean: map<Commit, Commit>, counts: CleanCounts)
    ensures handled == Handled(xs, fakeMerges)
    ensures CleanState(cleanTip, sourceToClean, counts) == CleanRun(CleanStart(clean0), xs[..handled], t)
    ensures counts.created == 0 ==> cleanTip == clean0
  {
    handled, cleanTip, sourceToClean, counts := 0, clean0, map[], CleanCounts(0, 0, 0);
    while handled < |xs|
      invariant handled <= Handled(xs, fakeMerges)
      invariant CleanState(cleanTip, sourceToClean, counts) == CleanRun(CleanStart(clean0), xs[..handled], t)
      invariant counts.created == 0 ==> cleanTip == clean0
    {
      var source := xs[handled];
      if IsMerge(source) && !fakeMerges {
        return;
      }
      CleanRunNext(CleanStart(clean0), xs, handled, t);
      handled := handled + 1;
      if IsAiOnly(source, t.ai) {
        counts := counts.(aiOnly := counts.aiOnly + 1);
        continue;
      }
      var changes := t.diff(ParentTree(source), source.tree);
      var tree := BuildFilteredTree(cleanTip.tree, changes, source.tree, CleanSide, t.ai);
      if tree == cleanTip.tree {
        counts := counts.(noop := counts.noop + 1);
        continue;
      }
      cleanTip := Child(cleanTip, [], tree, CleanMessage(source));
      sourceToClean := sourceToClean[source := cleanTip];
      counts := counts.(created := counts.created + 1);
    }
  }

  method HistoryPass(history0: Commit, ys: seq<Commit>, sourceToClean: map<Commit, Commit>, fakeMerges: bool, t: Tools)
    returns (created: nat, historyTip: Commit)
    ensures created == Handled(ys, fakeMerges)
    ensures historyTip == HistoryRun(history0, ys[..created], sourceToClean, t)
  {
    created, historyTip := 0, history0;
    while created < |ys|
      invariant created <= Handled(ys, fakeMerges)
      invariant historyTip == HistoryRun(history0, ys[..created], sourceToClean, t)
    {
      var source := ys[created];
      if IsMerge(source) && !fakeMerges {
        return;
      }
      assert ys[..created + 1][..created] == ys[..created];
      var changes := t.diff(ParentTree(source), source.tree);
      var tree := BuildFilteredTree(historyTip.tree, changes, source.tree, HistorySide, t.ai);
      historyTip := Child(historyTip, [], tree, HistoryMessage(source, Lookup(sourceToClean, source), t));
      created := created + 1;
    }
  }

  /** The repository's refs, moved in place by `sync_branch`. */
  class SplitRepo {
    const fixed: Fixed
    const tools: Tools
    var clean: Option<Commit>
    var history: Option<Commit>
    var cleanCursor: Option<Commit>
    var historyCursor: Option<Commit>

    function View(): Refs
      reads this
    {
      Refs(clean, history, cleanCursor, historyCursor)
    }

    constructor (fixed: Fixed, tools: Tools)
      ensures this.fixed == fixed && this.tools == tools
      ensures View() == Refs(None, None, None, None)
    {
      this.fixed, this.tools := fixed, tools;
      clean, history, cleanCursor, historyCursor := None, None, None, None;
    }

    method SyncBranch(unclean: Commit, fakeMerges: bool) returns (outcome: Outcome)
      modifies this
      ensures (View(), outcome) == Sync(old(View()), unclean, fakeMerges, fixed, tools)
    {
      var xs := CleanSources(View(), unclean, fixed);
      var ys := HistorySources(View(), unclean, fixed);
      if clean.None? { clean := Some(fixed.main); }
      if history.None? { history := Some(fixed.historyMain); }
      outcome := RunPasses(xs, ys, fakeMerges);
    }

    /** Both passes over the sources still to replay; each moves its branch and then its cursor. */
    method RunPasses(xs: seq<Commit>, ys: seq<Commit>, fakeMerges: bool) returns (outcome: Outcome)
      requires clean.Some? && history.Some?
      modifies this
      ensures (View(), outcome) == SyncFrom(old(View()), xs, ys, fakeMerges, tools)
    {
      var handled, cleanTip, sourceToClean, counts := CleanPass(clean.value, xs, fakeMerges, tools);
      if counts.created > 0 { clean := Some(cleanTip); }
      if handled < |xs| {
        return MergeDetected(CleanSide, xs[handled]);
      }
      if xs != [] { cleanCursor := Some(xs[|xs| - 1]); }

      var historyCreated, historyTip := HistoryPass(history.value, ys, sourceToClean, fakeMerges, tools);
      if historyCreated > 0 { history := Some(historyTip); }
      if historyCreated < |ys| {
        return MergeDetected(HistorySide, ys[historyCreated]);
      }
      if ys != [] { historyCursor := Some(ys[|ys| - 1]); }
      outcome := Synced(counts, historyCreated);
    }
  }
}
