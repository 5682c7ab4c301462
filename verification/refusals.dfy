/**
 When a run of the reverse direction is refused, and where it puts what it builds.
 */
module Refusals {
  import opened Options
  import opened GitTree
  import opened Commits
  import opened SyncSplits
  import opened SyncUnclean
  import opened BucketOrder
  import opened NextRun

  // ------------------------------------------------------------ the sources

  /** The history commit says that the clean commit was split from a source that still exists. */
  predicate Claims(info: CommitInfo, clean: Commit, source: Commit, resolves: Commit -> bool) {
    info.cleanCommit == Some(clean) && info.source == Some(source) && resolves(source)
  }

  predicate Claimed(infos: seq<CommitInfo>, clean: Commit, source: Commit, resolves: Commit -> bool) {
    exists i :: 0 <= i < |infos| && Claims(infos[i], clean, source, resolves)
  }

  lemma ClaimedSnoc(
      infos: seq<CommitInfo>, info: CommitInfo, clean: Commit, source: Commit, resolves: Commit -> bool)
    ensures Claimed(infos + [info], clean, source, resolves)
       <==> Claimed(infos, clean, source, resolves) || Claims(info, clean, source, resolves)
  {
    var all := infos + [info];
    if i :| 0 <= i < |infos| && Claims(infos[i], clean, source, resolves) { assert all[i] == infos[i]; }
    assert all[|infos|] == info;
  }

  /** No two history commits claim different sources for one clean commit. */
  ghost predicate Consistent(infos: seq<CommitInfo>, resolves: Commit -> bool) {
    forall clean, a, b ::
      Claimed(infos, clean, a, resolves) && Claimed(infos, clean, b, resolves) ==> a == b
  }

  ghost predicate HoldsClaims(m: map<Commit, Commit>, infos: seq<CommitInfo>, resolves: Commit -> bool) {
    forall clean, source :: clean in m && m[clean] == source <==> Claimed(infos, clean, source, resolves)
  }

  lemma AssignedHolds(m: map<Commit, Commit>, infos: seq<CommitInfo>, info: CommitInfo, resolves: Commit -> bool)
    requires HoldsClaims(m, infos, resolves)
    ensures AssignSource(m, info, resolves).Ok? ==>
      HoldsClaims(AssignSource(m, info, resolves).value, infos + [info], resolves)
    ensures AssignSource(m, info, resolves).Err? ==> !Consistent(infos + [info], resolves)
  {
    forall clean, source { ClaimedSnoc(infos, info, clean, source, resolves); }
    if AssignSource(m, info, resolves).Err? {
      var clean := info.cleanCommit.value;
      assert Claimed(infos, clean, m[clean], resolves);
      assert Claims(info, clean, info.source.value, resolves);
    }
  }

  lemma MoreClaims(infos: seq<CommitInfo>, info: CommitInfo, resolves: Commit -> bool)
    requires !Consistent(infos, resolves)
    ensures !Consistent(infos + [info], resolves)
  {
    forall clean, source { ClaimedSnoc(infos, info, clean, source, resolves); }
  }

  lemma HeldIsConsistent(m: map<Commit, Commit>, infos: seq<CommitInfo>, resolves: Commit -> bool)
    requires HoldsClaims(m, infos, resolves)
    ensures Consistent(infos, resolves)
  {
  }

  /** Correlation goes through exactly if the claims agree, and then holds exactly what they say. */
  lemma {:induction false} GatheredIff(infos: seq<CommitInfo>, resolves: Commit -> bool)
    ensures SourceByClean(infos, resolves).Ok? <==> Consistent(infos, resolves)
    ensures SourceByClean(infos, resolves).Ok? ==>
      HoldsClaims(SourceByClean(infos, resolves).value, infos, resolves)
  {
    if infos != [] {
      var n := |infos| - 1;
      assert infos == infos[..n] + [infos[n]];
      GatheredIff(infos[..n], resolves);
      if SourceByClean(infos[..n], resolves).Ok? {
        AssignedHolds(SourceByClean(infos[..n], resolves).value, infos[..n], infos[n], resolves);
      } else {
        MoreClaims(infos[..n], infos[n], resolves);
      }
      if SourceByClean(infos, resolves).Ok? {
        HeldIsConsistent(SourceByClean(infos, resolves).value, infos, resolves);
      }
    }
  }

  /** A clean commit's source is the one it names itself, else the one history claims for it. */
  lemma CleanSourceIs(xs: seq<Commit>, historyInfos: seq<CommitInfo>, i: nat, source: Commit, f: Fixed, t: Tools)
    requires SourceByClean(historyInfos, f.resolves).Ok? && i < |xs|
    ensures var own := ReadSource(xs[i].msg.trailers);
            var infos := Correlated(ReadInfos(xs, t), SourceByClean(historyInfos, f.resolves).value);
      infos[i].source == Some(source)
      <==> own == Some(source) || (own == None && Claimed(historyInfos, xs[i], source, f.resolves))
  {
    GatheredIff(historyInfos, f.resolves);
  }

  // ---------------------------------------------------------------- the keys

  /** No two commits of the side go under one key. */
  predicate KeysApart(infos: seq<CommitInfo>, resolves: Commit -> bool) {
    forall i, j :: 0 <= i < j < |infos| ==> KeyFor(infos[i], resolves) != KeyFor(infos[j], resolves)
  }

  lemma KeysApartSnoc(infos: seq<CommitInfo>, info: CommitInfo, resolves: Commit -> bool)
    ensures KeysApart(infos + [info], resolves)
       <==> KeysApart(infos, resolves) && !HasKey(infos, KeyFor(info, resolves), resolves)
  {
    var all := infos + [info];
    assert forall i :: 0 <= i < |infos| ==> all[i] == infos[i];
    assert all[|infos|] == info;
  }

  /** The keys whose slot on this side is filled. */
  ghost predicate FillsExactly(bs: Buckets, side: Side, infos: seq<CommitInfo>, resolves: Commit -> bool) {
    forall k :: k in bs.at && SlotOf(bs.at[k], side).Some? <==> HasKey(infos, k, resolves)
  }

  lemma AddedFills(bs: Buckets, side: Side, infos: seq<CommitInfo>, info: CommitInfo, resolves: Commit -> bool)
    requires FillsExactly(bs, side, infos, resolves) && (side == CleanSide || side == HistorySide)
    ensures AddInfo(bs, side, info, resolves).Ok? <==> !HasKey(infos, KeyFor(info, resolves), resolves)
    ensures AddInfo(bs, side, info, resolves).Ok? ==>
      FillsExactly(AddInfo(bs, side, info, resolves).value, side, infos + [info], resolves)
  {
    forall k { HasKeySnoc(infos, info, k, resolves); }
  }

  /** A side's infos can be added to empty slots exactly if no two share a key. */
  lemma {:induction false} SideIff(bs: Buckets, side: Side, infos: seq<CommitInfo>, resolves: Commit -> bool)
    requires FillsExactly(bs, side, [], resolves) && (side == CleanSide || side == HistorySide)
    ensures AddSide(bs, side, infos, resolves).Ok? <==> KeysApart(infos, resolves)
    ensures AddSide(bs, side, infos, resolves).Ok? ==>
      FillsExactly(AddSide(bs, side, infos, resolves).value, side, infos, resolves)
  {
    if infos != [] {
      var n := |infos| - 1;
      assert infos == infos[..n] + [infos[n]];
      SideIff(bs, side, infos[..n], resolves);
      KeysApartSnoc(infos[..n], infos[n], resolves);
      if AddSide(bs, side, infos[..n], resolves).Ok? {
        AddedFills(AddSide(bs, side, infos[..n], resolves).value, side, infos[..n], infos[n], resolves);
      }
    }
  }

  lemma {:induction false} HistoryEmpty(bs: Buckets, cs: seq<CommitInfo>, resolves: Commit -> bool)
    requires FillsExactly(bs, HistorySide, [], resolves) && AddSide(bs, CleanSide, cs, resolves).Ok?
    ensures FillsExactly(AddSide(bs, CleanSide, cs, resolves).value, HistorySide, [], resolves)
  {
    if cs != [] { HistoryEmpty(bs, cs[..|cs| - 1], resolves); }
  }

  /** Bucketing goes through exactly if neither side has two commits under one key. */
  lemma BucketsIff(cs: seq<CommitInfo>, ds: seq<CommitInfo>, resolves: Commit -> bool)
    ensures BucketAll(cs, ds, resolves).Ok? <==> KeysApart(cs, resolves) && KeysApart(ds, resolves)
  {
    SideIff(NO_BUCKETS, CleanSide, cs, resolves);
    if AddSide(NO_BUCKETS, CleanSide, cs, resolves).Ok? {
      HistoryEmpty(NO_BUCKETS, cs, resolves);
      SideIff(AddSide(NO_BUCKETS, CleanSide, cs, resolves).value, HistorySide, ds, resolves);
    }
  }

  // ------------------------------------------------------------ a whole run

  /** The last place of a source in the known lineage. */
  predicate LastPlace(order: seq<Commit>, c: Commit, p: int) {
    0 <= p < |order| && order[p] == c && forall q :: p < q < |order| ==> order[q] != c
  }

  predicate KnownAt(info: CommitInfo, order: seq<Commit>, p: int) {
    info.source.Some? && LastPlace(order, info.source.value, p)
  }

  /** Known sources never step back along the side's new commits, each taken at its last place. */
  ghost predicate Ordered(infos: seq<CommitInfo>, order: seq<Commit>) {
    forall i, j, p, q :: 0 <= i < j < |infos| && KnownAt(infos[i], order, p) && KnownAt(infos[j], order, q) ==> p <= q
  }

  lemma PlaceIs(info: CommitInfo, order: seq<Commit>, p: int)
    requires p != -1
    ensures Position(info, order) == p <==> KnownAt(info, order, p)
  {
  }

  lemma OrderedIff(infos: seq<CommitInfo>, order: seq<Commit>)
    ensures OrderFault(infos, order, -1) == None <==> Ordered(infos, order)
  {
    NoFaultIffOrdered(infos, order, -1);
    forall info, p | p != -1 { PlaceIs(info, order, p); }
    if Ordered(infos, order) {
      forall i, j | 0 <= i < j < |infos| && Position(infos[i], order) != -1 && Position(infos[j], order) != -1
        ensures Position(infos[i], order) <= Position(infos[j], order)
      {
        assert KnownAt(infos[i], order, Position(infos[i], order));
        assert KnownAt(infos[j], order, Position(infos[j], order));
      }
    }
  }

  function NewHistory(r: ReconRefs, f: Fixed, t: Tools): seq<CommitInfo> {
    ReadInfos(NewSinceCursor(r.history, r.historyCursor, f.historyMain, f.resolves), t)
  }

  /** The new clean commits under their sources; none if history contradicts itself about them. */
  function NewClean(r: ReconRefs, f: Fixed, t: Tools): seq<CommitInfo> {
    var m := SourceByClean(NewHistory(r, f, t), f.resolves);
    if m.Err? then [] else
      Correlated(ReadInfos(NewSinceCursor(r.clean, r.cleanCursor, f.main, f.resolves), t), m.value)
  }

  /** The new commits' keys are apart on each side, and, unless forced, in the known order. */
  ghost predicate Plannable(cs: seq<CommitInfo>, ds: seq<CommitInfo>, order: seq<Commit>, force: bool,
                            resolves: Commit -> bool) {
    && KeysApart(cs, resolves) && KeysApart(ds, resolves)
    && (force || (Ordered(cs, order) && Ordered(ds, order)))
  }

  lemma PlanIff(r: ReconRefs, force: bool, f: Fixed, t: Tools)
    ensures EntriesToBuild(r, force, f, t).Ok?
       <==> SourceByClean(NewHistory(r, f, t), f.resolves).Ok?
            && Plannable(NewClean(r, f, t), NewHistory(r, f, t), KeysOf(LineOf(r.unclean)), force, f.resolves)
  {
    if SourceByClean(NewHistory(r, f, t), f.resolves).Ok? {
      var cs, ds, order := NewClean(r, f, t), NewHistory(r, f, t), KeysOf(LineOf(r.unclean));
      BucketsIff(cs, ds, f.resolves);
      OrderedIff(cs, order);
      OrderedIff(ds, order);
    }
  }

  lemma RunIff(r: ReconRefs, force: bool, f: Fixed, t: Tools, extra: ExtraText)
    requires r.clean.Some? || r.history.Some?
    ensures var (r', refusal) := Reconstruct(r, false, force, f, t, extra);
      && (refusal == None <==> EntriesToBuild(r, force, f, t).Ok? && FullDivergences(r, f, t).Ok?)
      && (refusal != None ==> r' == r)
  {
  }

  lemma FullIff(r: ReconRefs, f: Fixed, t: Tools)
    ensures FullDivergences(r, f, t).Ok? <==> Consistent(ReadInfos(LineOf(r.history), t), f.resolves)
  {
    GatheredIff(ReadInfos(LineOf(r.history), t), f.resolves);
  }

  lemma PlanConsistentIff(r: ReconRefs, force: bool, f: Fixed, t: Tools)
    ensures EntriesToBuild(r, force, f, t).Ok?
       <==> Consistent(NewHistory(r, f, t), f.resolves)
            && Plannable(NewClean(r, f, t), NewHistory(r, f, t), KeysOf(LineOf(r.unclean)), force, f.resolves)
  {
    PlanIff(r, force, f, t);
    GatheredIff(NewHistory(r, f, t), f.resolves);
  }

  /**
   A run without rewriting is refused exactly if the new history commits, or all
   of them, contradict each other about a source, two new commits of one side
   share a key, or, unless forced, two new commits with known sources stand in the
   wrong order.  A refused run moves nothing.
   */
  lemma RefusedIff(r: ReconRefs, force: bool, f: Fixed, t: Tools, extra: ExtraText)
    requires r.clean.Some? || r.history.Some?
    ensures var (r', refusal) := Reconstruct(r, false, force, f, t, extra);
      && (refusal == None
          <==> Consistent(NewHistory(r, f, t), f.resolves)
               && Consistent(ReadInfos(LineOf(r.history), t), f.resolves)
               && Plannable(NewClean(r, f, t), NewHistory(r, f, t), KeysOf(LineOf(r.unclean)), force, f.resolves))
      && (refusal != None ==> r' == r)
  {
    RunIff(r, force, f, t, extra);
    PlanConsistentIff(r, force, f, t);
    FullIff(r, f, t);
  }

  // ------------------------------------------------------------- read keys

  /** A history commit's key: the source it names if that still exists, else the commit itself. */
  lemma ReadKeys(ys: seq<Commit>, k: Key, resolves: Commit -> bool, t: Tools)
    ensures k.Matched? ==> (HasKey(ReadInfos(ys, t), k, resolves)
       <==> resolves(k.sha) && exists i :: 0 <= i < |ys| && ReadSource(ys[i].msg.trailers) == Some(k.sha))
    ensures k.Unmatched? ==> (HasKey(ReadInfos(ys, t), k, resolves)
       <==> k.sha in ys && forall s :: ReadSource(k.sha.msg.trailers) == Some(s) ==> !resolves(s))
  {
    var infos := ReadInfos(ys, t);
    assert forall i :: 0 <= i < |infos| ==> infos[i] == ReadInfo(ys[i], t);
    if k.Matched? && resolves(k.sha) {
      if i :| 0 <= i < |ys| && ReadSource(ys[i].msg.trailers) == Some(k.sha) {
        assert KeyFor(infos[i], resolves) == k;
      }
    }
    if k.Unmatched? && k.sha in ys && forall s :: ReadSource(k.sha.msg.trailers) == Some(s) ==> !resolves(s) {
      var i :| 0 <= i < |ys| && ys[i] == k.sha;
      assert KeyFor(infos[i], resolves) == k;
    }
  }

  // ----------------------------------------------------------- where it goes

  /** The entry's own commit, on its clean side if it has one. */
  function Leading(e: OrderEntry): CommitInfo
    requires e.bucket.clean.Some? || e.bucket.history.Some?
  {
    if e.bucket.clean.Some? then e.bucket.clean.value else e.bucket.history.value
  }

  /** The last place of a commit among a side's infos. */
  predicate LastAt(infos: seq<CommitInfo>, sha: Commit, i: int) {
    0 <= i < |infos| && infos[i].sha == sha && forall j :: i < j < |infos| ==> infos[j].sha != sha
  }

  lemma {:induction false} PositionIs(infos: seq<CommitInfo>, sha: Commit, i: int)
    requires LastAt(infos, sha, i)
    ensures PositionOf(infos, sha) == i
  {
    if infos[|infos| - 1].sha != sha { PositionIs(infos[..|infos| - 1], sha, i); }
  }

  /** The known commit the entry goes behind: that of the nearest commit before its own with a known source. */
  predicate StandsBehind(e: OrderEntry, side: seq<CommitInfo>, i: int, order: seq<Commit>, resolves: Commit -> bool) {
    && 0 <= i <= |side|
    && (e.preceding == -1 <==> forall j :: 0 <= j < i ==> !InLineage(KeyFor(side[j], resolves), order))
    && (e.preceding != -1 ==> exists j :: (
          && 0 <= j < i && InLineage(KeyFor(side[j], resolves), order)
          && e.preceding == IndexOf(order, KeyFor(side[j], resolves).sha)
          && forall l :: j < l < i ==> !InLineage(KeyFor(side[l], resolves), order)))
  }

  lemma EntryStandsBehind(
      k: Key, b: Bucket, cs: seq<CommitInfo>, ds: seq<CommitInfo>, i: int, order: seq<Commit>, resolves: Commit -> bool)
    requires b.clean.Some? || b.history.Some?
    requires !InLineage(k, order)
    requires LastAt(if b.clean.Some? then cs else ds, (if b.clean.Some? then b.clean.value else b.history.value).sha, i)
    ensures var e := EntryFor(k, b, cs, ds, order, resolves);
      && e.date == Leading(e).sha.msg.date && (e.isClean <==> b.clean.Some?)
      && StandsBehind(e, if b.clean.Some? then cs else ds, i, order, resolves)
  {
    var side := if b.clean.Some? then cs else ds;
    PositionIs(side, (if b.clean.Some? then b.clean.value else b.history.value).sha, i);
    PrecedingIs(side, i, order, resolves);
  }
}
