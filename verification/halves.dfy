/**
 Rebuilding from two matching halves: what reconstruction makes of the commits
 that a split left on the clean and on the history branch.
 */
module Halves {
  import opened Options
  import opened GitTree
  import opened Commits
  import opened SyncSplits
  import opened SyncUnclean

  /**
   One source, the commit it left on the clean branch, if any, and the one on
   the history branch.  `key` is what reconstruction finds the two under, `mark`
   what the rebuilt commit's trailer names; both are the source itself unless it
   already carried trailers.
   */
  datatype Half = Half(src: Commit, key: Commit, mark: Commit, made: Option<Commit>, hist: Commit)

  /** Trailers the way the forward direction writes them. */
  predicate Stamped(h: Half, resolves: Commit -> bool) {
    && resolves(h.key)
    && ReadSource(h.hist.msg.trailers) == Some(h.key)
    && ReadCleanCommit(h.hist.msg.trailers) == h.made
    && (h.made.Some? ==> ReadSource(h.made.value.msg.trailers) == None)
  }

  /** Each half is stamped; no key and no clean commit occurs twice. */
  predicate Matching(hs: seq<Half>, resolves: Commit -> bool) {
    hs == [] ||
      var n := |hs| - 1;
      && Matching(hs[..n], resolves)
      && Stamped(hs[n], resolves)
      && (forall i :: 0 <= i < n ==> hs[i].key != hs[n].key)
      && (forall i :: 0 <= i < n ==> hs[i].made != hs[n].made || hs[n].made.None?)
  }

  predicate AllStamped(hs: seq<Half>, resolves: Commit -> bool) {
    forall i :: 0 <= i < |hs| ==> Stamped(hs[i], resolves)
  }

  lemma {:induction false} MatchingIsStamped(hs: seq<Half>, resolves: Commit -> bool)
    requires Matching(hs, resolves)
    ensures AllStamped(hs, resolves)
  {
    if hs != [] {
      var init := hs[..|hs| - 1];
      MatchingIsStamped(init, resolves);
      forall i | 0 <= i < |hs| ensures Stamped(hs[i], resolves) {
        if i < |init| { assert hs[i] == init[i]; }
      }
    }
  }

  // ------------------------------------------------------------------ infos

  function MadeCommits(hs: seq<Half>): seq<Commit> {
    if hs == [] then [] else
      var n := |hs| - 1;
      if hs[n].made.Some? then MadeCommits(hs[..n]) + [hs[n].made.value] else MadeCommits(hs[..n])
  }

  function HistoryCommits(hs: seq<Half>): seq<Commit> {
    if hs == [] then [] else HistoryCommits(hs[..|hs| - 1]) + [hs[|hs| - 1].hist]
  }

  /** The map `correlate_clean_infos` gathers from the history commits. */
  function SourceOfClean(hs: seq<Half>): map<Commit, Commit> {
    if hs == [] then map[] else
      var n := |hs| - 1;
      if hs[n].made.Some? then SourceOfClean(hs[..n])[hs[n].made.value := hs[n].key] else SourceOfClean(hs[..n])
  }

  function RestoredInfo(h: Half, t: Tools): CommitInfo
    requires h.made.Some?
  {
    ReadInfo(h.made.value, t).(source := Some(h.key))
  }

  /** The clean infos with their sources restored. */
  function RestoredInfos(hs: seq<Half>, t: Tools): seq<CommitInfo> {
    if hs == [] then [] else
      var n := |hs| - 1;
      if hs[n].made.Some? then RestoredInfos(hs[..n], t) + [RestoredInfo(hs[n], t)] else RestoredInfos(hs[..n], t)
  }

  lemma ReadInfosSnoc(cs: seq<Commit>, c: Commit, t: Tools)
    ensures ReadInfos(cs + [c], t) == ReadInfos(cs, t) + [ReadInfo(c, t)]
  {
  }

  lemma {:induction false} SourceOfCleanLacks(hs: seq<Half>, c: Commit)
    requires forall i :: 0 <= i < |hs| ==> hs[i].made != Some(c)
    ensures c !in SourceOfClean(hs)
  {
    if hs != [] { SourceOfCleanLacks(hs[..|hs| - 1], c); }
  }

  lemma {:induction false} SourceOfCleanHas(hs: seq<Half>, i: nat, resolves: Commit -> bool)
    requires Matching(hs, resolves) && i < |hs| && hs[i].made.Some?
    ensures hs[i].made.value in SourceOfClean(hs) && SourceOfClean(hs)[hs[i].made.value] == hs[i].key
  {
    var n := |hs| - 1;
    if i < n { SourceOfCleanHas(hs[..n], i, resolves); }
  }

  lemma AssignFresh(m: map<Commit, Commit>, h: Half, resolves: Commit -> bool, t: Tools)
    requires Stamped(h, resolves) && (h.made.Some? ==> h.made.value !in m)
    ensures AssignSource(m, ReadInfo(h.hist, t), resolves) == Ok(if h.made.Some? then m[h.made.value := h.key] else m)
  {
  }

  lemma SourceByCleanSnoc(infos: seq<CommitInfo>, info: CommitInfo, resolves: Commit -> bool)
    requires SourceByClean(infos, resolves).Ok?
    ensures SourceByClean(infos + [info], resolves) == AssignSource(SourceByClean(infos, resolves).value, info,
          resolves)
  {
    assert (infos + [info])[..|infos|] == infos;
  }

  /** Correlation finds each clean commit's source, once. */
  lemma {:induction false} SourcesGathered(hs: seq<Half>, resolves: Commit -> bool, t: Tools)
    requires Matching(hs, resolves)
    ensures SourceByClean(ReadInfos(HistoryCommits(hs), t), resolves) == Ok(SourceOfClean(hs))
  {
    if hs != [] {
      var n := |hs| - 1;
      SourcesGathered(hs[..n], resolves, t);
      var before := HistoryCommits(hs[..n]);
      ReadInfosSnoc(before, hs[n].hist, t);
      SourceByCleanSnoc(ReadInfos(before, t), ReadInfo(hs[n].hist, t), resolves);
      if hs[n].made.Some? { SourceOfCleanLacks(hs[..n], hs[n].made.value); }
      AssignFresh(SourceOfClean(hs[..n]), hs[n], resolves, t);
    }
  }

  ghost predicate Answers(m: map<Commit, Commit>, hs: seq<Half>) {
    forall i :: 0 <= i < |hs| && hs[i].made.Some? ==> hs[i].made.value in m && m[hs[i].made.value] == hs[i].key
  }

  lemma CorrelatedSnoc(infos: seq<CommitInfo>, info: CommitInfo, m: map<Commit, Commit>)
    ensures Correlated(infos + [info], m) == Correlated(infos, m) + [WithSource(info, m)]
  {
  }

  lemma {:induction false} SourcesRestored(hs: seq<Half>, m: map<Commit, Commit>, resolves: Commit -> bool, t: Tools)
    requires Matching(hs, resolves) && Answers(m, hs)
    ensures Correlated(ReadInfos(MadeCommits(hs), t), m) == RestoredInfos(hs, t)
  {
    if hs != [] {
      var n := |hs| - 1;
      SourcesRestored(hs[..n], m, resolves, t);
      if hs[n].made.Some? {
        ReadInfosSnoc(MadeCommits(hs[..n]), hs[n].made.value, t);
        CorrelatedSnoc(ReadInfos(MadeCommits(hs[..n]), t), ReadInfo(hs[n].made.value, t), m);
      }
    }
  }

  // ---------------------------------------------------------------- buckets

  /** The keys of the sources that have, or have not, a clean commit. */
  function KeysWith(hs: seq<Half>, hasClean: bool): seq<Key> {
    if hs == [] then [] else
      var n := |hs| - 1;
      if hs[n].made.Some? == hasClean then KeysWith(hs[..n], hasClean) + [Matched(hs[n].key)]
        else KeysWith(hs[..n], hasClean)
  }

  function CleanPart(h: Half, t: Tools): Bucket {
    Bucket(if h.made.Some? then Some(RestoredInfo(h, t)) else None, None)
  }

  function BucketOf(h: Half, t: Tools): Bucket {
    CleanPart(h, t).(history := Some(ReadInfo(h.hist, t)))
  }

  /** The buckets after the clean side. */
  function CleanBuckets(hs: seq<Half>, t: Tools): map<Key, Bucket> {
    if hs == [] then map[] else
      var n := |hs| - 1;
      if hs[n].made.Some? then CleanBuckets(hs[..n], t)[Matched(hs[n].key) := CleanPart(hs[n], t)]
        else CleanBuckets(hs[..n], t)
  }

  /** The history side laid over `at`. */
  function WithHistory(at: map<Key, Bucket>, hs: seq<Half>, t: Tools): map<Key, Bucket> {
    if hs == [] then at else
      var n := |hs| - 1;
      WithHistory(at, hs[..n], t)[Matched(hs[n].key) := BucketOf(hs[n], t)]
  }

  lemma {:induction false} CleanBucketsLack(hs: seq<Half>, c: Commit, t: Tools)
    requires forall i :: 0 <= i < |hs| ==> hs[i].key != c || hs[i].made.None?
    ensures Matched(c) !in CleanBuckets(hs, t)
  {
    if hs != [] { CleanBucketsLack(hs[..|hs| - 1], c, t); }
  }

  lemma AddSideSnoc(bs: Buckets, side: Side, infos: seq<CommitInfo>, info: CommitInfo, resolves: Commit -> bool)
    requires AddSide(bs, side, infos, resolves).Ok?
    ensures AddSide(bs, side, infos + [info], resolves) == AddInfo(AddSide(bs, side, infos, resolves).value, side, info,
          resolves)
  {
    assert (infos + [info])[..|infos|] == infos;
  }

  lemma {:induction false} CleanBucketed(hs: seq<Half>, resolves: Commit -> bool, t: Tools)
    requires Matching(hs, resolves)
    ensures AddSide(NO_BUCKETS, CleanSide, RestoredInfos(hs, t), resolves)
          == Ok(Buckets(KeysWith(hs, true), CleanBuckets(hs, t)))
  {
    if hs != [] {
      var n := |hs| - 1;
      CleanBucketed(hs[..n], resolves, t);
      if hs[n].made.Some? {
        AddSideSnoc(NO_BUCKETS, CleanSide, RestoredInfos(hs[..n], t), RestoredInfo(hs[n], t), resolves);
        CleanBucketsLack(hs[..n], hs[n].key, t);
        AddRestored(Buckets(KeysWith(hs[..n], true), CleanBuckets(hs[..n], t)), hs[n], resolves, t);
      }
    }
  }

  lemma AddRestored(bs: Buckets, h: Half, resolves: Commit -> bool, t: Tools)
    requires Stamped(h, resolves) && h.made.Some? && Matched(h.key) !in bs.at
    ensures AddInfo(bs, CleanSide, RestoredInfo(h, t), resolves)
         == Ok(Buckets(bs.order + [Matched(h.key)], bs.at[Matched(h.key) := CleanPart(h, t)]))
  {
    var k := Matched(h.key);
    assert KeyFor(RestoredInfo(h, t), resolves) == k;
    UpdateTwice(bs.at, k, Bucket(None, None), CleanPart(h, t));
  }

  lemma UpdateTwice(at: map<Key, Bucket>, k: Key, a: Bucket, b: Bucket)
    ensures at[k := a][k := b] == at[k := b]
  {
  }

  /** What the clean side left under the key of one half. */
  predicate HoldsClean(at: map<Key, Bucket>, h: Half, t: Tools) {
    && (Matched(h.key) in at <==> h.made.Some?)
    && (Matched(h.key) in at ==> at[Matched(h.key)] == CleanPart(h, t))
  }

  /** After the clean side, every half's key holds exactly its clean part. */
  lemma {:induction false} CleanSideHolds(hs: seq<Half>, i: nat, resolves: Commit -> bool, t: Tools)
    requires Matching(hs, resolves) && i < |hs|
    ensures HoldsClean(CleanBuckets(hs, t), hs[i], t)
  {
    var n := |hs| - 1;
    if i < n {
      CleanSideHolds(hs[..n], i, resolves, t);
    } else {
      CleanBucketsLack(hs[..n], hs[n].key, t);
    }
  }

  lemma AddHistory(bs: Buckets, h: Half, resolves: Commit -> bool, t: Tools)
    requires Stamped(h, resolves) && HoldsClean(bs.at, h, t)
    ensures AddInfo(bs, HistorySide, ReadInfo(h.hist, t), resolves)
         == Ok(Buckets(if h.made.Some? then bs.order else bs.order + [Matched(h.key)],
           bs.at[Matched(h.key) := BucketOf(h, t)]))
  {
    var k := Matched(h.key);
    assert KeyFor(ReadInfo(h.hist, t), resolves) == k;
    UpdateTwice(bs.at, k, Bucket(None, None), BucketOf(h, t));
  }

  lemma HistoryStepBucketed(
      start: Buckets, infos: seq<CommitInfo>, bs: Buckets, h: Half, resolves: Commit -> bool, t: Tools)
    requires AddSide(start, HistorySide, infos, resolves) == Ok(bs)
    requires Stamped(h, resolves) && HoldsClean(bs.at, h, t)
    ensures AddSide(start, HistorySide, infos + [ReadInfo(h.hist, t)], resolves)
         == Ok(Buckets(if h.made.Some? then bs.order else bs.order + [Matched(h.key)],
           bs.at[Matched(h.key) := BucketOf(h, t)]))
  {
    AddSideSnoc(start, HistorySide, infos, ReadInfo(h.hist, t), resolves);
    AddHistory(bs, h, resolves, t);
  }

  lemma {:induction false} HistoryBucketed(
      order: seq<Key>, at: map<Key, Bucket>, hs: seq<Half>, resolves: Commit -> bool, t: Tools)
    requires Matching(hs, resolves)
    requires forall i :: 0 <= i < |hs| ==> HoldsClean(at, hs[i], t)
    ensures AddSide(Buckets(order, at), HistorySide, ReadInfos(HistoryCommits(hs), t), resolves)
         == Ok(Buckets(order + KeysWith(hs, false), WithHistory(at, hs, t)))
  {
    if hs == [] {
      assert order + [] == order;
    } else {
      var n := |hs| - 1;
      var h, init := hs[n], hs[..n];
      HistoryBucketed(order, at, init, resolves, t);
      WithHistoryElsewhere(at, init, h.key, t);
      var bs := Buckets(order + KeysWith(init, false), WithHistory(at, init, t));
      assert HoldsClean(bs.at, h, t) by { assert HoldsClean(at, h, t); }
      HistoryStepBucketed(Buckets(order, at), ReadInfos(HistoryCommits(init), t), bs, h, resolves, t);
      ReadInfosSnoc(HistoryCommits(init), h.hist, t);
      AppendedKey(order, KeysWith(init, false), Matched(h.key));
    }
  }

  lemma AppendedKey(a: seq<Key>, b: seq<Key>, k: Key)
    ensures a + b + [k] == a + (b + [k])
  {
  }

  lemma {:induction false} WithHistoryElsewhere(at: map<Key, Bucket>, hs: seq<Half>, c: Commit, t: Tools)
    requires forall i :: 0 <= i < |hs| ==> hs[i].key != c
    ensures var k := Matched(c); var r := WithHistory(at, hs, t); (k in r <==> k in at) && (k in at ==> r[k] == at[k])
  {
    if hs != [] { WithHistoryElsewhere(at, hs[..|hs| - 1], c, t); }
  }

  lemma {:induction false} WithHistoryAt(
      at: map<Key, Bucket>, hs: seq<Half>, i: nat, resolves: Commit -> bool, t: Tools)
    requires Matching(hs, resolves) && i < |hs|
    ensures Matched(hs[i].key) in WithHistory(at, hs, t)
          && WithHistory(at, hs, t)[Matched(hs[i].key)] == BucketOf(hs[i], t)
  {
    var n := |hs| - 1;
    if i < n { WithHistoryAt(at, hs[..n], i, resolves, t); }
  }

  /**
   Bucketing pairs the halves up again: one bucket a source, holding exactly its
   two commits; sources with a clean commit come first in dict order.
   */
  lemma PairedAgain(hs: seq<Half>, resolves: Commit -> bool, t: Tools)
    requires Matching(hs, resolves)
    ensures var r := BucketAll(RestoredInfos(hs, t), ReadInfos(HistoryCommits(hs), t), resolves);
      && r.Ok?
      && r.value.order == KeysWith(hs, true) + KeysWith(hs, false)
      && forall i :: 0 <= i < |hs| ==>
        Matched(hs[i].key) in r.value.at && r.value.at[Matched(hs[i].key)] == BucketOf(hs[i], t)
  {
    CleanBucketed(hs, resolves, t);
    var at := CleanBuckets(hs, t);
    forall i | 0 <= i < |hs| ensures HoldsClean(at, hs[i], t) { CleanSideHolds(hs, i, resolves, t); }
    HistoryBucketed(KeysWith(hs, true), at, hs, resolves, t);
    forall i | 0 <= i < |hs|
      ensures Matched(hs[i].key) in WithHistory(at, hs, t)
            && WithHistory(at, hs, t)[Matched(hs[i].key)] == BucketOf(hs[i], t)
    {
      WithHistoryAt(at, hs, i, resolves, t);
    }
  }
}
