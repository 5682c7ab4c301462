/**
 A rebuilt branch whose first forward run does make a clean commit, although no
 tip carries a trailer and nothing was touched in between.

 On the clean branch a commit M, split from some source before, is followed by a
 commit U with an older date; both write the same code.  The rebuild orders the
 two by date, so M ends up above U, and the replay above U writes M's code again.
 */
module ReplayedAgain {
  import opened Options
  import opened GitTree
  import opened Commits
  import opened SyncSplits
  import opened SyncUnclean
  import opened Halves
  import opened Rebuild
  import opened RoundTrip
  import opened Stale
  import opened NextRun
  import opened FirstForward

  // ------------------------------------------------------------ the branches

  function At(msg: Message, date: int): Message {
    msg.(date := date)
  }

  function Code(content: string): Tree {
    map["code" := Entry(Regular, content)]
  }

  function Main(msg: Message): Commit {
    Root(map[], msg)
  }

  /** The source M was split from, on some other branch. */
  function Source(msg: Message): Commit {
    Root(Code("1"), msg)
  }

  function M(msg: Message): Commit {
    Child(Main(msg), [], Code("1"), At(msg, 2))
  }

  function U(msg: Message): Commit {
    Child(M(msg), [], Code("2"), At(msg, 1))
  }

  /** M's half on the history branch. */
  function H(msg: Message): Commit {
    Child(Main(msg), [], map[], msg.(trailers := [SplitSource(Source(msg)), CleanCommit(M(msg))]))
  }

  /** A note by hand on top of it. */
  function N(msg: Message): Commit {
    Child(H(msg), [], map["notes" := Entry(Regular, "")], At(msg, 0))
  }

  function Around(msg: Message): Fixed {
    Fixed(Main(msg), Main(msg), c => true)
  }

  // ------------------------------------------------------------------- infos

  lemma TwoInfos(a: Commit, b: Commit, t: Tools)
    ensures ReadInfos([a, b], t) == [ReadInfo(a, t), ReadInfo(b, t)]
  {
  }

  lemma TwoAbove(main: Commit, a: Commit, b: Commit)
    requires main.Root? && a.Child? && a.first == main && a.others == [] && b.Child? && b.first == a && b.others == []
    ensures Range(main, b) == [a, b] && Line(b) == [main, a, b]
  {
    assert Line(main) == [main];
    assert Line(a) == [main, a];
    assert Line(b) == [main] + [a, b];
    TailIsRange(main, b, [a, b]);
  }

  lemma NoSources(resolves: Commit -> bool)
    ensures SourceByClean([], resolves) == Ok(map[])
  {
  }

  lemma OneSource(a: CommitInfo, resolves: Commit -> bool)
    ensures SourceByClean([a], resolves) == AssignSource(map[], a, resolves)
  {
    NoSources(resolves);
    SourceByCleanSnoc([], a, resolves);
    assert [] + [a] == [a];
  }

  lemma TwoSources(a: CommitInfo, b: CommitInfo, m: map<Commit, Commit>, resolves: Commit -> bool)
    requires AssignSource(map[], a, resolves) == Ok(m) && b.cleanCommit == None
    ensures SourceByClean([a, b], resolves) == Ok(m)
  {
    OneSource(a, resolves);
    SourceByCleanSnoc([a], b, resolves);
    assert [a] + [b] == [a, b];
  }

  lemma ThreeSources(a: CommitInfo, b: CommitInfo, c: CommitInfo, m: map<Commit, Commit>, resolves: Commit -> bool)
    requires AssignSource(map[], b, resolves) == Ok(m) && a.cleanCommit == None && c.cleanCommit == None
    ensures SourceByClean([a, b, c], resolves) == Ok(m)
  {
    OneSource(a, resolves);
    SourceByCleanSnoc([a], b, resolves);
    assert [a] + [b] == [a, b];
    SourceByCleanSnoc([a, b], c, resolves);
    assert [a, b] + [c] == [a, b, c];
  }

  // ----------------------------------------------------------------- buckets

  lemma AddFirst(bs: Buckets, side: Side, a: CommitInfo, resolves: Commit -> bool)
    ensures AddSide(bs, side, [a], resolves) == AddInfo(bs, side, a, resolves)
  {
    assert [a][..0] == [];
  }

  lemma AddTwo(bs: Buckets, side: Side, a: CommitInfo, b: CommitInfo, bs1: Buckets, resolves: Commit -> bool)
    requires AddInfo(bs, side, a, resolves) == Ok(bs1)
    ensures AddSide(bs, side, [a, b], resolves) == AddInfo(bs1, side, b, resolves)
  {
    AddFirst(bs, side, a, resolves);
    assert [a, b][..1] == [a];
  }

  lemma AddNew(bs: Buckets, side: Side, info: CommitInfo, k: Key, resolves: Commit -> bool)
    requires KeyFor(info, resolves) == k && k !in bs.at
    ensures AddInfo(bs, side, info, resolves)
         == Ok(Buckets(bs.order + [k], bs.at[k := Put(Bucket(None, None), side, info)]))
  {
    var b := Put(Bucket(None, None), side, info);
    assert bs.at[k := Bucket(None, None)][k := b] == bs.at[k := b];
  }

  lemma AddHistoryTo(bs: Buckets, info: CommitInfo, k: Key, b: Bucket, resolves: Commit -> bool)
    requires KeyFor(info, resolves) == k && k in bs.at && bs.at[k] == b && b.history == None
    ensures AddInfo(bs, HistorySide, info, resolves) == Ok(bs.(at := bs.at[k := b.(history := Some(info))]))
  {
  }

  /** Two clean infos under k and l, and history infos under k and n. */
  lemma ThreeBuckets(
      a: CommitInfo, b: CommitInfo, c: CommitInfo, d: CommitInfo, k: Key, l: Key, n: Key, resolves: Commit -> bool)
    requires KeyFor(a, resolves) == KeyFor(c, resolves) == k && KeyFor(b, resolves) == l && KeyFor(d, resolves) == n
    requires k != l && l != n && k != n
    ensures BucketAll([a, b], [c, d], resolves)
         == Ok(Buckets([k, l, n], map[k := Bucket(Some(a), Some(c)), l := Bucket(Some(b), None),
                                      n := Bucket(None, Some(d))]))
  {
    var onlyA, onlyB := Bucket(Some(a), None), Bucket(Some(b), None);
    assert [] + [k] == [k] && [k] + [l] == [k, l] && [k, l] + [n] == [k, l, n];
    var b1 := Buckets([k], map[k := onlyA]);
    AddNew(NO_BUCKETS, CleanSide, a, k, resolves);
    AddTwo(NO_BUCKETS, CleanSide, a, b, b1, resolves);
    AddNew(b1, CleanSide, b, l, resolves);
    var b2 := Buckets([k, l], map[k := onlyA][l := onlyB]);
    AddHistoryTo(b2, c, k, onlyA, resolves);
    var b3 := Buckets([k, l], map[k := onlyA][l := onlyB][k := Bucket(Some(a), Some(c))]);
    AddTwo(b2, HistorySide, c, d, b3, resolves);
    AddNew(b3, HistorySide, d, n, resolves);
    assert b3.at[n := Bucket(None, Some(d))]
        == map[k := Bucket(Some(a), Some(c)), l := onlyB, n := Bucket(None, Some(d))];
  }

  lemma ThreeEntries(
      k: Key, l: Key, n: Key, at: map<Key, Bucket>, cs: seq<CommitInfo>, ds: seq<CommitInfo>, resolves: Commit -> bool)
    requires k in at && l in at && n in at && Filled(at, [k, l, n])
    requires HasSides(at[k]) && HasSides(at[l]) && HasSides(at[n])
    ensures EntriesFor([k, l, n], at, cs, ds, [], resolves)
         == [EntryFor(k, at[k], cs, ds, [], resolves), EntryFor(l, at[l], cs, ds, [], resolves),
             EntryFor(n, at[n], cs, ds, [], resolves)]
  {
  }

  predicate HasSides(b: Bucket) {
    b.clean.Some? || b.history.Some?
  }

  predicate Earlier(a: OrderEntry, b: OrderEntry) {
    a.preceding == b.preceding == -1 && a.date < b.date
  }

  lemma SortSnoc(es: seq<OrderEntry>, e: OrderEntry)
    ensures SortEntries(es + [e], []) == InsertEntry(e, SortEntries(es, []), [])
  {
    assert (es + [e])[..|es|] == es;
  }

  lemma InsertFirst(e: OrderEntry, a: OrderEntry)
    requires Earlier(e, a)
    ensures InsertEntry(e, [a], []) == [e, a]
  {
    assert [a][..0] == [];
  }

  lemma InsertThird(e: OrderEntry, a: OrderEntry, b: OrderEntry)
    requires Earlier(e, a) && Earlier(e, b)
    ensures InsertEntry(e, [a, b], []) == [e, a, b]
  {
    assert [a, b][..1] == [a];
    InsertFirst(e, a);
    assert [e, a] + [b] == [e, a, b];
  }

  lemma TwoSorted(a: OrderEntry, b: OrderEntry)
    requires Earlier(b, a)
    ensures SortEntries([a, b], []) == [b, a]
  {
    SortSnoc([], a);
    SortSnoc([a], b);
    assert [] + [a] == [a] && [a] + [b] == [a, b];
    InsertFirst(b, a);
  }

  lemma ThreeSorted(a: OrderEntry, b: OrderEntry, c: OrderEntry)
    requires Earlier(c, b) && Earlier(b, a)
    ensures SortEntries([a, b, c], []) == [c, b, a]
  {
    TwoSorted(a, b);
    SortSnoc([a, b], c);
    assert [a, b] + [c] == [a, b, c];
    InsertThird(c, b, a);
  }

  // ---------------------------------------------------------------- the plan

  predicate Plain(msg: Message) {
    msg.trailers == []
  }

  function InfoM(msg: Message, t: Tools): CommitInfo {
    ReadInfo(M(msg), t).(source := Some(Source(msg)))
  }

  lemma HReads(msg: Message, t: Tools)
    ensures ReadInfo(H(msg), t).source == Some(Source(msg)) && ReadInfo(H(msg), t).cleanCommit == Some(M(msg))
  {
    var ts := H(msg).msg.trailers;
    assert ts == [SplitSource(Source(msg))] + [CleanCommit(M(msg))] && ts[1..] == [CleanCommit(M(msg))];
    assert ReadSource(ts) == Some(Source(msg));
    assert ReadCleanCommit(ts) == ReadCleanCommit(ts[1..]) == Some(M(msg));
  }

  lemma Apart(msg: Message)
    ensures M(msg) != U(msg) && Source(msg) != Main(msg)
    ensures !IsAncestor(Source(msg), U(msg))
  {
    assert Size(U(msg)) > Size(M(msg));
    assert "code" in Source(msg).tree && "code" !in Main(msg).tree;
    assert !IsAncestor(Source(msg), Main(msg));
    assert !IsAncestor(Source(msg), M(msg));
  }

  lemma CleanInfosAre(msg: Message, t: Tools)
    requires Plain(msg)
    ensures Correlated(ReadInfos([M(msg), U(msg)], t), map[M(msg) := Source(msg)])
         == [InfoM(msg, t), ReadInfo(U(msg), t)]
  {
    Apart(msg);
    TwoInfos(M(msg), U(msg), t);
  }

  lemma InfosAre(msg: Message, t: Tools)
    requires Plain(msg)
    ensures NewInfos(FirstRefs(Some(U(msg)), Some(N(msg))), Around(msg), t)
         == Ok(([InfoM(msg, t), ReadInfo(U(msg), t)], [ReadInfo(H(msg), t), ReadInfo(N(msg), t)]))
  {
    TwoAbove(Main(msg), M(msg), U(msg));
    TwoAbove(Main(msg), H(msg), N(msg));
    TwoInfos(H(msg), N(msg), t);
    HReads(msg, t);
    TwoSources(ReadInfo(H(msg), t), ReadInfo(N(msg), t), map[M(msg) := Source(msg)], Around(msg).resolves);
    CleanInfosAre(msg, t);
  }

  function EntryM(msg: Message, t: Tools): OrderEntry {
    OrderEntry(Matched(Source(msg)), Bucket(Some(InfoM(msg, t)), Some(ReadInfo(H(msg), t))), -1, 2, true)
  }

  function EntryU(msg: Message, t: Tools): OrderEntry {
    OrderEntry(Unmatched(U(msg)), Bucket(Some(ReadInfo(U(msg), t)), None), -1, 1, true)
  }

  function EntryN(msg: Message, t: Tools): OrderEntry {
    OrderEntry(Unmatched(N(msg)), Bucket(None, Some(ReadInfo(N(msg), t))), -1, 0, false)
  }

  lemma EntryIs(
      k: Key, b: Bucket, cs: seq<CommitInfo>, ds: seq<CommitInfo>, resolves: Commit -> bool)
    requires HasSides(b)
    ensures EntryFor(k, b, cs, ds, [], resolves)
         == OrderEntry(k, b, -1, (if b.clean.Some? then b.clean.value else b.history.value).sha.msg.date, b.clean.Some?)
  {
    var side := if b.clean.Some? then cs else ds;
    NoPreceding(side, PositionOf(side, (if b.clean.Some? then b.clean.value else b.history.value).sha), resolves);
  }

  lemma PlanIsByDate(msg: Message, force: bool, t: Tools)
    requires Plain(msg)
    ensures EntriesToBuild(FirstRefs(Some(U(msg)), Some(N(msg))), force, Around(msg), t)
         == Ok([EntryN(msg, t), EntryU(msg, t), EntryM(msg, t)])
  {
    var a, b, c, d := InfoM(msg, t), ReadInfo(U(msg), t), ReadInfo(H(msg), t), ReadInfo(N(msg), t);
    var k, l, n := Matched(Source(msg)), Unmatched(U(msg)), Unmatched(N(msg));
    InfosAre(msg, t);
    HReads(msg, t);
    NotesAreNotCode(msg);
    var f := Around(msg);
    ThreeBuckets(a, b, c, d, k, l, n, f.resolves);
    var bs := BucketAll([a, b], [c, d], f.resolves).value;
    PlanWithoutLineage([a, b], [c, d], bs, force, FirstRefs(Some(U(msg)), Some(N(msg))), f, t);
    PlannedByDate(msg, bs.at, [a, b], [c, d], f.resolves, t);
  }

  lemma NotesAreNotCode(msg: Message)
    ensures N(msg) != U(msg)
  {
    assert "notes" in N(msg).tree && "notes" !in U(msg).tree;
  }

  lemma PlannedByDate(
      msg: Message, at: map<Key, Bucket>, cs: seq<CommitInfo>, ds: seq<CommitInfo>, resolves: Commit -> bool, t: Tools)
    requires var k, l, n := EntryM(msg, t).key, EntryU(msg, t).key, EntryN(msg, t).key;
      && k in at && l in at && n in at && at[k] == EntryM(msg, t).bucket && at[l] == EntryU(msg, t).bucket
      && at[n] == EntryN(msg, t).bucket
    ensures var keys := [EntryM(msg, t).key, EntryU(msg, t).key, EntryN(msg, t).key];
      Filled(at, keys) && SortEntries(EntriesFor(keys, at, cs, ds, [], resolves), [])
        == [EntryN(msg, t), EntryU(msg, t), EntryM(msg, t)]
  {
    var k, l, n := EntryM(msg, t).key, EntryU(msg, t).key, EntryN(msg, t).key;
    ThreeEntries(k, l, n, at, cs, ds, resolves);
    EntryIs(k, at[k], cs, ds, resolves);
    EntryIs(l, at[l], cs, ds, resolves);
    EntryIs(n, at[n], cs, ds, resolves);
    ThreeSorted(EntryM(msg, t), EntryU(msg, t), EntryN(msg, t));
  }

  // ------------------------------------------------------------- the rebuilt

  function BuiltN(msg: Message, t: Tools, extra: ExtraText): Commit {
    MergedCommit(Main(msg), EntryN(msg, t).key, EntryN(msg, t).bucket, t, extra)
  }

  function BuiltU(msg: Message, t: Tools, extra: ExtraText): Commit {
    MergedCommit(BuiltN(msg, t, extra), EntryU(msg, t).key, EntryU(msg, t).bucket, t, extra)
  }

  function BuiltM(msg: Message, t: Tools, extra: ExtraText): Commit {
    MergedCommit(BuiltU(msg, t, extra), EntryM(msg, t).key, EntryM(msg, t).bucket, t, extra)
  }

  lemma BuildThree(main: Commit, a: OrderEntry, b: OrderEntry, c: OrderEntry, t: Tools, extra: ExtraText)
    requires HasSide(a) && HasSide(b) && HasSide(c)
    ensures Buildable([a, b, c])
    ensures BuildAll(main, [a, b, c], t, extra)
         == MergedCommit(MergedCommit(MergedCommit(main, a.key, a.bucket, t, extra), b.key, b.bucket, t, extra),
                         c.key, c.bucket, t, extra)
  {
    BuildAllSnoc(main, [], a, t, extra);
    BuildAllSnoc(main, [a], b, t, extra);
    BuildAllSnoc(main, [a, b], c, t, extra);
    assert [] + [a] == [a] && [a] + [b] == [a, b] && [a, b] + [c] == [a, b, c];
  }

  lemma ThreeInfos(a: Commit, b: Commit, c: Commit, t: Tools)
    ensures ReadInfos([a, b, c], t) == [ReadInfo(a, t), ReadInfo(b, t), ReadInfo(c, t)]
  {
  }

  lemma HistoryGathered(msg: Message, t: Tools)
    requires Plain(msg)
    ensures SourceByClean(ReadInfos([Main(msg), H(msg), N(msg)], t), Around(msg).resolves).Ok?
  {
    HReads(msg, t);
    ThreeInfos(Main(msg), H(msg), N(msg), t);
    ThreeSources(ReadInfo(Main(msg), t), ReadInfo(H(msg), t), ReadInfo(N(msg), t), map[M(msg) := Source(msg)],
                 Around(msg).resolves);
  }

  lemma NothingDivergesHere(msg: Message, t: Tools)
    requires Plain(msg)
    ensures FullDivergences(FirstRefs(Some(U(msg)), Some(N(msg))), Around(msg), t) == Ok([])
  {
    TwoAbove(Main(msg), H(msg), N(msg));
    HistoryGathered(msg, t);
    NothingDiverges(FirstRefs(Some(U(msg)), Some(N(msg))), Around(msg), t);
  }

  lemma RebuiltIs(msg: Message, allowRewrite: bool, force: bool, t: Tools, extra: ExtraText)
    requires Plain(msg)
    ensures var (r', refusal) := Reconstruct(FirstRefs(Some(U(msg)), Some(N(msg))), allowRewrite, force, Around(msg),
                                             t, extra);
      refusal == None && r'.unclean == Some(BuiltM(msg, t, extra))
  {
    PlanIsByDate(msg, force, t);
    NothingDivergesHere(msg, t);
    FirstRebuild(FirstRefs(Some(U(msg)), Some(N(msg))), [EntryN(msg, t), EntryU(msg, t), EntryM(msg, t)],
                 allowRewrite, force, Around(msg), t, extra);
    BuildThree(Main(msg), EntryN(msg, t), EntryU(msg, t), EntryM(msg, t), t, extra);
  }

  // -------------------------------------------------------------- the replay

  lemma NamesAre(msg: Message, t: Tools, extra: ExtraText)
    requires Plain(msg)
    ensures ReadReconstructed(BuiltU(msg, t, extra).msg.trailers) == Some(U(msg))
    ensures ReadReconstructed(BuiltM(msg, t, extra).msg.trailers) == Some(Source(msg))
  {
    var u, m := EntryU(msg, t), EntryM(msg, t);
    EntryNamesKey(u, extra);
    assert H(msg).msg.trailers[1..][1..] == [];
    EntryNamesKey(m, extra);
  }

  lemma LineIs(msg: Message, t: Tools, extra: ExtraText)
    ensures Line(BuiltM(msg, t, extra))
         == [Main(msg), BuiltN(msg, t, extra), BuiltU(msg, t, extra), BuiltM(msg, t, extra)]
  {
    assert Line(Main(msg)) == [Main(msg)];
    assert Line(BuiltN(msg, t, extra)) == [Main(msg), BuiltN(msg, t, extra)];
    assert Line(BuiltU(msg, t, extra)) == [Main(msg), BuiltN(msg, t, extra), BuiltU(msg, t, extra)];
  }

  lemma UIsNewest(msg: Message, t: Tools, extra: ExtraText)
    requires Plain(msg)
    ensures NewestCovered(Line(BuiltM(msg, t, extra)), U(msg), Around(msg).resolves, 2)
  {
    NamesAre(msg, t, extra);
    LineIs(msg, t, extra);
    Apart(msg);
  }

  /** M's code comes back over U's. */
  lemma CodeComesBack(msg: Message, t: Tools, extra: ExtraText)
    requires Sound(t) && !t.ai("code")
    ensures !Settled(BuiltM(msg, t, extra), U(msg).tree, t.ai)
  {
    var u, m := BuiltU(msg, t, extra), BuiltM(msg, t, extra);
    OverlaidAt(BuiltN(msg, t, extra).tree, ReadInfo(U(msg), t), t, "code");
    OverlaidAt(u.tree, InfoM(msg, t), t, "code");
    OverlaidAt(Overlay(u.tree, InfoM(msg, t), t), ReadInfo(H(msg), t), t, "code");
    assert "code" in u.tree && u.tree["code"] == Entry(Regular, "2");
    assert "code" in m.tree && m.tree["code"] == Entry(Regular, "1");
    assert !SameAt(ParentTree(m), m.tree, "code") && !KindFlip(ParentTree(m), m.tree, "code");
    assert !SameAt(m.tree, U(msg).tree, "code");
  }

  /**
   Tips without trailers are not enough.  The branches of this file can be rebuilt
   without refusal, but the first forward run over the result, with no cursors,
   moves the clean branch.
   */
  lemma FirstRunMovesClean(
      msg: Message, allowRewrite: bool, force: bool, fakeMerges: bool, t: Tools, extra: ExtraText)
    requires Sound(t) && Plain(msg) && !t.ai("code")
    ensures var clean, history, f := U(msg), N(msg), Around(msg);
            var (r', refusal) := Reconstruct(FirstRefs(Some(clean), Some(history)), allowRewrite, force, f, t, extra);
      && Unstamped(clean.msg.trailers) && Unstamped(history.msg.trailers)
      && refusal == None && r'.unclean.Some?
      && Sync(Refs(Some(clean), Some(history), None, None), r'.unclean.value, fakeMerges, f, t).0.clean != Some(clean)
  {
    var m := BuiltM(msg, t, extra);
    RebuiltIs(msg, allowRewrite, force, t, extra);
    UIsNewest(msg, t, extra);
    LineIs(msg, t, extra);
    assert Line(m)[3..] == [m];
    FirstRunLeavesCleanIff(U(msg), Some(N(msg)), m, 2, fakeMerges, Around(msg), t);
    OneAbove(msg, fakeMerges, t, extra);
  }

  lemma OneAbove(msg: Message, fakeMerges: bool, t: Tools, extra: ExtraText)
    requires Sound(t) && !t.ai("code")
    ensures var above := [BuiltM(msg, t, extra)];
      !AllSettled(above[..Handled(above, fakeMerges)], U(msg).tree, t.ai)
  {
    var m := BuiltM(msg, t, extra);
    CodeComesBack(msg, t, extra);
    assert [m][1..] == [] && Handled([m], fakeMerges) == 1;
    assert [m][..1][0] == m;
  }
}
