/**
 After a round trip of originals, running the reverse direction once more
 changes nothing.
 */
module RerunTrip {
  import opened Options
  import opened GitTree
  import opened Commits
  import opened SyncSplits
  import opened SplitInvariant
  import opened SyncUnclean
  import opened BucketOrder
  import opened Halves
  import opened Rebuild
  import opened RoundTrip
  import opened Rewrite
  import opened Rerun

  // ------------------------------------------------------- the current infos

  lemma ReadInfosConcat(a: seq<Commit>, b: seq<Commit>, t: Tools)
    ensures ReadInfos(a + b, t) == ReadInfos(a, t) + ReadInfos(b, t)
  {
    forall i | 0 <= i < |a| + |b|
      ensures ReadInfos(a + b, t)[i] == (ReadInfos(a, t) + ReadInfos(b, t))[i]
    {
    }
  }

  lemma CorrelatedConcat(a: seq<CommitInfo>, b: seq<CommitInfo>, m: map<Commit, Commit>)
    ensures Correlated(a + b, m) == Correlated(a, m) + Correlated(b, m)
  {
    forall i | 0 <= i < |a| + |b|
      ensures Correlated(a + b, m)[i] == (Correlated(a, m) + Correlated(b, m))[i]
    {
    }
  }

  lemma {:induction false} LatestConcat(a: seq<CommitInfo>, b: seq<CommitInfo>, resolves: Commit -> bool)
    ensures LatestByKey(a + b, resolves) == LatestByKey(a, resolves) + LatestByKey(b, resolves)
  {
    if b == [] {
      assert a + b == a;
    } else {
      assert (a + b)[..|a + b| - 1] == a + b[..|b| - 1];
      LatestConcat(a, b[..|b| - 1], resolves);
    }
  }

  lemma {:induction false} LatestLacks(infos: seq<CommitInfo>, k: Commit, resolves: Commit -> bool)
    requires forall i :: 0 <= i < |infos| ==> KeyFor(infos[i], resolves) != Matched(k)
    ensures k !in LatestByKey(infos, resolves)
  {
    if infos != [] { LatestLacks(infos[..|infos| - 1], k, resolves); }
  }

  lemma LatestSnoc(infos: seq<CommitInfo>, info: CommitInfo, k: Commit, resolves: Commit -> bool)
    requires info.source == Some(k) && resolves(k)
    ensures LatestByKey(infos + [info], resolves) == LatestByKey(infos, resolves)[k := info]
  {
    assert (infos + [info])[..|infos|] == infos;
  }

  /** Among a split's own commits, a key finds exactly its half. */
  predicate FindsHalf(clean: map<Commit, CommitInfo>, history: map<Commit, CommitInfo>, h: Half, t: Tools) {
    && (h.key in clean <==> h.made.Some?)
    && (h.made.Some? ==> clean[h.key] == RestoredInfo(h, t))
    && h.key in history && history[h.key] == ReadInfo(h.hist, t)
  }

  predicate LacksHalf(hs: seq<Half>, k: Commit, resolves: Commit -> bool, t: Tools) {
    && k !in LatestByKey(RestoredInfos(hs, t), resolves)
    && k !in LatestByKey(ReadInfos(HistoryCommits(hs), t), resolves)
  }

  lemma LacksStill(init: seq<Half>, h: Half, k: Commit, resolves: Commit -> bool, t: Tools)
    requires Stamped(h, resolves) && LacksHalf(init, k, resolves, t) && k != h.key
    ensures LacksHalf(init + [h], k, resolves, t)
  {
    HalfEntersLast(init, h, resolves, t);
  }

  lemma {:induction false} LatestLacksHalf(hs: seq<Half>, k: Commit, resolves: Commit -> bool, t: Tools)
    requires AllStamped(hs, resolves) && forall i :: 0 <= i < |hs| ==> hs[i].key != k
    ensures LacksHalf(hs, k, resolves, t)
  {
    if hs != [] {
      var n := |hs| - 1;
      assert forall i :: 0 <= i < n ==> hs[..n][i] == hs[i];
      LatestLacksHalf(hs[..n], k, resolves, t);
      LacksStill(hs[..n], hs[n], k, resolves, t);
      assert hs == hs[..n] + [hs[n]];
    }
  }

  lemma HalfEntersLast(init: seq<Half>, h: Half, resolves: Commit -> bool, t: Tools)
    requires Stamped(h, resolves)
    ensures LatestByKey(RestoredInfos(init + [h], t), resolves)
         == if h.made.Some? then LatestByKey(RestoredInfos(init, t), resolves)[h.key := RestoredInfo(h, t)]
            else LatestByKey(RestoredInfos(init, t), resolves)
    ensures LatestByKey(ReadInfos(HistoryCommits(init + [h]), t), resolves)
         == LatestByKey(ReadInfos(HistoryCommits(init), t), resolves)[h.key := ReadInfo(h.hist, t)]
  {
    assert (init + [h])[..|init|] == init;
    if h.made.Some? { LatestSnoc(RestoredInfos(init, t), RestoredInfo(h, t), h.key, resolves); }
    ReadInfosSnoc(HistoryCommits(init), h.hist, t);
    LatestSnoc(ReadInfos(HistoryCommits(init), t), ReadInfo(h.hist, t), h.key, resolves);
  }

  /** A later half under another key does not disturb what an earlier one's key finds. */
  lemma FindsStill(clean: map<Commit, CommitInfo>, history: map<Commit, CommitInfo>, g: Half, h: Half, t: Tools)
    requires FindsHalf(clean, history, g, t) && g.key != h.key
    ensures FindsHalf(if h.made.Some? then clean[h.key := RestoredInfo(h, t)] else clean,
                      history[h.key := ReadInfo(h.hist, t)], g, t)
  {
  }

  predicate DistinctKeys(hs: seq<Half>) {
    forall i, j :: 0 <= i < j < |hs| ==> hs[i].key != hs[j].key
  }

  lemma {:induction false} MatchingIsDistinct(hs: seq<Half>, resolves: Commit -> bool)
    requires Matching(hs, resolves)
    ensures DistinctKeys(hs)
  {
    if hs != [] {
      var init := hs[..|hs| - 1];
      MatchingIsDistinct(init, resolves);
      assert forall i :: 0 <= i < |init| ==> init[i] == hs[i];
    }
  }

  /** What the split's own commits are found under. */
  predicate Found(hs: seq<Half>, g: Half, resolves: Commit -> bool, t: Tools) {
    FindsHalf(
      LatestByKey(RestoredInfos(hs, t), resolves), LatestByKey(ReadInfos(HistoryCommits(hs), t), resolves), g, t)
  }

  lemma FoundStill(init: seq<Half>, h: Half, g: Half, resolves: Commit -> bool, t: Tools)
    requires Stamped(h, resolves) && Found(init, g, resolves, t) && g.key != h.key
    ensures Found(init + [h], g, resolves, t)
  {
    HalfEntersLast(init, h, resolves, t);
    FindsStill(LatestByKey(RestoredInfos(init, t), resolves),
               LatestByKey(ReadInfos(HistoryCommits(init), t), resolves), g, h, t);
  }

  lemma FoundLast(init: seq<Half>, h: Half, resolves: Commit -> bool, t: Tools)
    requires AllStamped(init, resolves) && Stamped(h, resolves)
    requires forall i :: 0 <= i < |init| ==> init[i].key != h.key
    ensures Found(init + [h], h, resolves, t)
  {
    HalfEntersLast(init, h, resolves, t);
    LatestLacksHalf(init, h.key, resolves, t);
  }

  lemma {:induction false} LatestFinds(hs: seq<Half>, i: nat, resolves: Commit -> bool, t: Tools)
    requires AllStamped(hs, resolves) && DistinctKeys(hs) && i < |hs|
    ensures Found(hs, hs[i], resolves, t)
  {
    var n := |hs| - 1;
    assert hs == hs[..n] + [hs[n]];
    if i < n {
      LatestFinds(hs[..n], i, resolves, t);
      FoundStill(hs[..n], hs[n], hs[i], resolves, t);
    } else {
      FoundLast(hs[..n], hs[n], resolves, t);
    }
  }

  // --------------------------------------- main branches know nothing of it

  /** No commit of the line was split from one of these. */
  predicate NoneSplitFrom(line: seq<Commit>, srcs: seq<Commit>) {
    forall i :: 0 <= i < |line| ==>
      ReadSource(line[i].msg.trailers).None? || ReadSource(line[i].msg.trailers).value !in srcs
  }

  /** Every source that correlation gathers is named by some history commit. */
  lemma {:induction false} GatheredIsNamed(infos: seq<CommitInfo>, resolves: Commit -> bool, c: Commit)
    requires SourceByClean(infos, resolves).Ok? && c in SourceByClean(infos, resolves).value
    ensures exists i :: 0 <= i < |infos| && infos[i].source == Some(SourceByClean(infos, resolves).value[c])
  {
    var n := |infos| - 1;
    var m := SourceByClean(infos[..n], resolves).value;
    if c in m && SourceByClean(infos, resolves).value[c] == m[c] {
      GatheredIsNamed(infos[..n], resolves, c);
      var i :| 0 <= i < n && infos[..n][i].source == Some(m[c]);
      assert infos[i].source == Some(m[c]);
    }
  }

  /** The sources gathered from a line are not among those it was never split from. */
  lemma GatheredElsewhere(line: seq<Commit>, srcs: seq<Commit>, resolves: Commit -> bool, t: Tools, c: Commit)
    requires NoneSplitFrom(line, srcs) && SourceByClean(ReadInfos(line, t), resolves).Ok?
    requires c in SourceByClean(ReadInfos(line, t), resolves).value
    ensures SourceByClean(ReadInfos(line, t), resolves).value[c] !in srcs
  {
    GatheredIsNamed(ReadInfos(line, t), resolves, c);
  }

  /** Restored with what history says, main's own commits still go under none of the sources. */
  lemma MainLacks(
      line: seq<Commit>, srcs: seq<Commit>, m: map<Commit, Commit>, k: Commit, resolves: Commit -> bool, t: Tools)
    requires NoneSplitFrom(line, srcs) && k in srcs
    requires forall i :: 0 <= i < |line| && line[i] in m ==> m[line[i]] !in srcs
    ensures k !in LatestByKey(Correlated(ReadInfos(line, t), m), resolves)
  {
    var infos := Correlated(ReadInfos(line, t), m);
    forall i | 0 <= i < |infos| ensures KeyFor(infos[i], resolves) != Matched(k) {
      assert infos[i] == WithSource(ReadInfo(line[i], t), m);
    }
    LatestLacks(infos, k, resolves);
  }

  // ------------------------------------------------- a trip leaves none diverged

  lemma {:induction false} LineIsBelow(tip: Commit, i: nat)
    requires i < |Line(tip)|
    ensures Size(Line(tip)[i]) <= Size(tip)
  {
    if tip.Child? && i < |Line(tip)| - 1 { LineIsBelow(tip.first, i); }
  }

  /** The clean commits of the split are above main, so what is gathered for main's own commits is old. */
  predicate MadeAbove(hs: seq<Half>, main: Commit) {
    forall i :: 0 <= i < |hs| && hs[i].made.Some? ==> Size(hs[i].made.value) > Size(main)
  }

  lemma OldGathered(hs: seq<Half>, main: Commit, m: map<Commit, Commit>, i: nat)
    requires MadeAbove(hs, main) && i < |Line(main)|
    ensures var c := Line(main)[i]; var all := m + SourceOfClean(hs);
      (c in all <==> c in m) && (c in m ==> all[c] == m[c])
  {
    LineIsBelow(main, i);
    SourceOfCleanLacks(hs, Line(main)[i]);
  }

  lemma AllAnswers(hs: seq<Half>, m: map<Commit, Commit>, resolves: Commit -> bool)
    requires Matching(hs, resolves)
    ensures Answers(m + SourceOfClean(hs), hs)
  {
    forall i | 0 <= i < |hs| && hs[i].made.Some?
      ensures hs[i].made.value in SourceOfClean(hs) && SourceOfClean(hs)[hs[i].made.value] == hs[i].key
    {
      SourceOfCleanHas(hs, i, resolves);
    }
  }

  /** The full clean infos fall into main's own and the split's. */
  lemma CleanInfosSplit(
      line: seq<Commit>, hs: seq<Half>, m: map<Commit, Commit>, resolves: Commit -> bool, t: Tools)
    requires Matching(hs, resolves) && Answers(m, hs)
    ensures LatestByKey(Correlated(ReadInfos(line + MadeCommits(hs), t), m), resolves)
         == LatestByKey(Correlated(ReadInfos(line, t), m), resolves) + LatestByKey(RestoredInfos(hs, t), resolves)
  {
    ReadInfosConcat(line, MadeCommits(hs), t);
    CorrelatedConcat(ReadInfos(line, t), ReadInfos(MadeCommits(hs), t), m);
    SourcesRestored(hs, m, resolves, t);
    LatestConcat(Correlated(ReadInfos(line, t), m), RestoredInfos(hs, t), resolves);
  }

  lemma HistoryInfosSplit(line: seq<Commit>, hs: seq<Half>, resolves: Commit -> bool, t: Tools)
    ensures LatestByKey(ReadInfos(line + HistoryCommits(hs), t), resolves)
         == LatestByKey(ReadInfos(line, t), resolves) + LatestByKey(ReadInfos(HistoryCommits(hs), t), resolves)
  {
    ReadInfosConcat(line, HistoryCommits(hs), t);
    LatestConcat(ReadInfos(line, t), ReadInfos(HistoryCommits(hs), t), resolves);
  }

  lemma FindsInUnion(
      oldClean: map<Commit, CommitInfo>, oldHistory: map<Commit, CommitInfo>,
      clean: map<Commit, CommitInfo>, history: map<Commit, CommitInfo>, h: Half, t: Tools)
    requires FindsHalf(clean, history, h, t) && h.key !in oldClean
    ensures FindsHalf(oldClean + clean, oldHistory + history, h, t)
  {
  }

  /** A split on top of branches that know nothing of its sources. */
  predicate OnCleanGround(hs: seq<Half>, f: Fixed, m: map<Commit, Commit>, t: Tools) {
    && Matching(hs, f.resolves) && MadeAbove(hs, f.main)
    && SourceByClean(ReadInfos(Line(f.historyMain), t), f.resolves) == Ok(m)
    && NoneSplitFrom(Line(f.main), KeysOfHalves(hs)) && NoneSplitFrom(Line(f.historyMain), KeysOfHalves(hs))
  }

  function KeysOfHalves(hs: seq<Half>): (r: seq<Commit>)
    ensures |r| == |hs| && forall i :: 0 <= i < |hs| ==> r[i] == hs[i].key
  {
    if hs == [] then [] else KeysOfHalves(hs[..|hs| - 1]) + [hs[|hs| - 1].key]
  }

  function CleanMap(hs: seq<Half>, f: Fixed, m: map<Commit, Commit>, t: Tools): map<Commit, CommitInfo> {
    LatestByKey(Correlated(ReadInfos(Line(f.main) + MadeCommits(hs), t), m + SourceOfClean(hs)), f.resolves)
  }

  function HistoryMap(hs: seq<Half>, f: Fixed, t: Tools): map<Commit, CommitInfo> {
    LatestByKey(ReadInfos(Line(f.historyMain) + HistoryCommits(hs), t), f.resolves)
  }

  lemma OldMainLacks(hs: seq<Half>, f: Fixed, m: map<Commit, Commit>, k: Commit, t: Tools)
    requires OnCleanGround(hs, f, m, t) && k in KeysOfHalves(hs)
    ensures k !in LatestByKey(Correlated(ReadInfos(Line(f.main), t), m + SourceOfClean(hs)), f.resolves)
  {
    var all, keys := m + SourceOfClean(hs), KeysOfHalves(hs);
    forall i | 0 <= i < |Line(f.main)| && Line(f.main)[i] in all ensures all[Line(f.main)[i]] !in keys {
      OldGathered(hs, f.main, m, i);
      GatheredElsewhere(Line(f.historyMain), keys, f.resolves, t, Line(f.main)[i]);
    }
    MainLacks(Line(f.main), keys, all, k, f.resolves, t);
  }

  /** Over the full branches too, each key finds exactly its half. */
  lemma FullMapsFind(hs: seq<Half>, f: Fixed, m: map<Commit, Commit>, i: nat, t: Tools)
    requires OnCleanGround(hs, f, m, t) && i < |hs|
    ensures FindsHalf(CleanMap(hs, f, m, t), HistoryMap(hs, f, t), hs[i], t)
  {
    MatchingIsStamped(hs, f.resolves);
    MatchingIsDistinct(hs, f.resolves);
    LatestFinds(hs, i, f.resolves, t);
    assert KeysOfHalves(hs)[i] == hs[i].key;
    OldMainLacks(hs, f, m, hs[i].key, t);
    AllAnswers(hs, m, f.resolves);
    CleanInfosSplit(Line(f.main), hs, m + SourceOfClean(hs), f.resolves, t);
    HistoryInfosSplit(Line(f.historyMain), hs, f.resolves, t);
    FindsInUnion(LatestByKey(Correlated(ReadInfos(Line(f.main), t), m + SourceOfClean(hs)), f.resolves),
                 LatestByKey(ReadInfos(Line(f.historyMain), t), f.resolves),
                 LatestByKey(RestoredInfos(hs, t), f.resolves),
                 LatestByKey(ReadInfos(HistoryCommits(hs), t), f.resolves), hs[i], t);
  }

  /** A commit just built from a half is what the half would build on its parent. */
  lemma BuiltAgrees(
      prev: Commit, h: Half, clean: map<Commit, CommitInfo>, history: map<Commit, CommitInfo>, t: Tools,
      extra: ExtraText)
    requires FindsHalf(clean, history, h, t) && h.key in clean
    ensures !Diverges(MergedCommit(prev, Matched(h.key), BucketOf(h, t), t, extra), clean[h.key], history[h.key], t)
  {
  }

  /** Every half goes by the same key before and after. */
  predicate MarkedByKey(hs: seq<Half>) {
    forall i :: 0 <= i < |hs| ==> hs[i].mark == hs[i].key
  }

  predicate Permutes(es: seq<OrderEntry>, hs: seq<Half>, t: Tools) {
    Buildable(es) && forall i :: 0 <= i < |es| ==> es[i] in EntriesOf(hs, t)
  }

  /** Which half a rebuilt commit was built from. */
  lemma BuiltFrom(
      base: Commit, hs: seq<Half>, es: seq<OrderEntry>, i: nat, t: Tools, extra: ExtraText)
    returns (prev: Commit, q: nat)
    requires AllTexts(hs) && Permutes(es, hs, t) && i < |es|
    ensures q < |hs|
    ensures BuiltList(base, es, t, extra)[i] == MergedCommit(prev, Matched(hs[q].key), BucketOf(hs[q], t), t, extra)
    ensures ReadReconstructed(BuiltList(base, es, t, extra)[i].msg.trailers) == Some(hs[q].mark)
  {
    BuiltAt(base, es, i, t, extra);
    prev := BuildAll(base, es[..i], t, extra);
    q := EntryIsSome(hs, es[i], t);
    MessageRestored(hs[q], t, extra);
  }

  predicate AllFound(hs: seq<Half>, clean: map<Commit, CommitInfo>, history: map<Commit, CommitInfo>, t: Tools) {
    forall i :: 0 <= i < |hs| ==> FindsHalf(clean, history, hs[i], t)
  }

  /** No commit just rebuilt diverges from the pair its key finds. */
  lemma BuiltOneAgrees(
      base: Commit, hs: seq<Half>, es: seq<OrderEntry>, clean: map<Commit, CommitInfo>,
      history: map<Commit, CommitInfo>, i: nat, k: Commit, t: Tools, extra: ExtraText)
    requires AllTexts(hs) && MarkedByKey(hs) && Permutes(es, hs, t) && AllFound(hs, clean, history, t) && i < |es|
    requires ReadReconstructed(BuiltList(base, es, t, extra)[i].msg.trailers) == Some(k) && k in clean && k in history
    ensures !Diverges(BuiltList(base, es, t, extra)[i], clean[k], history[k], t)
  {
    var prev, q := BuiltFrom(base, hs, es, i, t, extra);
    BuiltAgrees(prev, hs[q], clean, history, t, extra);
  }

  /** A named commit on top of a line without names is one of the new ones. */
  lemma NamedIsNew(line: seq<Commit>, made: seq<Commit>, i: nat)
    requires Unnamed(line) && i < |line + made| && ReadReconstructed((line + made)[i].msg.trailers).Some?
    ensures i >= |line| && (line + made)[i] == made[i - |line|]
  {
    assert forall j :: 0 <= j < |line| ==> (line + made)[j] == line[j];
  }

  /** On a branch just rebuilt, in whatever order, nothing diverges. */
  lemma BuiltDoNotDiverge(
      base: Commit, hs: seq<Half>, es: seq<OrderEntry>, clean: map<Commit, CommitInfo>,
      history: map<Commit, CommitInfo>, t: Tools, extra: ExtraText)
    requires AllTexts(hs) && MarkedByKey(hs) && Permutes(es, hs, t) && Unnamed(Line(base))
    requires AllFound(hs, clean, history, t)
    ensures var line := Line(BuildAll(base, es, t, extra));
      DivergencesOf(FirstOccurrences(KeysOf(line)), KeyToSha(line), clean, history, t) == []
  {
    BuiltLine(base, es, t, extra);
    NoneDiverges(Line(base), hs, base, es, clean, history, t, extra);
  }

  lemma NoneDiverges(
      below: seq<Commit>, hs: seq<Half>, base: Commit, es: seq<OrderEntry>, clean: map<Commit, CommitInfo>,
      history: map<Commit, CommitInfo>, t: Tools, extra: ExtraText)
    requires AllTexts(hs) && MarkedByKey(hs) && Permutes(es, hs, t) && Unnamed(below)
    requires AllFound(hs, clean, history, t)
    ensures var line := below + BuiltList(base, es, t, extra);
      DivergencesOf(FirstOccurrences(KeysOf(line)), KeyToSha(line), clean, history, t) == []
  {
    var made := BuiltList(base, es, t, extra);
    var keys, m := FirstOccurrences(KeysOf(below + made)), KeyToSha(below + made);
    var ds := DivergencesOf(keys, m, clean, history, t);
    if ds != [] {
      var d := ds[0];
      DivergencesExact(keys, m, clean, history, t, d);
      var i := NewestWithKey(below + made, d.key);
      NamedIsNew(below, made, i);
      BuiltOneAgrees(base, hs, es, clean, history, i - |below|, d.key, t, extra);
    }
  }

  /** What main's history names as clean commits is on main. */
  predicate NamesMainOnly(m: map<Commit, Commit>, main: Commit) {
    forall c :: c in m ==> IsAncestor(c, main)
  }

  /** What correlation gathers over the whole history branch of a split. */
  lemma GatheredOverAll(hs: seq<Half>, f: Fixed, m: map<Commit, Commit>, t: Tools)
    requires OnCleanGround(hs, f, m, t) && NamesMainOnly(m, f.main)
    ensures SourceByClean(ReadInfos(Line(f.historyMain) + HistoryCommits(hs), t), f.resolves)
         == Ok(m + SourceOfClean(hs))
  {
    MadeNotInOld(hs, m, f.main);
    WholeHistoryGathered(Line(f.historyMain), m, hs, f.resolves, t);
  }

  lemma FullMapsFindAll(hs: seq<Half>, f: Fixed, m: map<Commit, Commit>, t: Tools)
    requires OnCleanGround(hs, f, m, t)
    ensures AllFound(hs, CleanMap(hs, f, m, t), HistoryMap(hs, f, t), t)
  {
    forall i | 0 <= i < |hs| ensures FindsHalf(CleanMap(hs, f, m, t), HistoryMap(hs, f, t), hs[i], t) {
      FullMapsFind(hs, f, m, i, t);
    }
  }

  lemma FullDivergencesOfHalves(hs: seq<Half>, r: ReconRefs, f: Fixed, m: map<Commit, Commit>, t: Tools)
    requires OnCleanGround(hs, f, m, t) && NamesMainOnly(m, f.main)
    requires r.clean.Some? && r.history.Some? && HoldHalves(hs, f.main, f.historyMain, r.clean.value, r.history.value)
    ensures var line, clean, history := LineOf(r.unclean), CleanMap(hs, f, m, t), HistoryMap(hs, f, t);
      FullDivergences(r, f, t)
      == Ok(DivergencesOf(FirstOccurrences(KeysOf(line)), KeyToSha(line), clean, history, t))
  {
    GatheredOverAll(hs, f, m, t);
  }

  /** The refs after a round trip show no divergence. */
  lemma TripDoesNotDiverge(
      hs: seq<Half>, r: ReconRefs, es: seq<OrderEntry>, m: map<Commit, Commit>, f: Fixed, t: Tools, extra: ExtraText)
    requires OnCleanGround(hs, f, m, t) && NamesMainOnly(m, f.main)
    requires AllTexts(hs) && MarkedByKey(hs) && Permutes(es, hs, t) && Unnamed(Line(f.main))
    requires r.clean.Some? && r.history.Some? && r.unclean == Some(BuildAll(f.main, es, t, extra))
    requires HoldHalves(hs, f.main, f.historyMain, r.clean.value, r.history.value)
    ensures FullDivergences(r, f, t) == Ok([])
  {
    FullMapsFindAll(hs, f, m, t);
    BuiltDoNotDiverge(f.main, hs, es, CleanMap(hs, f, m, t), HistoryMap(hs, f, t), t, extra);
    FullDivergencesOfHalves(hs, r, f, m, t);
  }

  /** Main and history of main have nothing to do with these sources yet. */
  predicate Unrelated(f: Fixed, srcs: seq<Commit>) {
    && NoneSplitFrom(Line(f.main), srcs) && NoneSplitFrom(Line(f.historyMain), srcs) && Unnamed(Line(f.main))
  }

  lemma SortedPermutes(hs: seq<Half>, t: Tools)
    requires Buildable(SortedEntries(hs, t))
    ensures Permutes(SortedEntries(hs, t), hs, t)
  {
    SortedIsPermutation(hs, t);
    forall i | 0 <= i < |SortedEntries(hs, t)| ensures SortedEntries(hs, t)[i] in EntriesOf(hs, t) {
      assert SortedEntries(hs, t)[i] in multiset(SortedEntries(hs, t));
    }
  }

  /** The halves of originals go by their sources. */
  lemma OriginalHalves(main: Commit, hist: Commit, srcs: seq<Commit>, resolves: Commit -> bool, t: Tools)
    requires Fresh(srcs, resolves)
    ensures var hs := HalvesFrom(main, hist, srcs, t); KeysOfHalves(hs) == srcs && MarkedByKey(hs)
  {
    var hs := HalvesFrom(main, hist, srcs, t);
    forall i | 0 <= i < |hs| ensures hs[i].key == srcs[i] && hs[i].mark == srcs[i] {
      assert Unstamped(srcs[i].msg.trailers);
    }
  }

  lemma OnMain(hs: seq<Half>, srcs: seq<Commit>, f: Fixed, t: Tools) returns (m: map<Commit, Commit>)
    requires WellSplit(hs, f.main, srcs, f.resolves, t) && KeysOfHalves(hs) == srcs
    requires Unrelated(f, srcs) && OldHistoryConsistent(f, t)
    ensures OnCleanGround(hs, f, m, t) && NamesMainOnly(m, f.main)
  {
    m := SourceByClean(ReadInfos(Line(f.historyMain), t), f.resolves).value;
  }

  /** The refs a trip leaves are left alone by another run. */
  lemma RerunOnHalves(
      hs: seq<Half>, r: ReconRefs, es: seq<OrderEntry>, srcs: seq<Commit>, again: bool, force: bool, f: Fixed,
      t: Tools, extra: ExtraText)
    requires WellSplit(hs, f.main, srcs, f.resolves, t) && KeysOfHalves(hs) == srcs && MarkedByKey(hs)
    requires Unrelated(f, srcs) && OldHistoryConsistent(f, t) && Permutes(es, hs, t)
    requires r.clean.Some? && r.history.Some? && r.unclean == Some(BuildAll(f.main, es, t, extra))
    requires HoldHalves(hs, f.main, f.historyMain, r.clean.value, r.history.value)
    requires CaughtUp(r) && TipsResolve(r, f)
    ensures Reconstruct(r, again, force, f, t, extra) == (r, None)
  {
    var m := OnMain(hs, srcs, f, t);
    TripDoesNotDiverge(hs, r, es, m, f, t, extra);
    CaughtUpRun(r, again, force, f, t, extra);
  }

  function AfterTrip(clean: Commit, history: Commit, unclean: Commit): ReconRefs {
    ReconRefs(Some(clean), Some(history), Some(unclean), Some(clean), Some(history))
  }

  /**
   Idempotence after a round trip of originals: whatever order they came back
   in, rebuilding once more, even with rewriting allowed, changes nothing.
   */
  lemma RerunAfterTrip(
      unclean: Commit, fakeMerges: bool, allowRewrite: bool, force: bool, again: bool, forceAgain: bool,
      f: Fixed, t: Tools, extra: ExtraText)
    requires FirstSplit(unclean, fakeMerges, f, t)
    requires var srcs := CleanSources(NOT_STARTED, unclean, f); Fresh(srcs, f.resolves) && Unrelated(f, srcs)
    requires var r := Sync(NOT_STARTED, unclean, fakeMerges, f, t).0;
      TipsResolve(ReconRefs(r.clean, r.history, None, None, None), f)
    ensures var r := Sync(NOT_STARTED, unclean, fakeMerges, f, t).0;
      var r' := Reconstruct(ReconRefs(r.clean, r.history, None, None, None), allowRewrite, force, f, t, extra).0;
      Reconstruct(r', again, forceAgain, f, t, extra) == (r', None)
  {
    var r := Sync(NOT_STARTED, unclean, fakeMerges, f, t).0;
    TripIs(unclean, fakeMerges, allowRewrite, force, f, t, extra);
    var hs, srcs := TripHalves(unclean, f, t), CleanSources(NOT_STARTED, unclean, f);
    OriginalHalves(f.main, f.historyMain, srcs, f.resolves, t);
    SortedPermutes(hs, t);
    RerunOnHalves(hs, AfterTrip(r.clean.value, r.history.value, BuildAll(f.main, SortedEntries(hs, t), t, extra)),
                  SortedEntries(hs, t), srcs, again, forceAgain, f, t, extra);
  }
}
