/**
 Splitting an unclean branch and rebuilding it from the two halves.

 Every source yields one rebuilt commit.  They come back in source order, each
 with its original tree, exactly when the sources' author dates permit it: the
 rebuild sorts new buckets by date in whole seconds, and on a tie puts buckets
 with a clean side first.
 */
module RoundTrip {
  import opened Options
  import opened GitTree
  import opened Commits
  import opened Classify
  import opened SyncSplits
  import opened SplitInvariant
  import opened SyncUnclean
  import opened BucketOrder
  import opened Halves
  import opened Rebuild

  // ---------------------------------------------- the halves a split leaves

  /** The clean commit one iteration of the clean loop makes, if any. */
  function MadeBy(s: CleanState, src: Commit, t: Tools): Option<Commit> {
    if CleanStep(s, src, t).tip == s.tip then None else Some(CleanStep(s, src, t).tip)
  }

  lemma MadeByStep(s: CleanState, src: Commit, t: Tools)
    ensures var s', made := CleanStep(s, src, t), MadeBy(s, src, t);
      && (made.None? ==> s'.tip == s.tip && s'.produced == s.produced)
      && (made.Some? ==>
            && made.value == s'.tip
            && s'.tip == Child(s.tip, [], s'.tip.tree, CleanMessage(src))
            && s'.tip.tree != s.tip.tree
            && s'.produced == s.produced[src := s'.tip])
  {
    var s' := CleanStep(s, src, t);
    assert s'.tip == s.tip || s'.tip.first == s.tip;
  }

  function CleanAfter(main: Commit, srcs: seq<Commit>, t: Tools): CleanState {
    CleanRun(CleanStart(main), srcs, t)
  }

  /** The key a commit's halves are found under: the source it names itself if it carries such a trailer. */
  function KeyOf(c: Commit): Commit {
    if ReadSource(c.msg.trailers).Some? then ReadSource(c.msg.trailers).value else c
  }

  /** What the commit rebuilt for a source names: its key, unless an AI-only source names an older one itself. */
  function MarkIf(c: Commit, coded: bool): Commit {
    if coded || ReadReconstructed(c.msg.trailers).None? then KeyOf(c) else ReadReconstructed(c.msg.trailers).value
  }

  function MarkOf(c: Commit, ai: Path -> bool): Commit {
    MarkIf(c, ChangesCode(c, ai))
  }

  function MarksFor(srcs: seq<Commit>, ai: Path -> bool): (r: seq<Commit>)
    ensures |r| == |srcs| && forall i :: 0 <= i < |srcs| ==> r[i] == MarkOf(srcs[i], ai)
  {
    if srcs == [] then [] else MarksFor(srcs[..|srcs| - 1], ai) + [MarkOf(srcs[|srcs| - 1], ai)]
  }

  function HalfOf(main: Commit, hist: Commit, srcs: seq<Commit>, produced: map<Commit, Commit>, t: Tools): Half
    requires srcs != []
  {
    var n := |srcs| - 1;
    var made := MadeBy(CleanAfter(main, srcs[..n], t), srcs[n], t);
    Half(srcs[n], KeyOf(srcs[n]), MarkIf(srcs[n], made.Some?), made, HistoryRun(hist, srcs, produced, t))
  }

  function SplitHalves(
      main: Commit, hist: Commit, srcs: seq<Commit>, produced: map<Commit, Commit>, t: Tools): (hs: seq<Half>)
    ensures |hs| == |srcs|
    ensures forall i :: 0 <= i < |srcs| ==>
      hs[i].src == srcs[i] && hs[i].key == KeyOf(srcs[i]) && hs[i].mark == MarkIf(srcs[i], hs[i].made.Some?)
  {
    if srcs == [] then [] else
      SplitHalves(main, hist, srcs[..|srcs| - 1], produced, t) + [HalfOf(main, hist, srcs, produced, t)]
  }

  lemma HalvesOneMore(main: Commit, hist: Commit, srcs: seq<Commit>, produced: map<Commit, Commit>, t: Tools)
    requires srcs != []
    ensures var hs, init := SplitHalves(main, hist, srcs, produced, t),
          SplitHalves(main, hist, srcs[..|srcs| - 1], produced, t);
      hs == init + [HalfOf(main, hist, srcs, produced, t)] && hs[..|srcs| - 1] == init
  {
  }

  // ---------------------------------------------------------------- ranges

  lemma BiggerIsNotContained(x: Commit, tip: Commit)
    requires Size(tip) > Size(x)
    ensures !IsAncestor(tip, x)
  {
    if IsAncestor(tip, x) { AncestorIsSmaller(tip, x); }
  }

  lemma SelfRange(x: Commit)
    ensures Range(x, x) == []
  {
  }

  /** What one more made commit does to the range above main. */
  lemma RangeGrows(main: Commit, tip: Commit, made: Commit)
    requires made == Child(tip, [], made.tree, made.msg) && (tip == main || Size(tip) > Size(main))
    ensures Range(main, made) == Range(main, tip) + [made]
    ensures Size(made) > Size(tip) && Size(made) > Size(main)
  {
    BiggerIsNotContained(main, made);
  }

  predicate SizesWithin(main: Commit, hs: seq<Half>, tip: Commit) {
    forall i :: 0 <= i < |hs| && hs[i].made.Some? ==> Size(main) < Size(hs[i].made.value) <= Size(tip)
  }

  /** What holds of the clean tip after some halves. */
  predicate CleanLine(main: Commit, hs: seq<Half>, tip: Commit) {
    && Range(main, tip) == MadeCommits(hs)
    && (tip == main || Size(tip) > Size(main))
    && SizesWithin(main, hs, tip)
  }

  lemma CleanLineStep(main: Commit, init: seq<Half>, tip: Commit, h: Half, tip': Commit)
    requires CleanLine(main, init, tip)
    requires h.made.None? ==> tip' == tip
    requires h.made.Some? ==> h.made.value == tip' && tip' == Child(tip, [], tip'.tree, tip'.msg)
    ensures CleanLine(main, init + [h], tip')
  {
    assert (init + [h])[..|init|] == init;
    if h.made.Some? { RangeGrows(main, tip, tip'); }
    SizesOneMore(main, init, tip, h, tip');
  }

  lemma SizesOneMore(main: Commit, init: seq<Half>, tip: Commit, h: Half, tip': Commit)
    requires SizesWithin(main, init, tip) && Size(tip) <= Size(tip')
    requires h.made.Some? ==> Size(main) < Size(h.made.value) <= Size(tip')
    ensures SizesWithin(main, init + [h], tip')
  {
    var hs := init + [h];
    forall i | 0 <= i < |hs| && hs[i].made.Some? ensures Size(main) < Size(hs[i].made.value) <= Size(tip') {
      if i < |init| { assert hs[i] == init[i]; }
    }
  }

  /** The clean branch's new commits are the made ones, and each is bigger than all before. */
  lemma {:induction false} CleanRange(
      main: Commit, hist: Commit, srcs: seq<Commit>, produced: map<Commit, Commit>, t: Tools)
    ensures CleanLine(main, SplitHalves(main, hist, srcs, produced, t), CleanAfter(main, srcs, t).tip)
  {
    if srcs == [] {
      SelfRange(main);
    } else {
      var n := |srcs| - 1;
      CleanRange(main, hist, srcs[..n], produced, t);
      HalvesOneMore(main, hist, srcs, produced, t);
      var s := CleanAfter(main, srcs[..n], t);
      MadeByStep(s, srcs[n], t);
      CleanLineStep(main, SplitHalves(main, hist, srcs[..n], produced, t), s.tip,
                    HalfOf(main, hist, srcs, produced, t), CleanStep(s, srcs[n], t).tip);
    }
  }

  /** What holds of the history tip after some halves. */
  predicate HistoryLine(hist: Commit, hs: seq<Half>, tip: Commit) {
    && Range(hist, tip) == HistoryCommits(hs)
    && Line(tip) == Line(hist) + HistoryCommits(hs)
    && Size(tip) >= Size(hist)
  }

  lemma HistoryLineStep(hist: Commit, init: seq<Half>, tip: Commit, h: Half)
    requires HistoryLine(hist, init, tip) && h.hist == Child(tip, [], h.hist.tree, h.hist.msg)
    ensures HistoryLine(hist, init + [h], h.hist)
  {
    assert (init + [h])[..|init|] == init;
    BiggerIsNotContained(hist, h.hist);
    AppendedCommit(Line(hist), HistoryCommits(init), h.hist);
  }

  lemma {:induction false} HistoryRange(
      main: Commit, hist: Commit, srcs: seq<Commit>, produced: map<Commit, Commit>, t: Tools)
    ensures HistoryLine(hist, SplitHalves(main, hist, srcs, produced, t), HistoryRun(hist, srcs, produced, t))
  {
    if srcs == [] {
      SelfRange(hist);
      assert Line(hist) + [] == Line(hist);
    } else {
      var n := |srcs| - 1;
      HistoryRange(main, hist, srcs[..n], produced, t);
      HalvesOneMore(main, hist, srcs, produced, t);
      HistoryLineStep(hist, SplitHalves(main, hist, srcs[..n], produced, t), HistoryRun(hist, srcs[..n], produced, t),
                      HalfOf(main, hist, srcs, produced, t));
    }
  }

  // -------------------------------------------------------------- trailers

  /** What the history message says is what the forward direction meant to say, behind what the source said. */
  lemma HistoryMessageReads(src: Commit, made: Option<Commit>, t: Tools)
    requires ReadCleanCommit(src.msg.trailers) == None
    ensures var ts := HistoryMessage(src, made, t).trailers;
      && ReadSource(ts) == Some(KeyOf(src)) && ReadCleanCommit(ts) == made
      && ReadReconstructed(ts) == ReadReconstructed(src.msg.trailers)
  {
    var add := HistoryTrailers(src, made, t);
    assert ReadSource(add) == Some(src);
    TrailersRead(src, made, t);
    ReadWritten(src.msg.trailers, add);
  }

  lemma TrailersRead(src: Commit, made: Option<Commit>, t: Tools)
    ensures var add := HistoryTrailers(src, made, t); ReadCleanCommit(add) == made && ReadReconstructed(add) == None
  {
    var tail := if IsMerge(src) then [OriginalMergeParents(ParentsOf(src))] else [];
    assert ReadCleanCommit(tail) == None && ReadReconstructed(tail) == None by {
      if IsMerge(src) { assert tail[1..] == []; }
    }
    var rest := (if made.Some? then [CleanCommit(made.value), CounterpartTree(made.value.tree)] else []) + tail;
    var add := HistoryTrailers(src, made, t);
    assert add[1..][1..] == rest;
    assert ReadCleanCommit(add) == ReadCleanCommit(add[1..]) == ReadCleanCommit(rest);
    assert ReadReconstructed(add) == ReadReconstructed(add[1..]) == ReadReconstructed(rest);
    if made.Some? {
      assert rest[1..][1..] == tail;
      assert ReadReconstructed(rest) == ReadReconstructed(rest[1..]) == ReadReconstructed(tail);
    } else {
      assert rest == tail;
    }
  }

  /** One iteration enters at most its own source. */
  lemma LookupStep(s: CleanState, src: Commit, c: Commit, t: Tools)
    requires c == src ==> c !in s.produced
    ensures Lookup(CleanStep(s, src, t).produced, c) == if c == src then MadeBy(s, src, t) else Lookup(s.produced, c)
  {
    MadeByStep(s, src, t);
  }

  lemma MadeAt(main: Commit, hist: Commit, srcs: seq<Commit>, m: map<Commit, Commit>, i: nat, t: Tools)
    requires i < |srcs|
    ensures var n := |srcs| - 1;
      SplitHalves(main, hist, srcs, m, t)[i].made
      == if i < n then SplitHalves(main, hist, srcs[..n], m, t)[i].made
         else MadeBy(CleanAfter(main, srcs[..n], t), srcs[n], t)
  {
    HalvesOneMore(main, hist, srcs, m, t);
  }

  /** `source_to_clean_commit` answers exactly with the clean commit of each source. */
  lemma {:induction false} LookupMade(
      main: Commit, hist: Commit, srcs: seq<Commit>, m: map<Commit, Commit>, i: nat, t: Tools)
    requires (forall j, k :: 0 <= j < k < |srcs| ==> srcs[j] != srcs[k]) && i < |srcs|
    ensures Lookup(CleanAfter(main, srcs, t).produced, srcs[i]) == SplitHalves(main, hist, srcs, m, t)[i].made
  {
    var n := |srcs| - 1;
    MadeAt(main, hist, srcs, m, i, t);
    if i < n {
      LookupMade(main, hist, srcs[..n], m, i, t);
      assert srcs[i] != srcs[n];
    } else {
      OnlyItsSources(main, srcs[..n], srcs[n], t);
    }
    LookupStep(CleanAfter(main, srcs[..n], t), srcs[n], srcs[i], t);
  }

  lemma {:induction false} OnlyItsSources(main: Commit, srcs: seq<Commit>, c: Commit, t: Tools)
    requires c !in srcs
    ensures c !in CleanAfter(main, srcs, t).produced
  {
    if srcs != [] {
      var n := |srcs| - 1;
      OnlyItsSources(main, srcs[..n], c, t);
      MadeByStep(CleanAfter(main, srcs[..n], t), srcs[n], t);
      assert srcs[n] in srcs;
    }
  }

  lemma StripReads(ts: seq<Trailer>)
    ensures Unstamped(StripBase(ts))
  {
    UnstampedOthers(StripBase(ts));
  }

  /** Sources that carry no trailer of either direction. */
  predicate Fresh(srcs: seq<Commit>, resolves: Commit -> bool) {
    forall i :: 0 <= i < |srcs| ==> Unstamped(srcs[i].msg.trailers) && resolves(srcs[i])
  }

  /** A source names no clean commit, and the key it goes under is still there. */
  predicate Readable(src: Commit, resolves: Commit -> bool) {
    ReadCleanCommit(src.msg.trailers) == None && resolves(KeyOf(src))
  }

  predicate AllReadable(srcs: seq<Commit>, resolves: Commit -> bool) {
    forall i :: 0 <= i < |srcs| ==> Readable(srcs[i], resolves)
  }

  /** Sources that may carry trailers of earlier trips, but are still told apart by their keys and marks. */
  predicate Keyed(srcs: seq<Commit>, resolves: Commit -> bool, ai: Path -> bool) {
    && AllReadable(srcs, resolves)
    && (forall i, j :: 0 <= i < j < |srcs| ==> KeyOf(srcs[i]) != KeyOf(srcs[j]))
    && (forall i, j :: 0 <= i < j < |srcs| ==> MarkOf(srcs[i], ai) != MarkOf(srcs[j], ai))
  }

  /** Untouched originals are their own keys and marks. */
  lemma FreshAreKeyed(base: Tree, srcs: seq<Commit>, resolves: Commit -> bool, ai: Path -> bool)
    requires Linked(base, srcs) && Fresh(srcs, resolves)
    ensures Keyed(srcs, resolves, ai) && MarksFor(srcs, ai) == srcs
  {
    LinkedDistinct(base, srcs);
    forall i | 0 <= i < |srcs| ensures KeyOf(srcs[i]) == srcs[i] && MarkOf(srcs[i], ai) == srcs[i] {
      assert Unstamped(srcs[i].msg.trailers);
    }
  }

  ghost predicate Agreed(produced: map<Commit, Commit>, hs: seq<Half>) {
    forall i :: 0 <= i < |hs| ==> Lookup(produced, hs[i].src) == hs[i].made
  }

  /** A half left by the split carries the trailers and texts reconstruction reads. */
  lemma HalfReads(
      main: Commit, hist: Commit, srcs: seq<Commit>, produced: map<Commit, Commit>, resolves: Commit -> bool, t: Tools)
    requires srcs != [] && Readable(srcs[|srcs| - 1], resolves)
    requires var h := HalfOf(main, hist, srcs, produced, t); Lookup(produced, h.src) == h.made
    ensures var h := HalfOf(main, hist, srcs, produced, t); Stamped(h, resolves) && Texts(h)
  {
    var n := |srcs| - 1;
    var h := HalfOf(main, hist, srcs, produced, t);
    HistoryMessageReads(srcs[n], h.made, t);
    MadeByStep(CleanAfter(main, srcs[..n], t), srcs[n], t);
    StripReads(srcs[n].msg.trailers);
  }

  lemma MatchOneMore(init: seq<Half>, h: Half, resolves: Commit -> bool)
    requires Matching(init, resolves) && Stamped(h, resolves)
    requires forall i :: 0 <= i < |init| ==> init[i].key != h.key
    requires forall i :: 0 <= i < |init| ==> init[i].made != h.made || h.made.None?
    ensures Matching(init + [h], resolves)
  {
    var hs := init + [h];
    assert hs[..|init|] == init && hs[|init|] == h;
    assert forall i :: 0 <= i < |init| ==> hs[i] == init[i];
  }

  lemma TextsOneMore(init: seq<Half>, h: Half)
    requires AllTexts(init) && Texts(h)
    ensures AllTexts(init + [h])
  {
  }

  /** A clean commit made later is none of those made before: it is bigger. */
  lemma MadeIsNew(main: Commit, init: seq<Half>, tip: Commit, h: Half)
    requires CleanLine(main, init, tip)
    requires h.made.Some? ==> h.made.value == Child(tip, [], h.made.value.tree, h.made.value.msg)
    ensures forall i :: 0 <= i < |init| ==> init[i].made != h.made || h.made.None?
  {
  }

  lemma {:induction false} HalvesMatch(
    main: Commit, hist: Commit, srcs: seq<Commit>, produced: map<Commit, Commit>, resolves: Commit -> bool, t: Tools)
    requires forall j, k :: 0 <= j < k < |srcs| ==> KeyOf(srcs[j]) != KeyOf(srcs[k])
    requires AllReadable(srcs, resolves) && Agreed(produced, SplitHalves(main, hist, srcs, produced, t))
    ensures var hs := SplitHalves(main, hist, srcs, produced, t); Matching(hs, resolves) && AllTexts(hs)
  {
    if srcs != [] {
      var n := |srcs| - 1;
      var init, h := SplitHalves(main, hist, srcs[..n], produced, t), HalfOf(main, hist, srcs, produced, t);
      HalvesOneMore(main, hist, srcs, produced, t);
      AgreedSplits(produced, init, h);
      HalvesMatch(main, hist, srcs[..n], produced, resolves, t);
      HalfReads(main, hist, srcs, produced, resolves, t);
      CleanRange(main, hist, srcs[..n], produced, t);
      MadeByStep(CleanAfter(main, srcs[..n], t), srcs[n], t);
      MadeIsNew(main, init, CleanAfter(main, srcs[..n], t).tip, h);
      MatchOneMore(init, h, resolves);
      TextsOneMore(init, h);
    }
  }

  lemma AgreedSplits(produced: map<Commit, Commit>, init: seq<Half>, h: Half)
    requires Agreed(produced, init + [h])
    ensures Agreed(produced, init) && Lookup(produced, h.src) == h.made
  {
    var hs := init + [h];
    forall i | 0 <= i < |init| ensures Lookup(produced, init[i].src) == init[i].made { assert hs[i] == init[i]; }
    assert hs[|init|] == h;
  }

  // ----------------------------------------------------------------- trees

  /** Where a pass stands after a list of sources, on either side. */
  lemma PassTrees(base: Tree, start: Tree, srcs: seq<Commit>, side: Side, t: Tools)
    requires Sound(t) && Linked(base, srcs) && Steady(side, t.ai, srcs) && srcs != []
    requires Agree(side, t.ai, start, base)
    ensures var n := |srcs| - 1;
      && Agree(side, t.ai, TreeRun(start, srcs[..n], side, t), ParentTree(srcs[n]))
      && Agree(side, t.ai, TreeRun(start, srcs, side, t), srcs[n].tree)
  {
    var n := |srcs| - 1;
    LinkedPrefix(base, srcs, n);
    ReplayAgrees(start, base, srcs, 0, side, t);
    ReplayAgrees(start, base, srcs[..n], 0, side, t);
    LinkedTrees(base, srcs, n);
    assert TreeAt(base, srcs[..n], n) == TreeAt(base, srcs, n);
  }

  /** One step of a pass leaves the other side's paths alone. */
  lemma StepKeepsOther(tree: Tree, src: Commit, side: Side, other: Side, t: Tools)
    requires Sound(t) && Opposite(side, other)
    ensures Agree(other, t.ai, tree, FilteredTree(tree, src, side, t))
  {
    forall p | Keeps(other, t.ai, p) ensures SameAt(tree, FilteredTree(tree, src, side, t), p) {
      FilteredAt(tree, src, side, t, p);
    }
  }

  lemma SteadySides(ai: Path -> bool, srcs: seq<Commit>)
    requires Steady(BothSides, ai, srcs)
    ensures Steady(CleanSide, ai, srcs) && Steady(HistorySide, ai, srcs)
  {
    forall i, p | 0 <= i < |srcs| ensures !KindFlip(ParentTree(srcs[i]), srcs[i].tree, p) {
      assert Keeps(BothSides, ai, p);
    }
  }

  lemma AgreeTrans(side: Side, ai: Path -> bool, a: Tree, b: Tree, c: Tree)
    requires Agree(side, ai, a, b) && Agree(side, ai, b, c)
    ensures Agree(side, ai, a, c)
  {
    forall p | Keeps(side, ai, p) ensures SameAt(a, c, p) { assert SameAt(a, b, p) && SameAt(b, c, p); }
  }

  lemma AgreeFlip(side: Side, ai: Path -> bool, a: Tree, b: Tree)
    requires Agree(side, ai, a, b)
    ensures Agree(side, ai, b, a)
  {
    forall p | Keeps(side, ai, p) ensures SameAt(b, a, p) { assert SameAt(a, b, p); }
  }

  lemma CleanHalfMirrors(main: Commit, srcs: seq<Commit>, t: Tools)
    requires Sound(t) && Linked(main.tree, srcs) && Steady(CleanSide, t.ai, srcs) && srcs != []
    ensures var n := |srcs| - 1; var made := MadeBy(CleanAfter(main, srcs[..n], t), srcs[n], t);
      && (made.None? ==> Agree(CleanSide, t.ai, ParentTree(srcs[n]), srcs[n].tree))
      && (made.Some? ==>
            && Agree(CleanSide, t.ai, ParentTree(made.value), ParentTree(srcs[n]))
            && Agree(CleanSide, t.ai, made.value.tree, srcs[n].tree)
            && Agree(HistorySide, t.ai, ParentTree(made.value), made.value.tree)
            && ParentTree(made.value) != made.value.tree)
  {
    var n := |srcs| - 1;
    var s := CleanAfter(main, srcs[..n], t);
    CleanRunTree(CleanStart(main), srcs[..n], t);
    CleanRunTree(CleanStart(main), srcs, t);
    PassTrees(main.tree, main.tree, srcs, CleanSide, t);
    MadeByStep(s, srcs[n], t);
    StepKeepsOther(s.tip.tree, srcs[n], CleanSide, HistorySide, t);
    if MadeBy(s, srcs[n], t).None? {
      AgreeFlip(CleanSide, t.ai, s.tip.tree, ParentTree(srcs[n]));
      AgreeTrans(CleanSide, t.ai, ParentTree(srcs[n]), s.tip.tree, srcs[n].tree);
    }
  }

  lemma HistoryHalfMirrors(main: Tree, hist: Commit, srcs: seq<Commit>, produced: map<Commit, Commit>, t: Tools)
    requires Sound(t) && Linked(main, srcs) && Steady(HistorySide, t.ai, srcs) && srcs != []
    requires Agree(HistorySide, t.ai, hist.tree, main)
    ensures var n := |srcs| - 1; var h := HistoryRun(hist, srcs, produced, t);
      && Agree(HistorySide, t.ai, ParentTree(h), ParentTree(srcs[n]))
      && Agree(HistorySide, t.ai, h.tree, srcs[n].tree)
      && Agree(CleanSide, t.ai, ParentTree(h), h.tree)
  {
    var n := |srcs| - 1;
    HistoryRunTree(hist, srcs[..n], produced, t);
    HistoryRunTree(hist, srcs, produced, t);
    PassTrees(main, hist.tree, srcs, HistorySide, t);
    StepKeepsOther(HistoryRun(hist, srcs[..n], produced, t).tree, srcs[n], HistorySide, CleanSide, t);
  }

  lemma HalfMirrors(main: Commit, hist: Commit, srcs: seq<Commit>, produced: map<Commit, Commit>, t: Tools)
    requires Sound(t) && Linked(main.tree, srcs) && Steady(BothSides, t.ai, srcs) && srcs != []
    requires Agree(HistorySide, t.ai, hist.tree, main.tree)
    ensures Mirrors(HalfOf(main, hist, srcs, produced, t), t.ai)
  {
    SteadySides(t.ai, srcs);
    CleanHalfMirrors(main, srcs, t);
    HistoryHalfMirrors(main.tree, hist, srcs, produced, t);
    var last := srcs[|srcs| - 1];
    forall p ensures !KindFlip(ParentTree(last), last.tree, p) { assert Keeps(BothSides, t.ai, p); }
  }

  lemma TextsSplit(init: seq<Half>, h: Half)
    requires AllTexts(init + [h])
    ensures AllTexts(init) && Texts(h)
  {
    assert (init + [h])[|init|] == h;
    forall i | 0 <= i < |init| ensures Texts(init[i]) { assert (init + [h])[i] == init[i]; }
  }

  predicate MadeForCode(hs: seq<Half>, ai: Path -> bool) {
    forall i :: 0 <= i < |hs| ==> (hs[i].made.Some? <==> ChangesCode(hs[i].src, ai))
  }

  lemma ChainOneMore(base: Tree, init: seq<Half>, h: Half, t: Tools)
    requires Sound(t) && Chained(base, init, t) && MadeForCode(init, t.ai) && Mirrors(h, t.ai) && Texts(h)
    requires ParentTree(h.src) == if init == [] then base else init[|init| - 1].src.tree
    ensures Chained(base, init + [h], t) && MadeForCode(init + [h], t.ai)
  {
    var hs := init + [h];
    assert hs[..|init|] == init;
    BucketRebuilds(h, t);
    MadeIffChangesCode(h, t.ai);
    forall i | 0 <= i < |hs| ensures hs[i].made.Some? <==> ChangesCode(hs[i].src, t.ai) {
      if i < |init| { assert hs[i] == init[i]; }
    }
  }

  lemma {:induction false} HalvesChained(
      main: Commit, hist: Commit, srcs: seq<Commit>, produced: map<Commit, Commit>, t: Tools)
    requires Sound(t) && Linked(main.tree, srcs) && Steady(BothSides, t.ai, srcs)
    requires Agree(HistorySide, t.ai, hist.tree, main.tree) && AllTexts(SplitHalves(main, hist, srcs, produced, t))
    ensures var hs := SplitHalves(main, hist, srcs, produced, t);
            Chained(main.tree, hs, t) && MadeForCode(hs, t.ai)
  {
    if srcs != [] {
      var n := |srcs| - 1;
      LinkedPrefix(main.tree, srcs, n);
      LinkedTrees(main.tree, srcs, n);
      assert Steady(BothSides, t.ai, srcs[..n]);
      HalvesOneMore(main, hist, srcs, produced, t);
      TextsSplit(SplitHalves(main, hist, srcs[..n], produced, t), HalfOf(main, hist, srcs, produced, t));
      HalvesChained(main, hist, srcs[..n], produced, t);
      HalfMirrors(main, hist, srcs, produced, t);
      ChainOneMore(
        main.tree, SplitHalves(main, hist, srcs[..n], produced, t), HalfOf(main, hist, srcs, produced, t), t);
    }
  }

  // --------------------------------------------------------- the whole trip

  /**
   Author dates in whole seconds never step back, and on a tie no history-only
   commit precedes one that changes code.
   */
  predicate DatesKeepOrder(srcs: seq<Commit>, ai: Path -> bool) {
    forall i :: 0 < i < |srcs| ==>
      || srcs[i - 1].msg.date < srcs[i].msg.date
      || (srcs[i - 1].msg.date == srcs[i].msg.date && (ChangesCode(srcs[i - 1], ai) || !ChangesCode(srcs[i], ai)))
  }

  lemma StepwiseIffDates(hs: seq<Half>, srcs: seq<Commit>, t: Tools)
    requires |hs| == |srcs|
    requires forall i :: 0 <= i < |hs| ==> hs[i].src == srcs[i] && (hs[i].made.Some? <==> ChangesCode(srcs[i], t.ai))
    ensures Stepwise(EntriesOf(hs, t), []) <==> DatesKeepOrder(srcs, t.ai)
  {
    var es := EntriesOf(hs, t);
    forall i | 0 < i < |srcs|
      ensures NotAfter(es[i - 1], es[i], []) <==>
        || srcs[i - 1].msg.date < srcs[i].msg.date
        || (srcs[i - 1].msg.date == srcs[i].msg.date && (ChangesCode(srcs[i - 1], t.ai) || !ChangesCode(srcs[i], t.ai)))
    {
    }
  }

  /** The first rebuild's entries, as the sort orders them. */
  function SortedEntries(hs: seq<Half>, t: Tools): seq<OrderEntry> {
    SortEntries(Kept(hs, true, t) + Kept(hs, false, t), [])
  }

  /** The sort keeps the sources' order iff the dates permit. */
  lemma SortedIffDates(hs: seq<Half>, srcs: seq<Commit>, t: Tools)
    requires |hs| == |srcs|
    requires forall i :: 0 <= i < |hs| ==> hs[i].src == srcs[i] && (hs[i].made.Some? <==> ChangesCode(srcs[i], t.ai))
    ensures SortedEntries(hs, t) == EntriesOf(hs, t) <==> DatesKeepOrder(srcs, t.ai)
  {
    OrderRestored(EntriesOf(hs, t), []);
    StepwiseIffDates(hs, srcs, t);
  }

  /** The halves, rebuilt in whatever order the sort gives, restore the sources iff that is their own. */
  lemma RebuiltIffSorted(main: Commit, hs: seq<Half>, t: Tools, extra: ExtraText)
    requires Chained(main.tree, hs, t) && DistinctMarks(hs) && AllTexts(hs)
    requires Buildable(SortedEntries(hs, t))
    ensures RestoredLine(BuildAll(main, SortedEntries(hs, t), t, extra), main, SourcesOf(hs), MarksOf(hs))
       <==> SortedEntries(hs, t) == EntriesOf(hs, t)
  {
    if SortedEntries(hs, t) == EntriesOf(hs, t) {
      InOrderRestores(main, hs, t, extra);
    }
    if RestoredLine(BuildAll(main, SortedEntries(hs, t), t, extra), main, SourcesOf(hs), MarksOf(hs)) {
      SortedRestores(main, hs, t, extra);
    }
  }

  lemma RebuiltIffDates(main: Commit, hs: seq<Half>, srcs: seq<Commit>, t: Tools, extra: ExtraText)
    requires Chained(main.tree, hs, t) && DistinctMarks(hs) && |hs| == |srcs| && AllTexts(hs)
    requires forall i :: 0 <= i < |hs| ==> hs[i].src == srcs[i] && (hs[i].made.Some? <==> ChangesCode(srcs[i], t.ai))
    requires Buildable(SortedEntries(hs, t))
    ensures RestoredLine(BuildAll(main, SortedEntries(hs, t), t, extra), main, srcs, MarksOf(hs))
       <==> DatesKeepOrder(srcs, t.ai)
  {
    assert SourcesOf(hs) == srcs;
    SortedIffDates(hs, srcs, t);
    RebuiltIffSorted(main, hs, t, extra);
  }

  lemma SortedIsPermutation(hs: seq<Half>, t: Tools)
    ensures multiset(SortedEntries(hs, t)) == multiset(EntriesOf(hs, t))
    ensures |SortedEntries(hs, t)| == |hs|
  {
    SortSorts(Kept(hs, true, t) + Kept(hs, false, t), []);
    PlacedParts(EntriesOf(hs, t));
    assert |SortedEntries(hs, t)| == |multiset(SortedEntries(hs, t))| == |multiset(EntriesOf(hs, t))|;
  }

  /** A sorted list that restores the line is the sources' own. */
  lemma SortedRestores(main: Commit, hs: seq<Half>, t: Tools, extra: ExtraText)
    requires AllTexts(hs) && DistinctMarks(hs)
    requires Buildable(SortedEntries(hs, t))
    requires RestoredLine(BuildAll(main, SortedEntries(hs, t), t, extra), main, SourcesOf(hs), MarksOf(hs))
    ensures SortedEntries(hs, t) == EntriesOf(hs, t)
  {
    SortedIsPermutation(hs, t);
    RestoredMeansInOrder(main, hs, SortedEntries(hs, t), t, extra);
  }

  lemma {:induction false} PlacedParts(es: seq<OrderEntry>)
    ensures multiset(Placed(es, 0)) + multiset(HistoryOnly(es)) == multiset(es)
  {
    if es != [] {
      PlacedParts(es[..|es| - 1]);
      assert es == es[..|es| - 1] + [es[|es| - 1]];
    }
  }

  // ------------------------------------------------- one run each direction

  lemma {:induction false} NothingBuiltYet(keys: seq<Key>)
    ensures KeysToBuild(keys, map[]) == keys
  {
    if keys != [] {
      NothingBuiltYet(keys[..|keys| - 1]);
      assert keys == keys[..|keys| - 1] + [keys[|keys| - 1]];
    }
  }

  lemma {:induction false} NoOrderNoFault(infos: seq<CommitInfo>, last: int)
    ensures OrderFault(infos, [], last) == None
    decreases |infos|
  {
    if infos != [] { NoOrderNoFault(infos[1..], last); }
  }

  /** Bucketing and sorting the halves' infos with no known lineage. */
  lemma BucketsSorted(
      hs: seq<Half>, cs: seq<CommitInfo>, ds: seq<CommitInfo>, bs: Buckets, resolves: Commit -> bool, t: Tools)
    requires AllTexts(hs)
    requires bs.order == KeysWith(hs, true) + KeysWith(hs, false)
    requires forall i :: 0 <= i < |hs| ==>
          Matched(hs[i].key) in bs.at && bs.at[Matched(hs[i].key)] == BucketOf(hs[i], t)
    ensures Filled(bs.at, bs.order)
    ensures EntriesFor(bs.order, bs.at, cs, ds, [], resolves) == Kept(hs, true, t) + Kept(hs, false, t)
  {
    assert Ready(bs.at, hs, t);
    EntriesForKeys(hs, true, bs.at, cs, ds, resolves, t);
    EntriesForKeys(hs, false, bs.at, cs, ds, resolves, t);
    EntriesForConcat(KeysWith(hs, true), KeysWith(hs, false), bs.at, cs, ds, resolves);
  }

  /** Correlation restores the sources of the first rebuild's clean infos. */
  lemma FirstInfos(hs: seq<Half>, r: ReconRefs, f: Fixed, t: Tools)
    requires Matching(hs, f.resolves)
    requires r.clean.Some? && r.history.Some? && r.cleanCursor == None && r.historyCursor == None
    requires Range(f.main, r.clean.value) == MadeCommits(hs)
    requires Range(f.historyMain, r.history.value) == HistoryCommits(hs)
    ensures NewInfos(r, f, t) == Ok((RestoredInfos(hs, t), ReadInfos(HistoryCommits(hs), t)))
  {
    SourcesGathered(hs, f.resolves, t);
    var m := SourceOfClean(hs);
    forall i | 0 <= i < |hs| && hs[i].made.Some?
      ensures hs[i].made.value in m && m[hs[i].made.value] == hs[i].key
    {
      SourceOfCleanHas(hs, i, f.resolves);
    }
    SourcesRestored(hs, m, f.resolves, t);
  }

  /** The first rebuild plans one bucket a source, sorted with no known lineage. */
  lemma PlannedEntries(hs: seq<Half>, force: bool, r: ReconRefs, f: Fixed, t: Tools)
    requires Matching(hs, f.resolves) && AllTexts(hs)
    requires r.clean.Some? && r.history.Some? && r.unclean == None && r.cleanCursor == None && r.historyCursor == None
    requires Range(f.main, r.clean.value) == MadeCommits(hs)
    requires Range(f.historyMain, r.history.value) == HistoryCommits(hs)
    ensures EntriesToBuild(r, force, f, t) == Ok(SortedEntries(hs, t))
  {
    FirstInfos(hs, r, f, t);
    PairedAgain(hs, f.resolves, t);
    PlannedFrom(hs, RestoredInfos(hs, t), ReadInfos(HistoryCommits(hs), t), force, r, f, t);
  }

  /** The plan of a run whose infos and buckets are known. */
  lemma PlannedFrom(
      hs: seq<Half>, cs: seq<CommitInfo>, ds: seq<CommitInfo>, force: bool, r: ReconRefs, f: Fixed, t: Tools)
    requires AllTexts(hs) && r.unclean == None && NewInfos(r, f, t) == Ok((cs, ds)) && BucketAll(cs, ds, f.resolves).Ok?
    requires var bs := BucketAll(cs, ds, f.resolves).value;
      && bs.order == KeysWith(hs, true) + KeysWith(hs, false)
      && forall i :: 0 <= i < |hs| ==> Matched(hs[i].key) in bs.at && bs.at[Matched(hs[i].key)] == BucketOf(hs[i], t)
    ensures EntriesToBuild(r, force, f, t) == Ok(SortedEntries(hs, t))
  {
    BucketsSorted(hs, cs, ds, BucketAll(cs, ds, f.resolves).value, f.resolves, t);
    PlanWithoutLineage(cs, ds, BucketAll(cs, ds, f.resolves).value, force, r, f, t);
  }

  /** With nothing rebuilt yet, no order can be contradicted and every bucket is built. */
  lemma PlanWithoutLineage(
      cs: seq<CommitInfo>, ds: seq<CommitInfo>, bs: Buckets, force: bool, r: ReconRefs, f: Fixed, t: Tools)
    requires r.unclean == None && NewInfos(r, f, t) == Ok((cs, ds)) && BucketAll(cs, ds, f.resolves) == Ok(bs)
    requires Filled(bs.at, bs.order)
    ensures EntriesToBuild(r, force, f, t) == Ok(SortEntries(EntriesFor(bs.order, bs.at, cs, ds, [], f.resolves), []))
  {
    NoOrderNoFault(cs, -1);
    NoOrderNoFault(ds, -1);
    NothingBuiltYet(bs.order);
    assert KeysOf(LineOf(r.unclean)) == [] && KeyToSha(LineOf(r.unclean)) == map[];
  }

  /** Clean commits that older history refers to are all contained in main, and referred to once. */
  ghost predicate OldHistoryConsistent(f: Fixed, t: Tools) {
    var m := SourceByClean(ReadInfos(Line(f.historyMain), t), f.resolves);
    m.Ok? && forall c :: c in m.value ==> IsAncestor(c, f.main)
  }

  lemma GatherOneMore(line: seq<Commit>, h: Half, m: map<Commit, Commit>, resolves: Commit -> bool, t: Tools)
    requires SourceByClean(ReadInfos(line, t), resolves) == Ok(m)
    requires Stamped(h, resolves) && (h.made.Some? ==> h.made.value !in m)
    ensures SourceByClean(ReadInfos(line + [h.hist], t), resolves)
          == Ok(if h.made.Some? then m[h.made.value := h.key] else m)
  {
    ReadInfosSnoc(line, h.hist, t);
    SourceByCleanSnoc(ReadInfos(line, t), ReadInfo(h.hist, t), resolves);
    AssignFresh(m, h, resolves, t);
  }

  ghost predicate Avoids(m: map<Commit, Commit>, hs: seq<Half>) {
    forall i :: 0 <= i < |hs| && hs[i].made.Some? ==> hs[i].made.value !in m
  }

  lemma AddedLast(m: map<Commit, Commit>, m': map<Commit, Commit>, c: Commit, src: Commit)
    ensures m + m'[c := src] == (m + m')[c := src]
  {
  }

  lemma {:induction false} WholeHistoryGathered(
      before: seq<Commit>, m: map<Commit, Commit>, hs: seq<Half>, resolves: Commit -> bool, t: Tools)
    requires Matching(hs, resolves) && Avoids(m, hs)
    requires SourceByClean(ReadInfos(before, t), resolves) == Ok(m)
    ensures SourceByClean(ReadInfos(before + HistoryCommits(hs), t), resolves) == Ok(m + SourceOfClean(hs))
  {
    if hs == [] {
      assert before + [] == before;
      assert m + map[] == m;
    } else {
      var n := |hs| - 1;
      assert Avoids(m, hs[..n]);
      WholeHistoryGathered(before, m, hs[..n], resolves, t);
      OneMoreGathered(before, m, hs, resolves, t);
    }
  }

  lemma OneMoreGathered(
      before: seq<Commit>, m: map<Commit, Commit>, hs: seq<Half>, resolves: Commit -> bool, t: Tools)
    requires hs != [] && Matching(hs, resolves) && Avoids(m, hs)
    requires SourceByClean(ReadInfos(before + HistoryCommits(hs[..|hs| - 1]), t), resolves)
          == Ok(m + SourceOfClean(hs[..|hs| - 1]))
    ensures SourceByClean(ReadInfos(before + HistoryCommits(hs), t), resolves) == Ok(m + SourceOfClean(hs))
  {
    var h, init := hs[|hs| - 1], hs[..|hs| - 1];
    FreshIn(m, init, h, resolves);
    GatherOneMore(before + HistoryCommits(init), h, m + SourceOfClean(init), resolves, t);
    AppendedCommit(before, HistoryCommits(init), h.hist);
  }

  /** The next half's clean commit is in neither map, and enters their union last. */
  lemma FreshIn(m: map<Commit, Commit>, init: seq<Half>, h: Half, resolves: Commit -> bool)
    requires h.made.Some? ==> h.made.value !in m && forall i :: 0 <= i < |init| ==> init[i].made != h.made
    ensures h.made.Some? ==> h.made.value !in m + SourceOfClean(init)
    ensures h.made.Some? ==>
          m + SourceOfClean(init)[h.made.value := h.key] == (m + SourceOfClean(init))[h.made.value := h.key]
  {
    if h.made.Some? {
      SourceOfCleanLacks(init, h.made.value);
      AddedLast(m, SourceOfClean(init), h.made.value, h.src);
    }
  }

  /** The first rebuild meets no divergence, since nothing was rebuilt before. */
  lemma NoDivergences(hs: seq<Half>, r: ReconRefs, f: Fixed, t: Tools)
    requires Matching(hs, f.resolves) && OldHistoryConsistent(f, t)
    requires forall i :: 0 <= i < |hs| && hs[i].made.Some? ==> Size(hs[i].made.value) > Size(f.main)
    requires r.history.Some? && r.unclean == None
    requires Line(r.history.value) == Line(f.historyMain) + HistoryCommits(hs)
    ensures FullDivergences(r, f, t) == Ok([])
  {
    HistoryGathers(hs, r.history.value, f, t);
    NothingDiverges(r, f, t);
  }

  lemma HistoryGathers(hs: seq<Half>, history: Commit, f: Fixed, t: Tools)
    requires Matching(hs, f.resolves) && OldHistoryConsistent(f, t)
    requires forall i :: 0 <= i < |hs| && hs[i].made.Some? ==> Size(hs[i].made.value) > Size(f.main)
    requires Line(history) == Line(f.historyMain) + HistoryCommits(hs)
    ensures SourceByClean(ReadInfos(Line(history), t), f.resolves).Ok?
  {
    var m := SourceByClean(ReadInfos(Line(f.historyMain), t), f.resolves).value;
    MadeNotInOld(hs, m, f.main);
    WholeHistoryGathered(Line(f.historyMain), m, hs, f.resolves, t);
  }

  lemma MadeNotInOld(hs: seq<Half>, m: map<Commit, Commit>, main: Commit)
    requires forall i :: 0 <= i < |hs| && hs[i].made.Some? ==> Size(hs[i].made.value) > Size(main)
    requires forall c :: c in m ==> IsAncestor(c, main)
    ensures Avoids(m, hs)
  {
    forall i | 0 <= i < |hs| && hs[i].made.Some? ensures hs[i].made.value !in m {
      BiggerIsNotContained(main, hs[i].made.value);
    }
  }

  lemma NothingDiverges(r: ReconRefs, f: Fixed, t: Tools)
    requires r.unclean == None && SourceByClean(ReadInfos(LineOf(r.history), t), f.resolves).Ok?
    ensures FullDivergences(r, f, t) == Ok([])
  {
    assert KeysOf(LineOf(r.unclean)) == [];
  }

  /** A rebuild with no plan refused and nothing diverging builds every entry on main. */
  lemma FirstRebuild(
      r: ReconRefs, entries: seq<OrderEntry>, allowRewrite: bool, force: bool, f: Fixed, t: Tools, extra: ExtraText)
    requires r.clean.Some? && r.history.Some? && r.unclean == None
    requires EntriesToBuild(r, force, f, t) == Ok(entries) && FullDivergences(r, f, t) == Ok([])
    ensures Buildable(entries)
    ensures Reconstruct(r, allowRewrite, force, f, t, extra)
         == (ReconRefs(r.clean, r.history, Some(BuildAll(f.main, entries, t, extra)), r.clean, r.history), None)
  {
  }

  const NOT_STARTED := Refs(None, None, None, None)

  /** Both passes of a first run replay the same linear range from main, its sources told apart by their keys. */
  ghost predicate FirstSplit(unclean: Commit, fakeMerges: bool, f: Fixed, t: Tools) {
    var srcs := CleanSources(NOT_STARTED, unclean, f);
    && Sound(t)
    && HistorySources(NOT_STARTED, unclean, f) == srcs
    && Linked(f.main.tree, srcs)
    && Handled(srcs, fakeMerges) == |srcs|
    && Agree(HistorySide, t.ai, f.historyMain.tree, f.main.tree)
    && Steady(BothSides, t.ai, srcs)
    && Keyed(srcs, f.resolves, t.ai)
    && OldHistoryConsistent(f, t)
  }

  function ProducedBy(main: Commit, srcs: seq<Commit>, t: Tools): map<Commit, Commit> {
    CleanAfter(main, srcs, t).produced
  }

  function HalvesFrom(main: Commit, hist: Commit, srcs: seq<Commit>, t: Tools): seq<Half> {
    SplitHalves(main, hist, srcs, ProducedBy(main, srcs, t), t)
  }

  ghost predicate WellSplit(hs: seq<Half>, main: Commit, srcs: seq<Commit>, resolves: Commit -> bool, t: Tools) {
    && Matching(hs, resolves)
    && Chained(main.tree, hs, t)
    && |hs| == |srcs|
    && AllTexts(hs)
    && DistinctMarks(hs) && MarksOf(hs) == MarksFor(srcs, t.ai)
    && (forall i :: 0 <= i < |hs| ==> hs[i].src == srcs[i] && (hs[i].made.Some? <==> ChangesCode(srcs[i], t.ai)))
    && (forall i :: 0 <= i < |hs| && hs[i].made.Some? ==> Size(hs[i].made.value) > Size(main))
  }

  lemma HalvesAreWellSplit(main: Commit, hist: Commit, srcs: seq<Commit>, resolves: Commit -> bool, t: Tools)
    requires Sound(t) && Linked(main.tree, srcs) && Steady(BothSides, t.ai, srcs) && Keyed(srcs, resolves, t.ai)
    requires Agree(HistorySide, t.ai, hist.tree, main.tree)
    ensures WellSplit(HalvesFrom(main, hist, srcs, t), main, srcs, resolves, t)
  {
    var m := ProducedBy(main, srcs, t);
    var hs := HalvesFrom(main, hist, srcs, t);
    LinkedDistinct(main.tree, srcs);
    forall i | 0 <= i < |hs| ensures Lookup(m, hs[i].src) == hs[i].made { LookupMade(main, hist, srcs, m, i, t); }
    HalvesMatch(main, hist, srcs, m, resolves, t);
    HalvesChained(main, hist, srcs, m, t);
    CleanRange(main, hist, srcs, m, t);
    MarksAreDistinct(hs, srcs, t.ai);
  }

  lemma MarksAreDistinct(hs: seq<Half>, srcs: seq<Commit>, ai: Path -> bool)
    requires |hs| == |srcs| && MadeForCode(hs, ai)
    requires forall i :: 0 <= i < |hs| ==> hs[i].src == srcs[i] && hs[i].mark == MarkIf(srcs[i], hs[i].made.Some?)
    requires forall i, j :: 0 <= i < j < |srcs| ==> MarkOf(srcs[i], ai) != MarkOf(srcs[j], ai)
    ensures DistinctMarks(hs) && MarksOf(hs) == MarksFor(srcs, ai)
  {
    forall i | 0 <= i < |hs| ensures hs[i].mark == MarkOf(srcs[i], ai) {}
  }

  lemma {:induction false} MadeLine(
      main: Commit, hist: Commit, srcs: seq<Commit>, produced: map<Commit, Commit>, t: Tools)
    ensures Line(CleanAfter(main, srcs, t).tip) == Line(main) + MadeCommits(SplitHalves(main, hist, srcs, produced, t))
  {
    if srcs == [] {
      assert Line(main) + [] == Line(main);
    } else {
      var n := |srcs| - 1;
      MadeLine(main, hist, srcs[..n], produced, t);
      HalvesOneMore(main, hist, srcs, produced, t);
      MadeByStep(CleanAfter(main, srcs[..n], t), srcs[n], t);
      MadeLineStep(main, SplitHalves(main, hist, srcs[..n], produced, t), CleanAfter(main, srcs[..n], t).tip,
                   HalfOf(main, hist, srcs, produced, t), CleanAfter(main, srcs, t).tip);
    }
  }

  lemma MadeLineStep(main: Commit, init: seq<Half>, tip: Commit, h: Half, tip': Commit)
    requires Line(tip) == Line(main) + MadeCommits(init)
    requires h.made.None? ==> tip' == tip
    requires h.made.Some? ==> h.made.value == tip' && tip' == Child(tip, [], tip'.tree, tip'.msg)
    ensures Line(tip') == Line(main) + MadeCommits(init + [h])
  {
    assert (init + [h])[..|init|] == init;
    if h.made.Some? { AppendedCommit(Line(main), MadeCommits(init), tip'); }
  }

  /** Branches on top of main that hold exactly these halves. */
  predicate HoldHalves(hs: seq<Half>, main: Commit, hist: Commit, clean: Commit, history: Commit) {
    && Range(main, clean) == MadeCommits(hs)
    && Range(hist, history) == HistoryCommits(hs)
    && Line(clean) == Line(main) + MadeCommits(hs)
    && Line(history) == Line(hist) + HistoryCommits(hs)
  }

  lemma PassesLeaveHalves(main: Commit, hist: Commit, srcs: seq<Commit>, t: Tools)
    ensures HoldHalves(HalvesFrom(main, hist, srcs, t), main, hist, CleanAfter(main, srcs, t).tip,
                       HistoryRun(hist, srcs, ProducedBy(main, srcs, t), t))
  {
    var m := ProducedBy(main, srcs, t);
    MadeLine(main, hist, srcs, m, t);
    CleanRange(main, hist, srcs, m, t);
    HistoryRange(main, hist, srcs, m, t);
  }

  /** The branches a first run leaves hold exactly those halves. */
  lemma SplitLeavesHalves(unclean: Commit, fakeMerges: bool, f: Fixed, t: Tools)
    requires var srcs := CleanSources(NOT_STARTED, unclean, f);
             HistorySources(NOT_STARTED, unclean, f) == srcs && Handled(srcs, fakeMerges) == |srcs|
    ensures var r := Sync(NOT_STARTED, unclean, fakeMerges, f, t).0;
      && r.clean.Some? && r.history.Some?
      && HoldHalves(TripHalves(unclean, f, t), f.main, f.historyMain, r.clean.value, r.history.value)
  {
    var srcs := CleanSources(NOT_STARTED, unclean, f);
    FullRun(Started(NOT_STARTED, f), srcs, srcs, fakeMerges, t);
    PassesLeaveHalves(f.main, f.historyMain, srcs, t);
  }

  /** The branches of a split, the rest of the refs as before any rebuild. */
  ghost predicate SplitRefs(hs: seq<Half>, r: ReconRefs, f: Fixed) {
    && r.clean.Some? && r.history.Some? && r.unclean == None && r.cleanCursor == None && r.historyCursor == None
    && HoldHalves(hs, f.main, f.historyMain, r.clean.value, r.history.value)
  }

  /** The first rebuild from a well-made split builds all its entries, in the order of the sort. */
  lemma RebuildFromHalves(
      hs: seq<Half>, srcs: seq<Commit>, r: ReconRefs, allowRewrite: bool, force: bool, f: Fixed, t: Tools,
      extra: ExtraText)
    requires WellSplit(hs, f.main, srcs, f.resolves, t) && OldHistoryConsistent(f, t) && SplitRefs(hs, r, f)
    ensures Buildable(SortedEntries(hs, t))
    ensures Reconstruct(r, allowRewrite, force, f, t, extra)
         == (ReconRefs(r.clean, r.history, Some(BuildAll(f.main, SortedEntries(hs, t), t, extra)), r.clean, r.history),
             None)
  {
    PlannedEntries(hs, force, r, f, t);
    NoDivergences(hs, r, f, t);
    FirstRebuild(r, SortedEntries(hs, t), allowRewrite, force, f, t, extra);
  }

  /** What a first run in each direction leaves. */
  function TripHalves(unclean: Commit, f: Fixed, t: Tools): seq<Half> {
    HalvesFrom(f.main, f.historyMain, CleanSources(NOT_STARTED, unclean, f), t)
  }

  lemma TripIs(
      unclean: Commit, fakeMerges: bool, allowRewrite: bool, force: bool, f: Fixed, t: Tools, extra: ExtraText)
    requires FirstSplit(unclean, fakeMerges, f, t)
    ensures var hs := TripHalves(unclean, f, t); var r := Sync(NOT_STARTED, unclean, fakeMerges, f, t).0;
      && WellSplit(hs, f.main, CleanSources(NOT_STARTED, unclean, f), f.resolves, t)
      && SplitRefs(hs, ReconRefs(r.clean, r.history, None, None, None), f)
      && Buildable(SortedEntries(hs, t))
      && Reconstruct(ReconRefs(r.clean, r.history, None, None, None), allowRewrite, force, f, t, extra)
         == (ReconRefs(r.clean, r.history, Some(BuildAll(f.main, SortedEntries(hs, t), t, extra)), r.clean, r.history),
             None)
  {
    var srcs := CleanSources(NOT_STARTED, unclean, f);
    var r := Sync(NOT_STARTED, unclean, fakeMerges, f, t).0;
    HalvesAreWellSplit(f.main, f.historyMain, srcs, f.resolves, t);
    SplitLeavesHalves(unclean, fakeMerges, f, t);
    RebuildFromHalves(TripHalves(unclean, f, t), srcs, ReconRefs(r.clean, r.history, None, None, None),
                      allowRewrite, force, f, t, extra);
  }

  /**
   The round trip.  Splitting a branch and rebuilding it from the same start is
   never refused, and gives back one commit a source, in source order, with the
   source's tree, text, author and date, exactly when the dates keep that order.
   Each names its source's mark, which for an original is the source.
   */
  lemma RoundTrip(
      unclean: Commit, fakeMerges: bool, allowRewrite: bool, force: bool, f: Fixed, t: Tools, extra: ExtraText)
    requires FirstSplit(unclean, fakeMerges, f, t)
    ensures var srcs := CleanSources(NOT_STARTED, unclean, f);
            var r := Sync(NOT_STARTED, unclean, fakeMerges, f, t).0;
            var (r', refusal) := Reconstruct(
              ReconRefs(r.clean, r.history, None, None, None), allowRewrite, force, f, t, extra);
      && refusal == None && r'.unclean.Some?
      && (RestoredLine(r'.unclean.value, f.main, srcs, MarksFor(srcs, t.ai)) <==> DatesKeepOrder(srcs, t.ai))
  {
    TripIs(unclean, fakeMerges, allowRewrite, force, f, t, extra);
    RebuiltIffDates(f.main, TripHalves(unclean, f, t), CleanSources(NOT_STARTED, unclean, f), t, extra);
  }

  /** Two commits within one second on an empty root: a note for the AI side, then a file of code. */
  function NoteThenCode(msg: Message): seq<Commit> {
    var c1 := Child(Root(map[], msg), [], map["notes" := Entry(Regular, "")], msg);
    [c1, Child(c1, [], map["notes" := Entry(Regular, ""), "code" := Entry(Regular, "")], msg)]
  }

  function RootAlone(msg: Message): Fixed {
    Fixed(Root(map[], msg), Root(map[], msg), c => true)
  }

  lemma NoteThenCodeRange(msg: Message)
    requires Unstamped(msg.trailers)
    ensures CleanSources(NOT_STARTED, NoteThenCode(msg)[1], RootAlone(msg)) == NoteThenCode(msg)
    ensures HistorySources(NOT_STARTED, NoteThenCode(msg)[1], RootAlone(msg)) == NoteThenCode(msg)
  {
    var srcs, f, root := NoteThenCode(msg), RootAlone(msg), Root(map[], msg);
    assert Range(root, srcs[0]) == [srcs[0]];
    assert Range(root, srcs[1]) == srcs;
    NothingReconstructed(srcs, root, f);
  }

  lemma NamesNoClean(info: CommitInfo, resolves: Commit -> bool)
    requires info.cleanCommit == None
    ensures SourceByClean([info], resolves) == Ok(map[])
  {
    SourceByCleanSnoc([], info, resolves);
    assert [] + [info] == [info];
  }

  lemma RootReads(root: Commit, t: Tools)
    requires root.Root?
    ensures ReadInfos(Line(root), t) == [ReadInfo(root, t)]
  {
    assert Line(root) == [root];
    ReadInfosSnoc([], root, t);
    assert [] + [root] == [root] && [] + [ReadInfo(root, t)] == [ReadInfo(root, t)];
  }

  lemma RootHistoryConsistent(msg: Message, t: Tools)
    requires Unstamped(msg.trailers)
    ensures OldHistoryConsistent(RootAlone(msg), t)
  {
    var root := Root(map[], msg);
    RootReads(root, t);
    NamesNoClean(ReadInfo(root, t), RootAlone(msg).resolves);
  }

  lemma NoteThenCodeShape(msg: Message, fakeMerges: bool, t: Tools)
    requires Unstamped(msg.trailers)
    ensures var srcs := NoteThenCode(msg);
      && Linked(map[], srcs) && Handled(srcs, fakeMerges) == |srcs| && Steady(BothSides, t.ai, srcs)
      && Fresh(srcs, RootAlone(msg).resolves)
  {
    HandledAll(NoteThenCode(msg), fakeMerges);
  }

  lemma NoteThenCodeSplits(msg: Message, fakeMerges: bool, t: Tools)
    requires Sound(t) && Unstamped(msg.trailers)
    ensures CleanSources(NOT_STARTED, NoteThenCode(msg)[1], RootAlone(msg)) == NoteThenCode(msg)
    ensures FirstSplit(NoteThenCode(msg)[1], fakeMerges, RootAlone(msg), t)
    ensures MarksFor(NoteThenCode(msg), t.ai) == NoteThenCode(msg)
  {
    NoteThenCodeRange(msg);
    RootHistoryConsistent(msg, t);
    NoteThenCodeShape(msg, fakeMerges, t);
    FreshAreKeyed(map[], NoteThenCode(msg), RootAlone(msg).resolves, t.ai);
  }

  lemma NoteThenCodeTies(msg: Message, ai: Path -> bool)
    requires ai("notes") && !ai("code")
    ensures !DatesKeepOrder(NoteThenCode(msg), ai)
  {
    var srcs := NoteThenCode(msg);
    assert !ChangesCode(srcs[0], ai);
    assert "code" in DiffPaths(ParentTree(srcs[1]), srcs[1].tree);
    assert srcs[1 - 1] == srcs[0];
  }

  lemma NothingReconstructed(srcs: seq<Commit>, root: Commit, f: Fixed)
    requires |srcs| == 2 && root.Root? && srcs[0].Child? && srcs[0].first == root && srcs[1].Child?
          && srcs[1].first == srcs[0]
    requires forall c :: c in srcs || c == root ==> Unstamped(c.msg.trailers)
    ensures ReconstructedCursor(srcs[1], root, f.resolves) == None
  {
    assert srcs[0] in srcs && srcs[1] in srcs;
    assert ReconstructedCursor(root, root, f.resolves) == None;
    assert ReconstructedCursor(srcs[0], root, f.resolves) == None;
  }

  /**
   Dates that merely never step back are not enough.  Splitting these two commits
   and rebuilding them is not refused, but does not give back the line they made.
   */
  lemma TieReorders(msg: Message, fakeMerges: bool, allowRewrite: bool, force: bool, t: Tools, extra: ExtraText)
    requires Sound(t) && Unstamped(msg.trailers) && t.ai("notes") && !t.ai("code")
    ensures var srcs := NoteThenCode(msg); var f := RootAlone(msg);
            var r := Sync(NOT_STARTED, srcs[1], fakeMerges, f, t).0;
            var (r', refusal) := Reconstruct(
              ReconRefs(r.clean, r.history, None, None, None), allowRewrite, force, f, t, extra);
      && FirstSplit(srcs[1], fakeMerges, f, t) && CleanSources(NOT_STARTED, srcs[1], f) == srcs
      && srcs[0].msg.date == srcs[1].msg.date
      && refusal == None && r'.unclean.Some? && !RestoredLine(r'.unclean.value, f.main, srcs, srcs)
  {
    var srcs := NoteThenCode(msg);
    NoteThenCodeSplits(msg, fakeMerges, t);
    NoteThenCodeTies(msg, t.ai);
    RoundTrip(srcs[1], fakeMerges, allowRewrite, force, RootAlone(msg), t, extra);
  }
}
