/**
 Rebuilding matched halves: which order they come out in, and that each rebuilt
 commit has its source's tree, text and author.
 */
module Rebuild {
  import opened Options
  import opened GitTree
  import opened Commits
  import opened SyncSplits
  import opened SyncUnclean
  import opened BucketOrder
  import opened Halves

  // --------------------------------------------------------------- entries

  predicate SameText(a: Message, b: Message) {
    a.subject == b.subject && a.body == b.body && a.author == b.author && a.date == b.date
  }

  /** What a rebuilt commit's trailer will name: the first one a history-only message has, else the key. */
  predicate Marks(h: Half) {
    if h.made.Some? || ReadReconstructed(h.hist.msg.trailers).None? then h.mark == h.key
    else ReadReconstructed(h.hist.msg.trailers) == Some(h.mark)
  }

  /** Text, author and date are the source's; the clean half carries no trailer of either direction. */
  predicate Texts(h: Half) {
    && SameText(h.hist.msg, h.src.msg)
    && Marks(h)
    && (h.made.Some? ==> SameText(h.made.value.msg, h.src.msg) && Unstamped(h.made.value.msg.trailers))
  }

  predicate AllTexts(hs: seq<Half>) {
    forall i :: 0 <= i < |hs| ==> Texts(hs[i])
  }

  function EntryOf(h: Half, t: Tools): OrderEntry {
    OrderEntry(Matched(h.key), BucketOf(h, t), -1, h.src.msg.date, h.made.Some?)
  }

  function EntriesOf(hs: seq<Half>, t: Tools): (es: seq<OrderEntry>)
    ensures |es| == |hs|
    ensures forall i :: 0 <= i < |hs| ==> es[i] == EntryOf(hs[i], t)
  {
    if hs == [] then [] else EntriesOf(hs[..|hs| - 1], t) + [EntryOf(hs[|hs| - 1], t)]
  }

  lemma {:induction false} NoPreceding(infos: seq<CommitInfo>, idx: nat, resolves: Commit -> bool)
    requires idx <= |infos|
    ensures PrecedingMatched(infos, idx, [], resolves) == -1
  {
    if idx > 0 { NoPreceding(infos, idx - 1, resolves); }
  }

  lemma EntryForHalf(h: Half, cs: seq<CommitInfo>, ds: seq<CommitInfo>, resolves: Commit -> bool, t: Tools)
    requires Texts(h)
    ensures EntryFor(Matched(h.key), BucketOf(h, t), cs, ds, [], resolves) == EntryOf(h, t)
  {
    var sha := if h.made.Some? then h.made.value else h.hist;
    var side := if h.made.Some? then cs else ds;
    NoPreceding(side, PositionOf(side, sha), resolves);
  }

  ghost predicate Ready(at: map<Key, Bucket>, hs: seq<Half>, t: Tools) {
    forall i :: 0 <= i < |hs| ==>
      Texts(hs[i]) && Matched(hs[i].key) in at && at[Matched(hs[i].key)] == BucketOf(hs[i], t)
  }

  lemma EntriesForSnoc(
      keys: seq<Key>, k: Key, at: map<Key, Bucket>, cs: seq<CommitInfo>, ds: seq<CommitInfo>, resolves: Commit -> bool)
    requires Filled(at, keys) && k in at && (at[k].clean.Some? || at[k].history.Some?)
    ensures Filled(at, keys + [k])
    ensures EntriesFor(keys + [k], at, cs, ds, [], resolves)
         == EntriesFor(keys, at, cs, ds, [], resolves) + [EntryFor(k, at[k], cs, ds, [], resolves)]
  {
    assert (keys + [k])[..|keys|] == keys;
  }

  function Kept(hs: seq<Half>, hasClean: bool, t: Tools): seq<OrderEntry> {
    if hasClean then Placed(EntriesOf(hs, t), 0) else HistoryOnly(EntriesOf(hs, t))
  }

  lemma KeptSnoc(hs: seq<Half>, h: Half, hasClean: bool, t: Tools)
    ensures Kept(hs + [h], hasClean, t) == if h.made.Some? == hasClean then Kept(hs, hasClean, t) + [EntryOf(h, t)]
          else Kept(hs, hasClean, t)
  {
    var es := EntriesOf(hs, t);
    assert EntriesOf(hs + [h], t) == es + [EntryOf(h, t)];
    assert (es + [EntryOf(h, t)])[..|es|] == es;
  }

  lemma {:induction false} EntriesForKeys(
      hs: seq<Half>, hasClean: bool, at: map<Key, Bucket>, cs: seq<CommitInfo>, ds: seq<CommitInfo>,
      resolves: Commit -> bool, t: Tools)
    requires Ready(at, hs, t)
    ensures Filled(at, KeysWith(hs, hasClean))
    ensures EntriesFor(KeysWith(hs, hasClean), at, cs, ds, [], resolves) == Kept(hs, hasClean, t)
  {
    if hs != [] {
      var h, init := hs[|hs| - 1], hs[..|hs| - 1];
      assert Ready(at, init, t);
      EntriesForKeys(init, hasClean, at, cs, ds, resolves, t);
      assert hs == init + [h];
      KeptSnoc(init, h, hasClean, t);
      if h.made.Some? == hasClean {
        EntriesForSnoc(KeysWith(init, hasClean), Matched(h.key), at, cs, ds, resolves);
        EntryForHalf(h, cs, ds, resolves, t);
      }
    }
  }

  lemma EntriesForConcat(
      a: seq<Key>, b: seq<Key>, at: map<Key, Bucket>, cs: seq<CommitInfo>, ds: seq<CommitInfo>,
      resolves: Commit -> bool)
    requires Filled(at, a) && Filled(at, b)
    ensures Filled(at, a + b)
    ensures EntriesFor(a + b, at, cs, ds, [], resolves) == EntriesFor(a, at, cs, ds, [], resolves)
          + EntriesFor(b, at, cs, ds, [], resolves)
  {
  }

  // ----------------------------------------------------------------- trees

  /** Each half carries its side of the source's change and nothing of the other side. */
  ghost predicate Mirrors(h: Half, ai: Path -> bool) {
    && (h.made.None? ==> Agree(CleanSide, ai, ParentTree(h.src), h.src.tree))
    && (h.made.Some? ==>
          && Agree(CleanSide, ai, ParentTree(h.made.value), ParentTree(h.src))
          && Agree(CleanSide, ai, h.made.value.tree, h.src.tree)
          && Agree(HistorySide, ai, ParentTree(h.made.value), h.made.value.tree)
          && ParentTree(h.made.value) != h.made.value.tree)
    && Agree(HistorySide, ai, ParentTree(h.hist), ParentTree(h.src))
    && Agree(HistorySide, ai, h.hist.tree, h.src.tree)
    && Agree(CleanSide, ai, ParentTree(h.hist), h.hist.tree)
    && (forall p :: !KindFlip(ParentTree(h.src), h.src.tree, p))
  }

  lemma OverlayAt(tree: Tree, c: Commit, t: Tools, p: Path)
    requires Sound(t)
    ensures SameAt(Overlay(tree, ReadInfo(c, t), t),
                   if !SameAt(ParentTree(c), c.tree, p) && !KindFlip(ParentTree(c), c.tree, p) then c.tree else tree, p)
  {
    var changes := t.diff(ParentTree(c), c.tree);
    assert IsDiff(ParentTree(c), c.tree, changes);
    BuiltTree(tree, ParentTree(c), c.tree, changes, BothSides, t.ai);
  }

  /** Laying both halves over the parent's tree gives back the source's tree. */
  lemma BucketRebuilds(h: Half, t: Tools)
    requires Sound(t) && Mirrors(h, t.ai)
    ensures BucketTree(ParentTree(h.src), BucketOf(h, t), t) == h.src.tree
  {
    var base := ParentTree(h.src);
    var mid := if h.made.Some? then Overlay(base, ReadInfo(h.made.value, t), t) else base;
    forall p ensures SameAt(mid, if t.ai(p) then base else h.src.tree, p) {
      assert Keeps(if t.ai(p) then HistorySide else CleanSide, t.ai, p);
      assert !KindFlip(base, h.src.tree, p);
      if h.made.Some? { OverlayAt(base, h.made.value, t, p); }
    }
    var r := Overlay(mid, ReadInfo(h.hist, t), t);
    forall p ensures SameAt(r, h.src.tree, p) {
      assert Keeps(if t.ai(p) then HistorySide else CleanSide, t.ai, p);
      assert !KindFlip(base, h.src.tree, p);
      OverlayAt(mid, h.hist, t, p);
    }
    SameEverywhere(r, h.src.tree);
  }

  /** A clean commit was made exactly for the sources that change a code path. */
  predicate ChangesCode(c: Commit, ai: Path -> bool) {
    exists p :: p in DiffPaths(ParentTree(c), c.tree) && !ai(p)
  }

  lemma MadeIffChangesCode(h: Half, ai: Path -> bool)
    requires Mirrors(h, ai)
    ensures h.made.Some? <==> ChangesCode(h.src, ai)
  {
    if h.made.Some? {
      var a, b := ParentTree(h.made.value), h.made.value.tree;
      if forall p :: SameAt(a, b, p) { SameEverywhere(a, b); }
      var p :| !SameAt(a, b, p);
      assert !Keeps(HistorySide, ai, p) && Keeps(CleanSide, ai, p);
      assert p in DiffPaths(ParentTree(h.src), h.src.tree);
    } else {
      forall p | p in DiffPaths(ParentTree(h.src), h.src.tree) ensures ai(p) {
        assert Keeps(CleanSide, ai, p) ==> SameAt(ParentTree(h.src), h.src.tree, p);
      }
    }
  }

  // ------------------------------------------------------- the rebuilt line

  /**
   The line from `base` to `tip` holds one commit a source, in order: its tree,
   its text, author and date, and a trailer with its mark.
   */
  predicate RestoredLine(tip: Commit, base: Commit, srcs: seq<Commit>, marks: seq<Commit>)
    requires |srcs| == |marks|
  {
    if srcs == [] then tip == base else
      var n := |srcs| - 1;
      && tip.Child? && tip.others == []
      && tip.tree == srcs[n].tree
      && SameText(tip.msg, srcs[n].msg)
      && ReadReconstructed(tip.msg.trailers) == Some(marks[n])
      && RestoredLine(tip.first, base, srcs[..n], marks[..n])
  }

  function SourcesOf(hs: seq<Half>): (r: seq<Commit>)
    ensures |r| == |hs| && forall i :: 0 <= i < |hs| ==> r[i] == hs[i].src
  {
    if hs == [] then [] else SourcesOf(hs[..|hs| - 1]) + [hs[|hs| - 1].src]
  }

  function MarksOf(hs: seq<Half>): (r: seq<Commit>)
    ensures |r| == |hs| && forall i :: 0 <= i < |hs| ==> r[i] == hs[i].mark
  {
    if hs == [] then [] else MarksOf(hs[..|hs| - 1]) + [hs[|hs| - 1].mark]
  }

  predicate Restorable(h: Half, t: Tools) {
    Texts(h) && BucketTree(ParentTree(h.src), BucketOf(h, t), t) == h.src.tree
  }

  /** Each source continues the one before it, and `base` before the first. */
  predicate Chained(base: Tree, hs: seq<Half>, t: Tools) {
    hs == [] ||
      var n := |hs| - 1;
      && Chained(base, hs[..n], t)
      && Restorable(hs[n], t)
      && ParentTree(hs[n].src) == if n == 0 then base else hs[n - 1].src.tree
  }

  lemma MessageRestored(h: Half, t: Tools, extra: ExtraText)
    requires Texts(h)
    ensures var m := BucketMessage(Matched(h.key), BucketOf(h, t), extra);
            SameText(m, h.src.msg) && ReadReconstructed(m.trailers) == Some(h.mark)
  {
    var m := if h.made.Some? then h.made.value.msg else h.hist.msg;
    ReadWritten(m.trailers, [ReconstructedFrom(h.key)]);
    assert [ReconstructedFrom(h.key)][0] == ReconstructedFrom(h.key);
  }

  lemma BuildAllSnoc(prev: Commit, es: seq<OrderEntry>, e: OrderEntry, t: Tools, extra: ExtraText)
    requires Buildable(es) && (e.bucket.clean.Some? || e.bucket.history.Some?)
    ensures Buildable(es + [e])
    ensures BuildAll(prev, es + [e], t, extra) == MergedCommit(BuildAll(prev, es, t, extra), e.key, e.bucket, t, extra)
  {
    assert (es + [e])[..|es|] == es;
  }

  /** One more restored commit on top of a restored line. */
  lemma RestoredStep(
      tip: Commit, base: Commit, srcs: seq<Commit>, marks: seq<Commit>, h: Half, t: Tools, extra: ExtraText)
    requires |srcs| == |marks| && RestoredLine(tip, base, srcs, marks)
    requires Restorable(h, t) && tip.tree == ParentTree(h.src)
    ensures RestoredLine(MergedCommit(tip, Matched(h.key), BucketOf(h, t), t, extra), base,
                         srcs + [h.src], marks + [h.mark])
  {
    assert (srcs + [h.src])[..|srcs|] == srcs && (marks + [h.mark])[..|marks|] == marks;
    MessageRestored(h, t, extra);
  }

  lemma RestoredTree(tip: Commit, base: Commit, srcs: seq<Commit>, marks: seq<Commit>)
    requires |srcs| == |marks| && RestoredLine(tip, base, srcs, marks)
    ensures tip.tree == if srcs == [] then base.tree else srcs[|srcs| - 1].tree
  {
  }

  lemma {:induction false} InOrderRestores(prev: Commit, hs: seq<Half>, t: Tools, extra: ExtraText)
    requires Chained(prev.tree, hs, t)
    ensures Buildable(EntriesOf(hs, t))
    ensures RestoredLine(BuildAll(prev, EntriesOf(hs, t), t, extra), prev, SourcesOf(hs), MarksOf(hs))
  {
    if hs != [] {
      var n := |hs| - 1;
      var init := hs[..n];
      InOrderRestores(prev, init, t, extra);
      var tip := BuildAll(prev, EntriesOf(init, t), t, extra);
      BuildAllSnoc(prev, EntriesOf(init, t), EntryOf(hs[n], t), t, extra);
      RestoredTree(tip, prev, SourcesOf(init), MarksOf(init));
      RestoredStep(tip, prev, SourcesOf(init), MarksOf(init), hs[n], t, extra);
    }
  }

  predicate HasSide(e: OrderEntry) {
    e.bucket.clean.Some? || e.bucket.history.Some?
  }

  /** What the trailer of the commit built from an entry names. */
  function EntryMark(e: OrderEntry, extra: ExtraText): Option<Commit>
    requires HasSide(e)
  {
    ReadReconstructed(BucketMessage(e.key, e.bucket, extra).trailers)
  }

  /** A restored line was built from entries with the marks in order. */
  lemma {:induction false} RestoredNamesMarks(
      prev: Commit, es: seq<OrderEntry>, srcs: seq<Commit>, marks: seq<Commit>, t: Tools, extra: ExtraText)
    requires |es| == |srcs| == |marks| && Buildable(es)
    requires RestoredLine(BuildAll(prev, es, t, extra), prev, srcs, marks)
    ensures forall i :: 0 <= i < |es| ==> HasSide(es[i]) && EntryMark(es[i], extra) == Some(marks[i])
  {
    if es != [] {
      var n := |es| - 1;
      assert HasSide(es[n]);
      assert Buildable(es[..n]);
      RestoredNamesMarks(prev, es[..n], srcs[..n], marks[..n], t, extra);
    }
  }

  lemma EntryIsSome(hs: seq<Half>, e: OrderEntry, t: Tools) returns (i: nat)
    requires e in EntriesOf(hs, t)
    ensures i < |hs| && e == EntryOf(hs[i], t)
  {
    var k :| 0 <= k < |hs| && e == EntriesOf(hs, t)[k];
    i := k;
  }

  /** No two rebuilt commits will name the same. */
  predicate DistinctMarks(hs: seq<Half>) {
    forall i, j :: 0 <= i < j < |hs| ==> hs[i].mark != hs[j].mark
  }

  lemma MarkDecidesEntry(hs: seq<Half>, e: OrderEntry, i: nat, t: Tools, extra: ExtraText)
    requires AllTexts(hs) && DistinctMarks(hs) && i < |hs|
    requires e in EntriesOf(hs, t) && HasSide(e) && EntryMark(e, extra) == Some(hs[i].mark)
    ensures e == EntryOf(hs[i], t)
  {
    var j := EntryIsSome(hs, e, t);
    MessageRestored(hs[j], t, extra);
    assert hs[j].mark == hs[i].mark;
  }

  /** Any permutation of the entries restores the line only if it is the sources' own order. */
  lemma RestoredMeansInOrder(prev: Commit, hs: seq<Half>, es: seq<OrderEntry>, t: Tools, extra: ExtraText)
    requires AllTexts(hs) && DistinctMarks(hs)
    requires multiset(es) == multiset(EntriesOf(hs, t)) && Buildable(es)
    requires |es| == |hs| && RestoredLine(BuildAll(prev, es, t, extra), prev, SourcesOf(hs), MarksOf(hs))
    ensures es == EntriesOf(hs, t)
  {
    var all := EntriesOf(hs, t);
    RestoredNamesMarks(prev, es, SourcesOf(hs), MarksOf(hs), t, extra);
    forall i | 0 <= i < |es| ensures es[i] == all[i] {
      assert es[i] in multiset(es);
      MarkDecidesEntry(hs, es[i], i, t, extra);
    }
  }

  // --------------------------------------------------------- built commits

  lemma AppendedCommit(a: seq<Commit>, b: seq<Commit>, c: Commit)
    ensures a + (b + [c]) == a + b + [c]
  {
  }

  /** The commits a run builds for its entries, oldest first. */
  function BuiltList(base: Commit, es: seq<OrderEntry>, t: Tools, extra: ExtraText): (r: seq<Commit>)
    requires Buildable(es)
    ensures |r| == |es|
  {
    if es == [] then [] else BuiltList(base, es[..|es| - 1], t, extra) + [BuildAll(base, es, t, extra)]
  }

  lemma {:induction false} BuiltLine(base: Commit, es: seq<OrderEntry>, t: Tools, extra: ExtraText)
    requires Buildable(es)
    ensures Line(BuildAll(base, es, t, extra)) == Line(base) + BuiltList(base, es, t, extra)
  {
    if es == [] {
      assert Line(base) + [] == Line(base);
    } else {
      var init := es[..|es| - 1];
      BuiltLine(base, init, t, extra);
      AppendedCommit(Line(base), BuiltList(base, init, t, extra), BuildAll(base, es, t, extra));
    }
  }

  lemma BuiltLast(base: Commit, es: seq<OrderEntry>, t: Tools, extra: ExtraText)
    requires Buildable(es) && es != []
    ensures var n := |es| - 1;
      && HasSide(es[n]) && Buildable(es[..n])
      && BuiltList(base, es, t, extra) == BuiltList(base, es[..n], t, extra) + [BuildAll(base, es, t, extra)]
      && BuildAll(base, es, t, extra)
         == MergedCommit(BuildAll(base, es[..n], t, extra), es[n].key, es[n].bucket, t, extra)
  {
  }

  /** What is built from entry i, on what the entries before it built. */
  predicate BuiltHere(base: Commit, es: seq<OrderEntry>, i: nat, c: Commit, t: Tools, extra: ExtraText) {
    && i < |es| && HasSide(es[i]) && Buildable(es[..i])
    && c == MergedCommit(BuildAll(base, es[..i], t, extra), es[i].key, es[i].bucket, t, extra)
  }

  lemma BuiltHereLonger(base: Commit, es: seq<OrderEntry>, n: nat, i: nat, c: Commit, t: Tools, extra: ExtraText)
    requires n <= |es| && BuiltHere(base, es[..n], i, c, t, extra)
    ensures BuiltHere(base, es, i, c, t, extra)
  {
    assert es[..n][..i] == es[..i];
  }

  lemma BuiltBefore(base: Commit, es: seq<OrderEntry>, i: nat, t: Tools, extra: ExtraText)
    requires Buildable(es) && i < |es| - 1
    ensures Buildable(es[..|es| - 1])
    ensures BuiltList(base, es, t, extra)[i] == BuiltList(base, es[..|es| - 1], t, extra)[i]
  {
    BuiltLast(base, es, t, extra);
  }

  lemma {:induction false} BuiltAt(base: Commit, es: seq<OrderEntry>, i: nat, t: Tools, extra: ExtraText)
    requires Buildable(es) && i < |es|
    ensures BuiltHere(base, es, i, BuiltList(base, es, t, extra)[i], t, extra)
  {
    var n := |es| - 1;
    if i < n {
      BuiltBefore(base, es, i, t, extra);
      var c := BuiltList(base, es[..n], t, extra)[i];
      BuiltAt(base, es[..n], i, t, extra);
      BuiltHereLonger(base, es, n, i, c, t, extra);
    } else {
      BuiltLast(base, es, t, extra);
    }
  }
}
