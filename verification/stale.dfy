/**
 What a rewrite does to the keys above the rewritten commit: which of the
 replayed descendants diverge from their pairs afterwards.
 */
module Stale {
  import opened Options
  import opened GitTree
  import opened Commits
  import opened SyncSplits
  import opened SyncUnclean
  import opened BucketOrder
  import opened Rewrite
  import opened Rerun

  // -------------------------------------------------------- pairs, by path

  /** An info's paths are its own commit's changes. */
  predicate Own(info: CommitInfo, t: Tools) {
    info.paths == t.diff(ParentTree(info.sha), info.sha.tree)
  }

  /** Laying the info over a tree takes its content at this path. */
  predicate Sets(info: CommitInfo, p: Path) {
    !SameAt(ParentTree(info.sha), info.sha.tree, p) && !KindFlip(ParentTree(info.sha), info.sha.tree, p)
  }

  predicate PairSets(clean: CommitInfo, history: CommitInfo, p: Path) {
    Sets(clean, p) || Sets(history, p)
  }

  /** Where the pair takes the content of a path from, given what lies below. */
  function Source(below: Tree, clean: CommitInfo, history: CommitInfo, p: Path): Tree {
    if Sets(history, p) then history.sha.tree else if Sets(clean, p) then clean.sha.tree else below
  }

  lemma OverlaidAt(tree: Tree, info: CommitInfo, t: Tools, p: Path)
    requires Sound(t) && Own(info, t)
    ensures SameAt(Overlay(tree, info, t), if Sets(info, p) then info.sha.tree else tree, p)
  {
    assert IsDiff(ParentTree(info.sha), info.sha.tree, info.paths);
    BuiltTree(tree, ParentTree(info.sha), info.sha.tree, info.paths, BothSides, t.ai);
  }

  lemma ExpectedAt(c: Commit, clean: CommitInfo, history: CommitInfo, t: Tools, p: Path)
    requires Sound(t) && Own(clean, t) && Own(history, t)
    ensures SameAt(ExpectedTree(c, clean, history, t), Source(ParentTree(c), clean, history, p), p)
  {
    OverlaidAt(ParentTree(c), clean, t, p);
    OverlaidAt(Overlay(ParentTree(c), clean, t), history, t, p);
  }

  /** A commit diverges from its pair exactly at some path. */
  lemma DivergesAt(c: Commit, clean: CommitInfo, history: CommitInfo, t: Tools)
    requires Sound(t) && Own(clean, t) && Own(history, t)
    ensures Diverges(c, clean, history, t)
       <==> exists p :: !SameAt(Source(ParentTree(c), clean, history, p), c.tree, p)
  {
    var e := ExpectedTree(c, clean, history, t);
    if Diverges(c, clean, history, t) {
      if forall p :: SameAt(e, c.tree, p) { SameEverywhere(e, c.tree); }
      var p :| !SameAt(e, c.tree, p);
      ExpectedAt(c, clean, history, t, p);
    }
    if p :| !SameAt(Source(ParentTree(c), clean, history, p), c.tree, p) {
      ExpectedAt(c, clean, history, t, p);
    }
  }

  // ------------------------------------------------------ one descendant

  ghost predicate SteadyAbove(ds: seq<Commit>) {
    forall p :: SteadyAt(ds, p)
  }

  /**
   The rewrite changed a path that the pair sets and that neither this
   descendant nor any below it touches.
   */
  ghost predicate StaleAt(ds: seq<Commit>, j: nat, was: Tree, now: Tree, clean: CommitInfo, history: CommitInfo)
    requires j < |ds|
  {
    exists p :: PairSets(clean, history, p) && !TouchedIn(ds[..j + 1], p) && !SameAt(now, was, p)
  }

  /** What one path looks like in, and just below, a replayed descendant. */
  lemma ReplayedPath(prev: Commit, was: Tree, ds: seq<Commit>, j: nat, t: Tools, p: Path)
    requires Sound(t) && Linked(was, ds) && SteadyAt(ds, p) && j < |ds|
    ensures SameAt(ReplayAllOnto(prev, ds[..j], t).tree,
                   if TouchedIn(ds[..j], p) then ParentTree(ds[j]) else prev.tree, p)
    ensures SameAt(ReplayAllOnto(prev, ds[..j + 1], t).tree,
                   if TouchedIn(ds[..j + 1], p) then ds[j].tree else prev.tree, p)
    ensures !TouchedIn(ds[..j + 1], p) ==> SameAt(was, ds[j].tree, p)
  {
    assert SteadyAt(ds[..j], p) && SteadyAt(ds[..j + 1], p);
    LinkedTrees(was, ds, j);
    assert TreeAt(was, ds[..j], j) == TreeAt(was, ds, j);
    ReplayAllAt(prev, was, ds[..j], t, p);
    ReplayAllAt(prev, was, ds[..j + 1], t, p);
  }

  lemma TouchedOneMore(ds: seq<Commit>, j: nat, p: Path)
    requires j < |ds|
    ensures TouchedIn(ds[..j + 1], p) <==> TouchedIn(ds[..j], p) || !SameAt(ParentTree(ds[j]), ds[j].tree, p)
  {
    var longer, shorter := ds[..j + 1], ds[..j];
    assert longer[j] == ds[j];
    assert forall i :: 0 <= i < j ==> longer[i] == shorter[i];
  }

  /** At one path: what the replayed descendant has there against what its pair builds there. */
  lemma ReplayedAgainstPair(
      prev: Commit, was: Tree, ds: seq<Commit>, j: nat, clean: CommitInfo, history: CommitInfo, t: Tools, p: Path)
    requires Sound(t) && Linked(was, ds) && SteadyAt(ds, p) && j < |ds|
    requires SameAt(Source(ParentTree(ds[j]), clean, history, p), ds[j].tree, p)
    ensures !SameAt(Source(ReplayAllOnto(prev, ds[..j], t).tree, clean, history, p),
                    ReplayAllOnto(prev, ds[..j + 1], t).tree, p)
       <==> PairSets(clean, history, p) && !TouchedIn(ds[..j + 1], p) && !SameAt(prev.tree, was, p)
  {
    ReplayedPath(prev, was, ds, j, t, p);
    TouchedOneMore(ds, j, p);
  }

  lemma ReplayedParent(prev: Commit, ds: seq<Commit>, j: nat, t: Tools)
    requires j < |ds|
    ensures ParentTree(ReplayAllOnto(prev, ds[..j + 1], t)) == ReplayAllOnto(prev, ds[..j], t).tree
  {
    assert ds[..j + 1][..j] == ds[..j];
  }

  /** A descendant that agreed with its pair diverges once replayed exactly if it is stale. */
  lemma ReplayedDivergesIff(
      prev: Commit, was: Tree, ds: seq<Commit>, j: nat, clean: CommitInfo, history: CommitInfo, t: Tools)
    requires Sound(t) && Own(clean, t) && Own(history, t) && Linked(was, ds) && SteadyAbove(ds) && j < |ds|
    requires !Diverges(ds[j], clean, history, t)
    ensures Diverges(ReplayAllOnto(prev, ds[..j + 1], t), clean, history, t)
       <==> StaleAt(ds, j, was, prev.tree, clean, history)
  {
    var e, below := ReplayAllOnto(prev, ds[..j + 1], t), ReplayAllOnto(prev, ds[..j], t).tree;
    DivergesAt(ds[j], clean, history, t);
    DivergesAt(e, clean, history, t);
    ReplayedParent(prev, ds, j, t);
    forall p ensures !SameAt(Source(below, clean, history, p), e.tree, p)
                <==> PairSets(clean, history, p) && !TouchedIn(ds[..j + 1], p) && !SameAt(prev.tree, was, p)
    {
      ReplayedAgainstPair(prev, was, ds, j, clean, history, t, p);
    }
  }

  // ----------------------------------------------------------- the new line

  lemma {:induction false} ReplayedLineAt(prev: Commit, ds: seq<Commit>, t: Tools, j: nat)
    requires j < |ds|
    ensures ReplayedLine(prev, ds, t)[j] == ReplayAllOnto(prev, ds[..j + 1], t)
  {
    var n := |ds| - 1;
    if j < n {
      ReplayedLineAt(prev, ds[..n], t, j);
      assert ds[..n][..j + 1] == ds[..j + 1];
    } else {
      assert ds[..j + 1] == ds;
    }
  }

  /** The commits above the amended one, each with everything below it replayed. */
  lemma NewLineAbove(tip: Commit, c: Commit, tree: Tree, t: Tools, j: nat)
    requires c in Line(tip) && j < |Above(tip, c)|
    ensures var n, line := |Line(c)|, Line(RewrittenTip(tip, c, tree, t));
      n + j < |line| && line[n + j] == ReplayAllOnto(Amended(c, tree), Above(tip, c)[..j + 1], t)
  {
    ReplayedAbove(tip, c, tree, t, j);
    ReplayedLineAt(Amended(c, tree), Above(tip, c), t, j);
  }

  /**
   After a rewrite, a commit above the rewritten one that agreed with its pair
   diverges from it exactly if the rewrite changed a path that the pair sets and
   that no commit from there up to it touches.
   */
  lemma DescendantDivergesIff(
      tip: Commit, c: Commit, tree: Tree, j: nat, clean: CommitInfo, history: CommitInfo, t: Tools)
    requires Sound(t) && Own(clean, t) && Own(history, t) && c in Line(tip) && j < |Above(tip, c)|
    requires SteadyAbove(Above(tip, c)) && !Diverges(Above(tip, c)[j], clean, history, t)
    ensures var line := Line(RewrittenTip(tip, c, tree, t));
      && |Line(c)| + j < |line|
      && (Diverges(line[|Line(c)| + j], clean, history, t)
          <==> StaleAt(Above(tip, c), j, c.tree, tree, clean, history))
  {
    AboveIsLinked(tip, c);
    NewLineAbove(tip, c, tree, t, j);
    ReplayedDivergesIff(Amended(c, tree), c.tree, Above(tip, c), j, clean, history, t);
  }

  // -------------------------------------------------------- the new keys

  type Infos = map<Commit, CommitInfo>

  predicate AllOwn(infos: Infos, t: Tools) {
    forall k :: k in infos ==> Own(infos[k], t)
  }

  /** Among the commits of a line, d is all that diverges from the pairs its keys go by. */
  predicate OnlyDiverges(line: seq<Commit>, d: Divergence, clean: Infos, history: Infos, t: Tools) {
    var m := KeyToSha(line);
    && Genuine(d, m, clean, history, t)
    && forall k :: k in m && k in clean && k in history && k != d.key ==> !Diverges(m[k], clean[k], history[k], t)
  }

  predicate NoRepeats(line: seq<Commit>) {
    forall i, j :: 0 <= i < j < |line| ==> line[i] != line[j]
  }

  predicate SameMessages(line: seq<Commit>, line': seq<Commit>) {
    |line'| == |line| && forall i :: 0 <= i < |line| ==> line'[i].msg == line[i].msg
  }

  /** Position n - 1 holds another commit now, below it nothing changed, and no message did. */
  predicate Replaced(line: seq<Commit>, line': seq<Commit>, n: nat, now: Commit) {
    && SameMessages(line, line') && 0 < n <= |line|
    && line'[n - 1] == now && forall i :: 0 <= i < n - 1 ==> line'[i] == line[i]
  }

  /** A key's newest commit stands at the same place of both lines. */
  lemma NewestInBoth(line: seq<Commit>, line': seq<Commit>, k: Commit) returns (i: nat)
    requires SameMessages(line, line') && k in KeyToSha(line)
    ensures i < |line| && k in KeyToSha(line')
    ensures KeyToSha(line)[k] == line[i] && KeyToSha(line')[k] == line'[i]
  {
    i := NewestWithKey(line, k);
    NewestIs(line', k, i);
  }

  /** The newest commit of a key, j places above the rewritten one, is stale. */
  ghost predicate StaleKey(
      line: seq<Commit>, n: nat, d: Divergence, j: nat, k: Commit, clean: Infos, history: Infos)
  {
    && n + j < |line| && k in KeyToSha(line) && KeyToSha(line)[k] == line[n + j] && k in clean && k in history
    && StaleAt(line[n..], j, d.oldSha.tree, d.expected, clean[k], history[k])
  }

  lemma RewrittenSettles(d: Divergence, m: map<Commit, Commit>, clean: Infos, history: Infos, t: Tools)
    requires Genuine(d, m, clean, history, t)
    ensures !Diverges(Amended(d.oldSha, d.expected), clean[d.key], history[d.key], t)
  {
  }

  lemma OthersAgree(line: seq<Commit>, d: Divergence, k: Commit, clean: Infos, history: Infos, t: Tools)
    requires OnlyDiverges(line, d, clean, history, t) && k != d.key
    requires k in KeyToSha(line) && k in clean && k in history
    ensures !Diverges(KeyToSha(line)[k], clean[k], history[k], t) && KeyToSha(line)[k] != d.oldSha
  {
    KeysApart(line, k, d.key);
  }

  /** Only the diverged key's newest commit is the one to rewrite. */
  lemma OwnKey(line: seq<Commit>, n: nat, d: Divergence, k: Commit, clean: Infos, history: Infos, t: Tools)
    requires OnlyDiverges(line, d, clean, history, t) && k in KeyToSha(line) && k in clean && k in history
    requires 0 < n <= |line| && line[n - 1] == d.oldSha && KeyToSha(line)[k] == line[n - 1]
    ensures k == d.key
  {
    if k != d.key { OthersAgree(line, d, k, clean, history, t); }
  }

  /** A key whose newest commit lies below the rewritten one does not diverge. */
  lemma LowerKeyAgrees(
      line: seq<Commit>, n: nat, d: Divergence, i: nat, k: Commit, clean: Infos, history: Infos, t: Tools)
    requires OnlyDiverges(line, d, clean, history, t) && NoRepeats(line)
    requires k in KeyToSha(line) && k in clean && k in history && i < n - 1 < |line|
    requires KeyToSha(line)[k] == line[i] && line[n - 1] == d.oldSha
    ensures !Diverges(line[i], clean[k], history[k], t)
  {
    assert line[i] != line[n - 1];
    OthersAgree(line, d, k, clean, history, t);
  }

  lemma KeysApart(line: seq<Commit>, k: Commit, l: Commit)
    requires k in KeyToSha(line) && l in KeyToSha(line) && k != l
    ensures KeyToSha(line)[k] != KeyToSha(line)[l]
  {
    var i := NewestWithKey(line, k);
    var j := NewestWithKey(line, l);
  }

  /** A place above the rewritten one behaves as a replay of the commits there makes it. */
  ghost predicate ReplaysAt(
      ds: seq<Commit>, line': seq<Commit>, n: nat, d: Divergence, j: nat, clean: CommitInfo, history: CommitInfo,
      t: Tools)
  {
    j < |ds| && n + j < |line'| && (!Diverges(ds[j], clean, history, t) ==>
      (Diverges(line'[n + j], clean, history, t) <==> StaleAt(ds, j, d.oldSha.tree, d.expected, clean, history)))
  }

  ghost predicate ReplaysAs(
      line: seq<Commit>, line': seq<Commit>, n: nat, d: Divergence, clean: CommitInfo, history: CommitInfo, t: Tools)
  {
    n <= |line| && forall j: nat :: j < |line| - n ==> ReplaysAt(line[n..], line', n, d, j, clean, history, t)
  }

  lemma HighKeyIff(
      line: seq<Commit>, line': seq<Commit>, n: nat, d: Divergence, j: nat, k: Commit, clean: Infos, history: Infos,
      t: Tools)
    requires OnlyDiverges(line, d, clean, history, t) && NoRepeats(line)
    requires k in KeyToSha(line) && k in clean && k in history && 0 < n && n + j < |line| && line[n - 1] == d.oldSha
    requires KeyToSha(line)[k] == line[n + j] && ReplaysAs(line, line', n, d, clean[k], history[k], t)
    requires |line'| == |line|
    ensures Diverges(line'[n + j], clean[k], history[k], t)
       <==> exists i: nat :: StaleKey(line, n, d, i, k, clean, history)
  {
    assert line[n + j] != line[n - 1] && line[n..][j] == line[n + j];
    assert ReplaysAt(line[n..], line', n, d, j, clean[k], history[k], t);
    if k != d.key { OthersAgree(line, d, k, clean, history, t); }
    if StaleAt(line[n..], j, d.oldSha.tree, d.expected, clean[k], history[k]) {
      assert StaleKey(line, n, d, j, k, clean, history);
    }
  }

  /** A key diverges after the rewrite exactly if its commit is stale. */
  lemma KeyDivergesIff(
      line: seq<Commit>, line': seq<Commit>, n: nat, d: Divergence, k: Commit, clean: Infos, history: Infos, t: Tools)
    requires OnlyDiverges(line, d, clean, history, t) && NoRepeats(line)
    requires Replaced(line, line', n, Amended(d.oldSha, d.expected)) && line[n - 1] == d.oldSha
    requires k in KeyToSha(line) && k in clean && k in history && ReplaysAs(line, line', n, d, clean[k], history[k], t)
    ensures k in KeyToSha(line')
    ensures Diverges(KeyToSha(line')[k], clean[k], history[k], t)
       <==> exists j: nat :: StaleKey(line, n, d, j, k, clean, history)
  {
    var i := NewestInBoth(line, line', k);
    if i == n - 1 {
      OwnKey(line, n, d, k, clean, history, t);
      RewrittenSettles(d, KeyToSha(line), clean, history, t);
    } else if i < n {
      LowerKeyAgrees(line, n, d, i, k, clean, history, t);
    } else {
      HighKeyIff(line, line', n, d, i - n, k, clean, history, t);
    }
  }

  lemma {:induction false} FirstsListed(keys: seq<Commit>, k: Commit)
    ensures k in FirstOccurrences(keys) <==> k in keys
  {
    if keys != [] {
      var n := |keys| - 1;
      assert keys == keys[..n] + [keys[n]];
      FirstsListed(keys[..n], k);
      FirstsListed(keys[..n], keys[n]);
    }
  }

  /** What detection finds on a line. */
  function FoundOn(line: seq<Commit>, clean: Infos, history: Infos, t: Tools): seq<Divergence> {
    DivergencesOf(FirstOccurrences(KeysOf(line)), KeyToSha(line), clean, history, t)
  }

  lemma FoundExactly(line: seq<Commit>, clean: Infos, history: Infos, t: Tools, d: Divergence)
    ensures d in FoundOn(line, clean, history, t) <==> Genuine(d, KeyToSha(line), clean, history, t)
  {
    DivergencesExact(FirstOccurrences(KeysOf(line)), KeyToSha(line), clean, history, t, d);
    FirstsListed(KeysOf(line), d.key);
    SameKeys(line, d.key);
  }

  /** Nothing is found exactly if no key's newest commit diverges. */
  lemma NoneFoundIff(line: seq<Commit>, clean: Infos, history: Infos, t: Tools)
    ensures FoundOn(line, clean, history, t) == []
       <==> forall k :: k in KeyToSha(line) && k in clean && k in history ==>
              !Diverges(KeyToSha(line)[k], clean[k], history[k], t)
  {
    var found, m := FoundOn(line, clean, history, t), KeyToSha(line);
    if found != [] { FoundExactly(line, clean, history, t, found[0]); }
    if k :| k in m && k in clean && k in history && Diverges(m[k], clean[k], history[k], t) {
      FoundExactly(line, clean, history, t, Divergence(k, m[k], ExpectedTree(m[k], clean[k], history[k], t)));
    }
  }

  lemma OneFoundOnly(line: seq<Commit>, d: Divergence, clean: Infos, history: Infos, t: Tools)
    requires FoundOn(line, clean, history, t) == [d]
    ensures OnlyDiverges(line, d, clean, history, t)
  {
    var m := KeyToSha(line);
    FoundExactly(line, clean, history, t, d);
    forall k | k in m && k in clean && k in history && k != d.key ensures !Diverges(m[k], clean[k], history[k], t) {
      FoundExactly(line, clean, history, t, Divergence(k, m[k], ExpectedTree(m[k], clean[k], history[k], t)));
    }
  }

  ghost predicate SomeStale(line: seq<Commit>, n: nat, d: Divergence, clean: Infos, history: Infos) {
    exists k, j: nat :: StaleKey(line, n, d, j, k, clean, history)
  }

  ghost predicate AllReplay(
      line: seq<Commit>, line': seq<Commit>, n: nat, d: Divergence, clean: Infos, history: Infos, t: Tools)
  {
    forall k :: k in clean && k in history ==> ReplaysAs(line, line', n, d, clean[k], history[k], t)
  }

  lemma KeyHere(line: seq<Commit>, line': seq<Commit>, k: Commit)
    requires SameMessages(line, line')
    ensures k in KeyToSha(line) <==> k in KeyToSha(line')
  {
    if k in KeyToSha(line) { var i := NewestInBoth(line, line', k); }
    if k in KeyToSha(line') { var i := NewestInBoth(line', line, k); }
  }

  lemma NoneLeftIff(
      line: seq<Commit>, line': seq<Commit>, n: nat, d: Divergence, clean: Infos, history: Infos, t: Tools)
    requires FoundOn(line, clean, history, t) == [d] && NoRepeats(line)
    requires Replaced(line, line', n, Amended(d.oldSha, d.expected)) && line[n - 1] == d.oldSha
    requires AllReplay(line, line', n, d, clean, history, t)
    ensures FoundOn(line', clean, history, t) == [] <==> !SomeStale(line, n, d, clean, history)
  {
    OneFoundOnly(line, d, clean, history, t);
    NoneFoundIff(line', clean, history, t);
    forall k | k in clean && k in history && k in KeyToSha(line')
      ensures Diverges(KeyToSha(line')[k], clean[k], history[k], t)
         <==> exists j: nat :: StaleKey(line, n, d, j, k, clean, history)
    {
      KeyHere(line, line', k);
      KeyDivergesIff(line, line', n, d, k, clean, history, t);
    }
    if k, j: nat :| StaleKey(line, n, d, j, k, clean, history) { KeyHere(line, line', k); }
  }

  // ------------------------------------------------------------- one run

  lemma LineNoRepeats(tip: Commit)
    ensures NoRepeats(Line(tip))
  {
    forall i, j | 0 <= i < j < |Line(tip)| ensures Line(tip)[i] != Line(tip)[j] {
      LineAt(tip, i);
      LineAt(tip, j);
    }
  }

  lemma RewriteReplaces(tip: Commit, d: Divergence, t: Tools)
    requires d.oldSha in Line(tip)
    ensures var n := |Line(d.oldSha)|; n > 0 && n <= |Line(tip)| && Line(tip)[n - 1] == d.oldSha
    ensures Replaced(Line(tip), Line(RewrittenTip(tip, d.oldSha, d.expected, t)), |Line(d.oldSha)|,
                     Amended(d.oldSha, d.expected))
  {
    LinePosition(tip, d.oldSha);
    RewrittenLine(tip, d.oldSha, d.expected, t);
  }

  /** From place n on the line holds the commits of ds replayed onto prev. */
  ghost predicate ReplayedFrom(line': seq<Commit>, n: nat, prev: Commit, ds: seq<Commit>, t: Tools) {
    forall j: nat :: j < |ds| ==> ReplayedTo(line', n, prev, ds, j, t)
  }

  predicate ReplayedTo(line': seq<Commit>, n: nat, prev: Commit, ds: seq<Commit>, j: nat, t: Tools) {
    j < |ds| && n + j < |line'| && line'[n + j] == ReplayAllOnto(prev, ds[..j + 1], t)
  }

  lemma AllReplayed(tip: Commit, c: Commit, tree: Tree, t: Tools)
    requires c in Line(tip)
    ensures ReplayedFrom(Line(RewrittenTip(tip, c, tree, t)), |Line(c)|, Amended(c, tree), Above(tip, c), t)
  {
    forall j: nat | j < |Above(tip, c)|
      ensures ReplayedTo(Line(RewrittenTip(tip, c, tree, t)), |Line(c)|, Amended(c, tree), Above(tip, c), j, t)
    {
      NewLineAbove(tip, c, tree, t, j);
    }
  }

  lemma AllHere(
      prev: Commit, ds: seq<Commit>, line': seq<Commit>, n: nat, d: Divergence, clean: CommitInfo,
      history: CommitInfo, t: Tools)
    requires Sound(t) && Own(clean, t) && Own(history, t) && Linked(d.oldSha.tree, ds) && SteadyAbove(ds)
    requires ReplayedFrom(line', n, prev, ds, t) && prev.tree == d.expected
    ensures forall j: nat :: j < |ds| ==> ReplaysAt(ds, line', n, d, j, clean, history, t)
  {
    forall j: nat | j < |ds| ensures ReplaysAt(ds, line', n, d, j, clean, history, t) {
      assert ReplayedTo(line', n, prev, ds, j, t);
      ReplaysHere(prev, ds, line', n, d, j, clean, history, t);
    }
  }

  lemma RewriteReplays(tip: Commit, d: Divergence, clean: CommitInfo, history: CommitInfo, t: Tools)
    requires Sound(t) && Own(clean, t) && Own(history, t) && d.oldSha in Line(tip)
    requires SteadyAbove(Above(tip, d.oldSha))
    ensures var line' := Line(RewrittenTip(tip, d.oldSha, d.expected, t));
      ReplaysAs(Line(tip), line', |Line(d.oldSha)|, d, clean, history, t)
  {
    var line' := Line(RewrittenTip(tip, d.oldSha, d.expected, t));
    LinePosition(tip, d.oldSha);
    AboveIsLinked(tip, d.oldSha);
    AllReplayed(tip, d.oldSha, d.expected, t);
    AllHere(Amended(d.oldSha, d.expected), Above(tip, d.oldSha), line', |Line(d.oldSha)|, d, clean, history, t);
  }

  lemma ReplaysHere(
      prev: Commit, ds: seq<Commit>, line': seq<Commit>, n: nat, d: Divergence, j: nat, clean: CommitInfo,
      history: CommitInfo, t: Tools)
    requires Sound(t) && Own(clean, t) && Own(history, t) && Linked(d.oldSha.tree, ds) && SteadyAbove(ds)
    requires j < |ds| && n + j < |line'| && line'[n + j] == ReplayAllOnto(prev, ds[..j + 1], t)
    requires prev.tree == d.expected
    ensures ReplaysAt(ds, line', n, d, j, clean, history, t)
  {
    if !Diverges(ds[j], clean, history, t) {
      ReplayedDivergesIff(prev, d.oldSha.tree, ds, j, clean, history, t);
    }
  }

  lemma AllReplays(tip: Commit, d: Divergence, clean: Infos, history: Infos, t: Tools)
    requires Sound(t) && AllOwn(clean, t) && AllOwn(history, t) && d.oldSha in Line(tip)
    requires SteadyAbove(Above(tip, d.oldSha))
    ensures var line' := Line(RewrittenTip(tip, d.oldSha, d.expected, t));
      AllReplay(Line(tip), line', |Line(d.oldSha)|, d, clean, history, t)
  {
    var line' := Line(RewrittenTip(tip, d.oldSha, d.expected, t));
    forall k | k in clean && k in history
      ensures ReplaysAs(Line(tip), line', |Line(d.oldSha)|, d, clean[k], history[k], t)
    {
      RewriteReplays(tip, d, clean[k], history[k], t);
    }
  }

  lemma RewriteLeavesNone(tip: Commit, d: Divergence, clean: Infos, history: Infos, t: Tools)
    requires Sound(t) && AllOwn(clean, t) && AllOwn(history, t)
    requires FoundOn(Line(tip), clean, history, t) == [d] && d.oldSha in Line(tip)
    requires SteadyAbove(Above(tip, d.oldSha))
    ensures FoundOn(Line(RewrittenTip(tip, d.oldSha, d.expected, t)), clean, history, t) == []
       <==> !SomeStale(Line(tip), |Line(d.oldSha)|, d, clean, history)
  {
    LineNoRepeats(tip);
    RewriteReplaces(tip, d, t);
    AllReplays(tip, d, clean, history, t);
    NoneLeftIff(Line(tip), Line(RewrittenTip(tip, d.oldSha, d.expected, t)), |Line(d.oldSha)|, d, clean, history, t);
  }

  // ------------------------------------------------------ over the branches

  /** A key finds the newest commit that goes under it. */
  lemma {:induction false} LatestIsNewest(infos: seq<CommitInfo>, resolves: Commit -> bool, k: Commit)
    ensures k in LatestByKey(infos, resolves)
       <==> exists i :: 0 <= i < |infos| && KeyFor(infos[i], resolves) == Matched(k)
    ensures k in LatestByKey(infos, resolves) ==>
      exists i :: (
        && 0 <= i < |infos| && KeyFor(infos[i], resolves) == Matched(k) && LatestByKey(infos, resolves)[k] == infos[i]
        && forall j :: i < j < |infos| ==> KeyFor(infos[j], resolves) != Matched(k))
  {
    if infos != [] {
      var n := |infos| - 1;
      var init := infos[..n];
      assert forall i :: 0 <= i < n ==> init[i] == infos[i];
      LatestIsNewest(init, resolves, k);
      if KeyFor(infos[n], resolves) != Matched(k) && k in LatestByKey(init, resolves) {
        var i :| 0 <= i < n && KeyFor(init[i], resolves) == Matched(k) && LatestByKey(init, resolves)[k] == init[i]
          && forall j :: i < j < n ==> KeyFor(init[j], resolves) != Matched(k);
        assert KeyFor(infos[i], resolves) == Matched(k);
      }
    }
  }

  lemma LatestAreOwn(infos: seq<CommitInfo>, resolves: Commit -> bool, t: Tools)
    requires forall i :: 0 <= i < |infos| ==> Own(infos[i], t)
    ensures AllOwn(LatestByKey(infos, resolves), t)
  {
    forall k | k in LatestByKey(infos, resolves) ensures Own(LatestByKey(infos, resolves)[k], t) {
      LatestIsNewest(infos, resolves, k);
    }
  }

  /** The history pairs of a run's divergence scan. */
  function HistoryInfos(r: ReconRefs, f: Fixed, t: Tools): Infos {
    LatestByKey(ReadInfos(LineOf(r.history), t), f.resolves)
  }

  /** The clean ones, with what history says restored. */
  function CleanInfos(r: ReconRefs, f: Fixed, t: Tools): Infos
    requires SourceByClean(ReadInfos(LineOf(r.history), t), f.resolves).Ok?
  {
    var m := SourceByClean(ReadInfos(LineOf(r.history), t), f.resolves).value;
    LatestByKey(Correlated(ReadInfos(LineOf(r.clean), t), m), f.resolves)
  }

  lemma ReadAreOwn(cs: seq<Commit>, m: map<Commit, Commit>, resolves: Commit -> bool, t: Tools)
    ensures AllOwn(LatestByKey(ReadInfos(cs, t), resolves), t)
    ensures AllOwn(LatestByKey(Correlated(ReadInfos(cs, t), m), resolves), t)
  {
    LatestAreOwn(ReadInfos(cs, t), resolves, t);
    LatestAreOwn(Correlated(ReadInfos(cs, t), m), resolves, t);
  }

  lemma InfosAreOwn(r: ReconRefs, f: Fixed, t: Tools)
    requires SourceByClean(ReadInfos(LineOf(r.history), t), f.resolves).Ok?
    ensures AllOwn(CleanInfos(r, f, t), t) && AllOwn(HistoryInfos(r, f, t), t)
  {
    var m := SourceByClean(ReadInfos(LineOf(r.history), t), f.resolves).value;
    ReadAreOwn(LineOf(r.history), m, f.resolves, t);
    ReadAreOwn(LineOf(r.clean), m, f.resolves, t);
  }

  lemma FullScan(r: ReconRefs, f: Fixed, t: Tools)
    requires SourceByClean(ReadInfos(LineOf(r.history), t), f.resolves).Ok?
    ensures FullDivergences(r, f, t) == Ok(FoundOn(LineOf(r.unclean), CleanInfos(r, f, t), HistoryInfos(r, f, t), t))
  {
  }

  /** Rewriting for the one divergence a scan finds: what the next scan finds. */
  lemma NextScan(r: ReconRefs, d: Divergence, f: Fixed, t: Tools)
    requires Sound(t) && r.unclean.Some? && FullDivergences(r, f, t) == Ok([d]) && d.oldSha in Line(r.unclean.value)
    requires SteadyAbove(Above(r.unclean.value, d.oldSha))
    ensures var r' := r.(unclean := Some(RewrittenTip(r.unclean.value, d.oldSha, d.expected, t)));
      FullDivergences(r', f, t).Ok? && (FullDivergences(r', f, t).value == []
        <==> !SomeStale(Line(r.unclean.value), |Line(d.oldSha)|, d, CleanInfos(r, f, t), HistoryInfos(r, f, t)))
  {
    var r' := r.(unclean := Some(RewrittenTip(r.unclean.value, d.oldSha, d.expected, t)));
    FullScan(r, f, t);
    FullScan(r', f, t);
    InfosAreOwn(r, f, t);
    RewriteLeavesNone(r.unclean.value, d, CleanInfos(r, f, t), HistoryInfos(r, f, t), t);
  }

  lemma OneRewrite(tip: Commit, d: Divergence, t: Tools)
    requires d.oldSha in Line(tip)
    ensures RewriteEach(tip, [d], t) == (RewrittenTip(tip, d.oldSha, d.expected, t), None)
  {
    RewriteIs(tip, d.oldSha, d.expected, t);
    assert [d][1..] == [];
  }

  lemma OnTheBranch(r: ReconRefs, d: Divergence, f: Fixed, t: Tools)
    requires r.unclean.Some? && FullDivergences(r, f, t) == Ok([d])
    ensures d.oldSha in Line(r.unclean.value)
  {
    DetectedAreRecorded(r, f, t);
    assert d in [d];
  }

  /**
   When one rewriting run is enough.  The branches are built up to their tips and
   one divergence is found; the run rewrites it.  A further run changes nothing
   exactly if no recorded commit above is stale: for none does the rewrite change
   a path that its pair sets and that no commit from there up to it touches.
   */
  lemma RewrittenOnceIff(
      r: ReconRefs, d: Divergence, force: bool, forceAgain: bool, f: Fixed, t: Tools, extra: ExtraText)
    requires Sound(t) && CaughtUp(r) && TipsResolve(r, f) && r.unclean.Some? && (r.clean.Some? || r.history.Some?)
    requires FullDivergences(r, f, t) == Ok([d])
    requires d.oldSha in Line(r.unclean.value) ==> SteadyAbove(Above(r.unclean.value, d.oldSha))
    ensures var (r', refusal) := Reconstruct(r, true, force, f, t, extra);
      && refusal == None
      && (Reconstruct(r', true, forceAgain, f, t, extra).0 == r'
          <==> !SomeStale(Line(r.unclean.value), |Line(d.oldSha)|, d, CleanInfos(r, f, t), HistoryInfos(r, f, t)))
  {
    OnTheBranch(r, d, f, t);
    NextScan(r, d, f, t);
    CaughtUpRun(r, true, force, f, t, extra);
    OneRewrite(r.unclean.value, d, t);
    var r' := r.(unclean := Some(RewrittenTip(r.unclean.value, d.oldSha, d.expected, t)));
    SecondRunIff(r', true, forceAgain, f, t, extra);
  }
}
