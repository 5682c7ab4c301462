/**
 sync_unclean.py: rebuilding `ai/UNCLEAN/{branch}` from the clean and history
 branches.
 */
module SyncUnclean {
  import opened Options
  import opened GitTree
  import opened Commits
  import opened SyncSplits

  /** The commit infos the reverse direction works on; message and author are read off `sha`. */
  datatype CommitInfo = CommitInfo(sha: Commit, paths: seq<PathChange>, source: Option<Commit>,
    cleanCommit: Option<Commit>)

  function ReadInfo(c: Commit, t: Tools): CommitInfo {
    CommitInfo(c, t.diff(ParentTree(c), c.tree), ReadSource(c.msg.trailers), ReadCleanCommit(c.msg.trailers))
  }

  function ReadInfos(cs: seq<Commit>, t: Tools): (r: seq<CommitInfo>)
    ensures |r| == |cs| && forall i :: 0 <= i < |cs| ==> r[i] == ReadInfo(cs[i], t)
  {
    if cs == [] then [] else ReadInfos(cs[..|cs| - 1], t) + [ReadInfo(cs[|cs| - 1], t)]
  }

  datatype Refusal =
    | DifferentSources(clean: Commit)
    | DuplicateCommits(side: Side, key: Key)
    | OrderContradiction(side: Side, sha: Commit)
    | NotOnBranch(sha: Commit)

  // ----------------------------------------------------------- correlation

  function AssignSource(
      m: map<Commit, Commit>, info: CommitInfo, resolves: Commit -> bool): Result<map<Commit, Commit>, Refusal>
  {
    if info.cleanCommit.Some? && info.source.Some? && resolves(info.source.value) then
      if info.cleanCommit.value !in m then Ok(m[info.cleanCommit.value := info.source.value])
      else if m[info.cleanCommit.value] == info.source.value then Ok(m)
      else Err(DifferentSources(info.cleanCommit.value))
    else Ok(m)
  }

  function SourceByClean(
      historyInfos: seq<CommitInfo>, resolves: Commit -> bool): Result<map<Commit, Commit>, Refusal>
  {
    if historyInfos == [] then Ok(map[]) else
      var n := |historyInfos| - 1;
      match SourceByClean(historyInfos[..n], resolves)
      case Err(e) => Err(e)
      case Ok(m) => AssignSource(m, historyInfos[n], resolves)
  }

  function WithSource(info: CommitInfo, m: map<Commit, Commit>): CommitInfo {
    if info.source.None? && info.sha in m then info.(source := Some(m[info.sha])) else info
  }

  function Correlated(cleanInfos: seq<CommitInfo>, m: map<Commit, Commit>): (r: seq<CommitInfo>)
    ensures |r| == |cleanInfos| && forall i :: 0 <= i < |r| ==> r[i] == WithSource(cleanInfos[i], m)
  {
    if cleanInfos == [] then [] else
      Correlated(cleanInfos[..|cleanInfos| - 1], m) + [WithSource(cleanInfos[|cleanInfos| - 1], m)]
  }

  method CorrelateCleanInfos(cleanInfos: seq<CommitInfo>, historyInfos: seq<CommitInfo>, resolves: Commit -> bool)
    returns (r: Result<seq<CommitInfo>, Refusal>)
    ensures r.Ok? == SourceByClean(historyInfos, resolves).Ok?
    ensures r.Err? ==> r.error == SourceByClean(historyInfos, resolves).error
    ensures r.Ok? ==> r.value == Correlated(cleanInfos, SourceByClean(historyInfos, resolves).value)
  {
    var sourceByClean: map<Commit, Commit> := map[];
    for i := 0 to |historyInfos|
      invariant SourceByClean(historyInfos[..i], resolves) == Ok(sourceByClean)
    {
      assert historyInfos[..i + 1][..i] == historyInfos[..i];
      var info := historyInfos[i];
      if info.cleanCommit.Some? && info.source.Some? && resolves(info.source.value) {
        if info.cleanCommit.value !in sourceByClean {
          sourceByClean := sourceByClean[info.cleanCommit.value := info.source.value];
        }
        if sourceByClean[info.cleanCommit.value] != info.source.value {
          ErrorSticks(historyInfos, i + 1, resolves);
          return Err(DifferentSources(info.cleanCommit.value));
        }
      }
    }
    assert historyInfos[..|historyInfos|] == historyInfos;
    var correlated: seq<CommitInfo> := [];
    for i := 0 to |cleanInfos|
      invariant correlated == Correlated(cleanInfos[..i], sourceByClean)
    {
      assert cleanInfos[..i + 1][..i] == cleanInfos[..i];
      correlated := correlated + [WithSource(cleanInfos[i], sourceByClean)];
    }
    assert cleanInfos[..|cleanInfos|] == cleanInfos;
    return Ok(correlated);
  }

  lemma {:induction false} ErrorSticks(infos: seq<CommitInfo>, n: nat, resolves: Commit -> bool)
    requires n <= |infos| && SourceByClean(infos[..n], resolves).Err?
    ensures SourceByClean(infos, resolves) == SourceByClean(infos[..n], resolves)
  {
    if n < |infos| {
      assert infos[..|infos| - 1][..n] == infos[..n];
      ErrorSticks(infos[..|infos| - 1], n, resolves);
    } else {
      assert infos[..n] == infos;
    }
  }

  // --------------------------------------------------------------- buckets

  /** A source sha, or the commit's own sha marked as unmatched. */
  datatype Key = Matched(sha: Commit) | Unmatched(sha: Commit)

  function KeyFor(info: CommitInfo, resolves: Commit -> bool): Key {
    if info.source.Some? && resolves(info.source.value) then Matched(info.source.value) else Unmatched(info.sha)
  }

  datatype Bucket = Bucket(clean: Option<CommitInfo>, history: Option<CommitInfo>)

  /** A Python dict: its entries and the order its keys were first inserted in. */
  datatype Buckets = Buckets(order: seq<Key>, at: map<Key, Bucket>)

  const NO_BUCKETS := Buckets([], map[])

  function SlotOf(b: Bucket, side: Side): Option<CommitInfo> {
    if side == CleanSide then b.clean else b.history
  }

  function Put(b: Bucket, side: Side, info: CommitInfo): Bucket {
    if side == CleanSide then b.(clean := Some(info)) else b.(history := Some(info))
  }

  function SetDefault(bs: Buckets, key: Key): Buckets {
    if key in bs.at then bs else Buckets(bs.order + [key], bs.at[key := Bucket(None, None)])
  }

  function AddInfo(bs: Buckets, side: Side, info: CommitInfo, resolves: Commit -> bool): Result<Buckets, Refusal> {
    var key := KeyFor(info, resolves);
    var bs' := SetDefault(bs, key);
    if SlotOf(bs'.at[key], side).Some? then Err(DuplicateCommits(side, key))
    else Ok(bs'.(at := bs'.at[key := Put(bs'.at[key], side, info)]))
  }

  function AddSide(
      bs: Buckets, side: Side, infos: seq<CommitInfo>, resolves: Commit -> bool): Result<Buckets, Refusal>
  {
    if infos == [] then Ok(bs) else
      var n := |infos| - 1;
      match AddSide(bs, side, infos[..n], resolves)
      case Err(e) => Err(e)
      case Ok(bs') => AddInfo(bs', side, infos[n], resolves)
  }

  lemma {:induction false} DuplicateSticks(
      bs: Buckets, side: Side, infos: seq<CommitInfo>, n: nat, resolves: Commit -> bool)
    requires n <= |infos| && AddSide(bs, side, infos[..n], resolves).Err?
    ensures AddSide(bs, side, infos, resolves) == AddSide(bs, side, infos[..n], resolves)
  {
    if n < |infos| {
      assert infos[..|infos| - 1][..n] == infos[..n];
      DuplicateSticks(bs, side, infos[..|infos| - 1], n, resolves);
    } else {
      assert infos[..n] == infos;
    }
  }

  function BucketAll(
      cleanInfos: seq<CommitInfo>, historyInfos: seq<CommitInfo>, resolves: Commit -> bool): Result<Buckets, Refusal>
  {
    match AddSide(NO_BUCKETS, CleanSide, cleanInfos, resolves)
    case Err(e) => Err(e)
    case Ok(bs) => AddSide(bs, HistorySide, historyInfos, resolves)
  }

  method AddSideInfos(start: Buckets, side: Side, infos: seq<CommitInfo>, resolves: Commit -> bool)
    returns (r: Result<Buckets, Refusal>)
    ensures r == AddSide(start, side, infos, resolves)
  {
    var order, at := start.order, start.at;
    for i := 0 to |infos|
      invariant AddSide(start, side, infos[..i], resolves) == Ok(Buckets(order, at))
    {
      var info := infos[i];
      assert infos[..i + 1][..i] == infos[..i];
      var key := KeyFor(info, resolves);
      if key !in at {
        order, at := order + [key], at[key := Bucket(None, None)];
      }
      if SlotOf(at[key], side).Some? {
        DuplicateSticks(start, side, infos, i + 1, resolves);
        return Err(DuplicateCommits(side, key));
      }
      at := at[key := Put(at[key], side, info)];
    }
    assert infos[..|infos|] == infos;
    return Ok(Buckets(order, at));
  }

  method BucketCommits(cleanInfos: seq<CommitInfo>, historyInfos: seq<CommitInfo>, resolves: Commit -> bool)
    returns (r: Result<Buckets, Refusal>)
    ensures r == BucketAll(cleanInfos, historyInfos, resolves)
  {
    var afterClean := AddSideInfos(NO_BUCKETS, CleanSide, cleanInfos, resolves);
    if afterClean.Err? { return afterClean; }
    r := AddSideInfos(afterClean.value, HistorySide, historyInfos, resolves);
  }

  // -------------------------------------------------------------- ordering

  datatype OrderEntry = OrderEntry(key: Key, bucket: Bucket, preceding: int, date: int, isClean: bool)

  function IndexOf(order: seq<Commit>, c: Commit): (i: int)
    ensures -1 <= i < |order|
    ensures i >= 0 ==> order[i] == c && forall j :: 0 <= j < i ==> order[j] != c
    ensures i == -1 <==> c !in order
  {
    if order == [] then -1 else if order[0] == c then 0 else
      var k := IndexOf(order[1..], c);
      if k == -1 then -1 else k + 1
  }

  predicate InLineage(key: Key, order: seq<Commit>) {
    key.Matched? && key.sha in order
  }

  datatype SortKey = SortKey(unmatched: int, position: int, date: int, historySide: int)

  /** The sort key: known lineage positions first, then preceding match, date, clean before history. */
  function OrderKey(e: OrderEntry, order: seq<Commit>): SortKey {
    if InLineage(e.key, order) then SortKey(0, IndexOf(order, e.key.sha), 0, 0)
    else SortKey(1, e.preceding, e.date, if e.isClean then 0 else 1)
  }

  predicate KeyLess(a: SortKey, b: SortKey) {
    || a.unmatched < b.unmatched
    || (a.unmatched == b.unmatched && a.position < b.position)
    || (a.unmatched == b.unmatched && a.position == b.position && a.date < b.date)
    || (a.unmatched == b.unmatched && a.position == b.position && a.date == b.date && a.historySide < b.historySide)
  }

  function PrecedingMatched(infos: seq<CommitInfo>, idx: nat, order: seq<Commit>, resolves: Commit -> bool): int
    requires idx <= |infos|
  {
    if idx == 0 then -1
    else if InLineage(KeyFor(infos[idx - 1], resolves), order) then IndexOf(order, KeyFor(infos[idx - 1], resolves).sha)
    else PrecedingMatched(infos, idx - 1, order, resolves)
  }

  /** `{info.sha: i}`: the last position of a sha; 0 when it is absent. */
  function PositionOf(infos: seq<CommitInfo>, sha: Commit): (i: nat)
    ensures i <= |infos|
  {
    if infos == [] then 0
    else if infos[|infos| - 1].sha == sha then |infos| - 1
    else PositionOf(infos[..|infos| - 1], sha)
  }

  function EntryFor(
      key: Key, bucket: Bucket, cleanInfos: seq<CommitInfo>, historyInfos: seq<CommitInfo>, order: seq<Commit>,
      resolves: Commit -> bool): OrderEntry
    requires bucket.clean.Some? || bucket.history.Some?
  {
    var info := if bucket.clean.Some? then bucket.clean.value else bucket.history.value;
    var isClean := bucket.clean.Some?;
    var side := if isClean then cleanInfos else historyInfos;
    OrderEntry(
      key, bucket,
      if InLineage(key, order) then -1 else PrecedingMatched(side, PositionOf(side, info.sha), order, resolves),
      info.sha.msg.date, isClean)
  }

  /** Stable insertion: behind every entry whose key is not larger. */
  function InsertEntry(e: OrderEntry, sorted: seq<OrderEntry>, order: seq<Commit>): seq<OrderEntry> {
    if sorted == [] then [e]
    else
      var n := |sorted| - 1;
      if KeyLess(OrderKey(e, order), OrderKey(sorted[n], order)) then InsertEntry(e, sorted[..n], order) + [sorted[n]]
      else sorted + [e]
  }

  /** `entries.sort(key=order_key)`, which is stable. */
  function SortEntries(es: seq<OrderEntry>, order: seq<Commit>): seq<OrderEntry> {
    if es == [] then [] else InsertEntry(es[|es| - 1], SortEntries(es[..|es| - 1], order), order)
  }

  predicate Filled(at: map<Key, Bucket>, keys: seq<Key>) {
    forall i :: 0 <= i < |keys| ==> keys[i] in at && (at[keys[i]].clean.Some? || at[keys[i]].history.Some?)
  }

  function EntriesFor(
      keys: seq<Key>, at: map<Key, Bucket>, cleanInfos: seq<CommitInfo>, historyInfos: seq<CommitInfo>,
      order: seq<Commit>, resolves: Commit -> bool): (r: seq<OrderEntry>)
    requires Filled(at, keys)
    ensures |r| == |keys|
    ensures forall i :: 0 <= i < |keys| ==> r[i] == EntryFor(keys[i], at[keys[i]], cleanInfos, historyInfos, order,
          resolves)
  {
    if keys == [] then [] else
      var n := |keys| - 1;
      EntriesFor(keys[..n], at, cleanInfos, historyInfos, order, resolves)
      + [EntryFor(keys[n], at[keys[n]], cleanInfos, historyInfos, order, resolves)]
  }

  method OrderBuckets(keys: seq<Key>, at: map<Key, Bucket>, cleanInfos: seq<CommitInfo>, historyInfos: seq<CommitInfo>,
                      order: seq<Commit>, resolves: Commit -> bool)
    returns (sorted: seq<OrderEntry>)
    requires Filled(at, keys)
    ensures sorted == SortEntries(EntriesFor(keys, at, cleanInfos, historyInfos, order, resolves), order)
  {
    var entries: seq<OrderEntry> := [];
    for i := 0 to |keys|
      invariant entries == EntriesFor(keys[..i], at, cleanInfos, historyInfos, order, resolves)
    {
      assert keys[..i + 1][..i] == keys[..i];
      entries := entries + [EntryFor(keys[i], at[keys[i]], cleanInfos, historyInfos, order, resolves)];
    }
    assert keys[..|keys|] == keys;
    sorted := SortEntries(entries, order);
  }

  // -------------------------------------------------------------- building

  /** The text of history's body worth keeping; "" when it is boilerplate. */
  type ExtraText = Message -> string

  /** `apply_path_changes(tree, info.paths, info.sha)`. */
  function Overlay(tree: Tree, info: CommitInfo, t: Tools): Tree {
    ApplyAll(tree, info.paths, info.sha.tree, BothSides, t.ai)
  }

  function BucketTree(prev: Tree, b: Bucket, t: Tools): Tree {
    var tree := if b.clean.Some? then Overlay(prev, b.clean.value, t) else prev;
    if b.history.Some? then Overlay(tree, b.history.value, t) else tree
  }

  /** Clean's message wins; differing subjects append history's text behind clean's trailers. */
  function MergeMessage(clean: Message, history: Message, extra: ExtraText): Message {
    if clean.subject != history.subject && extra(history) != "" then
      clean.(body := clean.body + "\n\n---\n" + extra(history), trailers := [])
    else clean
  }

  function BucketMessage(key: Key, b: Bucket, extra: ExtraText): Message
    requires b.clean.Some? || b.history.Some?
  {
    var m :=
      if b.clean.Some? && b.history.Some? then MergeMessage(b.clean.value.sha.msg, b.history.value.sha.msg, extra)
      else if b.clean.Some? then b.clean.value.sha.msg
      else b.history.value.sha.msg;
    m.(trailers := WriteTrailers(m.trailers, [ReconstructedFrom(key.sha)]))
  }

  function MergedCommit(prev: Commit, key: Key, b: Bucket, t: Tools, extra: ExtraText): Commit
    requires b.clean.Some? || b.history.Some?
  {
    Child(prev, [], BucketTree(prev.tree, b, t), BucketMessage(key, b, extra))
  }

  method BuildMergedCommit(prev: Commit, key: Key, b: Bucket, t: Tools, extra: ExtraText) returns (c: Commit)
    requires b.clean.Some? || b.history.Some?
    ensures c == MergedCommit(prev, key, b, t, extra)
  {
    var tree := prev.tree;
    if b.clean.Some? {
      tree := ApplyPathChanges(tree, b.clean.value.paths, b.clean.value.sha.tree, t.ai);
    }
    if b.history.Some? {
      tree := ApplyPathChanges(tree, b.history.value.paths, b.history.value.sha.tree, t.ai);
    }
    c := Child(prev, [], tree, BucketMessage(key, b, extra));
  }

  predicate Buildable(entries: seq<OrderEntry>) {
    forall i :: 0 <= i < |entries| ==> entries[i].bucket.clean.Some? || entries[i].bucket.history.Some?
  }

  function BuildAll(prev: Commit, entries: seq<OrderEntry>, t: Tools, extra: ExtraText): Commit
    requires Buildable(entries)
  {
    if entries == [] then prev else
      var n := |entries| - 1;
      MergedCommit(BuildAll(prev, entries[..n], t, extra), entries[n].key, entries[n].bucket, t, extra)
  }

  // ------------------------------------------------- order and divergences

  /** `git rev-list --reverse tip` of a linear branch, oldest first. */
  function Line(tip: Commit): (r: seq<Commit>)
    ensures |r| > 0 && r[|r| - 1] == tip
  {
    (if tip.Child? then Line(tip.first) else []) + [tip]
  }

  /** The reconstruction keys along a list of commits, oldest first. */
  function KeysOf(cs: seq<Commit>): seq<Commit> {
    if cs == [] then [] else
      var key := ReadReconstructed(cs[|cs| - 1].msg.trailers);
      if key.Some? then KeysOf(cs[..|cs| - 1]) + [key.value] else KeysOf(cs[..|cs| - 1])
  }

  /** key -> the newest commit that was built for it. */
  function KeyToSha(cs: seq<Commit>): map<Commit, Commit> {
    if cs == [] then map[] else
      var m := KeyToSha(cs[..|cs| - 1]);
      var key := ReadReconstructed(cs[|cs| - 1].msg.trailers);
      if key.Some? then m[key.value := cs[|cs| - 1]] else m
  }

  /** `{sha: i for i, sha in enumerate(order)}`: the last position of a key; -1 when absent. */
  function LastIndexOf(order: seq<Commit>, c: Commit): (i: int)
    ensures -1 <= i < |order|
    ensures i >= 0 ==> order[i] == c && forall j :: i < j < |order| ==> order[j] != c
    ensures i == -1 <==> c !in order
  {
    if order == [] then -1 else if order[|order| - 1] == c then |order| - 1 else LastIndexOf(order[..|order| - 1], c)
  }

  /** A commit's position in the known lineage; -1 when its source is not part of it. */
  function Position(info: CommitInfo, order: seq<Commit>): int {
    if info.source.None? then -1 else LastIndexOf(order, info.source.value)
  }

  /** The first commit whose source steps back in the known lineage, scanning from `last`. */
  function OrderFault(infos: seq<CommitInfo>, order: seq<Commit>, last: int): Option<Commit>
    decreases |infos|
  {
    if infos == [] then None
    else
      var pos := Position(infos[0], order);
      if pos == -1 then OrderFault(infos[1..], order, last)
      else if pos < last then Some(infos[0].sha)
      else OrderFault(infos[1..], order, pos)
  }

  /** The scan refuses exactly when some two known commits stand in the wrong order. */
  lemma {:induction false} NoFaultIffOrdered(infos: seq<CommitInfo>, order: seq<Commit>, last: int)
    requires last >= -1
    ensures OrderFault(infos, order, last) == None <==>
      && (forall i :: 0 <= i < |infos| && Position(infos[i], order) != -1 ==> last <= Position(infos[i], order))
      && (forall i, j :: 0 <= i < j < |infos| && Position(infos[i], order) != -1 && Position(infos[j], order) != -1
            ==> Position(infos[i], order) <= Position(infos[j], order))
    decreases |infos|
  {
    if infos != [] {
      var pos := Position(infos[0], order);
      assert forall i :: 0 <= i < |infos[1..]| ==> infos[1..][i] == infos[i + 1];
      assert forall i :: 1 <= i < |infos| ==> infos[i] == infos[1..][i - 1];
      NoFaultIffOrdered(infos[1..], order, if pos == -1 then last else pos);
    }
  }

  function ExpectedTree(old_: Commit, clean: CommitInfo, history: CommitInfo, t: Tools): Tree {
    Overlay(Overlay(ParentTree(old_), clean, t), history, t)
  }

  /** The recorded unclean commit is not what the pair would build on its parent. */
  predicate Diverges(old_: Commit, clean: CommitInfo, history: CommitInfo, t: Tools) {
    ExpectedTree(old_, clean, history, t) != old_.tree
  }

  /** Replaying one descendant onto the amended line. */
  function ReplayOnto(newPrev: Commit, d: Commit, t: Tools): Commit {
    Child(newPrev, [], ApplyAll(newPrev.tree, t.diff(ParentTree(d), d.tree), d.tree, BothSides, t.ai), d.msg)
  }

  function Amended(old_: Commit, newTree: Tree): Commit {
    if old_.Root? then Root(newTree, old_.msg) else Child(old_.first, [], newTree, old_.msg)
  }

  function ReplayAllOnto(newPrev: Commit, ds: seq<Commit>, t: Tools): Commit {
    if ds == [] then newPrev else ReplayOnto(ReplayAllOnto(newPrev, ds[..|ds| - 1], t), ds[|ds| - 1], t)
  }

  /** Replace `old_` by `newTree` and rebuild everything above it; refuses a commit not on the line. */
  function RewriteFrom(tip: Commit, old_: Commit, newTree: Tree, t: Tools): Result<Commit, Refusal> {
    var idx := IndexOf(Line(tip), old_);
    if idx == -1 then Err(NotOnBranch(old_))
    else Ok(ReplayAllOnto(Amended(old_, newTree), Line(tip)[idx + 1..], t))
  }

  method RewriteBranchFrom(tip: Commit, old_: Commit, newTree: Tree, t: Tools) returns (r: Result<Commit, Refusal>)
    ensures r == RewriteFrom(tip, old_, newTree, t)
  {
    var all := Line(tip);
    var idx := IndexOf(all, old_);
    if idx == -1 { return Err(NotOnBranch(old_)); }
    var descendants := all[idx + 1..];
    var newPrev := Amended(old_, newTree);
    for i := 0 to |descendants|
      invariant newPrev == ReplayAllOnto(Amended(old_, newTree), descendants[..i], t)
    {
      assert descendants[..i + 1][..i] == descendants[..i];
      var d := descendants[i];
      var tree := ApplyPathChanges(newPrev.tree, t.diff(ParentTree(d), d.tree), d.tree, t.ai);
      newPrev := Child(newPrev, [], tree, d.msg);
    }
    assert descendants[..|descendants|] == descendants;
    return Ok(newPrev);
  }

  method CheckOrderConsistency(infos: seq<CommitInfo>, order: seq<Commit>) returns (fault: Option<Commit>)
    ensures fault == OrderFault(infos, order, -1)
  {
    var lastPos := -1;
    for i := 0 to |infos|
      invariant OrderFault(infos[i..], order, lastPos) == OrderFault(infos, order, -1)
    {
      assert infos[i..][1..] == infos[i + 1..];
      if infos[i].source.Some? && infos[i].source.value in order {
        var pos := LastIndexOf(order, infos[i].source.value);
        if pos < lastPos { return Some(infos[i].sha); }
        lastPos := pos;
      }
    }
    return None;
  }

  datatype Divergence = Divergence(key: Commit, oldSha: Commit, expected: Tree)

  /** key -> the newest info with that matched key. */
  function LatestByKey(infos: seq<CommitInfo>, resolves: Commit -> bool): map<Commit, CommitInfo> {
    if infos == [] then map[] else
      var n := |infos| - 1;
      var m := LatestByKey(infos[..n], resolves);
      var key := KeyFor(infos[n], resolves);
      if key.Matched? then m[key.sha := infos[n]] else m
  }

  /** The keys of `key_to_sha` in dict order: first occurrences only. */
  function FirstOccurrences(keys: seq<Commit>): seq<Commit> {
    if keys == [] then [] else
      var n := |keys| - 1;
      if keys[n] in keys[..n] then FirstOccurrences(keys[..n]) else FirstOccurrences(keys[..n]) + [keys[n]]
  }

  function DivergencesOf(
      keys: seq<Commit>, keyToSha: map<Commit, Commit>, clean: map<Commit, CommitInfo>,
      history: map<Commit, CommitInfo>, t: Tools): seq<Divergence>
  {
    if keys == [] then [] else
      var n := |keys| - 1;
      var k := keys[n];
      var found := DivergencesOf(keys[..n], keyToSha, clean, history, t);
      if k in keyToSha && k in clean && k in history && Diverges(keyToSha[k], clean[k], history[k], t)
      then found + [Divergence(k, keyToSha[k], ExpectedTree(keyToSha[k], clean[k], history[k], t))]
      else found
  }

  method DetectDivergences(
      keys: seq<Commit>, keyToSha: map<Commit, Commit>, clean: map<Commit, CommitInfo>,
      history: map<Commit, CommitInfo>, t: Tools)
    returns (found: seq<Divergence>)
    ensures found == DivergencesOf(keys, keyToSha, clean, history, t)
  {
    found := [];
    for i := 0 to |keys|
      invariant found == DivergencesOf(keys[..i], keyToSha, clean, history, t)
    {
      assert keys[..i + 1][..i] == keys[..i];
      var k := keys[i];
      if k in keyToSha && k in clean && k in history {
        var base := ParentTree(keyToSha[k]);
        var expected := ApplyPathChanges(base, clean[k].paths, clean[k].sha.tree, t.ai);
        expected := ApplyPathChanges(expected, history[k].paths, history[k].sha.tree, t.ai);
        if expected != keyToSha[k].tree {
          found := found + [Divergence(k, keyToSha[k], expected)];
        }
      }
    }
    assert keys[..|keys|] == keys;
  }

  /** Rewriting for each divergence in turn, on the tip the previous rewrite left. */
  function RewriteEach(tip: Commit, ds: seq<Divergence>, t: Tools): (Commit, Option<Refusal>)
    decreases |ds|
  {
    if ds == [] then (tip, None) else
      match RewriteFrom(tip, ds[0].oldSha, ds[0].expected, t)
      case Err(e) => (tip, Some(e))
      case Ok(tip') => RewriteEach(tip', ds[1..], t)
  }

  // --------------------------------------------------------- one whole run

  datatype ReconRefs = ReconRefs(clean: Option<Commit>, history: Option<Commit>, unclean: Option<Commit>,
                                 cleanCursor: Option<Commit>, historyCursor: Option<Commit>)

  function NewSinceCursor(
      tip: Option<Commit>, cursor: Option<Commit>, lowerBound: Commit, resolves: Commit -> bool): seq<Commit>
  {
    if tip.None? then []
    else if cursor.Some? && resolves(cursor.value) && IsAncestor(cursor.value, tip.value)
      then Range(cursor.value, tip.value)
    else Range(lowerBound, tip.value)
  }

  function LineOf(tip: Option<Commit>): seq<Commit> {
    if tip.None? then [] else Line(tip.value)
  }

  /** The bucket keys not yet on the unclean branch, in dict order. */
  function KeysToBuild(keys: seq<Key>, keyToSha: map<Commit, Commit>): seq<Key> {
    if keys == [] then [] else
      var n := |keys| - 1;
      if keys[n].Matched? && keys[n].sha in keyToSha then KeysToBuild(keys[..n], keyToSha)
      else KeysToBuild(keys[..n], keyToSha) + [keys[n]]
  }

  /** Every listed key has a bucket with at least one side. */
  ghost predicate WellFormed(bs: Buckets) {
    && Filled(bs.at, bs.order)
    && (forall k :: k in bs.at ==> k in bs.order)
  }

  lemma {:induction false} AddSideWellFormed(bs: Buckets, side: Side, infos: seq<CommitInfo>, resolves: Commit -> bool)
    requires WellFormed(bs)
    ensures AddSide(bs, side, infos, resolves).Ok? ==> WellFormed(AddSide(bs, side, infos, resolves).value)
  {
    if infos != [] {
      AddSideWellFormed(bs, side, infos[..|infos| - 1], resolves);
    }
  }

  lemma BucketAllWellFormed(cleanInfos: seq<CommitInfo>, historyInfos: seq<CommitInfo>, resolves: Commit -> bool)
    ensures BucketAll(cleanInfos, historyInfos, resolves).Ok? ==>
          WellFormed(BucketAll(cleanInfos, historyInfos, resolves).value)
  {
    AddSideWellFormed(NO_BUCKETS, CleanSide, cleanInfos, resolves);
    var b := AddSide(NO_BUCKETS, CleanSide, cleanInfos, resolves);
    if b.Ok? { AddSideWellFormed(b.value, HistorySide, historyInfos, resolves); }
  }

  lemma {:induction false} KeysToBuildFilled(keys: seq<Key>, keyToSha: map<Commit, Commit>, at: map<Key, Bucket>)
    requires Filled(at, keys)
    ensures Filled(at, KeysToBuild(keys, keyToSha))
  {
    if keys != [] { KeysToBuildFilled(keys[..|keys| - 1], keyToSha, at); }
  }

  lemma {:induction false} InsertBuildable(e: OrderEntry, sorted: seq<OrderEntry>, order: seq<Commit>)
    requires Buildable(sorted) && Buildable([e])
    ensures Buildable(InsertEntry(e, sorted, order))
  {
    if sorted != [] {
      InsertBuildable(e, sorted[..|sorted| - 1], order);
    }
    assert [e][0] == e;
  }

  lemma {:induction false} SortBuildable(es: seq<OrderEntry>, order: seq<Commit>)
    requires Buildable(es)
    ensures Buildable(SortEntries(es, order))
  {
    if es != [] {
      SortBuildable(es[..|es| - 1], order);
      InsertBuildable(es[|es| - 1], SortEntries(es[..|es| - 1], order), order);
    }
  }

  /** The new infos of a run, clean ones with their source restored. */
  function NewInfos(r: ReconRefs, f: Fixed, t: Tools): Result<(seq<CommitInfo>, seq<CommitInfo>), Refusal> {
    var historyInfos := ReadInfos(NewSinceCursor(r.history, r.historyCursor, f.historyMain, f.resolves), t);
    match SourceByClean(historyInfos, f.resolves)
    case Err(e) => Err(e)
    case Ok(m) => Ok((Correlated(ReadInfos(NewSinceCursor(r.clean, r.cleanCursor, f.main, f.resolves), t), m),
      historyInfos))
  }

  /** Buckets and their build order, or the first reason to refuse. */
  function EntriesToBuild(r: ReconRefs, force: bool, f: Fixed, t: Tools): (plan: Result<seq<OrderEntry>, Refusal>)
    ensures plan.Ok? ==> Buildable(plan.value)
  {
    match NewInfos(r, f, t)
    case Err(e) => Err(e)
    case Ok((cleanInfos, historyInfos)) =>
      BucketAllWellFormed(cleanInfos, historyInfos, f.resolves);
      match BucketAll(cleanInfos, historyInfos, f.resolves)
      case Err(e) => Err(e)
      case Ok(bs) =>
        var order := KeysOf(LineOf(r.unclean));
        var keyToSha := KeyToSha(LineOf(r.unclean));
        var cleanFault := OrderFault(cleanInfos, order, -1);
        var historyFault := OrderFault(historyInfos, order, -1);
        if !force && cleanFault.Some? then Err(OrderContradiction(CleanSide, cleanFault.value))
        else if !force && historyFault.Some? then Err(OrderContradiction(HistorySide, historyFault.value))
        else
          KeysToBuildFilled(bs.order, keyToSha, bs.at);
          var entries :=
            EntriesFor(KeysToBuild(bs.order, keyToSha), bs.at, cleanInfos, historyInfos, order, f.resolves);
          SortBuildable(entries, order);
          Ok(SortEntries(entries, order))
  }

  /** Divergences over the full current branches, for keys already on the unclean branch. */
  function FullDivergences(r: ReconRefs, f: Fixed, t: Tools): Result<seq<Divergence>, Refusal> {
    var historyInfos := ReadInfos(LineOf(r.history), t);
    match SourceByClean(historyInfos, f.resolves)
    case Err(e) => Err(e)
    case Ok(m) =>
      var cleanInfos := Correlated(ReadInfos(LineOf(r.clean), t), m);
      Ok(DivergencesOf(FirstOccurrences(KeysOf(LineOf(r.unclean))), KeyToSha(LineOf(r.unclean)),
                       LatestByKey(cleanInfos, f.resolves), LatestByKey(historyInfos, f.resolves), t))
  }

  /** The refs after a run that was not refused before it moved anything. */
  function Rebuilt(
      r: ReconRefs, ds: seq<Divergence>, entries: seq<OrderEntry>, f: Fixed, t: Tools,
      extra: ExtraText): (ReconRefs, Option<Refusal>)
    requires Buildable(entries)
  {
    var (tip, refusal) := RewriteEach(OrElse(r.unclean, f.main), ds, t);
    if refusal.Some? then (r.(unclean := Some(tip)), refusal)
    else (ReconRefs(r.clean, r.history, Some(BuildAll(tip, entries, t, extra)),
                    if r.clean.Some? then r.clean else r.cleanCursor,
                    if r.history.Some? then r.history else r.historyCursor), None)
  }

  function Reconstruct(
      r: ReconRefs, allowRewrite: bool, force: bool, f: Fixed, t: Tools,
      extra: ExtraText): (ReconRefs, Option<Refusal>)
  {
    if r.clean.None? && r.history.None? then (r, None) else
      match EntriesToBuild(r, force, f, t)
      case Err(e) => (r, Some(e))
      case Ok(entries) =>
        match FullDivergences(r, f, t)
        case Err(e) => (r, Some(e))
        case Ok(ds) => Rebuilt(r, if allowRewrite then ds else [], entries, f, t, extra)
  }

  method PlanEntries(r: ReconRefs, force: bool, f: Fixed, t: Tools) returns (plan: Result<seq<OrderEntry>, Refusal>)
    ensures plan == EntriesToBuild(r, force, f, t)
  {
    var historyInfos := ReadInfos(NewSinceCursor(r.history, r.historyCursor, f.historyMain, f.resolves), t);
    var plainInfos := ReadInfos(NewSinceCursor(r.clean, r.cleanCursor, f.main, f.resolves), t);
    var correlated := CorrelateCleanInfos(plainInfos, historyInfos, f.resolves);
    if correlated.Err? { return Err(correlated.error); }
    var cleanInfos := correlated.value;
    var bucketed := BucketCommits(cleanInfos, historyInfos, f.resolves);
    if bucketed.Err? { return Err(bucketed.error); }
    var bs := bucketed.value;
    var order, keyToSha := KeysOf(LineOf(r.unclean)), KeyToSha(LineOf(r.unclean));
    if !force {
      var fault := CheckOrderConsistency(cleanInfos, order);
      if fault.Some? { return Err(OrderContradiction(CleanSide, fault.value)); }
      fault := CheckOrderConsistency(historyInfos, order);
      if fault.Some? { return Err(OrderContradiction(HistorySide, fault.value)); }
    }
    BucketAllWellFormed(cleanInfos, historyInfos, f.resolves);
    KeysToBuildFilled(bs.order, keyToSha, bs.at);
    var entries := OrderBuckets(KeysToBuild(bs.order, keyToSha), bs.at, cleanInfos, historyInfos, order, f.resolves);
    return Ok(entries);
  }

  method FindDivergences(r: ReconRefs, f: Fixed, t: Tools) returns (found: Result<seq<Divergence>, Refusal>)
    ensures found == FullDivergences(r, f, t)
  {
    var historyInfos := ReadInfos(LineOf(r.history), t);
    var correlated := CorrelateCleanInfos(ReadInfos(LineOf(r.clean), t), historyInfos, f.resolves);
    if correlated.Err? { return Err(correlated.error); }
    var ds := DetectDivergences(FirstOccurrences(KeysOf(LineOf(r.unclean))), KeyToSha(LineOf(r.unclean)),
                                LatestByKey(correlated.value, f.resolves), LatestByKey(historyInfos, f.resolves), t);
    return Ok(ds);
  }

  class UncleanRepo {
    const fixed: Fixed
    const tools: Tools
    const extra: ExtraText
    var clean: Option<Commit>
    var history: Option<Commit>
    var unclean: Option<Commit>
    var cleanCursor: Option<Commit>
    var historyCursor: Option<Commit>

    constructor (fixed: Fixed, tools: Tools, extra: ExtraText, refs: ReconRefs)
      ensures this.fixed == fixed && this.tools == tools && this.extra == extra && View() == refs
    {
      this.fixed, this.tools, this.extra := fixed, tools, extra;
      clean, history, unclean := refs.clean, refs.history, refs.unclean;
      cleanCursor, historyCursor := refs.cleanCursor, refs.historyCursor;
    }

    function View(): ReconRefs
      reads this
    {
      ReconRefs(clean, history, unclean, cleanCursor, historyCursor)
    }

    method ReconstructUnclean(allowRewrite: bool, force: bool) returns (refusal: Option<Refusal>)
      modifies this
      ensures (View(), refusal) == Reconstruct(old(View()), allowRewrite, force, fixed, tools, extra)
    {
      if clean.None? && history.None? { return None; }
      var plan := PlanEntries(View(), force, fixed, tools);
      if plan.Err? { return Some(plan.error); }
      var found := FindDivergences(View(), fixed, tools);
      if found.Err? { return Some(found.error); }
      refusal := MoveRefs(if allowRewrite then found.value else [], plan.value);
    }

    /** Rewrites for every divergence, builds every new bucket, then moves the branch and both cursors. */
    method MoveRefs(ds: seq<Divergence>, entries: seq<OrderEntry>) returns (refusal: Option<Refusal>)
      requires Buildable(entries)
      modifies this
      ensures (View(), refusal) == Rebuilt(old(View()), ds, entries, fixed, tools, extra)
    {
      var tip := if unclean.Some? then unclean.value else fixed.main;
      unclean := Some(tip);
      ghost var before := View();
      for i := 0 to |ds|
        invariant View() == before.(unclean := Some(tip))
        invariant RewriteEach(tip, ds[i..], tools) == RewriteEach(OrElse(old(unclean), fixed.main), ds, tools)
      {
        assert ds[i..][1..] == ds[i + 1..];
        var r := RewriteBranchFrom(tip, ds[i].oldSha, ds[i].expected, tools);
        if r.Err? { return Some(r.error); }
        tip := r.value;
        unclean := Some(tip);
      }
      ghost var rewritten := tip;
      for i := 0 to |entries|
        invariant View() == before.(unclean := Some(rewritten))
        invariant tip == BuildAll(rewritten, entries[..i], tools, extra)
      {
        assert entries[..i + 1][..i] == entries[..i];
        tip := BuildMergedCommit(tip, entries[i].key, entries[i].bucket, tools, extra);
      }
      assert entries[..|entries|] == entries;
      unclean := Some(tip);
      if clean.Some? { cleanCursor := clean; }
      if history.Some? { historyCursor := history; }
      refusal := None;
    }
  }
}
