/**
 Commits, trailers and revision ranges.

 A commit is identified by its content, so a sha is modelled by the commit
 itself: two commits have the same sha exactly when they are equal.  Committer
 name and date are not part of the value.
 */
module Commits {
  import opened Options
  import opened GitTree

  datatype SplitKind = CodeKind | HistoryKind | MixedKind

  /** One trailer line; `BaseTrailer` is any other line whose key starts with "X-Base-". */
  datatype Trailer =
    | SplitSource(sha: Commit)
    | KindOf(kind: SplitKind)
    | CleanCommit(sha: Commit)
    | CounterpartTree(tree: Tree)
    | OriginalMergeParents(parents: seq<Commit>)
    | ReconstructedFrom(sha: Commit)
    | BaseTrailer(line: string)
    | OtherTrailer(line: string)

  /** Subject, human body, the trailing trailer block, author and author date in whole seconds. */
  datatype Message = Message(subject: string, body: string, trailers: seq<Trailer>, author: string, date: int)

  datatype Commit =
    | Root(tree: Tree, msg: Message)
    | Child(first: Commit, others: seq<Commit>, tree: Tree, msg: Message)

  predicate IsMerge(c: Commit) {
    c.Child? && c.others != []
  }

  function ParentsOf(c: Commit): seq<Commit> {
    if c.Root? then [] else [c.first] + c.others
  }

  /** The tree a commit's own delta starts from; the empty tree for a root commit. */
  function ParentTree(c: Commit): Tree {
    if c.Root? then map[] else c.first.tree
  }

  // -------------------------------------------------------------- trailers

  /** `read_trailer_value(message, "X-Base-Split-Source")`: the first such line. */
  function ReadSource(ts: seq<Trailer>): Option<Commit> {
    if ts == [] then None else if ts[0].SplitSource? then Some(ts[0].sha) else ReadSource(ts[1..])
  }

  function ReadCleanCommit(ts: seq<Trailer>): Option<Commit> {
    if ts == [] then None else if ts[0].CleanCommit? then Some(ts[0].sha) else ReadCleanCommit(ts[1..])
  }

  function ReadReconstructed(ts: seq<Trailer>): Option<Commit> {
    if ts == [] then None else if ts[0].ReconstructedFrom? then Some(ts[0].sha) else ReadReconstructed(ts[1..])
  }

  /** `git interpret-trailers`: append each line unless it repeats the line just before it. */
  function WriteTrailers(ts: seq<Trailer>, add: seq<Trailer>): seq<Trailer>
    decreases add
  {
    if add == [] then ts
    else if ts != [] && ts[|ts| - 1] == add[0] then WriteTrailers(ts, add[1..])
    else WriteTrailers(ts + [add[0]], add[1..])
  }

  /** `strip_trailers_with_prefix(message, "X-Base-")`. */
  function StripBase(ts: seq<Trailer>): (r: seq<Trailer>)
    ensures forall t :: t in r ==> t.OtherTrailer?
  {
    if ts == [] then []
    else if ts[0].OtherTrailer? then [ts[0]] + StripBase(ts[1..])
    else StripBase(ts[1..])
  }

  /** A message the split tools have not stamped. */
  predicate Unstamped(ts: seq<Trailer>) {
    ReadSource(ts) == None && ReadCleanCommit(ts) == None && ReadReconstructed(ts) == None
  }

  /** None of the commits names one it was rebuilt from. */
  predicate Unnamed(cs: seq<Commit>) {
    forall i :: 0 <= i < |cs| ==> ReadReconstructed(cs[i].msg.trailers) == None
  }

  lemma ReadAppend(ts: seq<Trailer>, t: Trailer)
    ensures ReadSource(ts + [t]) == if ReadSource(ts).Some? then ReadSource(ts) else if t.SplitSource? then Some(t.sha)
          else None
    ensures ReadCleanCommit(ts + [t]) == if ReadCleanCommit(ts).Some? then ReadCleanCommit(ts)
          else if t.CleanCommit? then Some(t.sha) else None
    ensures ReadReconstructed(ts + [t]) == if ReadReconstructed(ts).Some? then ReadReconstructed(ts)
          else if t.ReconstructedFrom? then Some(t.sha) else None
  {
    if ts == [] {
      assert ts + [t] == [t];
    } else {
      assert (ts + [t])[1..] == ts[1..] + [t];
      ReadAppend(ts[1..], t);
    }
  }

  lemma UnstampedOthers(ts: seq<Trailer>)
    requires forall t :: t in ts ==> t.OtherTrailer?
    ensures Unstamped(ts)
  {
    if ts != [] {
      assert ts[0] in ts;
      UnstampedOthers(ts[1..]);
    }
  }

  lemma ReadLast(ts: seq<Trailer>)
    requires ts != []
    ensures ts[|ts| - 1].SplitSource? ==> ReadSource(ts).Some?
    ensures ts[|ts| - 1].CleanCommit? ==> ReadCleanCommit(ts).Some?
    ensures ts[|ts| - 1].ReconstructedFrom? ==> ReadReconstructed(ts).Some?
  {
    if |ts| > 1 { ReadLast(ts[1..]); }
  }

  /** Lines written onto a block are read back, behind what the block already answers. */
  lemma {:induction false} ReadWritten(ts: seq<Trailer>, add: seq<Trailer>)
    ensures ReadSource(WriteTrailers(ts, add)) == if ReadSource(ts).Some? then ReadSource(ts) else ReadSource(add)
    ensures ReadCleanCommit(WriteTrailers(ts, add)) == if ReadCleanCommit(ts).Some? then ReadCleanCommit(ts)
          else ReadCleanCommit(add)
    ensures ReadReconstructed(WriteTrailers(ts, add)) == if ReadReconstructed(ts).Some? then ReadReconstructed(ts)
          else ReadReconstructed(add)
    decreases add
  {
    if add != [] {
      if ts != [] && ts[|ts| - 1] == add[0] {
        ReadLast(ts);
        ReadWritten(ts, add[1..]);
      } else {
        ReadAppend(ts, add[0]);
        ReadWritten(ts + [add[0]], add[1..]);
      }
    }
  }

  // -------------------------------------------------------------- ancestry

  /** `git merge-base --is-ancestor a x`. */
  predicate IsAncestor(a: Commit, x: Commit) {
    || a == x
    || (x.Child? && (IsAncestor(a, x.first) || exists i :: 0 <= i < |x.others| && IsAncestor(a, x.others[i])))
  }

  function Size(c: Commit): nat {
    if c.Root? then 1 else 1 + Size(c.first) + SizeAll(c.others)
  }

  function SizeAll(cs: seq<Commit>): nat {
    if cs == [] then 0 else Size(cs[0]) + SizeAll(cs[1..])
  }

  lemma SizeMember(cs: seq<Commit>, i: nat)
    requires i < |cs|
    ensures Size(cs[i]) <= SizeAll(cs)
  {
    if i > 0 { SizeMember(cs[1..], i - 1); }
  }

  lemma {:induction false} AncestorIsSmaller(a: Commit, x: Commit)
    requires IsAncestor(a, x)
    ensures a == x || Size(a) < Size(x)
  {
    if a != x {
      if IsAncestor(a, x.first) {
        AncestorIsSmaller(a, x.first);
      } else {
        var i :| 0 <= i < |x.others| && IsAncestor(a, x.others[i]);
        AncestorIsSmaller(a, x.others[i]);
        SizeMember(x.others, i);
      }
    }
  }

  lemma {:induction false} AncestorTransitive(a: Commit, b: Commit, c: Commit)
    requires IsAncestor(a, b) && IsAncestor(b, c)
    ensures IsAncestor(a, c)
    decreases c
  {
    if b != c {
      if IsAncestor(b, c.first) {
        AncestorTransitive(a, b, c.first);
      } else {
        var i :| 0 <= i < |c.others| && IsAncestor(b, c.others[i]);
        AncestorTransitive(a, b, c.others[i]);
      }
    }
  }

  /** `b` lies on the first-parent line of `c`. */
  predicate OnLine(b: Commit, c: Commit) {
    b == c || (c.Child? && OnLine(b, c.first))
  }

  lemma {:induction false} LineIsAncestry(b: Commit, c: Commit)
    requires OnLine(b, c)
    ensures IsAncestor(b, c)
  {
    if b != c { LineIsAncestry(b, c.first); }
  }

  // ---------------------------------------------------------------- ranges

  /** `git rev-list --first-parent --reverse x..tip`. */
  function Range(x: Commit, tip: Commit): seq<Commit> {
    if IsAncestor(tip, x) then [] else (if tip.Child? then Range(x, tip.first) else []) + [tip]
  }

  /** The tree just before the range: of the newest commit of the line that `x` contains. */
  function BaseTree(x: Commit, tip: Commit): Tree {
    if IsAncestor(tip, x) then tip.tree else if tip.Child? then BaseTree(x, tip.first) else map[]
  }

  /** Each commit of the list is the first-parent child of the one before it. */
  ghost predicate Linked(base: Tree, cs: seq<Commit>) {
    && (cs != [] ==> ParentTree(cs[0]) == base)
    && (forall i :: 0 < i < |cs| ==> cs[i].Child? && cs[i].first == cs[i - 1])
  }

  lemma {:induction false} RangeIsLinked(x: Commit, tip: Commit)
    ensures var r := Range(x, tip);
            && Linked(BaseTree(x, tip), r)
            && (r != [] ==> r[|r| - 1] == tip)
            && (r == [] <==> IsAncestor(tip, x))
            && (r == [] ==> BaseTree(x, tip) == tip.tree)
  {
    if !IsAncestor(tip, x) && tip.Child? {
      RangeIsLinked(x, tip.first);
    }
  }

  /** Splitting a range at a commit of the line that is not in `x` itself. */
  lemma {:induction false} RangeSplits(x: Commit, b: Commit, c: Commit)
    requires OnLine(b, c)
    requires !IsAncestor(b, x)
    ensures Range(x, c) == Range(x, b) + Range(b, c)
    ensures BaseTree(x, c) == BaseTree(x, b)
  {
    if b == c {
      assert Range(b, c) == [];
    } else {
      RangeSplits(x, b, c.first);
      if IsAncestor(c, x) {
        LineIsAncestry(b, c);
        AncestorTransitive(b, c, x);
      }
      NotItsOwnAncestor(b, c);
      assert Range(x, c) == Range(x, c.first) + [c];
      assert Range(b, c) == Range(b, c.first) + [c];
    }
  }

  lemma NotItsOwnAncestor(b: Commit, c: Commit)
    requires OnLine(b, c) && b != c
    ensures !IsAncestor(c, b)
  {
    LineIsAncestry(b, c);
    AncestorIsSmaller(b, c);
    if IsAncestor(c, b) { AncestorIsSmaller(c, b); }
  }

  lemma {:induction false} LinkedSizes(base: Tree, cs: seq<Commit>, i: nat, j: nat)
    requires Linked(base, cs) && i < j < |cs|
    ensures Size(cs[i]) < Size(cs[j])
  {
    if i + 1 < j { LinkedSizes(base, cs, i, j - 1); }
  }

  /** A linked list has no repeats. */
  lemma LinkedDistinct(base: Tree, cs: seq<Commit>)
    requires Linked(base, cs)
    ensures forall i, j :: 0 <= i < j < |cs| ==> cs[i] != cs[j]
  {
    forall i, j | 0 <= i < j < |cs| ensures cs[i] != cs[j] { LinkedSizes(base, cs, i, j); }
  }

  lemma LinkedPrefix(base: Tree, cs: seq<Commit>, n: nat)
    requires Linked(base, cs) && n <= |cs|
    ensures Linked(base, cs[..n])
  {
  }

  /** The tree after the first `i` commits of a linked list. */
  function TreeAt(base: Tree, cs: seq<Commit>, i: nat): Tree
    requires i <= |cs|
  {
    if i == 0 then base else cs[i - 1].tree
  }

  lemma LinkedTrees(base: Tree, cs: seq<Commit>, i: nat)
    requires Linked(base, cs) && i < |cs|
    ensures ParentTree(cs[i]) == TreeAt(base, cs, i)
  {
  }
}
