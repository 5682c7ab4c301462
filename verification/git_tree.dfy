/**
 Trees, diffs and the two index-based tree builders of tree_ops.py.

 A tree maps a path to its entry.  `git diff-tree -M --name-status` is not
 computed here: any change list that satisfies `IsDiff` is a possible answer.
 */
module GitTree {

  type Path = string

  /** The object type git compares for its "T" status: file, symlink or submodule. */
  datatype Kind = Regular | Symlink | Submodule

  datatype Entry = Entry(kind: Kind, blob: string)

  type Tree = map<Path, Entry>

  datatype PathChange =
    | Added(path: Path)
    | Modified(path: Path)
    | Deleted(path: Path)
    | Renamed(oldPath: Path, path: Path)
    | Copied(oldPath: Path, path: Path)
    | TypeChanged(path: Path)

  /** Which paths a tree builder lets through. */
  datatype Side = CleanSide | HistorySide | BothSides

  predicate Keeps(side: Side, ai: Path -> bool, p: Path) {
    match side
    case CleanSide => !ai(p)
    case HistorySide => ai(p)
    case BothSides => true
  }

  predicate SameAt(a: Tree, b: Tree, p: Path) {
    (p in a <==> p in b) && (p in a && p in b ==> a[p] == b[p])
  }

  /** Both present, but with a different object type: reported as "T". */
  predicate KindFlip(a: Tree, b: Tree, p: Path) {
    p in a && p in b && a[p].kind != b[p].kind
  }

  /** `a` and `b` coincide on every path of one side. */
  ghost predicate Agree(side: Side, ai: Path -> bool, a: Tree, b: Tree) {
    forall p :: Keeps(side, ai, p) ==> SameAt(a, b, p)
  }

  function DiffPaths(a: Tree, b: Tree): (ps: set<Path>)
    ensures forall p :: p in ps <==> !SameAt(a, b, p)
  {
    set p | p in a.Keys + b.Keys && !SameAt(a, b, p)
  }

  /** The result of taking the paths of `touched` from `over` and all others from `base`. */
  function Override(base: Tree, over: Tree, touched: set<Path>): (t: Tree)
    ensures forall p :: SameAt(t, if p in touched then over else base, p)
  {
    map p | p in base.Keys + over.Keys && (if p in touched then p in over else p in base) ::
      if p in touched then over[p] else base[p]
  }

  // ---------------------------------------------------------------- diffs

  /** The paths the tree builders act on for one change; they have no branch for "T". */
  function Touches(ch: PathChange): set<Path> {
    match ch
    case Renamed(o, p) => {o, p}
    case TypeChanged(_) => {}
    case _ => {ch.path}
  }

  function Touched(changes: seq<PathChange>): (ps: set<Path>)
    ensures forall p :: p in ps <==> exists i :: 0 <= i < |changes| && p in Touches(changes[i])
  {
    if changes == [] then {} else
      var n := |changes| - 1;
      assert changes == changes[..n] + [changes[n]];
      Touched(changes[..n]) + Touches(changes[n])
  }

  /** What one reported change says about the two trees. */
  predicate TrueOf(ch: PathChange, a: Tree, b: Tree) {
    match ch
    case Added(p) => p !in a && p in b
    case Modified(p) => p in a && p in b && a[p] != b[p] && a[p].kind == b[p].kind
    case Deleted(p) => p in a && p !in b
    case Renamed(o, p) => o in a && o !in b && p !in a && p in b
    case Copied(_, p) => p !in a && p in b
    case TypeChanged(p) => KindFlip(a, b, p)
  }

  predicate Mentions(ch: PathChange, p: Path) {
    ch.path == p || (ch.Renamed? && ch.oldPath == p)
  }

  /** A possible answer of `git diff-tree -M -r --name-status a b`. */
  ghost predicate IsDiff(a: Tree, b: Tree, changes: seq<PathChange>) {
    && (forall i :: 0 <= i < |changes| ==> TrueOf(changes[i], a, b))
    && (forall p :: !SameAt(a, b, p) ==> exists i :: 0 <= i < |changes| && Mentions(changes[i], p))
  }

  /** A diff command: rename detection may pair paths in any way that stays true. */
  ghost predicate GitDiff(diff: (Tree, Tree) -> seq<PathChange>) {
    forall a: Tree, b: Tree :: IsDiff(a, b, diff(a, b))
  }

  /** The builders act on exactly the changed paths whose object type did not flip. */
  lemma TouchedByDiff(a: Tree, b: Tree, changes: seq<PathChange>, p: Path)
    requires IsDiff(a, b, changes)
    ensures p in Touched(changes) <==> !SameAt(a, b, p) && !KindFlip(a, b, p)
  {
    if p in Touched(changes) {
      var i :| 0 <= i < |changes| && p in Touches(changes[i]);
      assert TrueOf(changes[i], a, b);
    }
    if !SameAt(a, b, p) && !KindFlip(a, b, p) {
      var i :| 0 <= i < |changes| && Mentions(changes[i], p);
      assert TrueOf(changes[i], a, b);
      assert p in Touches(changes[i]);
    }
  }

  // ------------------------------------------------------- the tree builders

  /** One iteration of the builders' loop, as a function of the scratch index. */
  function ApplyChange(t: Tree, ch: PathChange, blobs: Tree, side: Side, ai: Path -> bool): Tree {
    match ch
    case Added(p) => if Keeps(side, ai, p) && p in blobs then t[p := blobs[p]] else t
    case Modified(p) => if Keeps(side, ai, p) && p in blobs then t[p := blobs[p]] else t
    case Deleted(p) => if Keeps(side, ai, p) then t - {p} else t
    case Renamed(o, p) =>
      var t' := if Keeps(side, ai, o) then t - {o} else t;
      if Keeps(side, ai, p) && p in blobs then t'[p := blobs[p]] else t'
    case Copied(_, p) => if Keeps(side, ai, p) && p in blobs then t[p := blobs[p]] else t
    case TypeChanged(_) => t
  }

  function ApplyAll(t: Tree, changes: seq<PathChange>, blobs: Tree, side: Side, ai: Path -> bool): Tree {
    if changes == [] then t else
      var n := |changes| - 1;
      ApplyChange(ApplyAll(t, changes[..n], blobs, side, ai), changes[n], blobs, side, ai)
  }

  predicate Fits(ch: PathChange, blobs: Tree) {
    match ch
    case Deleted(p) => p !in blobs
    case Renamed(o, p) => o !in blobs && p in blobs
    case TypeChanged(_) => true
    case _ => ch.path in blobs
  }

  /** No change removes a path that the blob source still has, or adds one it lacks. */
  ghost predicate FitsBlobs(changes: seq<PathChange>, blobs: Tree) {
    forall i :: 0 <= i < |changes| ==> Fits(changes[i], blobs)
  }

  function KeptPaths(ps: set<Path>, side: Side, ai: Path -> bool): set<Path> {
    set p | p in ps && Keeps(side, ai, p)
  }

  lemma ApplyChangeAt(t: Tree, ch: PathChange, blobs: Tree, side: Side, ai: Path -> bool, p: Path)
    requires Fits(ch, blobs)
    ensures SameAt(ApplyChange(t, ch, blobs, side, ai), if p in Touches(ch) && Keeps(side, ai, p) then blobs else t, p)
  {
  }

  /** The loop of either builder overrides the base exactly on the touched, kept paths. */
  lemma {:induction false} ApplyAllIsOverride(
      t: Tree, changes: seq<PathChange>, blobs: Tree, side: Side, ai: Path -> bool)
    requires FitsBlobs(changes, blobs)
    ensures ApplyAll(t, changes, blobs, side, ai) == Override(t, blobs, KeptPaths(Touched(changes), side, ai))
  {
    if changes == [] {
    } else {
      var n := |changes| - 1;
      var ch := changes[n];
      assert FitsBlobs(changes[..n], blobs) by {
        forall i | 0 <= i < n ensures changes[..n][i] == changes[i] {}
      }
      ApplyAllIsOverride(t, changes[..n], blobs, side, ai);
      var r0 := ApplyAll(t, changes[..n], blobs, side, ai);
      assert Touched(changes) == Touched(changes[..n]) + Touches(ch);
      forall p ensures SameAt(ApplyAll(t, changes, blobs, side, ai),
                              Override(t, blobs, KeptPaths(Touched(changes), side, ai)), p) {
        assert Fits(changes[n], blobs);
        ApplyChangeAt(r0, ch, blobs, side, ai, p);
      }
      SameEverywhere(ApplyAll(t, changes, blobs, side, ai), Override(t, blobs, KeptPaths(Touched(changes), side, ai)));
    }
  }

  lemma SameEverywhere(a: Tree, b: Tree)
    requires forall p :: SameAt(a, b, p)
    ensures a == b
  {
    forall p ensures p in a <==> p in b { assert SameAt(a, b, p); }
    forall p | p in a ensures a[p] == b[p] { assert SameAt(a, b, p); }
  }

  /** A rebuilt tree, path by path: what both builders promise for a commit's own diff. */
  lemma BuiltTree(t: Tree, a: Tree, b: Tree, changes: seq<PathChange>, side: Side, ai: Path -> bool)
    requires IsDiff(a, b, changes)
    ensures var r := ApplyAll(t, changes, b, side, ai);
            forall p :: SameAt(r, if Keeps(side, ai, p) && !SameAt(a, b, p) && !KindFlip(a, b, p) then b else t, p)
  {
    assert FitsBlobs(changes, b) by {
      forall i | 0 <= i < |changes| ensures TrueOf(changes[i], a, b) {}
    }
    ApplyAllIsOverride(t, changes, b, side, ai);
    forall p ensures p in Touched(changes) <==> !SameAt(a, b, p) && !KindFlip(a, b, p) {
      TouchedByDiff(a, b, changes, p);
    }
  }

  /**
   Replaying a commit's delta onto a target that agreed with the commit's parent
   makes it agree with the commit, on one side, exactly when no path of that
   side changed its object type: "T" entries fall through both builders' branches.
   */
  lemma ReplayExactIffNoTypeChange(t: Tree, a: Tree, b: Tree, changes: seq<PathChange>, side: Side, ai: Path -> bool)
    requires IsDiff(a, b, changes)
    requires Agree(side, ai, t, a)
    ensures Agree(side, ai, ApplyAll(t, changes, b, side, ai), b)
       <==> !exists i :: 0 <= i < |changes| && changes[i].TypeChanged? && Keeps(side, ai, changes[i].path)
  {
    var r := ApplyAll(t, changes, b, side, ai);
    BuiltTree(t, a, b, changes, side, ai);
    if i :| 0 <= i < |changes| && changes[i].TypeChanged? && Keeps(side, ai, changes[i].path) {
      var p := changes[i].path;
      assert TrueOf(changes[i], a, b);
      assert SameAt(r, t, p) && SameAt(t, a, p) && !SameAt(a, b, p);
      assert !SameAt(r, b, p);
    } else {
      forall p | Keeps(side, ai, p) ensures SameAt(r, b, p) {
        assert SameAt(t, a, p);
        assert KindFlip(a, b, p) ==> ListedFlip(changes, p) by { FlipIsListed(a, b, changes, p); }
      }
    }
  }

  ghost predicate ListedFlip(changes: seq<PathChange>, p: Path) {
    exists i :: 0 <= i < |changes| && changes[i] == TypeChanged(p)
  }

  lemma FlipIsListed(a: Tree, b: Tree, changes: seq<PathChange>, p: Path)
    requires IsDiff(a, b, changes)
    ensures KindFlip(a, b, p) <==> ListedFlip(changes, p)
  {
    if KindFlip(a, b, p) {
      assert !SameAt(a, b, p);
      var i :| 0 <= i < |changes| && Mentions(changes[i], p);
      assert TrueOf(changes[i], a, b);
    }
    if ListedFlip(changes, p) {
      var i :| 0 <= i < |changes| && changes[i] == TypeChanged(p);
      assert TrueOf(changes[i], a, b);
    }
  }

  // ------------------------------------------------------------ the loops

  /** The scratch index file that `GIT_INDEX_FILE` points at. */
  class ScratchIndex {
    var entries: Tree

    constructor ()
      ensures entries == map[]
    {
      entries := map[];
    }

    method ReadTree(t: Tree)
      modifies this
      ensures entries == t
    {
      entries := t;
    }

    method UpdateIndexAdd(p: Path, e: Entry)
      modifies this
      ensures entries == old(entries)[p := e]
    {
      entries := entries[p := e];
    }

    method UpdateIndexRemove(p: Path)
      modifies this
      ensures entries == old(entries) - {p}
    {
      entries := entries - {p};
    }
  }

  /** `git ls-tree sha -- path`, then add the entry if there is one. */
  method AddFromTree(index: ScratchIndex, blobs: Tree, p: Path)
    modifies index
    ensures index.entries == if p in blobs then old(index.entries)[p := blobs[p]] else old(index.entries)
  {
    if p in blobs {
      index.UpdateIndexAdd(p, blobs[p]);
    }
  }

  method BuildFilteredTree(
      parentTargetTree: Tree, changes: seq<PathChange>, commitTree: Tree, side: Side, ai: Path -> bool)
    returns (tree: Tree)
    ensures tree == ApplyAll(parentTargetTree, changes, commitTree, side, ai)
    ensures FitsBlobs(changes, commitTree) ==>
              tree == Override(parentTargetTree, commitTree, KeptPaths(Touched(changes), side, ai))
  {
    var index := new ScratchIndex();
    index.ReadTree(parentTargetTree);
    for i := 0 to |changes|
      invariant index.entries == ApplyAll(parentTargetTree, changes[..i], commitTree, side, ai)
    {
      var change := changes[i];
      assert changes[..i + 1][..i] == changes[..i];
      match change {
        case Added(p) =>
          if Keeps(side, ai, p) { AddFromTree(index, commitTree, p); }
        case Modified(p) =>
          if Keeps(side, ai, p) { AddFromTree(index, commitTree, p); }
        case Deleted(p) =>
          if Keeps(side, ai, p) { index.UpdateIndexRemove(p); }
        case Renamed(o, p) =>
          if Keeps(side, ai, o) { index.UpdateIndexRemove(o); }
          if Keeps(side, ai, p) { AddFromTree(index, commitTree, p); }
        case Copied(_, p) =>
          if Keeps(side, ai, p) { AddFromTree(index, commitTree, p); }
        case TypeChanged(_) =>
      }
    }
    assert changes[..|changes|] == changes;
    tree := index.entries;
    if FitsBlobs(changes, commitTree) {
      ApplyAllIsOverride(parentTargetTree, changes, commitTree, side, ai);
    }
  }

  /** `apply_path_changes` has the same loop without a `keep` test. */
  method ApplyPathChanges(baseTree: Tree, changes: seq<PathChange>, treeForBlobs: Tree, ai: Path -> bool)
    returns (tree: Tree)
    ensures tree == ApplyAll(baseTree, changes, treeForBlobs, BothSides, ai)
    ensures FitsBlobs(changes, treeForBlobs) ==> tree == Override(baseTree, treeForBlobs, Touched(changes))
  {
    tree := BuildFilteredTree(baseTree, changes, treeForBlobs, BothSides, ai);
    assert KeptPaths(Touched(changes), BothSides, ai) == Touched(changes);
  }

  // --------------------------------------------- a diff command exists

  function PlainChange(a: Tree, b: Tree, p: Path): PathChange {
    if p !in a then Added(p)
    else if p !in b then Deleted(p)
    else if a[p].kind != b[p].kind then TypeChanged(p)
    else Modified(p)
  }

  /** A diff without rename detection, listing one path after the other. */
  ghost function PlainDiff(a: Tree, b: Tree, ps: set<Path>): seq<PathChange> {
    if ps == {} then [] else
      var p :| p in ps;
      [PlainChange(a, b, p)] + PlainDiff(a, b, ps - {p})
  }

  /** All changes of the list are true, and every one of the paths is mentioned. */
  ghost predicate Lists(a: Tree, b: Tree, d: seq<PathChange>, ps: set<Path>) {
    && (forall i :: 0 <= i < |d| ==> TrueOf(d[i], a, b))
    && (forall p :: p in ps ==> exists i :: 0 <= i < |d| && Mentions(d[i], p))
  }

  lemma ListsOneMore(a: Tree, b: Tree, ch: PathChange, rest: seq<PathChange>, ps: set<Path>)
    requires TrueOf(ch, a, b) && Lists(a, b, rest, ps - {ch.path})
    ensures Lists(a, b, [ch] + rest, ps)
  {
    var d := [ch] + rest;
    forall i | 0 <= i < |d| ensures TrueOf(d[i], a, b) {
      if i > 0 { assert d[i] == rest[i - 1]; }
    }
    forall q | q in ps ensures exists i :: 0 <= i < |d| && Mentions(d[i], q) {
      if q == ch.path {
        assert Mentions(d[0], q);
      } else {
        assert q in ps - {ch.path};
        var i :| 0 <= i < |rest| && Mentions(rest[i], q);
        assert d[i + 1] == rest[i];
      }
    }
  }

  lemma {:induction false} PlainDiffLists(a: Tree, b: Tree, ps: set<Path>)
    requires forall p :: p in ps ==> !SameAt(a, b, p)
    ensures Lists(a, b, PlainDiff(a, b, ps), ps)
  {
    if ps != {} {
      var d := PlainDiff(a, b, ps);
      var p := d[0].path;
      assert p in ps && d == [PlainChange(a, b, p)] + PlainDiff(a, b, ps - {p});
      PlainDiffLists(a, b, ps - {p});
      ListsOneMore(a, b, PlainChange(a, b, p), PlainDiff(a, b, ps - {p}), ps);
    }
  }

  /** Every pair of trees has a diff, so statements about all diff commands are not empty. */
  lemma SomeDiffExists(a: Tree, b: Tree)
    ensures IsDiff(a, b, PlainDiff(a, b, DiffPaths(a, b)))
  {
    PlainDiffLists(a, b, DiffPaths(a, b));
  }
}
