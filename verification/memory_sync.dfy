/**
 record-memory/hook.py and links.py: keeping the repository's memory files and
 the tool's own copies in step by hardlinks, or symlinks where linking fails.

 A file is an inode; a symlink points at the same name in the other store.
 Contents belong to inodes and are never written here, so equal inodes mean
 equal contents.
 */
module MemorySync {
  import opened Options

  type Name = string

  datatype Node = File(inode: nat) | LinkToPeer

  datatype Store = Source | Repo

  /** One name in both stores. */
  datatype Pair = Pair(source: Option<Node>, repo: Option<Node>)

  /** The inode a name resolves to in one store; None for a missing entry or a dangling or looping link. */
  function Inode(p: Pair, at: Store): Option<nat> {
    var (here, there) := if at == Source then (p.source, p.repo) else (p.repo, p.source);
    if here.None? then None
    else if here.value.File? then Some(here.value.inode)
    else if there.Some? && there.value.File? then Some(there.value.inode)
    else None
  }

  predicate SameInode(p: Pair) {
    Inode(p, Source).Some? && Inode(p, Source) == Inode(p, Repo)
  }

  // --------------------------------------------------------------- one link

  function EntryIn(p: Pair, at: Store): Option<Node> {
    if at == Source then p.source else p.repo
  }

  function SetEntry(p: Pair, at: Store, node: Option<Node>): Pair {
    if at == Source then p.(source := node) else p.(repo := node)
  }

  function Other(at: Store): Store {
    if at == Source then Repo else Source
  }

  /** `link_file`: make the other store's entry the same file; a symlink to it or the same inode is left as it is. */
  function Linked(p: Pair, from: Store, linkable: bool): Pair {
    var ino := Inode(p, from);
    if ino.None? || EntryIn(p, Other(from)) == Some(LinkToPeer) || SameInode(p) then p
    else SetEntry(p, Other(from), Some(if linkable then File(ino.value) else LinkToPeer))
  }

  /** What one synchronization does to one name. */
  function Synced(p: Pair, marked: bool, linkable: bool): Pair {
    if p.source.Some? then
      if Inode(p, Repo).None? then (if marked then p.(source := None) else Linked(p, Source, linkable))
      else if SameInode(p) then p
      else Linked(p, Repo, linkable)
    else if p.repo.Some? then Linked(p, Repo, linkable)
    else p
  }

  // --------------------------------------------------------------- the stores

  function PairIn(source: map<Name, Node>, repo: map<Name, Node>, name: Name): Pair {
    Pair(if name in source then Some(source[name]) else None, if name in repo then Some(repo[name]) else None)
  }

  /** `marked`: git history has a delete marker for the name; `linkable`: a hardlink can be made. */
  class MemoryStores {
    var source: map<Name, Node>
    var repo: map<Name, Node>
    const marked: Name -> bool
    const linkable: Name -> bool

    constructor (source: map<Name, Node>, repo: map<Name, Node>, marked: Name -> bool, linkable: Name -> bool)
      ensures this.source == source && this.repo == repo && this.marked == marked && this.linkable == linkable
    {
      this.source, this.repo, this.marked, this.linkable := source, repo, marked, linkable;
    }

    function At(name: Name): Pair
      reads this
    {
      PairIn(source, repo, name)
    }

    method LinkFile(name: Name, from: Store) returns (changed: bool)
      modifies this
      ensures At(name) == Linked(old(At(name)), from, linkable(name))
      ensures forall n :: n != name ==> At(n) == old(At(n))
      ensures changed <==> At(name) != old(At(name))
    {
      var p := At(name);
      var ino := Inode(p, from);
      if ino.None? { return false; }
      if EntryIn(p, Other(from)) == Some(LinkToPeer) { return false; }
      if SameInode(p) { return false; }
      var node := if linkable(name) then File(ino.value) else LinkToPeer;
      if from == Source {
        repo := repo[name := node];
      } else {
        source := source[name := node];
      }
      return true;
    }

    /** The names in one directory, in some order. */
    method Listing(entries: map<Name, Node>) returns (names: seq<Name>)
      ensures forall n :: n in names <==> n in entries
      ensures forall i, j :: 0 <= i < j < |names| ==> names[i] != names[j]
    {
      names := [];
      var left := entries.Keys;
      while left != {}
        invariant left <= entries.Keys
        invariant forall n :: n in names <==> n in entries && n !in left
        invariant forall i, j :: 0 <= i < j < |names| ==> names[i] != names[j]
        decreases |left|
      {
        var n :| n in left;
        names := names + [n];
        left := left - {n};
      }
    }

    /** First pass, over the tool's own copies. */
    method SyncSource(names: seq<Name>) returns (changed: seq<Name>)
      requires forall n :: n in names <==> n in source
      requires forall i, j :: 0 <= i < j < |names| ==> names[i] != names[j]
      modifies this
      ensures forall n :: At(n) == if n in old(source) then Synced(old(At(n)), marked(n), linkable(n)) else old(At(n))
      ensures forall n :: n in changed <==> n in old(source) && old(At(n)).repo != At(n).repo
    {
      changed := [];
      for i := 0 to |names|
        invariant forall n :: At(n) == if n in names[..i] then Synced(old(At(n)), marked(n), linkable(n))
              else old(At(n))
        invariant forall n :: n in changed <==> n in names[..i] && old(At(n)).repo != At(n).repo
      {
        var name := names[i];
        assert name !in names[..i];
        assert names[..i + 1] == names[..i] + [name];
        var p := At(name);
        if Inode(p, Repo).None? {
          if marked(name) {
            source := source - {name};
          } else {
            var linked := LinkFile(name, Source);
            if linked { changed := changed + [name]; }
          }
        } else if !SameInode(p) {
          var _ := LinkFile(name, Repo);
        }
      }
      assert names[..|names|] == names;
    }

    /** Second pass, over the repository's files that had no copy. */
    method SyncRepo(names: seq<Name>, seen: set<Name>)
      requires forall n :: n in names <==> n in repo
      requires forall i, j :: 0 <= i < j < |names| ==> names[i] != names[j]
      modifies this
      ensures forall n :: At(n) == if n in old(repo) && n !in seen then Linked(old(At(n)), Repo, linkable(n))
            else old(At(n))
    {
      for i := 0 to |names|
        invariant forall n :: At(n) == if n in names[..i] && n !in seen then Linked(old(At(n)), Repo, linkable(n))
              else old(At(n))
      {
        assert names[i] !in names[..i];
        assert names[..i + 1] == names[..i] + [names[i]];
        if names[i] in seen { continue; }
        var _ := LinkFile(names[i], Repo);
      }
      assert names[..|names|] == names;
    }

    /** `_sync_all`: every name of either store is synchronized on its own. */
    method SyncAll() returns (changed: seq<Name>)
      modifies this
      ensures forall n :: At(n) == Synced(old(At(n)), marked(n), linkable(n))
      ensures forall n :: n in changed <==> old(At(n)).source.Some? && old(At(n)).repo != At(n).repo
    {
      var names := Listing(source);
      var seen := set n | n in names;
      changed := SyncSource(names);
      var repoNames := Listing(repo);
      SyncRepo(repoNames, seen);
    }
  }

  // ------------------------------------------------------------ what it means

  /** Every entry there is resolves. */
  predicate Healthy(p: Pair) {
    && (p.source.Some? ==> Inode(p, Source).Some?)
    && (p.repo.Some? ==> Inode(p, Repo).Some?)
  }

  /** Both stores have the name with the same file behind it, or neither has it. */
  predicate InStep(p: Pair) {
    Healthy(p) && (p.source.Some? <==> p.repo.Some?) && Inode(p, Source) == Inode(p, Repo)
  }

  /**
   A name is brought into step exactly when no link dangled, or the only entry was a
   dangling copy marked as deleted.
   */
  lemma InStepIff(p: Pair, marked: bool, linkable: bool)
    ensures InStep(Synced(p, marked, linkable)) <==>
          Healthy(p) || (p.source == Some(LinkToPeer) && p.repo.None? && marked)
  {
  }

  /**
   For a healthy name, one synchronization leaves a repository file as it was,
   removes a copy exactly when the repository lacks the name and its deletion is
   marked, otherwise keeps the repository's content or adopts the copy's, and a
   second one changes nothing.
   */
  lemma Converges(p: Pair, marked: bool, linkable: bool)
    requires Healthy(p)
    ensures var p' := Synced(p, marked, linkable);
      && InStep(p')
      && (p.repo.Some? ==> p'.repo == p.repo && Inode(p', Repo) == Inode(p, Repo))
      && (p.source.Some? && p'.source.None? <==> p.source.Some? && p.repo.None? && marked)
      && (p.source.Some? && p.repo.None? && !marked ==> Inode(p', Repo) == Inode(p, Source) && p'.source == p.source)
      && forall marked', linkable' :: Synced(p', marked', linkable') == p'
  {
  }

  /**
   An entry that a synchronization makes is a file exactly where a hardlink can be
   made, the very file behind the other store's name; else it is a symlink to it.
   */
  lemma NewEntryKind(p: Pair, marked: bool, linkable: bool, at: Store)
    ensures var p' := Synced(p, marked, linkable);
      EntryIn(p', at) != EntryIn(p, at) && EntryIn(p', at).Some? ==>
        && (EntryIn(p', at).value.File? <==> linkable)
        && Inode(p', at).Some? && Inode(p', at) == Inode(p, Other(at))
  {
  }

  /** Stores as `SyncAll` leaves them. */
  ghost predicate SyncedStores(
      source: map<Name, Node>, repo: map<Name, Node>, source': map<Name, Node>, repo': map<Name, Node>,
                               marked: Name -> bool, linkable: Name -> bool) {
    forall n :: PairIn(source', repo', n) == Synced(PairIn(source, repo, n), marked(n), linkable(n))
  }

  /**
   Whole stores: the same names on both sides, no repository file gone or
   replaced, copies gone only for unlisted names marked as deleted, and stores
   that a second synchronization leaves exactly as they are.
   */
  lemma StoresConverge(source: map<Name, Node>, repo: map<Name, Node>, source': map<Name, Node>, repo': map<Name, Node>,
                       marked: Name -> bool, linkable: Name -> bool)
    requires SyncedStores(source, repo, source', repo', marked, linkable)
    requires forall n :: Healthy(PairIn(source, repo, n))
    ensures source'.Keys == repo'.Keys
    ensures forall n :: n in source' ==> SameInode(PairIn(source', repo', n))
    ensures forall n :: n in repo ==> n in repo' && repo'[n] == repo[n]
    ensures forall n :: n in source && n !in source' <==> n in source && n !in repo && marked(n)
    ensures forall source'', repo'', marked', linkable' ::
              SyncedStores(source', repo', source'', repo'', marked', linkable') ==>
                source'' == source' && repo'' == repo'
  {
    forall n
      ensures InStep(PairIn(source', repo', n))
      ensures n in repo ==> n in repo' && repo'[n] == repo[n]
      ensures n in source && n !in source' <==> n in source && n !in repo && marked(n)
      ensures forall m, l :: Synced(PairIn(source', repo', n), m, l) == PairIn(source', repo', n)
    {
      Converges(PairIn(source, repo, n), marked(n), linkable(n));
    }
    forall n ensures n in source' <==> n in repo' { assert InStep(PairIn(source', repo', n)); }
    forall source'', repo'', marked', linkable' | SyncedStores(source', repo', source'', repo'', marked', linkable')
      ensures source'' == source' && repo'' == repo'
    {
      forall n ensures PairIn(source'', repo'', n) == PairIn(source', repo', n) {}
      SamePairs(source', repo', source'', repo'');
    }
  }

  lemma SamePairs(source: map<Name, Node>, repo: map<Name, Node>, source': map<Name, Node>, repo': map<Name, Node>)
    requires forall n :: PairIn(source', repo', n) == PairIn(source, repo, n)
    ensures source' == source && repo' == repo
  {
    forall n ensures (n in source' <==> n in source) && (n in repo' <==> n in repo) {
      assert PairIn(source', repo', n) == PairIn(source, repo, n);
    }
    forall n | n in source ensures source'[n] == source[n] {
      assert PairIn(source', repo', n) == PairIn(source, repo, n);
    }
    forall n | n in repo ensures repo'[n] == repo[n] { assert PairIn(source', repo', n) == PairIn(source, repo, n); }
  }
}
