/**
 The reverse direction run again after the branches have grown: what it adds to
 the unclean line, and when a reconstruction key occurs twice.
 */
module NextRun {
  import opened Options
  import opened GitTree
  import opened Commits
  import opened SyncSplits
  import opened SyncUnclean
  import opened BucketOrder
  import opened Halves
  import opened Rebuild
  import opened Rewrite
  import opened Rerun

  // ----------------------------------------------------------------- buckets

  predicate HasKey(infos: seq<CommitInfo>, k: Key, resolves: Commit -> bool) {
    exists i :: 0 <= i < |infos| && KeyFor(infos[i], resolves) == k
  }

  predicate Once(keys: seq<Key>) {
    forall i, j :: 0 <= i < j < |keys| ==> keys[i] != keys[j]
  }

  /** One of the infos, under its key. */
  predicate Filed(infos: seq<CommitInfo>, k: Key, info: CommitInfo, resolves: Commit -> bool) {
    info in infos && KeyFor(info, resolves) == k
  }

  /** Dict keys and their order agree, without repeats. */
  ghost predicate Dict(bs: Buckets) {
    Once(bs.order) && forall k :: k in bs.order <==> k in bs.at
  }

  lemma HasKeySnoc(infos: seq<CommitInfo>, info: CommitInfo, k: Key, resolves: Commit -> bool)
    ensures HasKey(infos + [info], k, resolves) <==> HasKey(infos, k, resolves) || KeyFor(info, resolves) == k
  {
    var all := infos + [info];
    if HasKey(infos, k, resolves) {
      var i :| 0 <= i < |infos| && KeyFor(infos[i], resolves) == k;
      assert all[i] == infos[i];
    }
    assert all[|infos|] == info;
  }

  lemma AddedDict(bs: Buckets, side: Side, info: CommitInfo, resolves: Commit -> bool)
    requires Dict(bs) && AddInfo(bs, side, info, resolves).Ok?
    ensures var bs' := AddInfo(bs, side, info, resolves).value;
      Dict(bs') && forall k :: k in bs'.at <==> k in bs.at || k == KeyFor(info, resolves)
  {
  }

  /** Adding a side's infos adds exactly their keys. */
  lemma {:induction false} SideKeys(bs: Buckets, side: Side, infos: seq<CommitInfo>, resolves: Commit -> bool)
    requires Dict(bs) && AddSide(bs, side, infos, resolves).Ok?
    ensures var bs' := AddSide(bs, side, infos, resolves).value;
      Dict(bs') && forall k :: k in bs'.at <==> k in bs.at || HasKey(infos, k, resolves)
  {
    if infos != [] {
      var n := |infos| - 1;
      assert infos == infos[..n] + [infos[n]];
      SideKeys(bs, side, infos[..n], resolves);
      AddedDict(AddSide(bs, side, infos[..n], resolves).value, side, infos[n], resolves);
      forall k { HasKeySnoc(infos[..n], infos[n], k, resolves); }
    }
  }

  /** What a side's slots hold, and what the other side's slots held before. */
  predicate SlotsFiled(bs: Buckets, side: Side, infos: seq<CommitInfo>, resolves: Commit -> bool) {
    forall k :: k in bs.at && SlotOf(bs.at[k], side).Some? ==> Filed(infos, k, SlotOf(bs.at[k], side).value, resolves)
  }

  lemma FiledLonger(infos: seq<CommitInfo>, last: CommitInfo, k: Key, info: CommitInfo, resolves: Commit -> bool)
    requires Filed(infos, k, info, resolves)
    ensures Filed(infos + [last], k, info, resolves)
  {
  }

  lemma AddedFiled(bs: Buckets, side: Side, infos: seq<CommitInfo>, info: CommitInfo, resolves: Commit -> bool)
    requires SlotsFiled(bs, side, infos, resolves) && AddInfo(bs, side, info, resolves).Ok?
    requires side == CleanSide || side == HistorySide
    ensures SlotsFiled(AddInfo(bs, side, info, resolves).value, side, infos + [info], resolves)
  {
    var bs' := AddInfo(bs, side, info, resolves).value;
    forall k | k in bs'.at && SlotOf(bs'.at[k], side).Some?
      ensures Filed(infos + [info], k, SlotOf(bs'.at[k], side).value, resolves)
    {
      if k != KeyFor(info, resolves) { FiledLonger(infos, info, k, SlotOf(bs.at[k], side).value, resolves); }
    }
  }

  lemma {:induction false} SideFiled(bs: Buckets, side: Side, infos: seq<CommitInfo>, resolves: Commit -> bool)
    requires SlotsFiled(bs, side, [], resolves) && AddSide(bs, side, infos, resolves).Ok?
    requires side == CleanSide || side == HistorySide
    ensures SlotsFiled(AddSide(bs, side, infos, resolves).value, side, infos, resolves)
  {
    if infos != [] {
      var n := |infos| - 1;
      assert infos == infos[..n] + [infos[n]];
      SideFiled(bs, side, infos[..n], resolves);
      AddedFiled(AddSide(bs, side, infos[..n], resolves).value, side, infos[..n], infos[n], resolves);
    }
  }

  lemma {:induction false} CleanStays(
      bs: Buckets, cs: seq<CommitInfo>, infos: seq<CommitInfo>, resolves: Commit -> bool)
    requires SlotsFiled(bs, CleanSide, cs, resolves) && AddSide(bs, HistorySide, infos, resolves).Ok?
    ensures SlotsFiled(AddSide(bs, HistorySide, infos, resolves).value, CleanSide, cs, resolves)
  {
    if infos != [] { CleanStays(bs, cs, infos[..|infos| - 1], resolves); }
  }

  /** Buckets of a run: one a key of its infos, each side's slot filled from that side under that key. */
  ghost predicate Bucketed(bs: Buckets, cs: seq<CommitInfo>, ds: seq<CommitInfo>, resolves: Commit -> bool) {
    && Dict(bs) && (forall k :: k in bs.at <==> HasKey(cs, k, resolves) || HasKey(ds, k, resolves))
    && SlotsFiled(bs, CleanSide, cs, resolves) && SlotsFiled(bs, HistorySide, ds, resolves)
  }

  lemma BucketsAre(cs: seq<CommitInfo>, ds: seq<CommitInfo>, resolves: Commit -> bool)
    requires BucketAll(cs, ds, resolves).Ok?
    ensures Bucketed(BucketAll(cs, ds, resolves).value, cs, ds, resolves)
  {
    SideKeys(NO_BUCKETS, CleanSide, cs, resolves);
    SideFiled(NO_BUCKETS, CleanSide, cs, resolves);
    var bs := AddSide(NO_BUCKETS, CleanSide, cs, resolves).value;
    SideKeys(bs, HistorySide, ds, resolves);
    NoHistoryYet(NO_BUCKETS, cs, resolves);
    SideFiled(bs, HistorySide, ds, resolves);
    CleanStays(bs, cs, ds, resolves);
  }

  lemma {:induction false} NoHistoryYet(bs: Buckets, cs: seq<CommitInfo>, resolves: Commit -> bool)
    requires SlotsFiled(bs, HistorySide, [], resolves) && AddSide(bs, CleanSide, cs, resolves).Ok?
    ensures SlotsFiled(AddSide(bs, CleanSide, cs, resolves).value, HistorySide, [], resolves)
  {
    if cs != [] { NoHistoryYet(bs, cs[..|cs| - 1], resolves); }
  }

  // ----------------------------------------------------------- keys to build

  /** A key with nothing on the unclean branch yet, as far as a plan looks. */
  predicate IsNew(k: Key, keyToSha: map<Commit, Commit>) {
    k.Matched? ==> k.sha !in keyToSha
  }

  lemma {:induction false} BuildsNew(keys: seq<Key>, keyToSha: map<Commit, Commit>)
    ensures forall k :: k in KeysToBuild(keys, keyToSha) <==> k in keys && IsNew(k, keyToSha)
    ensures Once(keys) ==> Once(KeysToBuild(keys, keyToSha))
  {
    if keys != [] {
      var n := |keys| - 1;
      assert keys == keys[..n] + [keys[n]];
      BuildsNew(keys[..n], keyToSha);
      if Once(keys) { assert keys[n] !in keys[..n]; }
    }
  }

  function KeysIn(es: seq<OrderEntry>): (r: seq<Key>)
    ensures |r| == |es| && forall i :: 0 <= i < |es| ==> r[i] == es[i].key
  {
    if es == [] then [] else KeysIn(es[..|es| - 1]) + [es[|es| - 1].key]
  }

  lemma {:induction false} InsertKeepsKeys(e: OrderEntry, es: seq<OrderEntry>, order: seq<Commit>)
    ensures multiset(KeysIn(InsertEntry(e, es, order))) == multiset(KeysIn(es)) + multiset{e.key}
  {
    if es == [] {
      assert KeysIn([e]) == [e.key];
    } else {
      var init, last := es[..|es| - 1], es[|es| - 1];
      assert es == init + [last];
      KeysInSnoc(init, last);
      if KeyLess(OrderKey(e, order), OrderKey(last, order)) {
        InsertKeepsKeys(e, init, order);
        KeysInSnoc(InsertEntry(e, init, order), last);
      } else {
        KeysInSnoc(es, e);
      }
    }
  }

  lemma KeysInSnoc(es: seq<OrderEntry>, e: OrderEntry)
    ensures KeysIn(es + [e]) == KeysIn(es) + [e.key]
  {
  }

  lemma {:induction false} SortKeepsKeys(es: seq<OrderEntry>, order: seq<Commit>)
    ensures multiset(KeysIn(SortEntries(es, order))) == multiset(KeysIn(es))
  {
    if es != [] {
      SortKeepsKeys(es[..|es| - 1], order);
      InsertKeepsKeys(es[|es| - 1], SortEntries(es[..|es| - 1], order), order);
    }
  }

  lemma OnceByCount(keys: seq<Key>)
    ensures Once(keys) <==> forall k :: multiset(keys)[k] <= 1
  {
    if Once(keys) { CountOnce(keys); }
    if i, j :| 0 <= i < j < |keys| && keys[i] == keys[j] { CountTwice(keys, i, j); }
  }

  lemma {:induction false} CountOnce(keys: seq<Key>)
    requires Once(keys)
    ensures forall k :: multiset(keys)[k] <= 1
  {
    if keys != [] {
      var n := |keys| - 1;
      assert keys == keys[..n] + [keys[n]];
      CountOnce(keys[..n]);
      assert keys[n] !in keys[..n];
    }
  }

  lemma CountTwice(keys: seq<Key>, i: nat, j: nat)
    requires i < j < |keys| && keys[i] == keys[j]
    ensures multiset(keys)[keys[i]] >= 2
  {
    assert keys == keys[..j] + [keys[j]] + keys[j + 1..];
    assert keys[i] in keys[..j];
  }

  // -------------------------------------------------------------- the plan

  /** An entry stands for its key: each side it has is one of that side's infos, under that key. */
  predicate Stands(e: OrderEntry, cs: seq<CommitInfo>, ds: seq<CommitInfo>, resolves: Commit -> bool) {
    && HasSide(e)
    && (e.bucket.clean.Some? ==> Filed(cs, e.key, e.bucket.clean.value, resolves))
    && (e.bucket.history.Some? ==> Filed(ds, e.key, e.bucket.history.value, resolves))
  }

  predicate AllStand(es: seq<OrderEntry>, cs: seq<CommitInfo>, ds: seq<CommitInfo>, resolves: Commit -> bool) {
    forall i :: 0 <= i < |es| ==> Stands(es[i], cs, ds, resolves)
  }

  lemma EntriesStand(
      keys: seq<Key>, bs: Buckets, cs: seq<CommitInfo>, ds: seq<CommitInfo>, order: seq<Commit>,
      resolves: Commit -> bool)
    requires Filled(bs.at, keys) && SlotsFiled(bs, CleanSide, cs, resolves) && SlotsFiled(bs, HistorySide, ds, resolves)
    ensures AllStand(EntriesFor(keys, bs.at, cs, ds, order, resolves), cs, ds, resolves)
    ensures KeysIn(EntriesFor(keys, bs.at, cs, ds, order, resolves)) == keys
  {
    var es := EntriesFor(keys, bs.at, cs, ds, order, resolves);
    forall i | 0 <= i < |es| ensures Stands(es[i], cs, ds, resolves) {
      var b := bs.at[keys[i]];
      assert b.clean.Some? ==> SlotOf(b, CleanSide) == b.clean;
      assert b.history.Some? ==> SlotOf(b, HistorySide) == b.history;
    }
  }

  lemma SortedStand(
      es: seq<OrderEntry>, order: seq<Commit>, cs: seq<CommitInfo>, ds: seq<CommitInfo>, resolves: Commit -> bool)
    requires AllStand(es, cs, ds, resolves)
    ensures AllStand(SortEntries(es, order), cs, ds, resolves)
  {
    var sorted := SortEntries(es, order);
    SortSorts(es, order);
    forall i | 0 <= i < |sorted| ensures Stands(sorted[i], cs, ds, resolves) {
      assert sorted[i] in multiset(sorted);
      var j :| 0 <= j < |es| && es[j] == sorted[i];
    }
  }

  /** Exactly the keys of the infos that are new, each once. */
  ghost predicate PlansKeys(
      keys: seq<Key>, cs: seq<CommitInfo>, ds: seq<CommitInfo>, keyToSha: map<Commit, Commit>, resolves: Commit -> bool)
  {
    && Once(keys)
    && forall k :: k in keys <==> (HasKey(cs, k, resolves) || HasKey(ds, k, resolves)) && IsNew(k, keyToSha)
  }

  lemma SortedKeys(es: seq<OrderEntry>, order: seq<Commit>)
    requires Once(KeysIn(es))
    ensures Once(KeysIn(SortEntries(es, order)))
    ensures forall k :: k in KeysIn(SortEntries(es, order)) <==> k in KeysIn(es)
  {
    var a, b := KeysIn(es), KeysIn(SortEntries(es, order));
    SortKeepsKeys(es, order);
    OnceByCount(a);
    OnceByCount(b);
    forall k ensures k in b <==> k in a { assert k in multiset(b) <==> k in multiset(a); }
  }

  /** What a plan is, whatever the refs. */
  lemma PlanIs(r: ReconRefs, force: bool, f: Fixed, t: Tools)
    requires EntriesToBuild(r, force, f, t).Ok?
    ensures NewInfos(r, f, t).Ok?
    ensures var (cs, ds) := NewInfos(r, f, t).value; var es := EntriesToBuild(r, force, f, t).value;
      && PlansKeys(KeysIn(es), cs, ds, KeyToSha(LineOf(r.unclean)), f.resolves)
      && AllStand(es, cs, ds, f.resolves)
  {
    var (cs, ds) := NewInfos(r, f, t).value;
    var bs := BucketAll(cs, ds, f.resolves).value;
    var order, m := KeysOf(LineOf(r.unclean)), KeyToSha(LineOf(r.unclean));
    BucketsAre(cs, ds, f.resolves);
    BucketAllWellFormed(cs, ds, f.resolves);
    PlannedKeys(bs, cs, ds, order, m, f.resolves);
  }

  lemma PlannedKeys(
      bs: Buckets, cs: seq<CommitInfo>, ds: seq<CommitInfo>, order: seq<Commit>, m: map<Commit, Commit>,
      resolves: Commit -> bool)
    requires Bucketed(bs, cs, ds, resolves) && Filled(bs.at, bs.order)
    ensures Filled(bs.at, KeysToBuild(bs.order, m))
    ensures var es := SortEntries(EntriesFor(KeysToBuild(bs.order, m), bs.at, cs, ds, order, resolves), order);
      PlansKeys(KeysIn(es), cs, ds, m, resolves) && AllStand(es, cs, ds, resolves)
  {
    var keys := KeysToBuild(bs.order, m);
    BuildsNew(bs.order, m);
    KeysToBuildFilled(bs.order, m, bs.at);
    var es := EntriesFor(keys, bs.at, cs, ds, order, resolves);
    EntriesStand(keys, bs, cs, ds, order, resolves);
    SortedStand(es, order, cs, ds, resolves);
    SortedKeys(es, order);
  }

  // ------------------------------------------------------------ what is built

  predicate InfosUnnamed(infos: seq<CommitInfo>) {
    forall info :: info in infos ==> ReadReconstructed(info.sha.msg.trailers) == None
  }

  lemma EntryNamesKey(e: OrderEntry, extra: ExtraText)
    requires HasSide(e)
    requires e.bucket.clean.Some? ==> ReadReconstructed(e.bucket.clean.value.sha.msg.trailers) == None
    requires e.bucket.history.Some? ==> ReadReconstructed(e.bucket.history.value.sha.msg.trailers) == None
    ensures EntryMark(e, extra) == Some(e.key.sha)
  {
    var clean, history := e.bucket.clean, e.bucket.history;
    var m := if clean.Some? && history.Some? then MergeMessage(clean.value.sha.msg, history.value.sha.msg, extra)
             else if clean.Some? then clean.value.sha.msg else history.value.sha.msg;
    ReadWritten(m.trailers, [ReconstructedFrom(e.key.sha)]);
    assert [ReconstructedFrom(e.key.sha)][0] == ReconstructedFrom(e.key.sha);
  }

  /** One commit a key, naming it. */
  predicate Names(made: seq<Commit>, keys: seq<Key>) {
    |made| == |keys| && forall i :: 0 <= i < |made| ==> ReadReconstructed(made[i].msg.trailers) == Some(keys[i].sha)
  }

  lemma BuiltNames(
      base: Commit, es: seq<OrderEntry>, cs: seq<CommitInfo>, ds: seq<CommitInfo>, resolves: Commit -> bool, t: Tools,
      extra: ExtraText)
    requires Buildable(es) && AllStand(es, cs, ds, resolves) && InfosUnnamed(cs) && InfosUnnamed(ds)
    ensures Names(BuiltList(base, es, t, extra), KeysIn(es))
  {
    var made := BuiltList(base, es, t, extra);
    forall i | 0 <= i < |made| ensures ReadReconstructed(made[i].msg.trailers) == Some(es[i].key.sha) {
      BuiltAt(base, es, i, t, extra);
      assert Stands(es[i], cs, ds, resolves);
      EntryNamesKey(es[i], extra);
    }
  }

  function Shas(keys: seq<Key>): (r: seq<Commit>)
    ensures |r| == |keys| && forall i :: 0 <= i < |keys| ==> r[i] == keys[i].sha
  {
    if keys == [] then [] else Shas(keys[..|keys| - 1]) + [keys[|keys| - 1].sha]
  }

  /** The keys of a line grow by those of what is added. */
  lemma {:induction false} KeysGrow(line: seq<Commit>, made: seq<Commit>, keys: seq<Key>)
    requires Names(made, keys)
    ensures KeysOf(line + made) == KeysOf(line) + Shas(keys)
  {
    if made == [] {
      assert line + made == line;
    } else {
      var n := |made| - 1;
      assert (line + made)[..|line + made| - 1] == line + made[..n];
      KeysGrow(line, made[..n], keys[..n]);
    }
  }

  // ----------------------------------------------------- when a key repeats

  /** An unmatched key that the line names already, or that some other commit's source is. */
  predicate Clashes(k: Key, keys: seq<Key>, named: seq<Commit>) {
    k.Unmatched? && (k.sha in named || Matched(k.sha) in keys)
  }

  lemma DistinctIff(named: seq<Commit>, keys: seq<Key>)
    requires Once(keys) && forall k :: k in keys && k.Matched? ==> k.sha !in named
    ensures Distinct(named + Shas(keys)) <==> Distinct(named) && forall k :: k in keys ==> !Clashes(k, keys, named)
  {
    var all := named + Shas(keys);
    if Distinct(all) {
      assert forall i :: 0 <= i < |named| ==> all[i] == named[i];
      forall k | k in keys ensures !Clashes(k, keys, named) { NoClash(named, keys, k); }
    }
    if Distinct(named) && forall k :: k in keys ==> !Clashes(k, keys, named) {
      forall i, j | 0 <= i < j < |all| ensures all[i] != all[j] { PairApart(named, keys, i, j); }
    }
  }

  lemma NoClash(named: seq<Commit>, keys: seq<Key>, k: Key)
    requires Distinct(named + Shas(keys)) && k in keys
    ensures !Clashes(k, keys, named)
  {
    var all, n := named + Shas(keys), |named|;
    var j :| 0 <= j < |keys| && keys[j] == k;
    assert all[n + j] == k.sha;
    forall i | 0 <= i < n ensures named[i] != k.sha { assert all[i] == named[i]; }
    forall i | 0 <= i < |keys| && i != j ensures keys[i].sha != k.sha { assert all[n + i] == keys[i].sha; }
  }

  lemma PairApart(named: seq<Commit>, keys: seq<Key>, i: nat, j: nat)
    requires Once(keys) && Distinct(named) && i < j < |named| + |keys|
    requires forall k :: k in keys && k.Matched? ==> k.sha !in named
    requires forall k :: k in keys ==> !Clashes(k, keys, named)
    ensures (named + Shas(keys))[i] != (named + Shas(keys))[j]
  {
    var n := |named|;
    if j >= n {
      var k := keys[j - n];
      assert k in keys && !Clashes(k, keys, named);
      if i >= n {
        var l := keys[i - n];
        assert l in keys && !Clashes(l, keys, named) && l != k;
      }
    }
  }

  // ------------------------------------------------------------ build order

  /** Where in the known lineage the nearest earlier commit stands whose source is known; -1 if none is. */
  lemma {:induction false} PrecedingIs(infos: seq<CommitInfo>, idx: nat, order: seq<Commit>, resolves: Commit -> bool)
    requires idx <= |infos|
    ensures var p := PrecedingMatched(infos, idx, order, resolves);
      if p == -1 then forall i :: 0 <= i < idx ==> !InLineage(KeyFor(infos[i], resolves), order)
      else exists i :: (
        && 0 <= i < idx && InLineage(KeyFor(infos[i], resolves), order)
        && p == IndexOf(order, KeyFor(infos[i], resolves).sha)
        && forall j :: i < j < idx ==> !InLineage(KeyFor(infos[j], resolves), order))
  {
    if idx > 0 && !InLineage(KeyFor(infos[idx - 1], resolves), order) {
      PrecedingIs(infos, idx - 1, order, resolves);
    }
  }

  /** Behind the same known commit; then by date; then clean before history-only. */
  predicate GoesFirst(a: OrderEntry, b: OrderEntry) {
    || a.preceding < b.preceding
    || (a.preceding == b.preceding && a.date < b.date)
    || (a.preceding == b.preceding && a.date == b.date && (a.isClean || !b.isClean))
  }

  /** The order a run builds in, whatever lineage there is. */
  lemma PlanInOrder(r: ReconRefs, force: bool, f: Fixed, t: Tools, i: nat, j: nat)
    requires EntriesToBuild(r, force, f, t).Ok? && i < j < |EntriesToBuild(r, force, f, t).value|
    ensures GoesFirst(EntriesToBuild(r, force, f, t).value[i], EntriesToBuild(r, force, f, t).value[j])
  {
    var order := KeysOf(LineOf(r.unclean));
    PlansOnlyNew(r, force, f, t);
    PlanSorted(r, force, f, t);
    var es := EntriesToBuild(r, force, f, t).value;
    assert !InLineage(es[i].key, order) && !InLineage(es[j].key, order);
    assert NotAfter(es[i], es[j], order);
  }

  lemma PlanSorted(r: ReconRefs, force: bool, f: Fixed, t: Tools)
    requires EntriesToBuild(r, force, f, t).Ok?
    ensures Sorted(EntriesToBuild(r, force, f, t).value, KeysOf(LineOf(r.unclean)))
  {
    var (cs, ds) := NewInfos(r, f, t).value;
    var bs := BucketAll(cs, ds, f.resolves).value;
    var order, m := KeysOf(LineOf(r.unclean)), KeyToSha(LineOf(r.unclean));
    BucketAllWellFormed(cs, ds, f.resolves);
    KeysToBuildFilled(bs.order, m, bs.at);
    SortSorts(EntriesFor(KeysToBuild(bs.order, m), bs.at, cs, ds, order, f.resolves), order);
  }

  /**
   The message of a pair whose two subjects differ: all of clean's but its
   trailers, history's text behind clean's body, and the key as its only trailer.
   With no such text, or equal subjects, it is clean's message with the key added.
   */
  lemma RewordedMessage(key: Key, b: Bucket, extra: ExtraText)
    requires b.clean.Some? && b.history.Some?
    ensures var c, h := b.clean.value.sha.msg, b.history.value.sha.msg; var m := BucketMessage(key, b, extra);
      && m.subject == c.subject && m.author == c.author && m.date == c.date
      && (if c.subject != h.subject && extra(h) != ""
          then m.body == c.body + "\n\n---\n" + extra(h) && m.trailers == [ReconstructedFrom(key.sha)]
               && ReadReconstructed(m.trailers) == Some(key.sha)
          else m.body == c.body && (ReadReconstructed(c.trailers) == None ==>
               ReadReconstructed(m.trailers) == Some(key.sha)))
  {
    var m := MergeMessage(b.clean.value.sha.msg, b.history.value.sha.msg, extra);
    var add := [ReconstructedFrom(key.sha)];
    ReadWritten(m.trailers, add);
    assert add[0] == ReconstructedFrom(key.sha) && add[1..] == [];
    assert [] + add == add;
  }

  // ------------------------------------------------------------- the ranges

  /** What a line adds behind one of its commits is the range above that commit. */
  lemma {:induction false} TailIsRange(b: Commit, tip: Commit, xs: seq<Commit>)
    requires Line(tip) == Line(b) + xs
    ensures OnLine(b, tip) && IsAncestor(b, tip) && Range(b, tip) == xs
  {
    if xs == [] {
      assert Line(b) + [] == Line(b);
      assert Line(tip)[|Line(tip)| - 1] == tip && Line(b)[|Line(b)| - 1] == b;
      assert Range(b, b) == [];
    } else {
      TailStep(b, tip, xs);
      TailIsRange(b, tip.first, xs[..|xs| - 1]);
      RangeStep(b, tip);
    }
  }

  lemma TailStep(b: Commit, tip: Commit, xs: seq<Commit>)
    requires Line(tip) == Line(b) + xs && xs != []
    ensures tip.Child? && xs[|xs| - 1] == tip && Line(tip.first) == Line(b) + xs[..|xs| - 1]
    ensures tip != b
  {
    assert Line(tip)[|Line(tip)| - 1] == tip;
    assert Line(tip)[..|Line(tip)| - 1] == Line(b) + xs[..|xs| - 1];
    assert |Line(tip)| > |Line(b)| >= 1;
    assert Line(tip) == Line(tip.first) + [tip];
  }

  lemma RangeStep(b: Commit, tip: Commit)
    requires tip.Child? && tip != b && OnLine(b, tip.first)
    ensures OnLine(b, tip) && IsAncestor(b, tip) && Range(b, tip) == Range(b, tip.first) + [tip]
  {
    assert OnLine(b, tip);
    LineIsAncestry(b, tip);
    NotItsOwnAncestor(b, tip);
  }

  // ------------------------------------------------------------ one more run

  /** A branch that is not there, or that has grown by these commits. */
  predicate Grown(before: Option<Commit>, after: Option<Commit>, xs: seq<Commit>) {
    || (before.None? && after.None? && xs == [])
    || (before.Some? && after.Some? && Line(after.value) == Line(before.value) + xs)
  }

  lemma NewIsGrowth(
      before: Option<Commit>, after: Option<Commit>, cursor: Option<Commit>, xs: seq<Commit>, lowerBound: Commit,
      resolves: Commit -> bool)
    requires Grown(before, after, xs) && (before.Some? ==> cursor == before && resolves(before.value))
    ensures NewSinceCursor(after, cursor, lowerBound, resolves) == xs
  {
    if before.Some? { TailIsRange(before.value, after.value, xs); }
  }

  /** The refs of a caught-up pair of branches after both have grown. */
  predicate GrownRefs(r: ReconRefs, r': ReconRefs, xs: seq<Commit>, ys: seq<Commit>) {
    && r' == r.(clean := r'.clean, history := r'.history)
    && Grown(r.clean, r'.clean, xs) && Grown(r.history, r'.history, ys)
  }

  /** The infos of the added history commits. */
  function AddedHistory(ys: seq<Commit>, t: Tools): seq<CommitInfo> {
    ReadInfos(ys, t)
  }

  /** The infos of the added clean commits, under the sources that the added history commits give them. */
  function AddedClean(xs: seq<Commit>, ys: seq<Commit>, f: Fixed, t: Tools): seq<CommitInfo> {
    var m := SourceByClean(AddedHistory(ys, t), f.resolves);
    Correlated(ReadInfos(xs, t), if m.Ok? then m.value else map[])
  }

  lemma GrownInfos(r: ReconRefs, r': ReconRefs, xs: seq<Commit>, ys: seq<Commit>, f: Fixed, t: Tools)
    requires CaughtUp(r) && TipsResolve(r, f) && GrownRefs(r, r', xs, ys) && NewInfos(r', f, t).Ok?
    ensures NewInfos(r', f, t).value == (AddedClean(xs, ys, f, t), AddedHistory(ys, t))
  {
    NewIsGrowth(r.clean, r'.clean, r.cleanCursor, xs, f.main, f.resolves);
    NewIsGrowth(r.history, r'.history, r.historyCursor, ys, f.historyMain, f.resolves);
  }

  lemma UnnamedInfos(cs: seq<Commit>, m: map<Commit, Commit>, t: Tools)
    requires Unnamed(cs)
    ensures InfosUnnamed(ReadInfos(cs, t)) && InfosUnnamed(Correlated(ReadInfos(cs, t), m))
  {
  }

  /** Whether some added commit goes under the key. */
  predicate Added(k: Key, xs: seq<Commit>, ys: seq<Commit>, f: Fixed, t: Tools) {
    HasKey(AddedClean(xs, ys, f, t), k, f.resolves) || HasKey(AddedHistory(ys, t), k, f.resolves)
  }

  /** Commits that no forward run has stamped. */
  predicate Unsplit(cs: seq<Commit>) {
    forall i :: 0 <= i < |cs| ==> ReadSource(cs[i].msg.trailers) == None && ReadCleanCommit(cs[i].msg.trailers) == None
  }

  lemma {:induction false} NoneGathered(infos: seq<CommitInfo>, resolves: Commit -> bool)
    requires forall i :: 0 <= i < |infos| ==> infos[i].cleanCommit == None
    ensures SourceByClean(infos, resolves) == Ok(map[])
  {
    if infos != [] { NoneGathered(infos[..|infos| - 1], resolves); }
  }

  lemma UnsplitInfos(xs: seq<Commit>, ys: seq<Commit>, f: Fixed, t: Tools)
    requires Unsplit(xs) && Unsplit(ys)
    ensures SourceByClean(AddedHistory(ys, t), f.resolves) == Ok(map[])
    ensures AddedClean(xs, ys, f, t) == ReadInfos(xs, t)
  {
    NoneGathered(AddedHistory(ys, t), f.resolves);
    var infos := ReadInfos(xs, t);
    assert forall i :: 0 <= i < |infos| ==> WithSource(infos[i], map[]) == infos[i];
  }

  lemma UnsplitKeys(cs: seq<Commit>, k: Key, resolves: Commit -> bool, t: Tools)
    requires Unsplit(cs)
    ensures HasKey(ReadInfos(cs, t), k, resolves) <==> k.Unmatched? && k.sha in cs
  {
    var infos := ReadInfos(cs, t);
    forall i | 0 <= i < |infos| ensures KeyFor(infos[i], resolves) == Unmatched(cs[i]) {}
    if k.Unmatched? && k.sha in cs {
      var i :| 0 <= i < |cs| && cs[i] == k.sha;
      assert KeyFor(infos[i], resolves) == k;
    }
  }

  /** Commits that no forward run has stamped each go under their own name. */
  lemma UnsplitAdded(xs: seq<Commit>, ys: seq<Commit>, k: Key, f: Fixed, t: Tools)
    requires Unsplit(xs) && Unsplit(ys)
    ensures Added(k, xs, ys, f, t) <==> k.Unmatched? && (k.sha in xs || k.sha in ys)
  {
    UnsplitInfos(xs, ys, f, t);
    UnsplitKeys(xs, k, f.resolves, t);
    UnsplitKeys(ys, k, f.resolves, t);
  }

  /** What a run adds to the line: one commit for each added key that is not on it yet. */
  ghost predicate Adds(
      line: seq<Commit>, made: seq<Commit>, keys: seq<Key>, xs: seq<Commit>, ys: seq<Commit>, f: Fixed, t: Tools)
  {
    && |made| == |keys| && Once(keys)
    && (forall k :: k in keys <==> Added(k, xs, ys, f, t) && !(k.Matched? && k.sha in KeysOf(line)))
    && (Unnamed(xs) && Unnamed(ys) ==> Names(made, keys))
  }

  lemma PlanAdds(
      line: seq<Commit>, base: Commit, es: seq<OrderEntry>, xs: seq<Commit>, ys: seq<Commit>, f: Fixed, t: Tools,
      extra: ExtraText)
    requires Buildable(es) && AllStand(es, AddedClean(xs, ys, f, t), AddedHistory(ys, t), f.resolves)
    requires PlansKeys(KeysIn(es), AddedClean(xs, ys, f, t), AddedHistory(ys, t), KeyToSha(line), f.resolves)
    ensures Adds(line, BuiltList(base, es, t, extra), KeysIn(es), xs, ys, f, t)
  {
    var cs, ds := AddedClean(xs, ys, f, t), AddedHistory(ys, t);
    forall k { SameKeys(line, k); }
    if Unnamed(xs) && Unnamed(ys) {
      var m := SourceByClean(ds, f.resolves);
      UnnamedInfos(xs, if m.Ok? then m.value else map[], t);
      UnnamedInfos(ys, map[], t);
      BuiltNames(base, es, cs, ds, f.resolves, t, extra);
    }
  }

  /** A finished run without rewriting builds its plan on the line there was. */
  lemma RunBuilds(r: ReconRefs, force: bool, f: Fixed, t: Tools, extra: ExtraText)
    requires r.unclean.Some? && (r.clean.Some? || r.history.Some?)
    requires Reconstruct(r, false, force, f, t, extra).1 == None
    ensures EntriesToBuild(r, force, f, t).Ok?
    ensures var es := EntriesToBuild(r, force, f, t).value; var r' := Reconstruct(r, false, force, f, t, extra).0;
      && r'.unclean.Some?
      && Line(r'.unclean.value) == Line(r.unclean.value) + BuiltList(r.unclean.value, es, t, extra)
  {
    BuiltLine(r.unclean.value, EntriesToBuild(r, force, f, t).value, t, extra);
  }

  /** One more run on caught-up branches that have grown. */
  lemma NextRunAdds(
      r: ReconRefs, r': ReconRefs, xs: seq<Commit>, ys: seq<Commit>, force: bool, f: Fixed, t: Tools,
      extra: ExtraText) returns (made: seq<Commit>, keys: seq<Key>)
    requires CaughtUp(r) && TipsResolve(r, f) && r.unclean.Some? && (r.clean.Some? || r.history.Some?)
    requires GrownRefs(r, r', xs, ys) && Reconstruct(r', false, force, f, t, extra).1 == None
    ensures var after := Reconstruct(r', false, force, f, t, extra).0.unclean;
      && after.Some? && Line(after.value) == Line(r.unclean.value) + made
      && Adds(Line(r.unclean.value), made, keys, xs, ys, f, t)
  {
    RunBuilds(r', force, f, t, extra);
    PlanIs(r', force, f, t);
    GrownInfos(r, r', xs, ys, f, t);
    var es := EntriesToBuild(r', force, f, t).value;
    made, keys := BuiltList(r.unclean.value, es, t, extra), KeysIn(es);
    PlanAdds(Line(r.unclean.value), r.unclean.value, es, xs, ys, f, t, extra);
  }

  /** An added commit goes unmatched under a name that the line, or another added commit's source, has too. */
  ghost predicate NamedTwice(named: seq<Commit>, xs: seq<Commit>, ys: seq<Commit>, f: Fixed, t: Tools) {
    exists c :: Added(Unmatched(c), xs, ys, f, t) && (c in named || Added(Matched(c), xs, ys, f, t))
  }

  lemma RepeatsIff(
      line: seq<Commit>, made: seq<Commit>, keys: seq<Key>, xs: seq<Commit>, ys: seq<Commit>, f: Fixed, t: Tools)
    requires Adds(line, made, keys, xs, ys, f, t) && Unnamed(xs) && Unnamed(ys)
    ensures Distinct(KeysOf(line + made)) <==> Distinct(KeysOf(line)) && !NamedTwice(KeysOf(line), xs, ys, f, t)
  {
    var named := KeysOf(line);
    KeysGrow(line, made, keys);
    DistinctIff(named, keys);
    ClashMeans(keys, named, xs, ys, f, t);
  }

  lemma ClashMeans(keys: seq<Key>, named: seq<Commit>, xs: seq<Commit>, ys: seq<Commit>, f: Fixed, t: Tools)
    requires forall k :: k in keys <==> Added(k, xs, ys, f, t) && !(k.Matched? && k.sha in named)
    ensures (exists k :: k in keys && Clashes(k, keys, named)) <==> NamedTwice(named, xs, ys, f, t)
  {
    if k :| k in keys && Clashes(k, keys, named) { assert Added(Unmatched(k.sha), xs, ys, f, t); }
    if c :| Added(Unmatched(c), xs, ys, f, t) && (c in named || Added(Matched(c), xs, ys, f, t)) {
      assert Unmatched(c) in keys && Clashes(Unmatched(c), keys, named);
    }
  }

  /**
   The next run.  After a run got to its end the branches grow by xs and ys, and
   the run is repeated without rewriting.  The unclean line keeps what it had and
   gets exactly one commit for each source, or unmatched commit, among xs and ys
   whose source it does not name already.  No reconstruction key repeats then,
   exactly if none did before and no unmatched one of them is named otherwise.
   */
  lemma RunAfterGrowth(
      r: ReconRefs, r': ReconRefs, xs: seq<Commit>, ys: seq<Commit>, allowRewrite: bool, force: bool, again: bool,
      f: Fixed, t: Tools, extra: ExtraText) returns (made: seq<Commit>, keys: seq<Key>)
    requires Reconstruct(r, allowRewrite, force, f, t, extra).1 == None && TipsResolve(r, f)
    requires r.clean.Some? || r.history.Some?
    requires GrownRefs(Reconstruct(r, allowRewrite, force, f, t, extra).0, r', xs, ys)
    requires Reconstruct(r', false, again, f, t, extra).1 == None
    ensures var before := Reconstruct(r, allowRewrite, force, f, t, extra).0.unclean;
            var after := Reconstruct(r', false, again, f, t, extra).0.unclean;
      && before.Some? && after.Some? && Line(after.value) == Line(before.value) + made
      && Adds(Line(before.value), made, keys, xs, ys, f, t)
      && (Unnamed(xs) && Unnamed(ys) ==>
            (Distinct(KeysOf(Line(after.value)))
             <==> Distinct(KeysOf(Line(before.value))) && !NamedTwice(KeysOf(Line(before.value)), xs, ys, f, t)))
  {
    FinishedIsCaughtUp(r, allowRewrite, force, f, t, extra);
    var r1 := Reconstruct(r, allowRewrite, force, f, t, extra).0;
    made, keys := NextRunAdds(r1, r', xs, ys, again, f, t, extra);
    if Unnamed(xs) && Unnamed(ys) { RepeatsIff(Line(r1.unclean.value), made, keys, xs, ys, f, t); }
  }
}
