/**
 The build order of new buckets.

 Buckets reach the sort as dict order leaves them: those with a clean side
 first, then the history-only ones.  This file says when sorting restores an
 intended order.
 */
module BucketOrder {
  import opened Options
  import opened GitTree
  import opened Commits
  import opened SyncSplits
  import opened SyncUnclean

  predicate NotAfter(a: OrderEntry, b: OrderEntry, order: seq<Commit>) {
    !KeyLess(OrderKey(b, order), OrderKey(a, order))
  }

  /** No entry is smaller than one before it. */
  predicate Sorted(es: seq<OrderEntry>, order: seq<Commit>) {
    forall i, j :: 0 <= i < j < |es| ==> NotAfter(es[i], es[j], order)
  }

  /** No entry is smaller than its direct predecessor. */
  predicate Stepwise(es: seq<OrderEntry>, order: seq<Commit>) {
    forall i :: 0 < i < |es| ==> NotAfter(es[i - 1], es[i], order)
  }

  predicate AllNew(es: seq<OrderEntry>, order: seq<Commit>) {
    forall i :: 0 <= i < |es| ==> !InLineage(es[i].key, order)
  }

  lemma {:induction false} StepwiseIsSorted(es: seq<OrderEntry>, order: seq<Commit>, i: nat, j: nat)
    requires Stepwise(es, order) && i < j < |es|
    ensures NotAfter(es[i], es[j], order)
  {
    if i + 1 < j {
      StepwiseIsSorted(es, order, i, j - 1);
      assert NotAfter(es[j - 1], es[j], order);
    }
  }

  // ------------------------------------------------------------ the sort

  lemma {:induction false} InsertKeeps(e: OrderEntry, es: seq<OrderEntry>, order: seq<Commit>)
    ensures multiset(InsertEntry(e, es, order)) == multiset(es) + multiset{e}
  {
    if es != [] {
      var n := |es| - 1;
      assert es == es[..n] + [es[n]];
      InsertKeeps(e, es[..n], order);
    }
  }

  lemma {:induction false} InsertMember(e: OrderEntry, es: seq<OrderEntry>, order: seq<Commit>, i: nat)
    requires i < |InsertEntry(e, es, order)|
    ensures InsertEntry(e, es, order)[i] == e || InsertEntry(e, es, order)[i] in es
  {
    if es != [] {
      var n := |es| - 1;
      if KeyLess(OrderKey(e, order), OrderKey(es[n], order)) && i < |InsertEntry(e, es[..n], order)| {
        InsertMember(e, es[..n], order, i);
      }
    }
  }

  lemma {:induction false} InsertSorted(e: OrderEntry, es: seq<OrderEntry>, order: seq<Commit>)
    requires Sorted(es, order)
    ensures Sorted(InsertEntry(e, es, order), order)
  {
    if es == [] {
    } else {
      var n := |es| - 1;
      if KeyLess(OrderKey(e, order), OrderKey(es[n], order)) {
        var r := InsertEntry(e, es[..n], order);
        InsertSorted(e, es[..n], order);
        forall i | 0 <= i < |r| ensures NotAfter(r[i], es[n], order) { InsertMember(e, es[..n], order, i); }
      } else {
        forall i | 0 <= i < |es| ensures NotAfter(es[i], e, order) {
          if i < n { assert NotAfter(es[i], es[n], order); }
        }
      }
    }
  }

  lemma {:induction false} SortKeeps(es: seq<OrderEntry>, order: seq<Commit>)
    ensures multiset(SortEntries(es, order)) == multiset(es)
  {
    if es != [] {
      var n := |es| - 1;
      SortKeeps(es[..n], order);
      InsertKeeps(es[n], SortEntries(es[..n], order), order);
      assert es == es[..n] + [es[n]];
    }
  }

  /** The sort returns the same entries, in nondecreasing key order. */
  lemma {:induction false} SortSorts(es: seq<OrderEntry>, order: seq<Commit>)
    ensures Sorted(SortEntries(es, order), order)
    ensures multiset(SortEntries(es, order)) == multiset(es)
  {
    SortKeeps(es, order);
    if es != [] {
      var n := |es| - 1;
      SortSorts(es[..n], order);
      InsertSorted(es[n], SortEntries(es[..n], order), order);
    }
  }

  lemma {:induction false} SortedStays(es: seq<OrderEntry>, order: seq<Commit>)
    requires Sorted(es, order)
    ensures SortEntries(es, order) == es
  {
    if es != [] {
      var n := |es| - 1;
      SortedStays(es[..n], order);
      if n > 0 { assert NotAfter(es[n - 1], es[n], order); }
      assert es == es[..n] + [es[n]];
    }
  }

  // --------------------------------------------- putting history-only ones in

  /** The entries with a clean side, and of the others those before position `k`. */
  function Placed(es: seq<OrderEntry>, k: nat): seq<OrderEntry> {
    if es == [] then [] else
      var n := |es| - 1;
      if es[n].isClean || n < k then Placed(es[..n], k) + [es[n]] else Placed(es[..n], k)
  }

  function HistoryOnly(es: seq<OrderEntry>): seq<OrderEntry> {
    if es == [] then [] else
      var n := |es| - 1;
      if es[n].isClean then HistoryOnly(es[..n]) else HistoryOnly(es[..n]) + [es[n]]
  }

  lemma {:induction false} PlacedAll(es: seq<OrderEntry>, k: nat)
    requires |es| <= k
    ensures Placed(es, k) == es
  {
    if es != [] {
      PlacedAll(es[..|es| - 1], k);
      assert es == es[..|es| - 1] + [es[|es| - 1]];
    }
  }

  lemma {:induction false} PlacedFrom(es: seq<OrderEntry>, k: nat, e: OrderEntry)
    requires e in Placed(es, k)
    ensures e in es
  {
    var n := |es| - 1;
    if !((es[n].isClean || n < k) && e == es[n]) { PlacedFrom(es[..n], k, e); }
  }

  lemma {:induction false} PlacedSorted(es: seq<OrderEntry>, k: nat, order: seq<Commit>)
    requires Sorted(es, order)
    ensures Sorted(Placed(es, k), order)
  {
    if es != [] {
      var n := |es| - 1;
      PlacedSorted(es[..n], k, order);
      forall i | 0 <= i < |Placed(es[..n], k)| ensures NotAfter(Placed(es[..n], k)[i], es[n], order) {
        PlacedFrom(es[..n], k, Placed(es[..n], k)[i]);
      }
    }
  }

  /** Placing a clean entry changes nothing further down. */
  lemma {:induction false} PlacedSkip(es: seq<OrderEntry>, k: nat)
    requires k < |es| ==> es[k].isClean
    ensures Placed(es, k + 1) == Placed(es, k)
  {
    if es != [] { PlacedSkip(es[..|es| - 1], k); }
  }

  /** Inserting the next history-only entry puts it exactly where it belongs. */
  lemma {:induction false} InsertPlaces(es: seq<OrderEntry>, k: nat, order: seq<Commit>)
    requires Sorted(es, order) && AllNew(es, order)
    requires k < |es| && !es[k].isClean
    ensures InsertEntry(es[k], Placed(es, k), order) == Placed(es, k + 1)
  {
    var n := |es| - 1;
    var init := es[..n];
    if k == n {
      PlacedAll(init, k);
      PlacedAll(init, k + 1);
      if n > 0 { assert NotAfter(es[n - 1], es[n], order); }
    } else {
      InsertPlaces(init, k, order);
      if es[n].isClean {
        assert NotAfter(es[k], es[n], order);
        assert KeyLess(OrderKey(es[k], order), OrderKey(es[n], order));
        assert Placed(es, k)[..|Placed(es, k)| - 1] == Placed(init, k);
      }
    }
  }

  lemma {:induction false} SortPlaces(es: seq<OrderEntry>, k: nat, order: seq<Commit>)
    requires Sorted(es, order) && AllNew(es, order) && k <= |es|
    ensures SortEntries(Placed(es, 0) + HistoryOnly(es[..k]), order) == Placed(es, k)
  {
    if k == 0 {
      PlacedSorted(es, 0, order);
      SortedStays(Placed(es, 0), order);
      assert Placed(es, 0) + HistoryOnly(es[..0]) == Placed(es, 0);
    } else {
      SortPlaces(es, k - 1, order);
      assert es[..k][..k - 1] == es[..k - 1];
      if es[k - 1].isClean {
        PlacedSkip(es, k - 1);
      } else {
        InsertPlaces(es, k - 1, order);
        var all := Placed(es, 0) + HistoryOnly(es[..k]);
        assert all == Placed(es, 0) + HistoryOnly(es[..k - 1]) + [es[k - 1]];
        assert all[..|all| - 1] == Placed(es, 0) + HistoryOnly(es[..k - 1]);
      }
    }
  }

  /**
   New buckets, handed over with the clean ones first, come out in the intended
   order exactly when that order never steps back in the sort key.
   */
  lemma OrderRestored(es: seq<OrderEntry>, order: seq<Commit>)
    requires AllNew(es, order)
    ensures SortEntries(Placed(es, 0) + HistoryOnly(es), order) == es <==> Stepwise(es, order)
  {
    if Stepwise(es, order) {
      forall i, j | 0 <= i < j < |es| ensures NotAfter(es[i], es[j], order) { StepwiseIsSorted(es, order, i, j); }
      SortPlaces(es, |es|, order);
      PlacedAll(es, |es|);
      assert es[..|es|] == es;
    }
    if SortEntries(Placed(es, 0) + HistoryOnly(es), order) == es {
      SortSorts(Placed(es, 0) + HistoryOnly(es), order);
    }
  }

  // -------------------------------------------------- what is built is new

  lemma {:induction false} SameKeys(cs: seq<Commit>, k: Commit)
    ensures k in KeyToSha(cs) <==> k in KeysOf(cs)
  {
    if cs != [] { SameKeys(cs[..|cs| - 1], k); }
  }

  lemma {:induction false} BuildsUnknown(keys: seq<Key>, keyToSha: map<Commit, Commit>)
    ensures forall k :: k in KeysToBuild(keys, keyToSha) ==> k.Unmatched? || k.sha !in keyToSha
  {
    if keys != [] { BuildsUnknown(keys[..|keys| - 1], keyToSha); }
  }

  /**
   Whatever the refs, no entry of a plan is in the known lineage: the sort key's
   first branch never applies, so `OrderRestored` speaks about every plan.
   */
  lemma PlansOnlyNew(r: ReconRefs, force: bool, f: Fixed, t: Tools)
    requires EntriesToBuild(r, force, f, t).Ok?
    ensures AllNew(EntriesToBuild(r, force, f, t).value, KeysOf(LineOf(r.unclean)))
  {
    var infos := NewInfos(r, f, t).value;
    BucketAllWellFormed(infos.0, infos.1, f.resolves);
    var bs := BucketAll(infos.0, infos.1, f.resolves).value;
    var order, keyToSha := KeysOf(LineOf(r.unclean)), KeyToSha(LineOf(r.unclean));
    KeysToBuildFilled(bs.order, keyToSha, bs.at);
    var keys := KeysToBuild(bs.order, keyToSha);
    var es := EntriesFor(keys, bs.at, infos.0, infos.1, order, f.resolves);
    BuildsUnknown(bs.order, keyToSha);
    SortSorts(es, order);
    var sorted := SortEntries(es, order);
    forall i | 0 <= i < |sorted| ensures !InLineage(sorted[i].key, order) {
      assert sorted[i] in multiset(sorted);
      var j :| 0 <= j < |es| && es[j] == sorted[i];
      assert es[j].key == keys[j] && keys[j] in keys;
      if keys[j].Matched? { SameKeys(LineOf(r.unclean), keys[j].sha); }
    }
  }
}
