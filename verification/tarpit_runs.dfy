/**
 Whole runs of the ban engine: when failures must trip a rule, and when a rule
 may trip at all.

 Every event is one critical section of the shared map.  Rules, their limits
 and their windows may differ from event to event.
 */
module TarpitRuns {
  import opened Options
  import opened Tarpit

  datatype Event =
    | Failure(key: Key, rules: seq<ThresholdRule>, now: Time)
    | Success(ip: string, user: Option<Uuid>)
    | Merge(bans: seq<AdminBan>, wall: int, at: Time)
    | KnownGood(ip: string)

  function MarkedGood(entries: Entries, ip: string): Entries {
    entries[Peer(ip) := EntryAt(entries, Peer(ip)).(bannerDripEligible := false)]
  }

  function Step(entries: Entries, ev: Event): Entries {
    match ev
    case Failure(key, rules, now) => Failed(entries, key, rules, now)
    case Success(ip, user) => Succeeded(entries, ip, user)
    case Merge(bans, wall, at) => Refreshed(entries, bans, wall, at)
    case KnownGood(ip) => MarkedGood(entries, ip)
  }

  function Run(entries: Entries, evs: seq<Event>): Entries {
    if evs == [] then entries else Step(Run(entries, evs[..|evs| - 1]), evs[|evs| - 1])
  }

  function TallyIn(entries: Entries, key: Key, id: Uuid): Option<Tally> {
    TallyOf(EntryAt(entries, key).tallies, id)
  }

  predicate Clears(ev: Event, key: Key) {
    ev.Success? && (key == Peer(ev.ip) || (ev.user.Some? && key == User(ev.user.value)))
  }

  predicate FailureOf(ev: Event, key: Key) {
    ev.Failure? && ev.key == key
  }

  /** What one event does to one tally. */
  lemma TallyStep(entries: Entries, ev: Event, key: Key, id: Uuid)
    ensures var t, t' := TallyIn(entries, key, id), TallyIn(Step(entries, ev), key, id);
      && (Clears(ev, key) ==> t' == None)
      && (!Clears(ev, key) && !FailureOf(ev, key) ==> t' == t)
      && (FailureOf(ev, key) && (forall i :: 0 <= i < |ev.rules| ==> ev.rules[i].id != id) ==> t' == t)
      && (FailureOf(ev, key) && DistinctIds(ev.rules) ==>
            forall i :: 0 <= i < |ev.rules| && ev.rules[i].id == id ==> t' == Some(Bump(t, ev.rules[i], ev.now)))
  {
    match ev
    case Failure(k, rules, now) =>
      if k == key {
        var tallies := EntryAt(entries, key).tallies;
        if forall i :: 0 <= i < |rules| ==> rules[i].id != id { ScanElsewhere(tallies, rules, now, id); }
        if DistinctIds(rules) {
          forall i | 0 <= i < |rules| && rules[i].id == id { ScanAt(tallies, rules, now, i); }
        }
      }
    case Success(ip, user) => SuccessKeepsBans(entries, ip, user, key);
    case Merge(bans, wall, at) => MergeKeepsLast(entries, bans, wall, at, key);
    case KnownGood(ip) =>
  }

  /** This event makes the rule trip for the key. */
  predicate TripsAt(entries: Entries, ev: Event, key: Key, r: ThresholdRule) {
    FailureOf(ev, key) && r in ev.rules && TripsNow(EntryAt(entries, key).tallies, r, ev.now)
  }

  // ------------------------------------------------------------- no false trip

  predicate WellKept(evs: seq<Event>) {
    forall i :: 0 <= i < |evs| && evs[i].Failure? ==> DistinctIds(evs[i].rules)
  }

  /**
   Failures are recorded in the order of the times they were read at, up to
   `skew`: the clock is read just before the lock is taken.
   */
  predicate InOrder(evs: seq<Event>, skew: nat) {
    forall i, j :: 0 <= i < j < |evs| && evs[i].Failure? && evs[j].Failure? ==> evs[i].now <= evs[j].now + skew
  }

  /** How many failures of the key were recorded at a time within the bounds. */
  function FailuresWithin(evs: seq<Event>, key: Key, lo: int, hi: int): nat {
    if evs == [] then 0 else
      var ev := evs[|evs| - 1];
      FailuresWithin(evs[..|evs| - 1], key, lo, hi) + if FailureOf(ev, key) && lo <= ev.now <= hi then 1 else 0
  }

  lemma {:induction false} WiderCountsMore(evs: seq<Event>, key: Key, lo: int, lo': int, hi: int, hi': int)
    requires lo' <= lo && hi <= hi'
    ensures FailuresWithin(evs, key, lo, hi) <= FailuresWithin(evs, key, lo', hi')
  {
    if evs != [] { WiderCountsMore(evs[..|evs| - 1], key, lo, lo', hi, hi'); }
  }

  /** Some failure was recorded at this time. */
  predicate ReadAt(evs: seq<Event>, time: Time) {
    exists i :: 0 <= i < |evs| && evs[i].Failure? && evs[i].now == time
  }

  predicate NoneAfter(evs: seq<Event>, hi: int) {
    forall i :: 0 <= i < |evs| && evs[i].Failure? ==> evs[i].now <= hi
  }

  /**
   The tally's window began at some failure, and it counts no more than the failures
   recorded since, up to the skew.
   */
  predicate Backed(evs: seq<Event>, key: Key, t: Tally, skew: nat, hi: int) {
    ReadAt(evs, t.since) && t.count <= FailuresWithin(evs, key, t.since - skew, hi)
  }

  lemma BackedLater(init: seq<Event>, ev: Event, key: Key, t: Tally, skew: nat, hi: int)
    requires Backed(init, key, t, skew, hi)
    ensures Backed(init + [ev], key, t, skew, hi)
  {
    var i :| 0 <= i < |init| && init[i].Failure? && init[i].now == t.since;
    assert (init + [ev])[i] == init[i];
    assert (init + [ev])[..|init|] == init;
  }

  /** One more failure of the key. */
  lemma BackedBump(init: seq<Event>, ev: Event, key: Key, t: Option<Tally>, r: ThresholdRule, skew: nat, hi: int)
    requires FailureOf(ev, key) && ev.now <= hi && InOrder(init + [ev], skew)
    requires t.Some? ==> Backed(init, key, t.value, skew, hi)
    ensures Backed(init + [ev], key, Bump(t, r, ev.now), skew, hi)
  {
    var evs := init + [ev];
    assert evs[..|init|] == init && evs[|init|] == ev;
    assert ReadAt(evs, ev.now);
    if t.Some? {
      BackedLater(init, ev, key, t.value, skew, hi);
      var i :| 0 <= i < |init| && init[i].Failure? && init[i].now == t.value.since;
      assert evs[i] == init[i] && evs[i].now <= ev.now + skew;
    }
  }

  lemma {:induction false} TallyIsBacked(evs: seq<Event>, key: Key, id: Uuid, skew: nat, hi: int)
    requires WellKept(evs) && InOrder(evs, skew) && NoneAfter(evs, hi)
    ensures var t := TallyIn(Run(map[], evs), key, id); t.Some? ==> Backed(evs, key, t.value, skew, hi)
  {
    if evs != [] {
      var n := |evs| - 1;
      var ev, init := evs[n], evs[..n];
      assert evs == init + [ev];
      TallyIsBacked(init, key, id, skew, hi);
      TallyStep(Run(map[], init), ev, key, id);
      var t := TallyIn(Run(map[], init), key, id);
      if FailureOf(ev, key) {
        forall i | 0 <= i < |ev.rules| { BackedBump(init, ev, key, t, ev.rules[i], skew, hi); }
      }
      if t.Some? { BackedLater(init, ev, key, t.value, skew, hi); }
    }
  }

  /**
   No false trip: whenever a rule trips, at least its limit of failures of that
   key were recorded within its window, this one included, give or take the skew.
   */
  lemma NoFalseTrip(evs: seq<Event>, key: Key, r: ThresholdRule, skew: nat)
    requires evs != [] && WellKept(evs) && InOrder(evs, skew)
    requires TripsAt(Run(map[], evs[..|evs| - 1]), evs[|evs| - 1], key, r)
    ensures var now := evs[|evs| - 1].now;
      FailuresWithin(evs, key, now - Window(r) - skew, now + skew) >= Limit(r)
  {
    var n := |evs| - 1;
    var init, now := evs[..n], evs[n].now;
    TallyIsBacked(init, key, r.id, skew, now + skew);
    var t := TallyIn(Run(map[], init), key, r.id);
    if t.Some? && Elapsed(now, t.value.since) <= Window(r) {
      WiderCountsMore(init, key, t.value.since - skew, now - Window(r) - skew, now + skew, now + skew);
    }
  }

  // ----------------------------------------------------------- detection bound

  /** A stretch in which the rule stands, the key never succeeds, and its failures fall within one window. */
  predicate Stretch(evs: seq<Event>, key: Key, r: ThresholdRule, from: Time) {
    forall i :: 0 <= i < |evs| ==>
      && !Clears(evs[i], key)
      && (FailureOf(evs[i], key) ==>
        DistinctIds(evs[i].rules) && r in evs[i].rules && from <= evs[i].now <= from + Window(r))
  }

  function CountOf(evs: seq<Event>, key: Key): nat {
    if evs == [] then 0 else CountOf(evs[..|evs| - 1], key) + if FailureOf(evs[|evs| - 1], key) then 1 else 0
  }

  predicate NoTrip(entries: Entries, evs: seq<Event>, key: Key, r: ThresholdRule) {
    evs == [] ||
      var n := |evs| - 1;
      NoTrip(entries, evs[..n], key, r) && !TripsAt(Run(entries, evs[..n]), evs[n], key, r)
  }

  /**
   After k failures without a trip, either the tally has counted all of them, or
   its window began inside the stretch, after fewer than the limit of them.
   */
  lemma {:induction false} TallyKeepsUp(entries: Entries, evs: seq<Event>, key: Key, r: ThresholdRule, from: Time)
    requires Stretch(evs, key, r, from) && Limit(r) >= 1 && NoTrip(entries, evs, key, r)
    ensures var k, t := CountOf(evs, key), TallyIn(Run(entries, evs), key, r.id);
      k > 0 ==>
        && t.Some? && t.value.count < Limit(r)
        && (t.value.count >= k || (t.value.since >= from && t.value.count >= k - Limit(r) + 1))
  {
    if evs != [] {
      var n := |evs| - 1;
      var init, ev := evs[..n], evs[n];
      assert Stretch(init, key, r, from) by { assert forall i :: 0 <= i < n ==> init[i] == evs[i]; }
      TallyKeepsUp(entries, init, key, r, from);
      TallyStep(Run(entries, init), ev, key, r.id);
      if FailureOf(ev, key) {
        assert r in evs[n].rules;
        var i :| 0 <= i < |ev.rules| && ev.rules[i] == r;
      }
    }
  }

  /**
   The detection bound: a rule of limit n trips at least once in any 2n - 1
   failures of one key that fall within one window, from any state and whatever
   happens to other keys and rules in between.
   */
  lemma DetectionBound(entries: Entries, evs: seq<Event>, key: Key, r: ThresholdRule, from: Time)
    requires Stretch(evs, key, r, from) && Limit(r) >= 1
    requires CountOf(evs, key) >= 2 * Limit(r) - 1
    ensures exists i :: 0 <= i < |evs| && TripsAt(Run(entries, evs[..i]), evs[i], key, r)
  {
    if NoTrip(entries, evs, key, r) {
      TallyKeepsUp(entries, evs, key, r, from);
    } else {
      var i := SomeTrip(entries, evs, key, r);
    }
  }

  lemma {:induction false} SomeTrip(entries: Entries, evs: seq<Event>, key: Key, r: ThresholdRule) returns (i: nat)
    requires !NoTrip(entries, evs, key, r)
    ensures i < |evs| && TripsAt(Run(entries, evs[..i]), evs[i], key, r)
  {
    var n := |evs| - 1;
    if TripsAt(Run(entries, evs[..n]), evs[n], key, r) {
      i := n;
    } else {
      i := SomeTrip(entries, evs[..n], key, r);
      assert evs[..n][..i] == evs[..i];
    }
  }

  // ------------------------------------------------------ the bound is tight

  lemma {:induction false} RunAppend(entries: Entries, a: seq<Event>, b: seq<Event>)
    ensures Run(entries, a + b) == Run(Run(entries, a), b)
  {
    if b == [] {
      assert a + b == a;
    } else {
      assert (a + b)[..|a + b| - 1] == a + b[..|b| - 1];
      RunAppend(entries, a, b[..|b| - 1]);
    }
  }

  lemma {:induction false} NoTripAppend(entries: Entries, a: seq<Event>, b: seq<Event>, key: Key, r: ThresholdRule)
    requires NoTrip(entries, a, key, r) && NoTrip(Run(entries, a), b, key, r)
    ensures NoTrip(entries, a + b, key, r)
  {
    if b == [] {
      assert a + b == a;
    } else {
      var n := |b| - 1;
      assert (a + b)[..|a + b| - 1] == a + b[..n];
      NoTripAppend(entries, a, b[..n], key, r);
      RunAppend(entries, a, b[..n]);
    }
  }

  lemma OneMoreFailure(entries: Entries, key: Key, r: ThresholdRule, now: Time)
    ensures var ev := Failure(key, [r], now); var t := TallyIn(entries, key, r.id);
      && TallyIn(Step(entries, ev), key, r.id) == Some(Bump(t, r, now))
      && (TripsAt(entries, ev, key, r) <==> Trips(t, r, now))
  {
    TallyStep(entries, Failure(key, [r], now), key, r.id);
    assert [r][0] == r;
  }

  lemma RunSnoc(entries: Entries, evs: seq<Event>, ev: Event, key: Key, r: ThresholdRule)
    ensures Run(entries, evs + [ev]) == Step(Run(entries, evs), ev)
    ensures NoTrip(entries, evs + [ev], key, r) <==>
          NoTrip(entries, evs, key, r) && !TripsAt(Run(entries, evs), ev, key, r)
  {
    assert (evs + [ev])[..|evs|] == evs;
  }

  /** A tally after `m` failures at one time: in its old window if that is still open, else in a new one. */
  function InBurst(t: Tally, r: ThresholdRule, now: Time, m: nat): Tally {
    if m == 0 then t else Tally(m, if Elapsed(now, t.since) <= Window(r) then t.since else now)
  }

  predicate BurstSafe(t: Tally, r: ThresholdRule, now: Time, m: nat) {
    m < Limit(r) && (Elapsed(now, t.since) <= Window(r) ==> t.count == 0)
  }

  lemma BumpInBurst(t: Tally, r: ThresholdRule, now: Time, m: nat)
    requires BurstSafe(t, r, now, m) && m > 0
    ensures !Trips(Some(InBurst(t, r, now, m - 1)), r, now)
    ensures Bump(Some(InBurst(t, r, now, m - 1)), r, now) == InBurst(t, r, now, m)
  {
  }

  predicate AllAt(evs: seq<Event>, key: Key, r: ThresholdRule, now: Time) {
    forall i :: 0 <= i < |evs| ==> evs[i] == Failure(key, [r], now)
  }

  /** A burst of `m` failures that trips nothing. */
  predicate Counts(entries: Entries, evs: seq<Event>, t: Tally, key: Key, r: ThresholdRule, now: Time, m: nat) {
    && AllAt(evs, key, r, now) && CountOf(evs, key) == m
    && NoTrip(entries, evs, key, r)
    && TallyIn(Run(entries, evs), key, r.id) == Some(InBurst(t, r, now, m))
  }

  lemma OneMoreCounts(entries: Entries, before: seq<Event>, t: Tally, key: Key, r: ThresholdRule, now: Time, m: nat)
    requires m > 0 && BurstSafe(t, r, now, m) && Counts(entries, before, t, key, r, now, m - 1)
    ensures Counts(entries, before + [Failure(key, [r], now)], t, key, r, now, m)
  {
    var ev := Failure(key, [r], now);
    RunSnoc(entries, before, ev, key, r);
    OneMoreFailure(Run(entries, before), key, r, now);
    BumpInBurst(t, r, now, m);
    assert (before + [ev])[..|before|] == before;
  }

  /** A burst of failures below the limit just counts. */
  lemma {:induction false} Burst(
      entries: Entries, t: Tally, key: Key, r: ThresholdRule, now: Time, m: nat) returns (evs: seq<Event>)
    requires BurstSafe(t, r, now, m) && TallyIn(entries, key, r.id) == Some(t)
    ensures Counts(entries, evs, t, key, r, now, m)
  {
    if m == 0 {
      evs := [];
    } else {
      var before := Burst(entries, t, key, r, now, m - 1);
      OneMoreCounts(entries, before, t, key, r, now, m);
      evs := before + [Failure(key, [r], now)];
    }
  }

  lemma {:induction false} CountAppend(a: seq<Event>, b: seq<Event>, key: Key)
    ensures CountOf(a + b, key) == CountOf(a, key) + CountOf(b, key)
  {
    if b == [] {
      assert a + b == a;
    } else {
      assert (a + b)[..|a + b| - 1] == a + b[..|b| - 1];
      CountAppend(a, b[..|b| - 1], key);
    }
  }

  /**
   2n - 2 failures are not enough, for every limit and window: after a trip at
   some time, n - 1 failures at the very end of the window and n - 1 one tick
   later never trip the rule again, although they lie one tick apart.
   */
  lemma TwoLessIsNotEnough(entries: Entries, key: Key, r: ThresholdRule, tripped: Time) returns (evs: seq<Event>)
    requires Limit(r) >= 1 && Window(r) >= 1
    requires TallyIn(entries, key, r.id) == Some(Tally(0, tripped))
    ensures Stretch(evs, key, r, tripped + Window(r))
    ensures CountOf(evs, key) == 2 * Limit(r) - 2
    ensures NoTrip(entries, evs, key, r)
  {
    var n, late := Limit(r), tripped + Window(r);
    var a := Burst(entries, Tally(0, tripped), key, r, late, n - 1);
    var b := Burst(Run(entries, a), InBurst(Tally(0, tripped), r, late, n - 1), key, r, late + 1, n - 1);
    evs := a + b;
    NoTripAppend(entries, a, b, key, r);
    CountAppend(a, b, key);
    BurstsStretch(a, b, key, r, late);
  }

  lemma BurstsStretch(a: seq<Event>, b: seq<Event>, key: Key, r: ThresholdRule, late: Time)
    requires Window(r) >= 1 && AllAt(a, key, r, late) && AllAt(b, key, r, late + 1)
    ensures Stretch(a + b, key, r, late)
  {
    assert [r][0] == r;
    forall i | 0 <= i < |a + b|
      ensures (a + b)[i] == Failure(key, [r], late) || (a + b)[i] == Failure(key, [r], late + 1)
    {
    }
  }

  /** Such a state is reached by tripping the rule: a trip leaves a tally of zero dated now. */
  lemma TripLeavesZero(entries: Entries, ev: Event, key: Key, r: ThresholdRule)
    requires TripsAt(entries, ev, key, r) && DistinctIds(ev.rules)
    ensures TallyIn(Step(entries, ev), key, r.id) == Some(Tally(0, ev.now))
  {
    TallyStep(entries, ev, key, r.id);
    var i :| 0 <= i < |ev.rules| && ev.rules[i] == r;
  }

  // --------------------------------------------------------------- widths

  const MAX_I32: int := 0x7fff_ffff

  /** Tallies fit the source's u32 for every rule set whose limits are i32 values. */
  lemma {:induction false} TallyFits(evs: seq<Event>, key: Key, id: Uuid)
    requires WellKept(evs)
    requires forall i, j :: 0 <= i < |evs| && evs[i].Failure? && 0 <= j < |evs[i].rules| ==>
          evs[i].rules[j].failCount <= MAX_I32
    ensures var t := TallyIn(Run(map[], evs), key, id); t.Some? ==> t.value.count < MAX_I32
  {
    if evs != [] {
      var n := |evs| - 1;
      TallyFits(evs[..n], key, id);
      TallyStep(Run(map[], evs[..n]), evs[n], key, id);
      if FailureOf(evs[n], key) && exists i :: 0 <= i < |evs[n].rules| && evs[n].rules[i].id == id {
        var i :| 0 <= i < |evs[n].rules| && evs[n].rules[i].id == id;
        assert evs[n].rules[i].failCount <= MAX_I32;
      }
    }
  }
}
