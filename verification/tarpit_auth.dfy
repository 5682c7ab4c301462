/**
 Failed logins as the server sees them: one failure counts against the address
 it came from and, when the account is known, against the account too.
 */
module TarpitAuth {
  import opened Options
  import opened Tarpit
  import opened TarpitRuns

  datatype AuthEvent =
    | Fail(ip: string, user: Option<Uuid>, enabled: bool, rules: seq<ThresholdRule>, now: Time)
    | Pass(ip: string, user: Option<Uuid>)
    | Refresh(bans: seq<AdminBan>, wall: int, at: Time)
    | Mark(ip: string)

  function AuthStep(entries: Entries, ev: AuthEvent): Entries {
    match ev
    case Fail(ip, user, enabled, rules, now) => FailedAuth(entries, ip, user, enabled, rules, now)
    case Pass(ip, user) => Succeeded(entries, ip, user)
    case Refresh(bans, wall, at) => Refreshed(entries, bans, wall, at)
    case Mark(ip) => MarkedGood(entries, ip)
  }

  function AuthRun(entries: Entries, evs: seq<AuthEvent>): Entries {
    if evs == [] then entries else AuthStep(AuthRun(entries, evs[..|evs| - 1]), evs[|evs| - 1])
  }

  /** The address or the account of a login attempt. */
  predicate Names(ip: string, user: Option<Uuid>, key: Key) {
    match key
    case Peer(a) => a == ip
    case User(u) => user == Some(u)
  }

  /** A failed login of the key, with enforcement on. */
  predicate FailOf(ev: AuthEvent, key: Key) {
    ev.Fail? && ev.enabled && Names(ev.ip, ev.user, key)
  }

  predicate PassOf(ev: AuthEvent, key: Key) {
    ev.Pass? && Names(ev.ip, ev.user, key)
  }

  /**
   One failed login: the address and a known account are each recorded once, as if
   alone; every other key stays as it is, and with enforcement off all do.
   */
  lemma FailureTouches(
      entries: Entries, ip: string, user: Option<Uuid>, enabled: bool, rules: seq<ThresholdRule>, now: Time, key: Key)
    ensures var after := FailedAuth(entries, ip, user, enabled, rules, now);
      && (enabled && Names(ip, user, key) ==> key in after && after[key] == Failed(entries, key, rules, now)[key])
      && (!Names(ip, user, key) ==> (key in after <==> key in entries) && (key in after ==> after[key] == entries[key]))
      && (!enabled ==> after == entries)
  {
  }

  // ------------------------------------------------------- one key at a time

  /** The records one event makes. */
  function Lowered(ev: AuthEvent): seq<Event> {
    match ev
    case Fail(ip, user, enabled, rules, now) =>
      if !enabled then []
      else [Failure(Peer(ip), rules, now)] + if user.Some? then [Failure(User(user.value), rules, now)] else []
    case Pass(ip, user) => [Success(ip, user)]
    case Refresh(bans, wall, at) => [Merge(bans, wall, at)]
    case Mark(ip) => [KnownGood(ip)]
  }

  function Records(evs: seq<AuthEvent>): seq<Event> {
    if evs == [] then [] else Records(evs[..|evs| - 1]) + Lowered(evs[|evs| - 1])
  }

  lemma RunOne(entries: Entries, ev: Event)
    ensures Run(entries, [ev]) == Step(entries, ev)
  {
    assert [ev][..0] == [];
  }

  lemma RunTwo(entries: Entries, a: Event, b: Event)
    ensures Run(entries, [a] + [b]) == Step(Step(entries, a), b)
  {
    RunAppend(entries, [a], [b]);
    RunOne(entries, a);
    RunOne(Step(entries, a), b);
  }

  lemma StepIsRecords(entries: Entries, ev: AuthEvent)
    ensures AuthStep(entries, ev) == Run(entries, Lowered(ev))
  {
    if |Lowered(ev)| == 1 {
      RunOne(entries, Lowered(ev)[0]);
    } else if ev.Fail? && ev.enabled && ev.user.Some? {
      RunTwo(entries, Failure(Peer(ev.ip), ev.rules, ev.now), Failure(User(ev.user.value), ev.rules, ev.now));
    }
  }

  lemma {:induction false} RunIsRecords(entries: Entries, evs: seq<AuthEvent>)
    ensures AuthRun(entries, evs) == Run(entries, Records(evs))
  {
    if evs != [] {
      var n := |evs| - 1;
      RunIsRecords(entries, evs[..n]);
      StepIsRecords(AuthRun(entries, evs[..n]), evs[n]);
      RunAppend(entries, Records(evs[..n]), Lowered(evs[n]));
    }
  }

  /** How many failed logins of the key there were. */
  function FailsOf(evs: seq<AuthEvent>, key: Key): nat {
    if evs == [] then 0 else FailsOf(evs[..|evs| - 1], key) + if FailOf(evs[|evs| - 1], key) then 1 else 0
  }

  lemma CountOne(ev: Event, key: Key)
    ensures CountOf([ev], key) == if FailureOf(ev, key) then 1 else 0
  {
    assert [ev][..0] == [];
  }

  lemma CountLowered(ev: AuthEvent, key: Key)
    ensures CountOf(Lowered(ev), key) == if FailOf(ev, key) then 1 else 0
  {
    if |Lowered(ev)| == 1 {
      CountOne(Lowered(ev)[0], key);
    } else if ev.Fail? && ev.enabled && ev.user.Some? {
      var a, b := Failure(Peer(ev.ip), ev.rules, ev.now), Failure(User(ev.user.value), ev.rules, ev.now);
      CountAppend([a], [b], key);
      CountOne(a, key);
      CountOne(b, key);
    }
  }

  lemma {:induction false} CountRecords(evs: seq<AuthEvent>, key: Key)
    ensures CountOf(Records(evs), key) == FailsOf(evs, key)
  {
    if evs != [] {
      var n := |evs| - 1;
      CountRecords(evs[..n], key);
      CountLowered(evs[n], key);
      CountAppend(Records(evs[..n]), Lowered(evs[n]), key);
    }
  }

  // ------------------------------------------------------------- the bound

  /** The rule stands at each failed login of the key, within one window; the key never succeeds. */
  predicate AuthStretch(evs: seq<AuthEvent>, key: Key, r: ThresholdRule, from: Time) {
    forall i :: 0 <= i < |evs| ==>
      && !PassOf(evs[i], key)
      && (FailOf(evs[i], key) ==>
        DistinctIds(evs[i].rules) && r in evs[i].rules && from <= evs[i].now <= from + Window(r))
  }

  lemma StretchLowered(ev: AuthEvent, key: Key, r: ThresholdRule, from: Time)
    requires !PassOf(ev, key)
    requires FailOf(ev, key) ==> DistinctIds(ev.rules) && r in ev.rules && from <= ev.now <= from + Window(r)
    ensures Stretch(Lowered(ev), key, r, from)
  {
  }

  lemma {:induction false} StretchRecords(evs: seq<AuthEvent>, key: Key, r: ThresholdRule, from: Time)
    requires AuthStretch(evs, key, r, from)
    ensures Stretch(Records(evs), key, r, from)
  {
    if evs != [] {
      var n := |evs| - 1;
      assert forall i :: 0 <= i < n ==> evs[..n][i] == evs[i];
      StretchRecords(evs[..n], key, r, from);
      StretchLowered(evs[n], key, r, from);
    }
  }

  /** This failed login makes the rule trip for the key. */
  predicate AuthTrips(entries: Entries, ev: AuthEvent, key: Key, r: ThresholdRule) {
    FailOf(ev, key) && r in ev.rules && TripsNow(EntryAt(entries, key).tallies, r, ev.now)
  }

  predicate NoAuthTrip(entries: Entries, evs: seq<AuthEvent>, key: Key, r: ThresholdRule) {
    forall i :: 0 <= i < |evs| ==> !AuthTrips(AuthRun(entries, evs[..i]), evs[i], key, r)
  }

  lemma NoTripOne(entries: Entries, ev: Event, key: Key, r: ThresholdRule)
    requires !TripsAt(entries, ev, key, r)
    ensures NoTrip(entries, [ev], key, r)
  {
    assert [ev][..0] == [];
  }

  lemma NoTripLowered(entries: Entries, ev: AuthEvent, key: Key, r: ThresholdRule)
    requires !AuthTrips(entries, ev, key, r)
    ensures NoTrip(entries, Lowered(ev), key, r)
  {
    if |Lowered(ev)| == 1 {
      NoTripOne(entries, Lowered(ev)[0], key, r);
    } else if ev.Fail? && ev.enabled && ev.user.Some? {
      var a, b := Failure(Peer(ev.ip), ev.rules, ev.now), Failure(User(ev.user.value), ev.rules, ev.now);
      NoTripOne(entries, a, key, r);
      RunOne(entries, a);
      NoTripOne(Step(entries, a), b, key, r);
      NoTripAppend(entries, [a], [b], key, r);
    }
  }

  lemma {:induction false} NoTripRecords(entries: Entries, evs: seq<AuthEvent>, key: Key, r: ThresholdRule)
    requires NoAuthTrip(entries, evs, key, r)
    ensures NoTrip(entries, Records(evs), key, r)
  {
    if evs != [] {
      var n := |evs| - 1;
      forall i | 0 <= i < n ensures !AuthTrips(AuthRun(entries, evs[..n][..i]), evs[..n][i], key, r) {
        assert evs[..n][..i] == evs[..i];
        assert !AuthTrips(AuthRun(entries, evs[..i]), evs[i], key, r);
      }
      NoTripRecords(entries, evs[..n], key, r);
      RunIsRecords(entries, evs[..n]);
      NoTripLowered(AuthRun(entries, evs[..n]), evs[n], key, r);
      NoTripAppend(entries, Records(evs[..n]), Lowered(evs[n]), key, r);
    }
  }

  /** A trip bans its key for the rule's window at least, and counts one trigger. */
  lemma TripEndsLater(entries: Entries, ev: AuthEvent, key: Key, r: ThresholdRule)
    requires AuthTrips(entries, ev, key, r) && DistinctIds(ev.rules)
    ensures var after := EntryAt(AuthStep(entries, ev), key);
      && after.banned.At? && after.banned.time >= ev.now + Window(r)
      && after.triggerCount == EntryAt(entries, key).triggerCount + 1
  {
    FailureTouches(entries, ev.ip, ev.user, ev.enabled, ev.rules, ev.now, key);
    RuleChoice(entries, key, ev.rules, ev.now);
    var i :| 0 <= i < |ev.rules| && ev.rules[i] == r;
    assert AnyTrips(EntryAt(entries, key).tallies, ev.rules, ev.now);
  }

  /** What the bound promises: some failed login of the key trips the rule, and bans the key for its window. */
  predicate Caught(entries: Entries, evs: seq<AuthEvent>, i: int, key: Key, r: ThresholdRule) {
    && 0 <= i < |evs| && AuthTrips(AuthRun(entries, evs[..i]), evs[i], key, r)
    && var after := EntryAt(AuthRun(entries, evs[..i + 1]), key);
      after.banned.At? && after.banned.time >= evs[i].now + Window(r)
      && after.triggerCount == EntryAt(AuthRun(entries, evs[..i]), key).triggerCount + 1
  }

  /**
   Any 2n - 1 failed logins of one account within one window, from whatever
   addresses, trip a rule of limit n for the account, if it does not log in
   meanwhile; and likewise those from one address, for whatever accounts.
   */
  lemma GuessingIsCaught(entries: Entries, evs: seq<AuthEvent>, key: Key, r: ThresholdRule, from: Time)
    requires AuthStretch(evs, key, r, from) && Limit(r) >= 1 && FailsOf(evs, key) >= 2 * Limit(r) - 1
    ensures exists i :: Caught(entries, evs, i, key, r)
  {
    if NoAuthTrip(entries, evs, key, r) {
      StretchRecords(evs, key, r, from);
      CountRecords(evs, key);
      NoTripRecords(entries, evs, key, r);
      TallyKeepsUp(entries, Records(evs), key, r, from);
    } else {
      var i :| 0 <= i < |evs| && AuthTrips(AuthRun(entries, evs[..i]), evs[i], key, r);
      assert evs[..i + 1][..i] == evs[..i];
      TripEndsLater(AuthRun(entries, evs[..i]), evs[i], key, r);
      assert Caught(entries, evs, i, key, r);
    }
  }
}
