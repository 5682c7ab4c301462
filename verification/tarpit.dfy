/**
 tarpit/mod.rs: failure tallies, threshold rules and time-bounded bans.

 Time is a number of nanoseconds on the process's own clock.  Keys are kept
 apart by constructor: no address text starts with the "user:" prefix.
 */
module Tarpit {
  import opened Options

  type Uuid = nat
  type Time = nat

  const SECOND: nat := 1_000_000_000

  datatype TarpitMethod = BannerDrip | SlowAuth | FakeShell

  function RoundRobin(triggerCount: nat): TarpitMethod {
    match triggerCount % 3
    case 0 => BannerDrip
    case 1 => SlowAuth
    case _ => FakeShell
  }

  datatype BanSource = Threshold(id: Uuid) | AdminRule(id: Uuid)

  datatype TarpitOutcome = NoAction | Trap(how: TarpitMethod, source: Option<BanSource>) | Ban(cause: BanSource)

  datatype BanUntil = NotBanned | At(time: Time) | Forever

  datatype Tally = Tally(count: nat, since: Time)

  datatype TarpitEntry = TarpitEntry(tallies: map<Uuid, Tally>, triggerCount: nat, bannerDripEligible: bool,
    banned: BanUntil, banSource: Option<BanSource>)

  const NEW_ENTRY := TarpitEntry(map[], 0, true, NotBanned, None)

  datatype Key = Peer(ip: string) | User(id: Uuid)

  type Entries = map<Key, TarpitEntry>

  datatype ThresholdRule = ThresholdRule(id: Uuid, failCount: int, windowSeconds: int, action: string)

  datatype AdminBan = AdminBan(id: Uuid, scope: string, peerIp: Option<string>, userId: Option<Uuid>,
    activeUntil: Option<int>, action: string)

  predicate IsActive(b: BanUntil, now: Time) {
    match b
    case NotBanned => false
    case At(t) => now < t
    case Forever => true
  }

  predicate IsBanned(entries: Entries, key: Key, now: Time) {
    key in entries && IsActive(entries[key].banned, now)
  }

  function Max(a: int, b: int): int {
    if a >= b then a else b
  }

  // --------------------------------------------------------- one tally

  function Window(r: ThresholdRule): nat {
    Max(r.windowSeconds, 0) * SECOND
  }

  function Limit(r: ThresholdRule): nat {
    Max(r.failCount, 0)
  }

  /** `Instant::duration_since` saturates at zero. */
  function Elapsed(now: Time, since: Time): nat {
    Max(now - since, 0)
  }

  function TallyOf(tallies: map<Uuid, Tally>, id: Uuid): Option<Tally> {
    if id in tallies then Some(tallies[id]) else None
  }

  /** The tally with this failure counted, in a fresh window if the old one is over. */
  function Counted(t: Option<Tally>, r: ThresholdRule, now: Time): Tally {
    var s := if t.Some? && Elapsed(now, t.value.since) <= Window(r) then t.value else Tally(0, now);
    Tally(s.count + 1, s.since)
  }

  predicate Trips(t: Option<Tally>, r: ThresholdRule, now: Time) {
    Counted(t, r, now).count >= Limit(r)
  }

  function Bump(t: Option<Tally>, r: ThresholdRule, now: Time): Tally {
    if Trips(t, r, now) then Tally(0, now) else Counted(t, r, now)
  }

  // -------------------------------------------------- one failure, all rules

  /** `(action == "ban", window)` compared lexicographically. */
  predicate Outranks(a: ThresholdRule, b: ThresholdRule) {
    || (a.action == "ban" && b.action != "ban")
    || ((a.action == "ban" <==> b.action == "ban") && Window(a) > Window(b))
  }

  /** The loop variables of `record_failure`. */
  datatype Scan = Scan(tallies: map<Uuid, Tally>, winner: Option<ThresholdRule>, maxWindow: nat)

  function ScanStep(s: Scan, r: ThresholdRule, now: Time): Scan {
    var t := TallyOf(s.tallies, r.id);
    var tallies := s.tallies[r.id := Bump(t, r, now)];
    if !Trips(t, r, now) then s.(tallies := tallies)
    else Scan(tallies,
              if s.winner.None? || Outranks(r, s.winner.value) then Some(r) else s.winner,
              Max(s.maxWindow, Window(r)))
  }

  function ScanRules(tallies: map<Uuid, Tally>, rules: seq<ThresholdRule>, now: Time): Scan {
    if rules == [] then Scan(tallies, None, 0)
    else ScanStep(ScanRules(tallies, rules[..|rules| - 1], now), rules[|rules| - 1], now)
  }

  function Punished(e: TarpitEntry, s: Scan, now: Time): TarpitEntry {
    if s.winner.None? then e.(tallies := s.tallies)
    else TarpitEntry(s.tallies, e.triggerCount + 1, e.bannerDripEligible, At(now + s.maxWindow),
      Some(Threshold(s.winner.value.id)))
  }

  function EntryAt(entries: Entries, key: Key): TarpitEntry {
    if key in entries then entries[key] else NEW_ENTRY
  }

  function Failed(entries: Entries, key: Key, rules: seq<ThresholdRule>, now: Time): Entries {
    var e := EntryAt(entries, key);
    entries[key := Punished(e, ScanRules(e.tallies, rules, now), now)]
  }

  function FailedAuth(
      entries: Entries, ip: string, user: Option<Uuid>, enabled: bool, rules: seq<ThresholdRule>, now: Time): Entries
  {
    if !enabled then entries else
      var e := Failed(entries, Peer(ip), rules, now);
      if user.Some? then Failed(e, User(user.value), rules, now) else e
  }

  function Forgiven(entries: Entries, key: Key): Entries {
    if key in entries then entries[key := entries[key].(tallies := map[])] else entries
  }

  function Succeeded(entries: Entries, ip: string, user: Option<Uuid>): Entries {
    var e := Forgiven(entries, Peer(ip));
    var e := if Peer(ip) in e then e[Peer(ip) := e[Peer(ip)].(bannerDripEligible := false)] else e;
    if user.Some? then Forgiven(e, User(user.value)) else e
  }

  // ------------------------------------------------------- admin ban rules

  function ScopeKey(b: AdminBan): Option<Key> {
    if b.scope == "peer_ip" then (if b.peerIp.Some? then Some(Peer(b.peerIp.value)) else None)
    else if b.scope == "user" then (if b.userId.Some? then Some(User(b.userId.value)) else None)
    else None
  }

  /** Until when an active admin rule bans, in whole seconds from now; nothing once it has passed. */
  function AdminUntil(b: AdminBan, wall: int, now: Time): Option<BanUntil> {
    if b.activeUntil.None? then Some(Forever)
    else if b.activeUntil.value < wall then None
    else Some(At(now + (b.activeUntil.value - wall) / SECOND * SECOND))
  }

  predicate Applies(b: AdminBan, wall: int, now: Time) {
    ScopeKey(b).Some? && AdminUntil(b, wall, now).Some?
  }

  function AdminBanned(entries: Entries, b: AdminBan, wall: int, now: Time): Entries {
    if !Applies(b, wall, now) then entries else
      var key := ScopeKey(b).value;
      entries[key := EntryAt(entries, key).(banned := AdminUntil(b, wall, now).value,
        banSource := Some(AdminRule(b.id)))]
  }

  function Refreshed(entries: Entries, bans: seq<AdminBan>, wall: int, now: Time): Entries {
    if bans == [] then entries else AdminBanned(Refreshed(entries, bans[..|bans| - 1], wall, now), bans[|bans| - 1],
      wall, now)
  }

  // --------------------------------------------------------------- outcomes

  function FindRule(rules: seq<ThresholdRule>, id: Uuid): Option<ThresholdRule> {
    if rules == [] then None else if rules[0].id == id then Some(rules[0]) else FindRule(rules[1..], id)
  }

  function FindBan(bans: seq<AdminBan>, id: Uuid): Option<AdminBan> {
    if bans == [] then None else if bans[0].id == id then Some(bans[0]) else FindBan(bans[1..], id)
  }

  /** The action configured right now for a ban's source; None when the row is gone. */
  function CurrentAction(source: BanSource, rules: seq<ThresholdRule>, bans: seq<AdminBan>): Option<string> {
    match source
    case Threshold(id) => (var r := FindRule(rules, id); if r.Some? then Some(r.value.action) else None)
    case AdminRule(id) => (var b := FindBan(bans, id); if b.Some? then Some(b.value.action) else None)
  }

  function ResolveOutcome(
      source: Option<BanSource>, triggerCount: nat, rules: seq<ThresholdRule>, bans: seq<AdminBan>): TarpitOutcome
  {
    if source.None? then Trap(RoundRobin(triggerCount), None) else
      match CurrentAction(source.value, rules, bans)
      case None => Trap(RoundRobin(triggerCount), None)
      case Some(action) => if action == "ban" then Ban(source.value) else Trap(RoundRobin(triggerCount), source)
  }

  function NeverDrip(o: TarpitOutcome): TarpitOutcome {
    if o.Trap? && o.how == BannerDrip then o.(how := SlowAuth) else o
  }

  /** What the accept loop reads under the state lock. */
  datatype Snapshot = Snapshot(banned: bool, source: Option<BanSource>, triggerCount: nat, ineligible: bool)

  function PreAuthSnapshot(entries: Entries, ip: string, now: Time): Snapshot {
    if IsBanned(entries, Peer(ip), now) then
      var e := entries[Peer(ip)];
      Snapshot(true, e.banSource, e.triggerCount, !e.bannerDripEligible)
    else Snapshot(false, None, 0, false)
  }

  /** A handler's view: the address and, when known, the user; the user's ban source is preferred. */
  function InAuthSnapshot(entries: Entries, ip: string, user: Option<Uuid>, now: Time): Snapshot {
    var byIp := PreAuthSnapshot(entries, ip, now).(ineligible := false);
    if user.None? || !IsBanned(entries, User(user.value), now) then byIp
    else
      var e := entries[User(user.value)];
      Snapshot(true, if e.banSource.Some? then e.banSource
        else byIp.source, Max(byIp.triggerCount, e.triggerCount), false)
  }

  function SnapshotOutcome(s: Snapshot, rules: seq<ThresholdRule>, bans: seq<AdminBan>): TarpitOutcome {
    if !s.banned then NoAction else ResolveOutcome(s.source, s.triggerCount, rules, bans)
  }

  // ---------------------------------------------------------- the shared map

  /** The loop over the rules: every tally counts the failure, the best rule that trips is kept. */
  method CountInRules(start: map<Uuid, Tally>, rules: seq<ThresholdRule>, now: Time)
    returns (tallies: map<Uuid, Tally>, winner: Option<ThresholdRule>, maxWindow: nat)
    ensures Scan(tallies, winner, maxWindow) == ScanRules(start, rules, now)
  {
    tallies, winner, maxWindow := start, None, 0;
    for i := 0 to |rules|
      invariant Scan(tallies, winner, maxWindow) == ScanRules(start, rules[..i], now)
    {
      assert rules[..i + 1][..i] == rules[..i];
      var rule := rules[i];
      var tally := if rule.id in tallies then tallies[rule.id] else Tally(0, now);
      if Elapsed(now, tally.since) > Window(rule) {
        tally := Tally(0, now);
      }
      tally := tally.(count := tally.count + 1);
      if tally.count >= Limit(rule) {
        tally := Tally(0, now);
        maxWindow := Max(maxWindow, Window(rule));
        if winner.None? || Outranks(rule, winner.value) {
          winner := Some(rule);
        }
      }
      tallies := tallies[rule.id := tally];
    }
    assert rules[..|rules|] == rules;
  }

  class TarpitState {
    var entries: Entries

    constructor ()
      ensures entries == map[]
    {
      entries := map[];
    }

    method RecordFailure(key: Key, rules: seq<ThresholdRule>, now: Time) returns (banned: bool)
      modifies this
      ensures entries == Failed(old(entries), key, rules, now)
      ensures banned == IsBanned(entries, key, now)
    {
      var entry := if key in entries then entries[key] else NEW_ENTRY;
      var tallies, winner, maxWindow := CountInRules(entry.tallies, rules, now);
      entry := entry.(tallies := tallies);
      if winner.Some? {
        entry := entry.(triggerCount := entry.triggerCount + 1,
                        banned := At(now + maxWindow), banSource := Some(Threshold(winner.value.id)));
      }
      entries := entries[key := entry];
      banned := IsActive(entry.banned, now);
    }

    method RecordAuthFailure(ip: string, user: Option<Uuid>, enabled: bool, rules: seq<ThresholdRule>, now: Time)
      modifies this
      ensures entries == FailedAuth(old(entries), ip, user, enabled, rules, now)
    {
      if !enabled { return; }
      var _ := RecordFailure(Peer(ip), rules, now);
      if user.Some? {
        var _ := RecordFailure(User(user.value), rules, now);
      }
    }

    method ClearFailTally(key: Key)
      modifies this
      ensures entries == Forgiven(old(entries), key)
    {
      if key in entries {
        entries := entries[key := entries[key].(tallies := map[])];
      }
    }

    method RecordAuthSuccess(ip: string, user: Option<Uuid>)
      modifies this
      ensures entries == Succeeded(old(entries), ip, user)
    {
      ClearFailTally(Peer(ip));
      if Peer(ip) in entries {
        entries := entries[Peer(ip) := entries[Peer(ip)].(bannerDripEligible := false)];
      }
      if user.Some? {
        ClearFailTally(User(user.value));
      }
    }

    /** The part of `refresh_once` that merges active admin rules into the map. */
    method MergeAdminBans(bans: seq<AdminBan>, wall: int, now: Time)
      modifies this
      ensures entries == Refreshed(old(entries), bans, wall, now)
    {
      for i := 0 to |bans|
        invariant entries == Refreshed(old(entries), bans[..i], wall, now)
      {
        assert bans[..i + 1][..i] == bans[..i];
        var ban := bans[i];
        var key := ScopeKey(ban);
        if key.None? { continue; }
        var until := Forever;
        if ban.activeUntil.Some? {
          var remaining := ban.activeUntil.value - wall;
          if remaining < 0 { continue; }
          until := At(now + remaining / SECOND * SECOND);
        }
        var entry := if key.value in entries then entries[key.value] else NEW_ENTRY;
        entries := entries[key.value := entry.(banned := until, banSource := Some(AdminRule(ban.id)))];
      }
      assert bans[..|bans|] == bans;
    }
  }

  // ------------------------------------------------------------- rule choice

  predicate DistinctIds(rules: seq<ThresholdRule>) {
    forall i, j :: 0 <= i < j < |rules| ==> rules[i].id != rules[j].id
  }

  predicate TripsNow(tallies: map<Uuid, Tally>, r: ThresholdRule, now: Time) {
    Trips(TallyOf(tallies, r.id), r, now)
  }

  /** A tally no rule names is left alone. */
  lemma {:induction false} ScanElsewhere(tallies: map<Uuid, Tally>, rules: seq<ThresholdRule>, now: Time, id: Uuid)
    requires forall i :: 0 <= i < |rules| ==> rules[i].id != id
    ensures TallyOf(ScanRules(tallies, rules, now).tallies, id) == TallyOf(tallies, id)
  {
    if rules != [] { ScanElsewhere(tallies, rules[..|rules| - 1], now, id); }
  }

  /** With distinct ids, the scan bumps each rule's own tally once, from its value before the scan. */
  lemma {:induction false} ScanAt(tallies: map<Uuid, Tally>, rules: seq<ThresholdRule>, now: Time, i: nat)
    requires DistinctIds(rules) && i < |rules|
    ensures TallyOf(ScanRules(tallies, rules, now).tallies, rules[i].id)
          == Some(Bump(TallyOf(tallies, rules[i].id), rules[i], now))
  {
    var n := |rules| - 1;
    if i < n { ScanAt(tallies, rules[..n], now, i); } else { ScanElsewhere(tallies, rules[..n], now, rules[n].id); }
  }

  /** Rule `k` trips, nothing that trips outranks it, and it outranks every earlier rule that trips. */
  predicate WinsAt(tallies: map<Uuid, Tally>, rules: seq<ThresholdRule>, now: Time, k: nat)
    requires k < |rules|
  {
    && TripsNow(tallies, rules[k], now)
    && (forall j :: 0 <= j < |rules| && TripsNow(tallies, rules[j], now) ==> !Outranks(rules[j], rules[k]))
    && (forall j :: 0 <= j < k && TripsNow(tallies, rules[j], now) ==> Outranks(rules[k], rules[j]))
  }

  predicate Wins(tallies: map<Uuid, Tally>, rules: seq<ThresholdRule>, now: Time, w: ThresholdRule) {
    exists k :: 0 <= k < |rules| && rules[k] == w && WinsAt(tallies, rules, now, k)
  }

  /** The longest window among the rules that trip; zero if none does. */
  predicate LongestTripped(tallies: map<Uuid, Tally>, rules: seq<ThresholdRule>, now: Time, w: nat) {
    && (forall j :: 0 <= j < |rules| && TripsNow(tallies, rules[j], now) ==> Window(rules[j]) <= w)
    && (w == 0 || exists k :: 0 <= k < |rules| && TripsNow(tallies, rules[k], now) && Window(rules[k]) == w)
  }

  predicate AnyTrips(tallies: map<Uuid, Tally>, rules: seq<ThresholdRule>, now: Time) {
    exists j :: 0 <= j < |rules| && TripsNow(tallies, rules[j], now)
  }

  predicate Chosen(tallies: map<Uuid, Tally>, rules: seq<ThresholdRule>, now: Time, s: Scan) {
    && (s.winner.Some? <==> AnyTrips(tallies, rules, now))
    && (s.winner.Some? ==> Wins(tallies, rules, now, s.winner.value))
    && LongestTripped(tallies, rules, now, s.maxWindow)
  }

  /** The scan ends with the winner and the longest window of the rules that trip on the old tallies. */
  lemma {:induction false} ScanChoice(tallies: map<Uuid, Tally>, rules: seq<ThresholdRule>, now: Time)
    requires DistinctIds(rules)
    ensures Chosen(tallies, rules, now, ScanRules(tallies, rules, now))
  {
    if rules != [] {
      var n := |rules| - 1;
      var s0, s := ScanRules(tallies, rules[..n], now), ScanRules(tallies, rules, now);
      ScanChoice(tallies, rules[..n], now);
      ScanElsewhere(tallies, rules[..n], now, rules[n].id);
      if TripsNow(tallies, rules[n], now) {
        WinnerExtends(tallies, rules, now, s0.winner, s.winner.value);
        LongestExtends(tallies, rules, now, s0.maxWindow);
      } else {
        NoNewTrip(tallies, rules, now, s0);
      }
    }
  }

  lemma LongestExtends(tallies: map<Uuid, Tally>, rules: seq<ThresholdRule>, now: Time, before: nat)
    requires rules != [] && TripsNow(tallies, rules[|rules| - 1], now)
    requires LongestTripped(tallies, rules[..|rules| - 1], now, before)
    ensures LongestTripped(tallies, rules, now, Max(before, Window(rules[|rules| - 1])))
  {
    var n := |rules| - 1;
    var init := rules[..n];
    forall j | 0 <= j < n && TripsNow(tallies, rules[j], now) ensures Window(rules[j]) <= before {
      assert init[j] == rules[j];
    }
    if before > Window(rules[n]) {
      var k :| 0 <= k < n && TripsNow(tallies, init[k], now) && Window(init[k]) == before;
      assert TripsNow(tallies, rules[k], now) && Window(rules[k]) == before;
    }
  }

  lemma WinnerExtends(
      tallies: map<Uuid, Tally>, rules: seq<ThresholdRule>, now: Time, before: Option<ThresholdRule>, w: ThresholdRule)
    requires rules != []
    requires var n := |rules| - 1;
      && TripsNow(tallies, rules[n], now)
      && (before.Some? <==> AnyTrips(tallies, rules[..n], now))
      && (before.Some? ==> Wins(tallies, rules[..n], now, before.value))
      && w == if before.None? || Outranks(rules[n], before.value) then rules[n] else before.value
    ensures Wins(tallies, rules, now, w)
  {
    var n := |rules| - 1;
    var init := rules[..n];
    if before.None? {
      forall j | 0 <= j < n ensures !TripsNow(tallies, rules[j], now) { assert init[j] == rules[j]; }
      assert rules[n] == w;
    } else {
      var k :| 0 <= k < n && init[k] == before.value && WinsAt(tallies, init, now, k);
      forall j | 0 <= j < n && TripsNow(tallies, rules[j], now)
        ensures !Outranks(rules[j], before.value) && (j < k ==> Outranks(before.value, rules[j]))
      {
        assert init[j] == rules[j];
      }
      assert WinsAt(tallies, rules, now, if Outranks(rules[n], before.value) then n else k);
    }
  }

  lemma NoNewTrip(tallies: map<Uuid, Tally>, rules: seq<ThresholdRule>, now: Time, s: Scan)
    requires rules != [] && !TripsNow(tallies, rules[|rules| - 1], now)
    requires Chosen(tallies, rules[..|rules| - 1], now, s)
    ensures Chosen(tallies, rules, now, s)
  {
    var n := |rules| - 1;
    var init := rules[..n];
    assert forall j :: 0 <= j < n ==> rules[j] == init[j];
    NoNewTripAny(tallies, rules, now);
    if s.winner.Some? {
      var k :| 0 <= k < n && init[k] == s.winner.value && WinsAt(tallies, init, now, k);
      assert WinsAt(tallies, rules, now, k);
    }
    if s.maxWindow != 0 {
      var k :| 0 <= k < n && TripsNow(tallies, init[k], now) && Window(init[k]) == s.maxWindow;
      assert TripsNow(tallies, rules[k], now) && Window(rules[k]) == s.maxWindow;
    }
  }

  lemma NoNewTripAny(tallies: map<Uuid, Tally>, rules: seq<ThresholdRule>, now: Time)
    requires rules != [] && !TripsNow(tallies, rules[|rules| - 1], now)
    ensures AnyTrips(tallies, rules[..|rules| - 1], now) <==> AnyTrips(tallies, rules, now)
  {
    var init := rules[..|rules| - 1];
    if AnyTrips(tallies, init, now) {
      var j :| 0 <= j < |init| && TripsNow(tallies, init[j], now);
      assert TripsNow(tallies, rules[j], now);
    }
    if AnyTrips(tallies, rules, now) {
      var j :| 0 <= j < |rules| && TripsNow(tallies, rules[j], now);
      assert TripsNow(tallies, init[j], now);
    }
  }

  /**
   One recorded failure: the trigger count rises by exactly one if any rule
   trips, the ban runs for the longest window that tripped, and the winner is
   the first rule of the highest rank.  Other keys and tallies are untouched.
   */
  lemma RuleChoice(entries: Entries, key: Key, rules: seq<ThresholdRule>, now: Time)
    requires DistinctIds(rules)
    ensures var e, e' := EntryAt(entries, key), EntryAt(Failed(entries, key, rules, now), key);
      && (!AnyTrips(e.tallies, rules, now) ==> e' == e.(tallies := e'.tallies))
      && (AnyTrips(e.tallies, rules, now) ==>
            && e'.triggerCount == e.triggerCount + 1
            && e'.bannerDripEligible == e.bannerDripEligible
            && (exists w: nat :: e'.banned == At(now + w) && LongestTripped(e.tallies, rules, now, w))
            && (exists r :: r in rules && e'.banSource == Some(Threshold(r.id)) && Wins(e.tallies, rules, now, r)))
      && (forall i :: 0 <= i < |rules| ==>
        TallyOf(e'.tallies, rules[i].id) == Some(Bump(TallyOf(e.tallies, rules[i].id), rules[i], now)))
      && (forall id :: (forall i :: 0 <= i < |rules| ==> rules[i].id != id) ==>
        TallyOf(e'.tallies, id) == TallyOf(e.tallies, id))
    ensures forall k :: k != key ==> EntryAt(Failed(entries, key, rules, now), k) == EntryAt(entries, k)
  {
    var e := EntryAt(entries, key);
    forall i | 0 <= i < |rules| {
      ScanAt(e.tallies, rules, now, i);
    }
    forall id | forall i :: 0 <= i < |rules| ==> rules[i].id != id {
      ScanElsewhere(e.tallies, rules, now, id);
    }
    ScanChoice(e.tallies, rules, now);
    var s := ScanRules(e.tallies, rules, now);
    if s.winner.Some? {
      assert Wins(e.tallies, rules, now, s.winner.value) && s.winner.value in rules;
      assert EntryAt(Failed(entries, key, rules, now), key).banned == At(now + s.maxWindow);
    }
  }

  /** A rule's own numbers: seconds and failures, none of them below zero. */
  lemma WindowAndLimit(r: ThresholdRule)
    ensures r.windowSeconds >= 0 ==> Window(r) == r.windowSeconds * 1_000_000_000
    ensures r.failCount >= 0 ==> Limit(r) == r.failCount
    ensures (r.windowSeconds < 0 ==> Window(r) == 0) && (r.failCount < 0 ==> Limit(r) == 0)
  {
  }

  lemma WinnerStands(
      tallies: map<Uuid, Tally>, rules: seq<ThresholdRule>, now: Time, w: ThresholdRule, q: ThresholdRule)
    requires Wins(tallies, rules, now, w) && q in rules && TripsNow(tallies, q, now)
    ensures !Outranks(q, w)
  {
    var j :| 0 <= j < |rules| && rules[j] == q;
  }

  /**
   Which rule a trip is laid to: if any rule that trips calls for a ban one that
   does, and of those that call for the same one of the longest window.
   */
  lemma RuleResponsible(entries: Entries, key: Key, rules: seq<ThresholdRule>, now: Time)
    requires DistinctIds(rules) && AnyTrips(EntryAt(entries, key).tallies, rules, now)
    ensures var tallies := EntryAt(entries, key).tallies;
      exists r :: (
        && r in rules && TripsNow(tallies, r, now)
        && EntryAt(Failed(entries, key, rules, now), key).banSource == Some(Threshold(r.id))
        && (forall q :: q in rules && TripsNow(tallies, q, now) ==>
              && (q.action == "ban" ==> r.action == "ban")
              && ((q.action == "ban" <==> r.action == "ban") ==> Window(q) <= Window(r))))
  {
    var tallies := EntryAt(entries, key).tallies;
    RuleChoice(entries, key, rules, now);
    var r :| r in rules && EntryAt(Failed(entries, key, rules, now), key).banSource == Some(Threshold(r.id))
      && Wins(tallies, rules, now, r);
    forall q | q in rules && TripsNow(tallies, q, now) ensures !Outranks(q, r) {
      WinnerStands(tallies, rules, now, r, q);
    }
  }

  // ------------------------------------------------------ order of the rules

  predicate SameRank(a: ThresholdRule, b: ThresholdRule) {
    !Outranks(a, b) && !Outranks(b, a)
  }

  lemma MembersAgree(rules: seq<ThresholdRule>, rules': seq<ThresholdRule>, r: ThresholdRule)
    requires multiset(rules) == multiset(rules')
    ensures r in rules <==> r in rules'
  {
    assert r in rules <==> r in multiset(rules);
    assert r in rules' <==> r in multiset(rules');
  }

  lemma LongestIsUnique(
      tallies: map<Uuid, Tally>, rules: seq<ThresholdRule>, rules': seq<ThresholdRule>, now: Time, w: nat, w': nat)
    requires multiset(rules) == multiset(rules')
    requires LongestTripped(tallies, rules, now, w) && LongestTripped(tallies, rules', now, w')
    ensures w <= w'
  {
    if w != 0 {
      var k :| 0 <= k < |rules| && TripsNow(tallies, rules[k], now) && Window(rules[k]) == w;
      MembersAgree(rules, rules', rules[k]);
      var j :| 0 <= j < |rules'| && rules'[j] == rules[k];
    }
  }

  /** Reordering the rules changes no tally, no count and no expiry. */
  lemma OrderOfRulesIrrelevant(
      entries: Entries, key: Key, rules: seq<ThresholdRule>, rules': seq<ThresholdRule>, now: Time)
    requires DistinctIds(rules) && DistinctIds(rules') && multiset(rules) == multiset(rules')
    ensures var e, e' := EntryAt(Failed(entries, key, rules, now), key),
          EntryAt(Failed(entries, key, rules', now), key);
            e'.(banSource := None) == e.(banSource := None)
  {
    var t := EntryAt(entries, key).tallies;
    var s, s' := ScanRules(t, rules, now), ScanRules(t, rules', now);
    SameTallies(t, rules, rules', now);
    ScanChoice(t, rules, now);
    ScanChoice(t, rules', now);
    LongestIsUnique(t, rules, rules', now, s.maxWindow, s'.maxWindow);
    LongestIsUnique(t, rules', rules, now, s'.maxWindow, s.maxWindow);
    TripsAgree(t, rules, rules', now);
  }

  /** Nor does it change the rank of the rule that is held responsible. */
  lemma OrderKeepsRank(entries: Entries, key: Key, rules: seq<ThresholdRule>, rules': seq<ThresholdRule>, now: Time)
    requires DistinctIds(rules) && DistinctIds(rules') && multiset(rules) == multiset(rules')
    requires AnyTrips(EntryAt(entries, key).tallies, rules, now)
    ensures exists r, r' :: (r in rules && r' in rules && SameRank(r, r')
              && EntryAt(Failed(entries, key, rules, now), key).banSource == Some(Threshold(r.id))
              && EntryAt(Failed(entries, key, rules', now), key).banSource == Some(Threshold(r'.id)))
  {
    var t := EntryAt(entries, key).tallies;
    var s, s' := ScanRules(t, rules, now), ScanRules(t, rules', now);
    ScanChoice(t, rules, now);
    ScanChoice(t, rules', now);
    TripsAgree(t, rules, rules', now);
    var w, w' := s.winner.value, s'.winner.value;
    WinnersRank(t, rules, rules', now, w, w');
    WinnersRank(t, rules', rules, now, w', w);
    MembersAgree(rules, rules', w);
    assert SameRank(w, w');
  }

  lemma TripsAgree(t: map<Uuid, Tally>, rules: seq<ThresholdRule>, rules': seq<ThresholdRule>, now: Time)
    requires multiset(rules) == multiset(rules')
    ensures AnyTrips(t, rules, now) <==> AnyTrips(t, rules', now)
  {
    if AnyTrips(t, rules, now) {
      var j :| 0 <= j < |rules| && TripsNow(t, rules[j], now);
      SomeTrips(t, rules, rules', now, rules[j]);
    }
    if AnyTrips(t, rules', now) {
      var j :| 0 <= j < |rules'| && TripsNow(t, rules'[j], now);
      SomeTrips(t, rules', rules, now, rules'[j]);
    }
  }

  lemma SomeTrips(
      t: map<Uuid, Tally>, rules: seq<ThresholdRule>, rules': seq<ThresholdRule>, now: Time, r: ThresholdRule)
    requires multiset(rules) == multiset(rules') && r in rules && TripsNow(t, r, now)
    ensures AnyTrips(t, rules', now)
  {
    MembersAgree(rules, rules', r);
    var k :| 0 <= k < |rules'| && rules'[k] == r;
  }

  lemma WinnersRank(
      t: map<Uuid, Tally>, rules: seq<ThresholdRule>, rules': seq<ThresholdRule>, now: Time, w: ThresholdRule,
      w': ThresholdRule)
    requires multiset(rules) == multiset(rules') && Wins(t, rules, now, w) && Wins(t, rules', now, w')
    ensures w' in rules && !Outranks(w', w)
  {
    MembersAgree(rules, rules', w');
    var j :| 0 <= j < |rules| && rules[j] == w';
  }

  lemma SameTallies(t: map<Uuid, Tally>, rules: seq<ThresholdRule>, rules': seq<ThresholdRule>, now: Time)
    requires DistinctIds(rules) && DistinctIds(rules') && multiset(rules) == multiset(rules')
    ensures ScanRules(t, rules, now).tallies == ScanRules(t, rules', now).tallies
  {
    var s, s' := ScanRules(t, rules, now).tallies, ScanRules(t, rules', now).tallies;
    forall id ensures TallyOf(s, id) == TallyOf(s', id) {
      if i :| 0 <= i < |rules| && rules[i].id == id {
        MembersAgree(rules, rules', rules[i]);
        var j :| 0 <= j < |rules'| && rules'[j] == rules[i];
        ScanAt(t, rules, now, i);
        ScanAt(t, rules', now, j);
      } else {
        forall j | 0 <= j < |rules'| ensures rules'[j].id != id { MembersAgree(rules', rules, rules'[j]); }
        ScanElsewhere(t, rules, now, id);
        ScanElsewhere(t, rules', now, id);
      }
    }
    SameLookups(s, s');
  }

  lemma SameLookups(a: map<Uuid, Tally>, b: map<Uuid, Tally>)
    requires forall id :: TallyOf(a, id) == TallyOf(b, id)
    ensures a == b
  {
    forall id ensures id in a <==> id in b { assert TallyOf(a, id) == TallyOf(b, id); }
    forall id | id in a ensures a[id] == b[id] { assert TallyOf(a, id) == TallyOf(b, id); }
  }

  // ---------------------------------------------------------------- success

  /** A success empties tallies and may rule out banner drip; it lifts no ban and forgets no trip. */
  lemma SuccessKeepsBans(entries: Entries, ip: string, user: Option<Uuid>, key: Key)
    ensures var e, e' := EntryAt(entries, key), EntryAt(Succeeded(entries, ip, user), key);
      && e'.banned == e.banned && e'.banSource == e.banSource && e'.triggerCount == e.triggerCount
      && (key == Peer(ip) || (user.Some? && key == User(user.value)) ==> e'.tallies == map[])
      && (key != Peer(ip) && !(user.Some? && key == User(user.value)) ==> e' == e)
      && (key.User? ==> e'.bannerDripEligible == e.bannerDripEligible)
      && (key == Peer(ip) ==> (e'.bannerDripEligible <==> key !in entries))
  {
  }

  // ----------------------------------------------------- merging admin bans

  predicate Concerns(b: AdminBan, wall: int, now: Time, key: Key) {
    ScopeKey(b) == Some(key) && Applies(b, wall, now)
  }

  /** Whether a rule is for the key, in the row's own terms. */
  predicate IsFor(b: AdminBan, key: Key) {
    match key
    case Peer(ip) => b.scope == "peer_ip" && b.peerIp == Some(ip)
    case User(id) => b.scope == "user" && b.userId == Some(id)
  }

  /**
   One active rule: it bans the key it is for, under its own id, without end if it
   has none, else until its end, less a fraction of a second.  It touches no other
   key, and once its end has passed nothing at all.
   */
  lemma AdminBanLasts(entries: Entries, b: AdminBan, wall: int, now: Time, key: Key)
    ensures var e, e' := EntryAt(entries, key), EntryAt(AdminBanned(entries, b, wall, now), key);
      if !IsFor(b, key) || (b.activeUntil.Some? && b.activeUntil.value < wall) then e' == e
      else
        && e'.banSource == Some(AdminRule(b.id)) && e' == e.(banned := e'.banned, banSource := e'.banSource)
        && (b.activeUntil.None? ==> forall t: Time :: IsActive(e'.banned, t))
        && (b.activeUntil.Some? ==> forall t: Time ::
              var left := b.activeUntil.value - wall;
              && (IsActive(e'.banned, t) ==> t < now + left)
              && (t + SECOND <= now + left ==> IsActive(e'.banned, t)))
  {
    if b.activeUntil.Some? && b.activeUntil.value >= wall { WholeSeconds(b.activeUntil.value - wall); }
  }

  lemma WholeSeconds(n: nat)
    ensures n / SECOND * SECOND <= n < n / SECOND * SECOND + SECOND
  {
  }

  /** The methods of an address's or user's traps take turns, in this order. */
  lemma MethodsTakeTurns(k: nat)
    ensures RoundRobin(3 * k) == BannerDrip && RoundRobin(3 * k + 1) == SlowAuth && RoundRobin(3 * k + 2) == FakeShell
  {
  }

  /** The last rule of the list that says anything about the key. */
  predicate LastWord(bans: seq<AdminBan>, wall: int, now: Time, key: Key, i: int) {
    0 <= i < |bans| && Concerns(bans[i], wall, now, key) && forall j :: i < j < |bans| ==>
      !Concerns(bans[j], wall, now, key)
  }

  predicate NoWord(bans: seq<AdminBan>, wall: int, now: Time, key: Key) {
    forall i :: 0 <= i < |bans| ==> !Concerns(bans[i], wall, now, key)
  }

  predicate BannedBy(e: TarpitEntry, b: AdminBan, wall: int, now: Time) {
    e.banSource == Some(AdminRule(b.id)) && Some(e.banned) == AdminUntil(b, wall, now)
  }

  lemma WordExtends(bans: seq<AdminBan>, wall: int, now: Time, key: Key)
    requires bans != [] && !Concerns(bans[|bans| - 1], wall, now, key)
    ensures NoWord(bans[..|bans| - 1], wall, now, key) ==> NoWord(bans, wall, now, key)
    ensures forall i :: LastWord(bans[..|bans| - 1], wall, now, key, i) ==> LastWord(bans, wall, now, key, i)
  {
    var init := bans[..|bans| - 1];
    assert forall i :: 0 <= i < |init| ==> init[i] == bans[i];
  }

  /** After a merge, a key is banned by the last applicable rule for it; all else is as before. */
  lemma {:induction false} MergeKeepsLast(entries: Entries, bans: seq<AdminBan>, wall: int, now: Time, key: Key)
    ensures var e, e' := EntryAt(entries, key), EntryAt(Refreshed(entries, bans, wall, now), key);
      && e'.tallies == e.tallies && e'.triggerCount == e.triggerCount && e'.bannerDripEligible == e.bannerDripEligible
      && (|| (e' == e && NoWord(bans, wall, now, key))
          || exists i :: LastWord(bans, wall, now, key, i) && BannedBy(e', bans[i], wall, now))
  {
    if bans != [] {
      var n := |bans| - 1;
      MergeKeepsLast(entries, bans[..n], wall, now, key);
      if Concerns(bans[n], wall, now, key) {
        assert LastWord(bans, wall, now, key, n);
      } else {
        WordExtends(bans, wall, now, key);
      }
    }
  }

  /**
   A trip replaces even an administrator's indefinite ban by one that runs out.
   The next refresh makes the ban indefinite again exactly if the last active
   rule for the key has no end.
   */
  lemma TripReplacesIndefiniteBan(
    entries: Entries, key: Key, rules: seq<ThresholdRule>, now: Time, bans: seq<AdminBan>, wall: int, later: Time)
    requires DistinctIds(rules) && EntryAt(entries, key).banned == Forever
          && AnyTrips(EntryAt(entries, key).tallies, rules, now)
    ensures var after := EntryAt(Failed(entries, key, rules, now), key).banned;
      exists w: nat ::
        && after == At(now + w) && LongestTripped(EntryAt(entries, key).tallies, rules, now, w)
        && forall t: Time :: IsActive(after, t) <==> t < now + w
    ensures EntryAt(Refreshed(Failed(entries, key, rules, now), bans, wall, later), key).banned == Forever
       <==> exists i :: LastWord(bans, wall, later, key, i) && bans[i].activeUntil.None?
  {
    RuleChoice(entries, key, rules, now);
    MergeKeepsLast(Failed(entries, key, rules, now), bans, wall, later, key);
  }
}
