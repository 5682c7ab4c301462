/**
 The accept loop and the auth callbacks around the ban engine (lib.rs).

 One label is one critical section or one database call; callbacks of a single
 connection run one after the other, everything else interleaves freely.
 */
module TarpitConnections {
  import opened Options
  import opened Tarpit
  import opened TarpitRuns
  import opened TarpitAuth

  type ConnId = nat

  /** Where a connection's current auth callback stands. */
  datatype Stage =
    | Idle
    | RulesRead(user: Option<Uuid>, enabled: bool, rules: seq<ThresholdRule>)
    | Recorded(user: Option<Uuid>)
    | Looked(snapshot: Snapshot)
    | LoginLogged(who: Uuid)

  datatype Conn = Conn(ip: string, outcome: Option<TarpitOutcome>, stage: Stage)

  /** Where the accept loop stands; it handles one socket at a time. */
  datatype Accept =
    | Waiting
    | Arrived(id: ConnId, ip: string)
    | LookedUp(id: ConnId, ip: string, snapshot: Snapshot)
    | DripPlanned(id: ConnId, ip: string, source: Option<BanSource>, ineligible: bool)
    | DripRefused(id: ConnId, ip: string, source: Option<BanSource>)

  datatype Decision = Decision(ip: string, outcome: TarpitOutcome)

  /** `goodLog` holds the addresses with a "correct login" row; `decided` is what the accept loop has chosen so far. */
  datatype System = System(
    entries: Entries, enabled: bool, rules: seq<ThresholdRule>, bans: seq<AdminBan>,
    goodLog: set<string>, accept: Accept, conns: map<ConnId, Conn>, used: set<ConnId>, decided: seq<Decision>)

  datatype Label =
    | Arrive(id: ConnId, ip: string)
    | AcceptLook(now: Time)
    | AcceptResolve
    | AcceptCheckLog(readable: bool)
    | AcceptMark
    | FailReadRules(id: ConnId, user: Option<Uuid>)
    | FailRecord(id: ConnId, now: Time)
    | FailLook(id: ConnId, now: Time)
    | FailDecide(id: ConnId)
    | LoginLog(id: ConnId, who: Uuid, written: bool)
    | LoginRecord(id: ConnId)
    | LoadRules(enabled: bool, rules: seq<ThresholdRule>, bans: seq<AdminBan>)
    | MergeBans(bans: seq<AdminBan>, wall: int, now: Time)
    | PruneLog(ip: string)
    | Disconnect(id: ConnId)

  predicate IsDrip(o: TarpitOutcome) {
    o.Trap? && o.how == BannerDrip
  }

  /** The accept loop acts: a ban or a drip ends here, anything else becomes a handler. */
  function Decide(s: System, id: ConnId, ip: string, o: TarpitOutcome): System {
    var s := s.(accept := Waiting, decided := s.decided + [Decision(ip, o)]);
    if o.Ban? || IsDrip(o) then s
    else s.(conns := s.conns[id := Conn(ip, if o == NoAction then None else Some(o), Idle)])
  }

  function SetStage(s: System, id: ConnId, stage: Stage): System
    requires id in s.conns
  {
    s.(conns := s.conns[id := s.conns[id].(stage := stage)])
  }

  /** The state after one labelled step, or None where the label is not enabled. */
  function Next(s: System, l: Label): Option<System> {
    match l
    case Arrive(id, ip) =>
      if s.accept.Waiting? && id !in s.used then Some(s.(accept := Arrived(id, ip), used := s.used + {id})) else None
    case AcceptLook(now) =>
      if s.accept.Arrived? then Some(s.(accept := LookedUp(s.accept.id, s.accept.ip,
        PreAuthSnapshot(s.entries, s.accept.ip, now)))) else None
    case AcceptResolve =>
      if !s.accept.LookedUp? then None else
        var o := SnapshotOutcome(s.accept.snapshot, s.rules, s.bans);
        if IsDrip(o) then Some(s.(accept := DripPlanned(s.accept.id, s.accept.ip, o.source,
          s.accept.snapshot.ineligible)))
        else Some(Decide(s, s.accept.id, s.accept.ip, o))
    case AcceptCheckLog(readable) =>
      if !s.accept.DripPlanned? then None
      else if s.accept.ineligible || (readable && s.accept.ip in s.goodLog) then
        Some(s.(accept := DripRefused(s.accept.id, s.accept.ip, s.accept.source)))
      else Some(Decide(s, s.accept.id, s.accept.ip, Trap(BannerDrip, s.accept.source)))
    case AcceptMark =>
      if !s.accept.DripRefused? then None
      else Some(Decide(s.(entries := MarkedGood(s.entries, s.accept.ip)), s.accept.id, s.accept.ip,
        Trap(SlowAuth, s.accept.source)))
    case FailReadRules(id, user) =>
      if id in s.conns && s.conns[id].stage.Idle? then Some(SetStage(s, id, RulesRead(user, s.enabled, s.rules)))
        else None
    case FailRecord(id, now) =>
      if !(id in s.conns && s.conns[id].stage.RulesRead?) then None else
        var c := s.conns[id];
        var entries := FailedAuth(s.entries, c.ip, c.stage.user, c.stage.enabled, c.stage.rules, now);
        Some(SetStage(s.(entries := entries), id, if c.outcome.Some? then Idle else Recorded(c.stage.user)))
    case FailLook(id, now) =>
      if !(id in s.conns && s.conns[id].stage.Recorded?) then None
      else Some(SetStage(s, id, Looked(InAuthSnapshot(s.entries, s.conns[id].ip, s.conns[id].stage.user, now))))
    case FailDecide(id) =>
      if !(id in s.conns && s.conns[id].stage.Looked?) then None else
        var o := NeverDrip(SnapshotOutcome(s.conns[id].stage.snapshot, s.rules, s.bans));
        Some(s.(conns := s.conns[id := s.conns[id].(outcome := Some(o), stage := Idle)]))
    case LoginLog(id, user, written) =>
      if !(id in s.conns && s.conns[id].stage.Idle?) then None
      else Some(SetStage(if written then s.(goodLog := s.goodLog + {s.conns[id].ip}) else s, id, LoginLogged(user)))
    case LoginRecord(id) =>
      if !(id in s.conns && s.conns[id].stage.LoginLogged?) then None
      else Some(SetStage(s.(entries := Succeeded(s.entries, s.conns[id].ip, Some(s.conns[id].stage.who))), id, Idle))
    case LoadRules(enabled, rules, bans) => Some(s.(enabled := enabled, rules := rules, bans := bans))
    case MergeBans(bans, wall, now) => Some(s.(entries := Refreshed(s.entries, bans, wall, now)))
    case PruneLog(ip) => Some(s.(goodLog := s.goodLog - {ip}))
    case Disconnect(id) => if id in s.conns then Some(s.(conns := s.conns - {id})) else None
  }

  function Exec(s: System, ls: seq<Label>): Option<System> {
    if ls == [] then Some(s) else
      var before := Exec(s, ls[..|ls| - 1]);
      if before.None? then None else Next(before.value, ls[|ls| - 1])
  }

  const START := System(map[], true, [], [], {}, Waiting, map[], {}, [])

  // ------------------------------------------------------------- outcomes

  /** A trap without banner drip is what every handler decision ends in. */
  lemma InAuthNeverDrips(s: Snapshot, rules: seq<ThresholdRule>, bans: seq<AdminBan>)
    ensures var o := SnapshotOutcome(s, rules, bans);
      && !IsDrip(NeverDrip(o))
      && (!IsDrip(o) ==> NeverDrip(o) == o)
      && (o.Ban? <==> NeverDrip(o).Ban?) && (o == NoAction <==> NeverDrip(o) == NoAction)
  {
  }

  /** Nothing happens without an active ban; a hard ban needs a source row that still says "ban". */
  lemma OutcomeFollowsCurrentRule(s: Snapshot, rules: seq<ThresholdRule>, bans: seq<AdminBan>)
    ensures var o := SnapshotOutcome(s, rules, bans);
      && (o == NoAction <==> !s.banned)
      && (o.Ban? <==> s.banned && s.source.Some? && CurrentAction(s.source.value, rules, bans) == Some("ban"))
      && (o.Trap? ==> (
            && o.how == RoundRobin(s.triggerCount)
            && (o.source.Some? <==> s.source.Some? && CurrentAction(s.source.value, rules, bans).Some?)
            && (o.source.Some? ==> o.source == s.source)))
  {
  }

  /** Whether a known user is banned. */
  predicate UserBanned(entries: Entries, user: Option<Uuid>, now: Time) {
    user.Some? && IsBanned(entries, User(user.value), now)
  }

  /**
   A handler acts exactly if the address or the user is banned.  It goes by the
   user's ban if that one names a source, else by the address's, and by the
   larger trigger count of those that are banned.
   */
  lemma HandlerActsIff(
      entries: Entries, ip: string, user: Option<Uuid>, now: Time, rules: seq<ThresholdRule>, bans: seq<AdminBan>)
    ensures var s := InAuthSnapshot(entries, ip, user, now);
            var byIp, byUser := IsBanned(entries, Peer(ip), now), UserBanned(entries, user, now);
      && (NeverDrip(SnapshotOutcome(s, rules, bans)) != NoAction <==> byIp || byUser)
      && (byUser && entries[User(user.value)].banSource.Some? ==> s.source == entries[User(user.value)].banSource)
      && (byUser && entries[User(user.value)].banSource.None? && !byIp ==> s.source == None)
      && (byIp && (!byUser || entries[User(user.value)].banSource.None?) ==> s.source == entries[Peer(ip)].banSource)
      && (byIp ==> s.triggerCount >= entries[Peer(ip)].triggerCount)
      && (byUser ==> s.triggerCount >= entries[User(user.value)].triggerCount)
      && (byIp || byUser ==>
            || (byIp && s.triggerCount == entries[Peer(ip)].triggerCount)
            || (byUser && s.triggerCount == entries[User(user.value)].triggerCount))
  {
    InAuthNeverDrips(InAuthSnapshot(entries, ip, user, now), rules, bans);
  }

  /** The label is a step of this connection, or gives its number away again. */
  predicate StepOf(l: Label, id: ConnId) {
    match l
    case FailReadRules(i, _) => i == id
    case FailRecord(i, _) => i == id
    case FailLook(i, _) => i == id
    case FailDecide(i) => i == id
    case LoginLog(i, _, _) => i == id
    case LoginRecord(i) => i == id
    case Disconnect(i) => i == id
    case _ => false
  }

  // ------------------------------------------------------------- invariants

  predicate Quiet(s: System) {
    forall id :: id in s.conns ==> id in s.used && (s.conns[id].outcome.Some? ==> !IsDrip(s.conns[id].outcome.value))
  }

  predicate AcceptUsed(s: System) {
    !s.accept.Waiting? ==> s.accept.id in s.used && s.accept.id !in s.conns
  }

  lemma AcceptStep(s: System, l: Label)
    requires Quiet(s) && AcceptUsed(s) && Next(s, l).Some?
    ensures AcceptUsed(Next(s, l).value)
  {
  }

  /** A decision that makes a handler makes one that does not drip. */
  lemma DecideQuiet(s: System, s0: System, id: ConnId, ip: string, o: TarpitOutcome)
    requires Quiet(s) && id in s.used && s0.conns == s.conns && s0.used == s.used
    ensures Quiet(Decide(s0, id, ip, o))
  {
  }

  lemma DecidingQuiet(s: System, l: Label)
    requires Quiet(s) && AcceptUsed(s) && Next(s, l).Some? && (l.AcceptResolve? || l.AcceptCheckLog? || l.AcceptMark?)
    ensures Quiet(Next(s, l).value)
  {
    var o := if l.AcceptResolve? then SnapshotOutcome(s.accept.snapshot, s.rules, s.bans)
             else Trap(if l.AcceptMark? then SlowAuth else BannerDrip, s.accept.source);
    var s0 := if l.AcceptMark? then s.(entries := MarkedGood(s.entries, s.accept.ip)) else s;
    DecideQuiet(s, s0, s.accept.id, s.accept.ip, o);
  }

  lemma QuietStep(s: System, l: Label)
    requires Quiet(s) && AcceptUsed(s) && Next(s, l).Some?
    ensures Quiet(Next(s, l).value) && AcceptUsed(Next(s, l).value)
  {
    AcceptStep(s, l);
    if l.FailDecide? { InAuthNeverDrips(s.conns[l.id].stage.snapshot, s.rules, s.bans); }
    if l.AcceptResolve? || l.AcceptCheckLog? || l.AcceptMark? { DecidingQuiet(s, l); }
  }

  /** Over all runs, no handler ever holds a banner-drip outcome. */
  lemma {:induction false} NoHandlerDrips(ls: seq<Label>)
    requires Exec(START, ls).Some?
    ensures Quiet(Exec(START, ls).value) && AcceptUsed(Exec(START, ls).value)
  {
    if ls != [] {
      NoHandlerDrips(ls[..|ls| - 1]);
      QuietStep(Exec(START, ls[..|ls| - 1]).value, ls[|ls| - 1]);
    }
  }

  lemma OthersLeave(s: System, l: Label, id: ConnId)
    requires AcceptUsed(s) && id in s.conns && Next(s, l).Some? && !StepOf(l, id)
    ensures id in Next(s, l).value.conns && Next(s, l).value.conns[id] == s.conns[id]
  {
  }

  lemma {:induction false} ConnStays(s: System, ls: seq<Label>, id: ConnId)
    requires Quiet(s) && AcceptUsed(s) && id in s.conns && Exec(s, ls).Some?
    requires forall i :: 0 <= i < |ls| ==> !StepOf(ls[i], id)
    ensures var s' := Exec(s, ls).value; Quiet(s') && AcceptUsed(s') && id in s'.conns && s'.conns[id] == s.conns[id]
  {
    if ls != [] {
      var n := |ls| - 1;
      ConnStays(s, ls[..n], id);
      OthersLeave(Exec(s, ls[..n]).value, ls[n], id);
      QuietStep(Exec(s, ls[..n]).value, ls[n]);
    }
  }

  /**
   What a failed login decides, over all runs: the bans of its address and user
   at its look, under the rules loaded at the decision.  Nothing that other
   connections do in between matters otherwise.
   */
  lemma LookDecides(before: seq<Label>, ls: seq<Label>, id: ConnId, now: Time)
    requires Exec(START, before).Some? && Next(Exec(START, before).value, FailLook(id, now)).Some?
    requires Exec(Next(Exec(START, before).value, FailLook(id, now)).value, ls).Some?
    requires forall i :: 0 <= i < |ls| ==> !StepOf(ls[i], id)
    ensures var s := Exec(START, before).value; var c := s.conns[id];
            var s1 := Exec(Next(s, FailLook(id, now)).value, ls).value;
            var s2 := Next(s1, FailDecide(id));
      && s2.Some? && id in s2.value.conns && s2.value.conns[id].outcome
         == Some(NeverDrip(SnapshotOutcome(InAuthSnapshot(s.entries, c.ip, c.stage.user, now), s1.rules, s1.bans)))
  {
    var s := Exec(START, before).value;
    NoHandlerDrips(before);
    QuietStep(s, FailLook(id, now));
    ConnStays(Next(s, FailLook(id, now)).value, ls, id);
  }

  /** The address and the user of a failed login each counted it once, and nothing else changed. */
  ghost predicate CountedFor(
      entries: Entries, after: Entries, ip: string, user: Option<Uuid>, enabled: bool, rules: seq<ThresholdRule>,
      now: Time)
  {
    forall key ::
      if enabled && Names(ip, user, key) then key in after && after[key] == Failed(entries, key, rules, now)[key]
      else (key in after <==> key in entries) && (key in entries ==> after[key] == entries[key])
  }

  lemma FailureCounted(
      entries: Entries, ip: string, user: Option<Uuid>, enabled: bool, rules: seq<ThresholdRule>, now: Time)
    ensures CountedFor(entries, FailedAuth(entries, ip, user, enabled, rules, now), ip, user, enabled, rules, now)
  {
    forall key { FailureTouches(entries, ip, user, enabled, rules, now, key); }
  }

  lemma RecordStep(s: System, id: ConnId, now: Time)
    requires id in s.conns && s.conns[id].stage.RulesRead?
    ensures var c := s.conns[id]; var s' := Next(s, FailRecord(id, now));
      && s'.Some?
      && s'.value.entries == FailedAuth(s.entries, c.ip, c.stage.user, c.stage.enabled, c.stage.rules, now)
      && (c.outcome.None? <==> Next(s'.value, FailLook(id, now)).Some?)
  {
  }

  /**
   A failed login, over all runs: under the rules and the switch read at its start
   it counts against its address and its user when it is recorded; a connection
   that is still undecided then goes on to look at its bans.
   */
  lemma FailedLoginCounts(before: seq<Label>, id: ConnId, user: Option<Uuid>, ls: seq<Label>, now: Time)
    requires Exec(START, before).Some? && Next(Exec(START, before).value, FailReadRules(id, user)).Some?
    requires Exec(Next(Exec(START, before).value, FailReadRules(id, user)).value, ls).Some?
    requires forall i :: 0 <= i < |ls| ==> !StepOf(ls[i], id)
    ensures var s := Exec(START, before).value; var ip := s.conns[id].ip;
            var s1 := Exec(Next(s, FailReadRules(id, user)).value, ls).value; var s2 := Next(s1, FailRecord(id, now));
      && s2.Some? && CountedFor(s1.entries, s2.value.entries, ip, user, s.enabled, s.rules, now)
      && (s.conns[id].outcome.None? <==> Next(s2.value, FailLook(id, now)).Some?)
  {
    var s := Exec(START, before).value;
    NoHandlerDrips(before);
    QuietStep(s, FailReadRules(id, user));
    ConnStays(Next(s, FailReadRules(id, user)).value, ls, id);
    var s1 := Exec(Next(s, FailReadRules(id, user)).value, ls).value;
    FailureCounted(s1.entries, s.conns[id].ip, user, s.enabled, s.rules, now);
    RecordStep(s1, id, now);
  }

  /**
   A successful login, over all runs: its row is in the log at once if it could be
   written, and when it is recorded the failures of address and user are forgotten
   and an address with an entry is unfit for banner drip.
   */
  lemma LoginTakesEffect(before: seq<Label>, id: ConnId, who: Uuid, written: bool, ls: seq<Label>)
    requires Exec(START, before).Some? && Next(Exec(START, before).value, LoginLog(id, who, written)).Some?
    requires Exec(Next(Exec(START, before).value, LoginLog(id, who, written)).value, ls).Some?
    requires forall i :: 0 <= i < |ls| ==> !StepOf(ls[i], id)
    ensures var s := Exec(START, before).value; var ip := s.conns[id].ip;
            var s1 := Exec(Next(s, LoginLog(id, who, written)).value, ls).value; var s2 := Next(s1, LoginRecord(id));
      && Next(s, LoginLog(id, who, written)).value.goodLog == (if written then s.goodLog + {ip} else s.goodLog)
      && s2.Some?
      && EntryAt(s2.value.entries, Peer(ip)).tallies == EntryAt(s2.value.entries, User(who)).tallies == map[]
      && (Peer(ip) in s1.entries ==> !EntryAt(s2.value.entries, Peer(ip)).bannerDripEligible)
  {
    var s := Exec(START, before).value;
    NoHandlerDrips(before);
    QuietStep(s, LoginLog(id, who, written));
    ConnStays(Next(s, LoginLog(id, who, written)).value, ls, id);
    LoginStep(Exec(Next(s, LoginLog(id, who, written)).value, ls).value, id);
  }

  lemma LoginStep(s: System, id: ConnId)
    requires id in s.conns && s.conns[id].stage.LoginLogged?
    ensures var ip, who := s.conns[id].ip, s.conns[id].stage.who; var s' := Next(s, LoginRecord(id));
      && s'.Some?
      && EntryAt(s'.value.entries, Peer(ip)).tallies == EntryAt(s'.value.entries, User(who)).tallies == map[]
      && (Peer(ip) in s.entries ==> !EntryAt(s'.value.entries, Peer(ip)).bannerDripEligible)
  {
    var ip, who := s.conns[id].ip, s.conns[id].stage.who;
    SuccessKeepsBans(s.entries, ip, Some(who), Peer(ip));
    SuccessKeepsBans(s.entries, ip, Some(who), User(who));
  }

  /** A drip that the log rules out is remembered: the address is marked, and a slow login decided instead. */
  lemma RefusedDripIsMarked(s: System)
    requires Next(s, AcceptMark).Some?
    ensures var s' := Next(s, AcceptMark).value; var ip := s.accept.ip;
      && Flagged(s', ip)
      && s'.decided == s.decided + [Decision(ip, Trap(SlowAuth, s.accept.source))]
  {
  }

  predicate IsAccept(l: Label) {
    l.AcceptLook? || l.AcceptResolve? || l.AcceptCheckLog? || l.AcceptMark?
  }

  lemma OthersLeaveAccept(s: System, l: Label)
    requires !s.accept.Waiting? && Next(s, l).Some? && !IsAccept(l)
    ensures Next(s, l).value.accept == s.accept
  {
  }

  lemma {:induction false} AcceptStays(s: System, ls: seq<Label>)
    requires !s.accept.Waiting? && Exec(s, ls).Some? && forall i :: 0 <= i < |ls| ==> !IsAccept(ls[i])
    ensures Exec(s, ls).value.accept == s.accept
  {
    if ls != [] {
      var n := |ls| - 1;
      AcceptStays(s, ls[..n]);
      OthersLeaveAccept(Exec(s, ls[..n]).value, ls[n]);
    }
  }

  /**
   What the accept loop decides: an address that is banned when the loop looks gets
   what its ban means under the rules loaded when it resolves, an address that is not gets
   through; only a drip is not final yet.  Other steps in between do not matter otherwise.
   */
  lemma AcceptDecides(s: System, now: Time, ls: seq<Label>)
    requires Next(s, AcceptLook(now)).Some? && Exec(Next(s, AcceptLook(now)).value, ls).Some?
    requires forall i :: 0 <= i < |ls| ==> !IsAccept(ls[i])
    ensures var s1 := Exec(Next(s, AcceptLook(now)).value, ls).value; var ip := s.accept.ip;
            var o := if IsBanned(s.entries, Peer(ip), now)
              then ResolveOutcome(s.entries[Peer(ip)].banSource, s.entries[Peer(ip)].triggerCount, s1.rules, s1.bans)
              else NoAction;
            var s2 := Next(s1, AcceptResolve);
      && s2.Some?
      && (if IsDrip(o) then s2.value.decided == s1.decided && s2.value.accept.DripPlanned? && s2.value.accept.ip == ip
          else s2.value.decided == s1.decided + [Decision(ip, o)] && s2.value.accept.Waiting?)
  {
    AcceptStays(Next(s, AcceptLook(now)).value, ls);
  }

  /** A connection's first decision is its last: whatever runs next, the outcome stays while the connection lives. */
  lemma {:induction false} OutcomeConstant(before: seq<Label>, ls: seq<Label>, id: ConnId)
    requires Exec(START, before).Some? && Exec(Exec(START, before).value, ls).Some?
    requires var s := Exec(START, before).value; id in s.conns && s.conns[id].outcome.Some?
    ensures var s, s' := Exec(START, before).value, Exec(Exec(START, before).value, ls).value;
            id in s'.conns ==> s'.conns[id].outcome == s.conns[id].outcome
  {
    DecidedSettles(before, id);
    NoHandlerDrips(before);
    StaysDecided(Exec(START, before).value, ls, id, Exec(START, before).value.conns[id].outcome);
  }

  /** While a connection is decided, no callback of it is between recording and deciding. */
  predicate Settled(s: System, id: ConnId) {
    id in s.conns && s.conns[id].outcome.Some? ==>
      s.conns[id].stage.Idle? || s.conns[id].stage.RulesRead? || s.conns[id].stage.LoginLogged?
  }

  lemma SettledStep(s: System, l: Label, id: ConnId)
    requires AcceptUsed(s) && Settled(s, id) && Next(s, l).Some?
    ensures Settled(Next(s, l).value, id)
  {
  }

  lemma {:induction false} DecidedSettles(ls: seq<Label>, id: ConnId)
    requires Exec(START, ls).Some?
    ensures Settled(Exec(START, ls).value, id)
  {
    if ls != [] {
      var n := |ls| - 1;
      DecidedSettles(ls[..n], id);
      NoHandlerDrips(ls[..n]);
      SettledStep(Exec(START, ls[..n]).value, ls[n], id);
    }
  }

  /** The connection still has this outcome, or is gone for good. */
  predicate Keeps(s: System, id: ConnId, o: Option<TarpitOutcome>) {
    && id in s.used && Quiet(s) && AcceptUsed(s) && Settled(s, id)
    && (id in s.conns ==> s.conns[id].outcome == o)
    && (id !in s.conns ==> s.accept.Waiting? || s.accept.id != id)
  }

  lemma OutcomeKept(s: System, l: Label, id: ConnId, o: Option<TarpitOutcome>)
    requires Keeps(s, id, o) && o.Some? && Next(s, l).Some?
    ensures var s' := Next(s, l).value;
      && id in s'.used && (id in s'.conns ==> s'.conns[id].outcome == o)
      && (id !in s'.conns ==> s'.accept.Waiting? || s'.accept.id != id)
  {
  }

  lemma KeepsStep(s: System, l: Label, id: ConnId, o: Option<TarpitOutcome>)
    requires Keeps(s, id, o) && o.Some? && Next(s, l).Some?
    ensures Keeps(Next(s, l).value, id, o)
  {
    QuietStep(s, l);
    SettledStep(s, l, id);
    OutcomeKept(s, l, id, o);
  }

  lemma {:induction false} StaysDecided(s: System, ls: seq<Label>, id: ConnId, o: Option<TarpitOutcome>)
    requires Keeps(s, id, o) && o.Some? && Exec(s, ls).Some?
    ensures Keeps(Exec(s, ls).value, id, o)
  {
    if ls != [] {
      var n := |ls| - 1;
      StaysDecided(s, ls[..n], id, o);
      KeepsStep(Exec(s, ls[..n]).value, ls[n], id, o);
    }
  }

  // -------------------------------------------------------- banner-drip safety

  predicate DripChosenFor(s: System, s': System, ip: string) {
    exists i :: |s.decided| <= i < |s'.decided| && s'.decided[i].ip == ip && IsDrip(s'.decided[i].outcome)
  }

  /** Decisions are only ever appended, and only the log check can append a drip. */
  lemma DecidedStep(s: System, l: Label, ip: string)
    requires Next(s, l).Some?
    ensures var s' := Next(s, l).value;
      && s.decided <= s'.decided
      && (DripChosenFor(s, s', ip) <==>
            l.AcceptCheckLog? && s.accept.ip == ip && !s.accept.ineligible && !(l.readable && ip in s.goodLog))
  {
    var s' := Next(s, l).value;
    if l.AcceptCheckLog? && s.accept.ip == ip && !s.accept.ineligible && !(l.readable && ip in s.goodLog) {
      assert s'.decided[|s.decided|] == Decision(ip, Trap(BannerDrip, s.accept.source));
    }
  }

  lemma DripSplits(a: System, b: System, c: System, ip: string)
    requires a.decided <= b.decided <= c.decided
    ensures DripChosenFor(a, c, ip) <==> DripChosenFor(a, b, ip) || DripChosenFor(b, c, ip)
  {
    assert forall i :: 0 <= i < |b.decided| ==> b.decided[i] == c.decided[i];
  }

  /** The label loses the address's rows, or is a look for them, by its own accept, that cannot read the log. */
  predicate LosesLog(s: System, l: Label, ip: string) {
    l == PruneLog(ip) || (l == AcceptCheckLog(false) && s.accept.DripPlanned? && s.accept.ip == ip)
  }

  /** No step of the run loses the address's log. */
  predicate LogKept(s: System, ls: seq<Label>, ip: string) {
    ls == [] ||
      var n := |ls| - 1;
      LogKept(s, ls[..n], ip) && Exec(s, ls[..n]).Some? && !LosesLog(Exec(s, ls[..n]).value, ls[n], ip)
  }

  /**
   Banner-drip safety: from the moment a correct login from an address is in the
   log, as long as that row is kept and read when it matters, drip is never
   chosen for it.
   */
  lemma {:induction false} KnownGoodNeverDripped(s: System, ls: seq<Label>, ip: string)
    requires ip in s.goodLog && Exec(s, ls).Some? && LogKept(s, ls, ip)
    ensures var s' := Exec(s, ls).value; ip in s'.goodLog && s.decided <= s'.decided && !DripChosenFor(s, s', ip)
  {
    if ls != [] {
      var n := |ls| - 1;
      KnownGoodNeverDripped(s, ls[..n], ip);
      KnownGoodStep(Exec(s, ls[..n]).value, Exec(s, ls).value, ls[n], ip);
      DripSplits(s, Exec(s, ls[..n]).value, Exec(s, ls).value, ip);
    }
  }

  lemma KnownGoodStep(s: System, s': System, l: Label, ip: string)
    requires ip in s.goodLog && Next(s, l) == Some(s') && !LosesLog(s, l, ip)
    ensures ip in s'.goodLog && s.decided <= s'.decided && !DripChosenFor(s, s', ip)
  {
    DecidedStep(s, l, ip);
  }

  /** The in-memory flag says the address may not be dripped, and no accept in progress missed it. */
  predicate Flagged(s: System, ip: string) {
    && Peer(ip) in s.entries && !s.entries[Peer(ip)].bannerDripEligible
    && (s.accept.LookedUp? && s.accept.ip == ip && s.accept.snapshot.banned ==> s.accept.snapshot.ineligible)
    && (s.accept.DripPlanned? && s.accept.ip == ip ==> s.accept.ineligible)
  }

  lemma FlagSurvives(
      entries: Entries, key: Key, ip: string, user: Option<Uuid>, enabled: bool, rules: seq<ThresholdRule>, now: Time,
      bans: seq<AdminBan>, wall: int)
    requires key in entries && key.Peer? && !entries[key].bannerDripEligible
    ensures var a, b, c, d := FailedAuth(entries, ip, user, enabled, rules, now), Succeeded(entries, ip, user),
          Refreshed(entries, bans, wall, now), MarkedGood(entries, ip);
      && key in a && !a[key].bannerDripEligible
      && key in b && !b[key].bannerDripEligible
      && key in c && !c[key].bannerDripEligible
      && key in d && !d[key].bannerDripEligible
  {
    MergeKeepsLast(entries, bans, wall, now, key);
    EntriesStay(entries, bans, wall, now, key);
  }

  lemma {:induction false} EntriesStay(entries: Entries, bans: seq<AdminBan>, wall: int, now: Time, key: Key)
    requires key in entries
    ensures key in Refreshed(entries, bans, wall, now)
  {
    if bans != [] { EntriesStay(entries, bans[..|bans| - 1], wall, now, key); }
  }

  lemma FlagStep(s: System, l: Label, ip: string)
    requires Flagged(s, ip) && Next(s, l).Some?
    ensures Flagged(Next(s, l).value, ip) && !DripChosenFor(s, Next(s, l).value, ip)
  {
    DecidedStep(s, l, ip);
    match l
    case FailRecord(id, now) =>
      var c := s.conns[id];
      FlagSurvives(s.entries, Peer(ip), c.ip, c.stage.user, c.stage.enabled, c.stage.rules, now, [], 0);
    case LoginRecord(id) =>
      FlagSurvives(s.entries, Peer(ip), s.conns[id].ip, Some(s.conns[id].stage.who), true, [], 0, [], 0);
    case MergeBans(bans, wall, now) =>
      FlagSurvives(s.entries, Peer(ip), ip, None, true, [], now, bans, wall);
    case AcceptMark =>
      FlagSurvives(s.entries, Peer(ip), s.accept.ip, None, true, [], 0, [], 0);
    case _ =>
  }

  /** Once the flag is set it protects on its own, even if every log row is lost or unreadable. */
  lemma {:induction false} FlaggedNeverDripped(s: System, ls: seq<Label>, ip: string)
    requires Flagged(s, ip) && Exec(s, ls).Some?
    ensures var s' := Exec(s, ls).value; Flagged(s', ip) && s.decided <= s'.decided && !DripChosenFor(s, s', ip)
  {
    if ls != [] {
      var n := |ls| - 1;
      FlaggedNeverDripped(s, ls[..n], ip);
      var s1, s' := Exec(s, ls[..n]).value, Exec(s, ls).value;
      FlagStep(s1, ls[n], ip);
      DecidedStep(s1, ls[n], ip);
      DripSplits(s, s1, s', ip);
    }
  }
}
