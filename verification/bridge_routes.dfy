/**
 Where a bridge leads: the connection a channel's bytes are forwarded to is the
 one that offered the port the channel asked for, at the target it asked for.
 */
module BridgeRoutes {
  import opened Options
  import opened Bridges
  import opened BridgeInvariants
  import opened BridgeSafety

  // ------------------------------------------------------- read off the run

  type Requests = map<ChannelId, (EntityId, Port)>
  type Servers = map<ChannelId, ConnId>

  function Asked(rq: Requests, l: Label, c: ConnId): Requests {
    if l.Open? && l.c == c then rq[l.ch := (l.target, l.port)] else rq
  }

  /** The target and port each channel of a connection was opened for. */
  function RequestsOf(ls: seq<Label>, c: ConnId): Requests {
    if ls == [] then map[] else Asked(RequestsOf(ls[..|ls| - 1], c), ls[|ls| - 1], c)
  }

  /** The label is an opening's look at the slots. */
  predicate LooksUp(s: System, l: Label, c: ConnId) {
    && l.OpenStep? && l.c == c && c in s.conns && l.ch in s.conns[c].opens && s.conns[c].opens[l.ch].stage.NeedSlot?
  }

  function Answered(sv: Servers, s: System, l: Label, c: ConnId, rq: Requests): Servers {
    if LooksUp(s, l, c) && l.ch in rq && rq[l.ch] in s.slots then sv[l.ch := s.slots[rq[l.ch]]] else sv
  }

  /** The connection that held the slot each channel asked for when its opening looked and found one. */
  function ServersOf(start: System, ls: seq<Label>, c: ConnId): Servers {
    if ls == [] then map[] else
      var n := |ls| - 1;
      var before, sv := Exec(start, ls[..n]), ServersOf(start, ls[..n], c);
      if before.None? then sv else Answered(sv, before.value, ls[n], c, RequestsOf(ls[..n], c))
  }

  // ----------------------------------------------------------- the invariant

  predicate IsEntity(s: System, c: ConnId, e: EntityId) {
    c in s.conns && s.conns[c].entity == Some(e)
  }

  /** The stages behind the look at the slots. */
  predicate PastSlot(st: OpenStage) {
    st.NeedChannel? || st.NeedBridge? || PastBridge(st)
  }

  predicate OpeningRouted(e: Option<EntityId>, ch: ChannelId, o: Opening, rq: Requests, sv: Servers) {
    && e == Some(o.req.client) && ch in rq && (o.req.target, o.req.port) == rq[ch]
    && (PastSlot(o.stage) <==> ch in sv)
    && (PastSlot(o.stage) ==> sv[ch] == o.server)
    && (HasTunnel(o.stage) ==> o.stage.tunnel.req == o.req)
  }

  predicate OpensRouted(conn: Conn, rq: Requests, sv: Servers) {
    forall ch :: ch in conn.opens ==> OpeningRouted(conn.entity, ch, conn.opens[ch], rq, sv)
  }

  predicate ConnRouted(conn: Conn, rq: Requests, sv: Servers) {
    && conn.channels == rq.Keys && sv.Keys <= rq.Keys
    && OpensRouted(conn, rq, sv)
    && (forall ch :: ch in conn.bridges ==> ch in sv && conn.bridges[ch] == sv[ch])
  }

  /** The servers found have authenticated as the targets asked for. */
  predicate ServersKnown(s: System, rq: Requests, sv: Servers) {
    forall ch :: ch in sv && ch in rq ==> IsEntity(s, sv[ch], rq[ch].0)
  }

  predicate Routed(s: System, c: ConnId, rq: Requests, sv: Servers) {
    && (c in s.conns ==> ConnRouted(s.conns[c], rq, sv))
    && (c !in s.conns ==> rq == map[] && sv == map[])
    && ServersKnown(s, rq, sv)
  }

  // ---------------------------------------------------------------- one step

  /** Only one connection differs, and it is still who it was. */
  predicate OneConn(s: System, s': System, c: ConnId) {
    && c in s'.conns && s'.conns == s.conns[c := s'.conns[c]]
    && (c in s.conns && s.conns[c].entity.Some? ==> s'.conns[c].entity == s.conns[c].entity)
  }

  lemma OneConnIs(s: System, s': System, c: ConnId, conn: Conn)
    requires c in s.conns && s'.conns == s.conns[c := conn] && conn.entity == s.conns[c].entity
    ensures OneConn(s, s', c)
  {
  }

  lemma StepTouches(s: System, s': System, l: Label)
    requires Next(s, l) == Some(s')
    ensures if l.ChangeDb? then s'.conns == s.conns else OneConn(s, s', l.c)
  {
    match l
    case OpenStep(c, ch, pick, ok) =>
      var conn := OpeningTouches(s, s', c, ch, pick, ok);
      OneConnIs(s, s', c, conn);
    case CloseStep(c) =>
      var conn := ClosingTouches(s, s', c);
      OneConnIs(s, s', c, conn);
    case SweepStep(c, pick) =>
      var conn := SweepingTouches(s, s', c, pick);
      OneConnIs(s, s', c, conn);
    case _ => PlainConn(s, s', l);
  }

  lemma PlainConn(s: System, s': System, l: Label)
    requires Next(s, l) == Some(s') && !l.CloseStep? && !l.SweepStep? && !l.OpenStep?
    ensures if l.ChangeDb? then s'.conns == s.conns else OneConn(s, s', l.c)
  {
    match l
    case Register(c, port) => assert s'.conns == s.conns[c := s.conns[c]];
    case Unregister(c, port) => assert s'.conns == s.conns[c := s.conns[c]];
    case _ =>
  }

  /** The connections after a step: all are still there, under the entities they had. */
  predicate SameEntities(s: System, s': System) {
    forall c :: c in s.conns ==>
      c in s'.conns && (s.conns[c].entity.Some? ==> s'.conns[c].entity == s.conns[c].entity)
  }

  lemma EntitiesStay(s: System, s': System, l: Label)
    requires Next(s, l) == Some(s')
    ensures SameEntities(s, s')
  {
    StepTouches(s, s', l);
  }

  lemma ServersStay(s: System, s': System, rq: Requests, sv: Servers)
    requires ServersKnown(s, rq, sv) && SameEntities(s, s')
    ensures ServersKnown(s', rq, sv)
  {
  }

  // -------------------------------------------------------- steps of an opening

  lemma RoutedEnded(conn: Conn, ch: ChannelId, rq: Requests, sv: Servers)
    requires ConnRouted(conn, rq, sv)
    ensures ConnRouted(Ended(conn, ch), rq, sv)
  {
  }

  lemma RoutedAtStage(conn: Conn, ch: ChannelId, o: Opening, rq: Requests, sv: Servers)
    requires ConnRouted(conn, rq, sv) && OpeningRouted(conn.entity, ch, o, rq, sv)
    ensures ConnRouted(AtStage(conn, ch, o), rq, sv)
  {
  }

  lemma RoutedCheck(
      s: System, conn: Conn, ch: ChannelId, o: Opening, pick: nat, ok: bool, rq: Requests, sv: Servers)
    requires ConnRouted(conn, rq, sv) && OpeningRouted(conn.entity, ch, o, rq, sv) && IsCheck(o.stage)
    ensures ConnRouted(CheckStep(s, conn, ch, o, pick, ok), rq, sv)
  {
    var next := Checked(s, o, pick, ok);
    if next.None? {
      RoutedEnded(conn, ch, rq, sv);
    } else {
      RoutedAtStage(conn, ch, next.value, rq, sv);
    }
  }

  /** The answer for another channel changes nothing for this one. */
  lemma AnsweredOthers(conn: Conn, ch: ChannelId, rq: Requests, sv: Servers, v: ConnId)
    requires ConnRouted(conn, rq, sv) && ch in rq && ch !in sv
    ensures ConnRouted(conn.(opens := conn.opens - {ch}), rq, sv[ch := v])
  {
  }

  lemma RoutedFound(conn: Conn, ch: ChannelId, o: Opening, rq: Requests, sv: Servers, v: ConnId)
    requires ConnRouted(conn, rq, sv) && OpeningRouted(conn.entity, ch, o, rq, sv) && o.stage.NeedSlot?
    ensures ConnRouted(AtStage(conn, ch, o.(stage := NeedChannel, server := v)), rq, sv[ch := v])
  {
    var o' := o.(stage := NeedChannel, server := v);
    AnsweredOthers(conn, ch, rq, sv, v);
    RoutedAtStage(conn.(opens := conn.opens - {ch}), ch, o', rq, sv[ch := v]);
    assert (conn.opens - {ch})[ch := o'] == conn.opens[ch := o'];
  }

  lemma RoutedLook(s: System, conn: Conn, ch: ChannelId, o: Opening, ok: bool, rq: Requests, sv: Servers)
    requires ConnRouted(conn, rq, sv) && OpeningRouted(conn.entity, ch, o, rq, sv) && o.stage.NeedSlot?
    ensures ConnRouted(SlotStep(s, conn, ch, o, ok), rq, if rq[ch] in s.slots then sv[ch := s.slots[rq[ch]]] else sv)
  {
    if rq[ch] in s.slots {
      RoutedFound(conn, ch, o, rq, sv, s.slots[rq[ch]]);
    } else if !o.slow {
      RoutedAtStage(conn, ch, o.(slow := true), rq, sv);
    } else {
      RoutedEnded(conn, ch, rq, sv);
    }
  }

  lemma RoutedBridge(conn: Conn, ch: ChannelId, o: Opening, rq: Requests, sv: Servers)
    requires ConnRouted(conn, rq, sv) && OpeningRouted(conn.entity, ch, o, rq, sv) && o.stage.NeedBridge?
    ensures ConnRouted(AtStage(conn, ch, o.(stage := NeedTunnel)).(bridges := conn.bridges[ch := o.server]), rq, sv)
  {
    RoutedAtStage(conn, ch, o.(stage := NeedTunnel), rq, sv);
  }

  lemma RoutedEarly(
      s: System, conn: Conn, ch: ChannelId, o: Opening, pick: nat, ok: bool, rq: Requests, sv: Servers)
    requires ConnRouted(conn, rq, sv) && OpeningRouted(conn.entity, ch, o, rq, sv)
    requires !HasTunnel(o.stage) && !o.stage.NeedTunnel? && !o.stage.NeedSlot?
    ensures ConnRouted(EarlyStep(s, conn, ch, o, pick, ok), rq, sv)
  {
    if o.stage.NeedChannel? {
      if ok { RoutedAtStage(conn, ch, o.(stage := NeedBridge), rq, sv); } else { RoutedEnded(conn, ch, rq, sv); }
    } else if o.stage.NeedBridge? {
      RoutedBridge(conn, ch, o, rq, sv);
    } else {
      RoutedCheck(s, conn, ch, o, pick, ok, rq, sv);
    }
  }

  lemma RoutedLate(
      s: System, s': System, c: ConnId, ch: ChannelId, pick: nat, ok: bool, rq: Requests, sv: Servers)
    requires c in s.conns && ch in s.conns[c].opens && OpeningStep(s, c, ch, pick, ok) == Some(s')
    requires PastBridge(s.conns[c].opens[ch].stage) && ConnRouted(s.conns[c], rq, sv)
    ensures c in s'.conns && ConnRouted(s'.conns[c], rq, sv)
  {
    var conn := s.conns[c];
    var o := conn.opens[ch];
    assert OpeningRouted(conn.entity, ch, o, rq, sv);
    match o.stage
    case NeedTunnel => RoutedAtStage(conn, ch, o.(stage := NeedId(Tunnel(pick, o.req))), rq, sv);
    case NeedId(t) => RoutedAtStage(conn, ch, o.(stage := NeedStart(t)), rq, sv);
    case NeedStart(t) => RoutedEnded(conn, ch, rq, sv);
  }

  lemma RoutedOpening(
      s: System, s': System, c: ConnId, ch: ChannelId, pick: nat, ok: bool, rq: Requests, sv: Servers)
    requires c in s.conns && ch in s.conns[c].opens && OpeningStep(s, c, ch, pick, ok) == Some(s')
    requires ConnRouted(s.conns[c], rq, sv)
    ensures c in s'.conns && ConnRouted(s'.conns[c], rq, Answered(sv, s, OpenStep(c, ch, pick, ok), c, rq))
  {
    var conn := s.conns[c];
    var o := conn.opens[ch];
    assert OpeningRouted(conn.entity, ch, o, rq, sv);
    if PastBridge(o.stage) {
      RoutedLate(s, s', c, ch, pick, ok, rq, sv);
    } else if o.stage.NeedSlot? {
      RoutedLook(s, conn, ch, o, ok, rq, sv);
    } else {
      RoutedEarly(s, conn, ch, o, pick, ok, rq, sv);
    }
  }

  // ------------------------------------------------------------- other steps

  lemma RoutedClosing(s: System, s': System, c: ConnId, rq: Requests, sv: Servers)
    requires c in s.conns && ClosingStep(s, c) == Some(s') && ConnRouted(s.conns[c], rq, sv)
    ensures c in s'.conns && ConnRouted(s'.conns[c], rq, sv)
  {
    var conn := ClosingTouches(s, s', c);
    ClosedBridges(s, s', c);
  }

  predicate FewerBridges(a: Conn, b: Conn) {
    forall ch :: ch in b.bridges ==> ch in a.bridges && b.bridges[ch] == a.bridges[ch]
  }

  lemma CloseOwnBridges(conn: Conn)
    ensures FewerBridges(conn, CloseOwn(conn))
  {
  }

  /** A close only takes bridges away. */
  lemma ClosedBridges(s: System, s': System, c: ConnId)
    requires c in s.conns && ClosingStep(s, c) == Some(s')
    ensures c in s'.conns && FewerBridges(s.conns[c], s'.conns[c])
  {
    var conn := s.conns[c];
    match conn.handler
    case CloseTunnel(ch, id) => assert s'.conns[c].bridges == conn.bridges;
    case CloseSend(ch, t) => assert s'.conns[c].bridges == conn.bridges;
    case _ => CloseOwnBridges(conn);
  }

  lemma RoutedSweeping(s: System, s': System, c: ConnId, pick: BridgeId, rq: Requests, sv: Servers)
    requires c in s.conns && SweepingStep(s, c, pick) == Some(s') && ConnRouted(s.conns[c], rq, sv)
    ensures c in s'.conns && ConnRouted(s'.conns[c], rq, sv)
  {
    var conn := SweepingTouches(s, s', c, pick);
  }

  lemma RoutedOpen(s: System, s': System, l: Label, rq: Requests, sv: Servers)
    requires l.Open? && Next(s, l) == Some(s') && ConnRouted(s.conns[l.c], rq, sv)
    ensures l.c in s'.conns && ConnRouted(s'.conns[l.c], Asked(rq, l, l.c), sv)
    ensures l.ch !in rq
  {
    var conn, conn' := s.conns[l.c], s'.conns[l.c];
    var rq' := rq[l.ch := (l.target, l.port)];
    forall ch | ch in conn'.opens ensures OpeningRouted(conn'.entity, ch, conn'.opens[ch], rq', sv) {
      if ch != l.ch { assert OpeningRouted(conn.entity, ch, conn.opens[ch], rq, sv); }
    }
  }

  lemma RoutedPlain(s: System, s': System, l: Label, rq: Requests, sv: Servers)
    requires Next(s, l) == Some(s') && !l.ChangeDb? && !l.Connect? && l.c in s.conns
    requires !l.CloseStep? && !l.SweepStep? && !l.OpenStep? && !l.Open?
    requires ConnRouted(s.conns[l.c], rq, sv)
    ensures l.c in s'.conns && ConnRouted(s'.conns[l.c], rq, sv)
  {
    match l
    case Authenticate(c, e) =>
    case Register(c, port) =>
    case Unregister(c, port) =>
    case Close(c, ch) =>
    case DropConn(c) =>
    case ClearSlots(c) =>
  }

  lemma ConnStep(s: System, s': System, l: Label, rq: Requests, sv: Servers)
    requires Next(s, l) == Some(s') && !l.ChangeDb? && !l.Connect? && l.c in s.conns
    requires ConnRouted(s.conns[l.c], rq, sv)
    ensures l.c in s'.conns && ConnRouted(s'.conns[l.c], Asked(rq, l, l.c), Answered(sv, s, l, l.c, rq))
  {
    match l
    case OpenStep(c, ch, pick, ok) => RoutedOpening(s, s', c, ch, pick, ok, rq, sv);
    case CloseStep(c) => RoutedClosing(s, s', c, rq, sv);
    case SweepStep(c, pick) => RoutedSweeping(s, s', c, pick, rq, sv);
    case Open(c, ch, target, port) => RoutedOpen(s, s', l, rq, sv);
    case _ => RoutedPlain(s, s', l, rq, sv);
  }

  /** A label with a connection of its own needs it to be there, but for the first. */
  lemma ActsOnKnown(s: System, l: Label)
    requires Next(s, l).Some? && !l.ChangeDb?
    ensures l.Connect? <==> l.c !in s.conns
  {
  }

  lemma ServersStep(s: System, s': System, l: Label, c: ConnId, rq: Requests, sv: Servers)
    requires Next(s, l) == Some(s') && SlotsOk(s) && Routed(s, c, rq, sv)
    ensures ServersKnown(s', Asked(rq, l, c), Answered(sv, s, l, c, rq))
  {
    EntitiesStay(s, s', l);
    ServersStay(s, s', rq, sv);
    if l.Open? && l.c == c { RoutedOpen(s, s', l, rq, sv); }
  }

  lemma RoutedStep(s: System, s': System, l: Label, c: ConnId, rq: Requests, sv: Servers)
    requires Next(s, l) == Some(s') && SlotsOk(s) && Routed(s, c, rq, sv)
    ensures Routed(s', c, Asked(rq, l, c), Answered(sv, s, l, c, rq))
  {
    ServersStep(s, s', l, c, rq, sv);
    StepTouches(s, s', l);
    if !l.ChangeDb? {
      ActsOnKnown(s, l);
      if l.c == c && c in s.conns { ConnStep(s, s', l, rq, sv); }
    }
  }

  lemma {:induction false} RoutesHold(db: Db, ls: seq<Label>, c: ConnId)
    requires Exec(Start(db), ls).Some?
    ensures Routed(Exec(Start(db), ls).value, c, RequestsOf(ls, c), ServersOf(Start(db), ls, c))
  {
    if ls != [] {
      var n := |ls| - 1;
      RoutesHold(db, ls[..n], c);
      SlotSafety(db, ls[..n]);
      RoutedStep(Exec(Start(db), ls[..n]).value, Exec(Start(db), ls).value, ls[n], c,
                 RequestsOf(ls[..n], c), ServersOf(Start(db), ls[..n], c));
    }
  }

  // ------------------------------------------------------------- the tunnels

  predicate For(r: Request, k: (EntityId, Port)) {
    (r.target, r.port) == k
  }

  /** Every tunnel was made for what its channel asked for. */
  predicate TunnelsRouted(s: System, c: ConnId, rq: Requests) {
    forall id :: id in s.born && s.born[id].req.conn == c ==>
      && IsEntity(s, c, s.born[id].req.client)
      && s.born[id].req.ch in rq && For(s.born[id].req, rq[s.born[id].req.ch])
  }

  /** The label makes a tunnel. */
  predicate Bears(s: System, l: Label) {
    l.OpenStep? && l.c in s.conns && l.ch in s.conns[l.c].opens && s.conns[l.c].opens[l.ch].stage.NeedTunnel?
  }

  /** What a step adds to the tunnels ever made. */
  lemma NewTunnel(s: System, s': System, l: Label)
    requires Next(s, l) == Some(s')
    ensures if Bears(s, l)
      then s'.born == s.born[l.pick := Tunnel(l.pick, s.conns[l.c].opens[l.ch].req)] else s'.born == s.born
  {
    match l
    case OpenStep(c, ch, pick, ok) => OpeningBears(s, s', c, ch, pick, ok);
    case CloseStep(c) => var conn := ClosingTouches(s, s', c);
    case SweepStep(c, pick) => var conn := SweepingTouches(s, s', c, pick);
    case _ =>
  }

  lemma OpeningBears(s: System, s': System, c: ConnId, ch: ChannelId, pick: nat, ok: bool)
    requires c in s.conns && ch in s.conns[c].opens && OpeningStep(s, c, ch, pick, ok) == Some(s')
    ensures var o := s.conns[c].opens[ch];
      s'.born == if o.stage.NeedTunnel? then s.born[pick := Tunnel(pick, o.req)] else s.born
  {
  }

  lemma NewTunnelRouted(s: System, l: Label, rq: Requests, sv: Servers)
    requires l.OpenStep? && l.c in s.conns && l.ch in s.conns[l.c].opens && Openings(s, l.c)
    requires ConnRouted(s.conns[l.c], rq, sv)
    ensures var r := s.conns[l.c].opens[l.ch].req;
      r.conn == l.c && r.ch == l.ch && IsEntity(s, l.c, r.client) && r.ch in rq && For(r, rq[r.ch])
  {
    assert OpeningRouted(s.conns[l.c].entity, l.ch, s.conns[l.c].opens[l.ch], rq, sv);
  }

  lemma TunnelsMore(s: System, s': System, c: ConnId, rq: Requests, k: ChannelId, v: (EntityId, Port))
    requires TunnelsRouted(s, c, rq) && s'.born == s.born && k !in rq && SameEntities(s, s')
    ensures TunnelsRouted(s', c, rq[k := v])
  {
  }

  lemma TunnelsBorn(s: System, s': System, c: ConnId, rq: Requests, t: Tunnel)
    requires TunnelsRouted(s, c, rq) && s'.born == s.born[t.id := t] && SameEntities(s, s')
    requires t.req.conn == c ==> IsEntity(s, c, t.req.client) && t.req.ch in rq && For(t.req, rq[t.req.ch])
    ensures TunnelsRouted(s', c, rq)
  {
  }

  lemma TunnelsStep(s: System, s': System, l: Label, c: ConnId, rq: Requests, sv: Servers)
    requires Next(s, l) == Some(s') && Inv(s) && Routed(s, c, rq, sv) && TunnelsRouted(s, c, rq)
    ensures TunnelsRouted(s', c, Asked(rq, l, c))
  {
    NewTunnel(s, s', l);
    EntitiesStay(s, s', l);
    if Bears(s, l) {
      assert Openings(s, l.c) by { assert ConnInv(s, l.c); }
      if l.c == c { NewTunnelRouted(s, l, rq, sv); }
      TunnelsBorn(s, s', c, rq, Tunnel(l.pick, s.conns[l.c].opens[l.ch].req));
    } else if l.Open? && l.c == c {
      RoutedOpen(s, s', l, rq, sv);
      TunnelsMore(s, s', c, rq, l.ch, (l.target, l.port));
    }
  }

  lemma {:induction false} TunnelsHold(db: Db, ls: seq<Label>, c: ConnId)
    requires Exec(Start(db), ls).Some?
    ensures TunnelsRouted(Exec(Start(db), ls).value, c, RequestsOf(ls, c))
  {
    if ls != [] {
      var n := |ls| - 1;
      TunnelsHold(db, ls[..n], c);
      RoutesHold(db, ls[..n], c);
      InvHolds(db, ls[..n]);
      TunnelsStep(Exec(Start(db), ls[..n]).value, Exec(Start(db), ls).value, ls[n], c,
                  RequestsOf(ls[..n], c), ServersOf(Start(db), ls[..n], c));
    }
  }

  // ------------------------------------------------------------ main results

  /** The step at which the channel's opening looked at the slots, and found this connection. */
  predicate HeldSlot(start: System, ls: seq<Label>, i: int, c: ConnId, ch: ChannelId, k: (EntityId, Port), v: ConnId) {
    && 0 <= i < |ls| && Exec(start, ls[..i]).Some? && ls[i].OpenStep? && ls[i].ch == ch
    && LooksUp(Exec(start, ls[..i]).value, ls[i], c)
    && k in Exec(start, ls[..i]).value.slots && Exec(start, ls[..i]).value.slots[k] == v
  }

  /** A channel is opened once, so what it asked for is what it still stands for. */
  lemma {:induction false} OpenedOnce(db: Db, ls: seq<Label>, c: ConnId, ch: ChannelId, i: nat)
    requires Exec(Start(db), ls).Some? && i < |ls| && ls[i].Open? && ls[i].c == c && ls[i].ch == ch
    ensures ch in RequestsOf(ls, c) && RequestsOf(ls, c)[ch] == (ls[i].target, ls[i].port)
  {
    var n := |ls| - 1;
    if i < n {
      OpenedOnce(db, ls[..n], c, ch, i);
      RequestStays(db, ls, c, ch);
    }
  }

  lemma HeldLater(start: System, ls: seq<Label>, n: nat, c: ConnId, ch: ChannelId, k: (EntityId, Port), v: ConnId)
    requires n <= |ls| && exists i :: HeldSlot(start, ls[..n], i, c, ch, k, v)
    ensures exists i :: HeldSlot(start, ls, i, c, ch, k, v)
  {
    var i :| HeldSlot(start, ls[..n], i, c, ch, k, v);
    assert ls[..n][..i] == ls[..i];
    assert HeldSlot(start, ls, i, c, ch, k, v);
  }

  lemma {:induction false} AnswerWasRead(db: Db, ls: seq<Label>, c: ConnId, ch: ChannelId)
    requires Exec(Start(db), ls).Some? && ch in ServersOf(Start(db), ls, c)
    ensures ch in RequestsOf(ls, c)
    ensures exists i :: HeldSlot(Start(db), ls, i, c, ch, RequestsOf(ls, c)[ch], ServersOf(Start(db), ls, c)[ch])
  {
    RoutesHold(db, ls, c);
    var n := |ls| - 1;
    var k, v := RequestsOf(ls, c)[ch], ServersOf(Start(db), ls, c)[ch];
    if LooksUp(Exec(Start(db), ls[..n]).value, ls[n], c) && ls[n].ch == ch
       && k in Exec(Start(db), ls[..n]).value.slots {
      assert HeldSlot(Start(db), ls, n, c, ch, k, v);
    } else {
      AnswerWasRead(db, ls[..n], c, ch);
      RequestStays(db, ls, c, ch);
      HeldLater(Start(db), ls, n, c, ch, k, v);
    }
  }

  lemma RequestStays(db: Db, ls: seq<Label>, c: ConnId, ch: ChannelId)
    requires ls != [] && Exec(Start(db), ls).Some? && ch in RequestsOf(ls[..|ls| - 1], c)
    ensures ch in RequestsOf(ls, c) && RequestsOf(ls, c)[ch] == RequestsOf(ls[..|ls| - 1], c)[ch]
  {
    RoutesHold(db, ls[..|ls| - 1], c);
  }

  /** Who a channel's bytes go to. */
  ghost predicate LeadsHome(db: Db, ls: seq<Label>, c: ConnId, ch: ChannelId, v: ConnId)
    requires Exec(Start(db), ls).Some?
  {
    && ch in RequestsOf(ls, c)
    && IsEntity(Exec(Start(db), ls).value, v, RequestsOf(ls, c)[ch].0)
    && exists i :: HeldSlot(Start(db), ls, i, c, ch, RequestsOf(ls, c)[ch], v)
  }

  /**
   Over all runs: every bridged channel leads to a connection authenticated as
   the target the channel was opened for, which held the slot of that target and
   port when the opening looked; and the channel's opening and its tunnel are for
   the same target and port.
   */
  lemma BridgesReachTargets(db: Db, ls: seq<Label>, c: ConnId, ch: ChannelId)
    requires Exec(Start(db), ls).Some? && c in Exec(Start(db), ls).value.conns
    requires ch in Exec(Start(db), ls).value.conns[c].bridges
    ensures var s := Exec(Start(db), ls).value; var conn := s.conns[c];
      && LeadsHome(db, ls, c, ch, conn.bridges[ch])
      && (ch in conn.opens ==> For(conn.opens[ch].req, RequestsOf(ls, c)[ch]))
      && (ch in conn.bridgeIds ==>
            conn.bridgeIds[ch] in s.born && For(s.born[conn.bridgeIds[ch]].req, RequestsOf(ls, c)[ch]))
  {
    var s := Exec(Start(db), ls).value;
    RoutesHold(db, ls, c);
    AnswerWasRead(db, ls, c, ch);
    TunnelsHold(db, ls, c);
    InvHolds(db, ls);
    assert Registry(s, c) by { assert ConnInv(s, c); }
    if ch in s.conns[c].bridgeIds { assert OwnedBy(s, s.conns[c].bridgeIds[ch], c, ch); }
    if ch in s.conns[c].opens {
      assert OpeningRouted(s.conns[c].entity, ch, s.conns[c].opens[ch], RequestsOf(ls, c), ServersOf(Start(db), ls, c));
    }
  }

  /** From a fast confirmation until the close, the channel's bytes go to the target it asked for. */
  lemma ConfirmedReachTargets(db: Db, ls: seq<Label>, c: ConnId, ch: ChannelId)
    requires Exec(Start(db), ls).Some? && c in Exec(Start(db), ls).value.conns
    requires ch in Exec(Start(db), ls).value.conns[c].confirmed
    ensures var conn := Exec(Start(db), ls).value.conns[c];
      ch in conn.bridges && LeadsHome(db, ls, c, ch, conn.bridges[ch])
  {
    ConfirmedIsBridged(db, ls);
    assert BridgedConn(Exec(Start(db), ls).value.conns[c]);
    BridgesReachTargets(db, ls, c, ch);
  }

  /** The request was read as allowed, in this order: the config, the subscription, the account or the grant. */
  predicate ReadAsAllowed(dbs: seq<Db>, r: Request, i: int, j: int, k: int) {
    && 0 <= i <= j <= k < |dbs|
    && (r.target, r.port, r.config) in dbs[i].configs
    && (r.client, r.config) in dbs[j].subscriptions
    && (|| (r.client in dbs[k].account && r.target in dbs[k].account
            && dbs[k].account[r.client] == dbs[k].account[r.target])
        || (r.target, r.config, r.client) in dbs[k].access)
  }

  /**
   Over all runs every tunnel is its own connection's: that connection authenticated
   as the client for whom the database read, at some moments of the run in this order,
   an enabled config of the target and port its channel asked for, a subscription of
   the client to that config, and a common account or a grant.
   */
  lemma TunnelsAreAllowed(db: Db, ls: seq<Label>, id: BridgeId)
    requires Exec(Start(db), ls).Some? && id in Exec(Start(db), ls).value.tunnels
    ensures var s := Exec(Start(db), ls).value; var r := s.tunnels[id].req;
      && IsEntity(s, r.conn, r.client)
      && r.ch in RequestsOf(ls, r.conn) && For(r, RequestsOf(ls, r.conn)[r.ch])
      && exists i, j, k :: ReadAsAllowed(s.dbs, r, i, j, k)
  {
    var s := Exec(Start(db), ls).value;
    BridgesAreAuthorized(db, ls);
    var r := s.born[id].req;
    TunnelsHold(db, ls, r.conn);
    assert ReadAsAllowed(s.dbs, r, r.configAt, r.subscriptionAt, r.accessAt);
  }

  /** A fast opening that gets to its end confirms its channel, bridged, and gives its connection's callback back. */
  lemma FastOpeningConfirms(db: Db, ls: seq<Label>, c: ConnId, ch: ChannelId, pick: nat, ok: bool)
    requires Exec(Start(db), ls).Some? && c in Exec(Start(db), ls).value.conns
    requires ch in Exec(Start(db), ls).value.conns[c].opens
    requires var o := Exec(Start(db), ls).value.conns[c].opens[ch]; o.stage.NeedStart? && !o.slow
    ensures var s' := Next(Exec(Start(db), ls).value, OpenStep(c, ch, pick, ok));
      && s'.Some? && c in s'.value.conns
      && var conn := s'.value.conns[c];
        ch in conn.confirmed && ch in conn.bridges && ch !in conn.opens && conn.handler == Free
  {
    var s := Exec(Start(db), ls).value;
    InvHolds(db, ls);
    ConfirmedIsBridged(db, ls);
    assert Openings(s, c) by { assert ConnInv(s, c); }
    assert BridgedConn(s.conns[c]);
  }

  /** The first step of a close ends the channel's bridge, and with it its confirmation. */
  lemma CloseEndsBridge(s: System, c: ConnId, ch: ChannelId)
    requires c in s.conns && s.conns[c].handler == CloseBridge(ch)
    ensures var s' := Next(s, CloseStep(c));
      && s'.Some? && c in s'.value.conns
      && s'.value.conns[c].bridges == s.conns[c].bridges - {ch}
      && s'.value.conns[c].confirmed == s.conns[c].confirmed - {ch}
  {
  }

  /** The stages at which an opening can still be given up: a check, a look in vain, or the target's refusal. */
  predicate CanFail(s: System, o: Opening) {
    || IsCheck(o.stage) || o.stage.NeedChannel?
    || (o.stage.NeedSlot? && o.slow && (o.req.target, o.req.port) !in s.slots)
  }

  /** An opening that fails ends there, without a bridge or a confirmation; a fast one gives its callback back. */
  lemma FailedOpeningEnds(s: System, c: ConnId, ch: ChannelId, pick: nat)
    requires c in s.conns && ch in s.conns[c].opens && CanFail(s, s.conns[c].opens[ch])
    ensures var s' := Next(s, OpenStep(c, ch, pick, false));
      && s'.Some? && c in s'.value.conns && s'.value == WithConn(s, c, s'.value.conns[c])
      && s'.value.conns[c] == s.conns[c].(opens := s.conns[c].opens - {ch},
           handler := if s.conns[c].handler == OpeningFast(ch) then Free else s.conns[c].handler)
  {
    var o := s.conns[c].opens[ch];
    assert EarlyStep(s, s.conns[c], ch, o, pick, false) == Ended(s.conns[c], ch);
  }

  /** An absent target is polled by a slow task of the opening's own, which leaves its connection's callback free. */
  lemma AbsentTargetIsPolled(s: System, c: ConnId, ch: ChannelId, pick: nat)
    requires c in s.conns && ch in s.conns[c].opens && s.conns[c].opens[ch].stage.NeedSlot?
    requires (s.conns[c].opens[ch].req.target, s.conns[c].opens[ch].req.port) !in s.slots
    ensures var o := s.conns[c].opens[ch]; var s' := Next(s, OpenStep(c, ch, pick, true));
      && s'.Some? && c in s'.value.conns
      && ch in s'.value.conns[c].opens && s'.value.conns[c].opens[ch] == o.(slow := true)
      && (if o.slow then s'.value == s else s'.value.conns[c].handler == Free)
  {
    var o := s.conns[c].opens[ch];
    if o.slow { assert WithConn(s, c, s.conns[c]) == s; }
  }
}
