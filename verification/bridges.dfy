/**
 The bridge registry protocol of lib.rs as interleaved steps.

 One step is one lock acquisition, database read or event send.  Callbacks of
 one connection (`Handler`) run one after the other; slow-path tasks and the
 tasks that `Drop` spawns interleave with everything.  Channel numbers are not
 reused within a connection.
 */
module Bridges {
  import opened Options

  type EntityId = nat
  type ConnId = nat
  type ChannelId = nat
  type BridgeId = nat
  type ConfigId = nat
  type UserId = nat
  type Port = nat

  /** What authorization reads: enabled configs and subscriptions, access grants, accounts. */
  datatype Db = Db(
    configs: set<(EntityId, Port, ConfigId)>,
    subscriptions: set<(EntityId, ConfigId)>,
    access: set<(EntityId, ConfigId, EntityId)>,
    account: map<EntityId, UserId>)

  /** A channel-open request; the last three fields record in which database state each check passed. */
  datatype Request = Request(
    conn: ConnId, ch: ChannelId, client: EntityId, target: EntityId, port: Port,
    config: ConfigId, configAt: nat, subscriptionAt: nat, accessAt: nat)

  /** An `active_tunnels` entry with its key and the request it came from. */
  datatype Tunnel = Tunnel(id: BridgeId, req: Request)

  datatype OpenStage =
    | NeedConfig | NeedSubscription | NeedAccess | NeedSlot | NeedChannel
    | NeedBridge | NeedTunnel | NeedId(tunnel: Tunnel) | NeedStart(tunnel: Tunnel)

  /** One `channel_open_direct_tcpip`, in its callback or, once slow, in a task of its own. */
  datatype Opening = Opening(req: Request, slow: bool, stage: OpenStage, server: ConnId)

  /** The callback a connection is in. */
  datatype Handler =
    | Free
    | OpeningFast(ch: ChannelId)
    | CloseBridge(ch: ChannelId)
    | CloseId(ch: ChannelId)
    | CloseTunnel(ch: ChannelId, id: BridgeId)
    | CloseSend(ch: ChannelId, tunnel: Tunnel)

  /** The bridge clean-up task spawned by `Drop`. */
  datatype Sweep =
    | NotDropped
    | SweepRead
    | SweepRemove(ids: set<BridgeId>)
    | SweepSend(pending: map<BridgeId, Tunnel>)
    | Swept

  /** `confirmed`: channels the fast path confirmed and the client has not closed. */
  datatype Conn = Conn(
    entity: Option<EntityId>, live: bool, handler: Handler,
    channels: set<ChannelId>, opens: map<ChannelId, Opening>,
    bridges: map<ChannelId, ConnId>, bridgeIds: map<ChannelId, BridgeId>,
    confirmed: set<ChannelId>, slotsCleared: bool, sweep: Sweep)

  datatype Event = BridgeStarted(tunnel: Tunnel) | BridgeStopped(tunnel: Tunnel)

  /**
   Shared state; `born`, `registered` and `dbs` are history: all tunnels ever, those
   that reached `bridge_ids`, and all database states.
   */
  datatype System = System(
    slots: map<(EntityId, Port), ConnId>, tunnels: map<BridgeId, Tunnel>, conns: map<ConnId, Conn>, events: seq<Event>,
    born: map<BridgeId, Tunnel>, registered: set<BridgeId>, dbs: seq<Db>)

  datatype Label =
    | Connect(c: ConnId)
    | Authenticate(c: ConnId, e: EntityId)
    | Register(c: ConnId, port: Port)
    | Unregister(c: ConnId, port: Port)
    | Open(c: ConnId, ch: ChannelId, target: EntityId, port: Port)
    | OpenStep(c: ConnId, ch: ChannelId, pick: nat, ok: bool)
    | Close(c: ConnId, ch: ChannelId)
    | CloseStep(c: ConnId)
    | DropConn(c: ConnId)
    | ClearSlots(c: ConnId)
    | SweepStep(c: ConnId, pick: BridgeId)
    | ChangeDb(db: Db)

  const NEW_CONN := Conn(None, true, Free, {}, map[], map[], map[], {}, false, NotDropped)

  function Start(db: Db): System {
    System(map[], map[], map[], [], map[], {}, [db])
  }

  function WithConn(s: System, c: ConnId, conn: Conn): System {
    s.(conns := s.conns[c := conn])
  }

  predicate IsFree(s: System, c: ConnId) {
    c in s.conns && s.conns[c].live && s.conns[c].handler.Free?
  }

  function Current(s: System): Db {
    if s.dbs == [] then Db({}, {}, {}, map[]) else s.dbs[|s.dbs| - 1]
  }

  // ------------------------------------------------------------ the checks

  predicate HasConfig(db: Db, r: Request) {
    (r.target, r.port, r.config) in db.configs
  }

  predicate HasSubscription(db: Db, r: Request) {
    (r.client, r.config) in db.subscriptions
  }

  predicate MayUse(db: Db, r: Request) {
    || (r.client in db.account && r.target in db.account && db.account[r.client] == db.account[r.target])
    || (r.target, r.config, r.client) in db.access
  }

  // --------------------------------------------------------- opening steps

  /** The opening is over; a fast one also ends its callback. */
  function Ended(conn: Conn, ch: ChannelId): Conn {
    conn.(opens := conn.opens - {ch}, handler := if conn.handler == OpeningFast(ch) then Free else conn.handler)
  }

  function AtStage(conn: Conn, ch: ChannelId, o: Opening): Conn {
    conn.(opens := conn.opens[ch := o])
  }

  /** The three database checks; None rejects.  `ok` is false when a read fails or finds nothing. */
  function Checked(s: System, o: Opening, pick: nat, ok: bool): Option<Opening> {
    var now := |s.dbs| - 1;
    if !ok || s.dbs == [] then None
    else if o.stage.NeedConfig? then
      var r := o.req.(config := pick, configAt := now);
      if HasConfig(Current(s), r) then Some(o.(req := r, stage := NeedSubscription)) else None
    else if o.stage.NeedSubscription? then
      if HasSubscription(Current(s), o.req) then Some(o.(req := o.req.(subscriptionAt := now), stage := NeedAccess))
        else None
    else
      if MayUse(Current(s), o.req) then Some(o.(req := o.req.(accessAt := now), stage := NeedSlot)) else None
  }

  function CheckStep(s: System, conn: Conn, ch: ChannelId, o: Opening, pick: nat, ok: bool): Conn {
    var next := Checked(s, o, pick, ok);
    if next.None? then Ended(conn, ch) else AtStage(conn, ch, next.value)
  }

  /** One look at the slots: found, turn into a slow task, poll again, or give up. */
  function SlotStep(s: System, conn: Conn, ch: ChannelId, o: Opening, ok: bool): Conn {
    var slot := (o.req.target, o.req.port);
    if slot in s.slots then AtStage(conn, ch, o.(stage := NeedChannel, server := s.slots[slot]))
    else if !o.slow then AtStage(conn, ch, o.(slow := true)).(handler := Free)
    else if ok then conn
    else Ended(conn, ch)
  }

  /** The stages before the tunnel touch only the connection's own fields. */
  function EarlyStep(s: System, conn: Conn, ch: ChannelId, o: Opening, pick: nat, ok: bool): Conn {
    if o.stage.NeedSlot? then SlotStep(s, conn, ch, o, ok)
    else if o.stage.NeedChannel? then (if ok then AtStage(conn, ch, o.(stage := NeedBridge)) else Ended(conn, ch))
    else if o.stage.NeedBridge? then
      AtStage(conn, ch, o.(stage := NeedTunnel)).(bridges := conn.bridges[ch := o.server])
    else CheckStep(s, conn, ch, o, pick, ok)
  }

  /** The bridge enters `active_tunnels` under a fresh id. */
  function Birth(s: System, c: ConnId, ch: ChannelId, o: Opening, id: BridgeId): System
    requires c in s.conns
  {
    var t := Tunnel(id, o.req);
    var conn := AtStage(s.conns[c], ch, o.(stage := NeedId(t)));
    WithConn(s, c, conn).(tunnels := s.tunnels[id := t], born := s.born[id := t])
  }

  /** The connection once the tunnel's id is noted in `bridge_ids`. */
  function NotedConn(conn: Conn, ch: ChannelId, o: Opening, t: Tunnel): Conn {
    AtStage(conn, ch, o.(stage := NeedStart(t))).(bridgeIds := conn.bridgeIds[ch := t.id])
  }

  function Noted(s: System, c: ConnId, ch: ChannelId, o: Opening, t: Tunnel): System
    requires c in s.conns
  {
    WithConn(s, c, NotedConn(s.conns[c], ch, o, t)).(registered := s.registered + {t.id})
  }

  /** The connection once the start event is out; a fast opening confirms its channel and ends its callback. */
  function AnnouncedConn(conn: Conn, ch: ChannelId, o: Opening): Conn {
    Ended(conn, ch).(confirmed := if o.slow then conn.confirmed else conn.confirmed + {ch})
  }

  function Announced(s: System, c: ConnId, ch: ChannelId, o: Opening, t: Tunnel): System
    requires c in s.conns
  {
    WithConn(s, c, AnnouncedConn(s.conns[c], ch, o)).(events := s.events + [BridgeStarted(t)])
  }

  function OpeningStep(s: System, c: ConnId, ch: ChannelId, pick: nat, ok: bool): Option<System>
    requires c in s.conns && ch in s.conns[c].opens
  {
    var o := s.conns[c].opens[ch];
    match o.stage
    case NeedTunnel => if pick in s.born then None else Some(Birth(s, c, ch, o, pick))
    case NeedId(t) => Some(Noted(s, c, ch, o, t))
    case NeedStart(t) => Some(Announced(s, c, ch, o, t))
    case _ => Some(WithConn(s, c, EarlyStep(s, s.conns[c], ch, o, pick, ok)))
  }

  // --------------------------------------------------------- closing steps

  /** `channel_close` takes the tunnel out, or finds it already gone. */
  function Taken(s: System, c: ConnId, ch: ChannelId, id: BridgeId): System
    requires c in s.conns
  {
    if id !in s.tunnels then WithConn(s, c, s.conns[c].(handler := Free)) else
      var conn := s.conns[c].(handler := CloseSend(ch, s.tunnels[id]));
      WithConn(s, c, conn).(tunnels := s.tunnels - {id})
  }

  function Stopped(s: System, c: ConnId, t: Tunnel): System
    requires c in s.conns
  {
    WithConn(s, c, s.conns[c].(handler := Free)).(events := s.events + [BridgeStopped(t)])
  }

  /** The first two steps of a close touch only the connection's own fields. */
  function CloseOwn(conn: Conn): Conn {
    match conn.handler
    case CloseBridge(ch) =>
      conn.(bridges := conn.bridges - {ch}, confirmed := conn.confirmed - {ch}, handler := CloseId(ch))
    case CloseId(ch) =>
      if ch !in conn.bridgeIds then conn.(handler := Free) else
        conn.(bridgeIds := conn.bridgeIds - {ch}, handler := CloseTunnel(ch, conn.bridgeIds[ch]))
    case _ => conn
  }

  function ClosingStep(s: System, c: ConnId): Option<System>
    requires c in s.conns
  {
    match s.conns[c].handler
    case CloseTunnel(ch, id) => Some(Taken(s, c, ch, id))
    case CloseSend(ch, t) => Some(Stopped(s, c, t))
    case CloseBridge(ch) => Some(WithConn(s, c, CloseOwn(s.conns[c])))
    case CloseId(ch) => Some(WithConn(s, c, CloseOwn(s.conns[c])))
    case _ => None
  }

  // ------------------------------------------------------------ drop steps

  function Read(conn: Conn): Conn {
    conn.(sweep := if conn.bridgeIds.Values == {} then Swept else SweepRemove(conn.bridgeIds.Values))
  }

  function Removed(s: System, c: ConnId, ids: set<BridgeId>): System
    requires c in s.conns
  {
    var removed := map id | id in ids && id in s.tunnels :: s.tunnels[id];
    WithConn(s, c, s.conns[c].(sweep := SweepSend(removed))).(tunnels := s.tunnels - ids)
  }

  function SweptOne(s: System, c: ConnId, pending: map<BridgeId, Tunnel>, pick: BridgeId): System
    requires c in s.conns && pick in pending
  {
    var conn := s.conns[c].(sweep := SweepSend(pending - {pick}));
    WithConn(s, c, conn).(events := s.events + [BridgeStopped(pending[pick])])
  }

  function SweepingStep(s: System, c: ConnId, pick: BridgeId): Option<System>
    requires c in s.conns
  {
    match s.conns[c].sweep
    case SweepRead => Some(WithConn(s, c, Read(s.conns[c])))
    case SweepRemove(ids) => Some(Removed(s, c, ids))
    case SweepSend(pending) =>
      if pending == map[] then Some(WithConn(s, c, s.conns[c].(sweep := Swept)))
      else if pick in pending then Some(SweptOne(s, c, pending, pick))
      else None
    case _ => None
  }

  // ----------------------------------------------------------------- steps

  function Next(s: System, l: Label): Option<System> {
    match l
    case Connect(c) => if c in s.conns then None else Some(WithConn(s, c, NEW_CONN))
    case Authenticate(c, e) =>
      if IsFree(s, c) && s.conns[c].entity.None? then Some(WithConn(s, c, s.conns[c].(entity := Some(e)))) else None
    case Register(c, port) =>
      if !(IsFree(s, c) && s.conns[c].entity.Some?) then None else
        Some(s.(slots := s.slots[(s.conns[c].entity.value, port) := c]))
    case Unregister(c, port) =>
      if !(IsFree(s, c) && s.conns[c].entity.Some?) then None else
        Some(s.(slots := s.slots - {(s.conns[c].entity.value, port)}))
    case Open(c, ch, target, port) =>
      if !(IsFree(s, c) && s.conns[c].entity.Some? && ch !in s.conns[c].channels) then None else
        var conn := s.conns[c];
        var r := Request(c, ch, conn.entity.value, target, port, 0, 0, 0, 0);
        Some(WithConn(s, c, conn.(channels := conn.channels + {ch}, handler := OpeningFast(ch),
                                  opens := conn.opens[ch := Opening(r, false, NeedConfig, 0)])))
    case OpenStep(c, ch, pick, ok) =>
      if c in s.conns && ch in s.conns[c].opens then OpeningStep(s, c, ch, pick, ok) else None
    case Close(c, ch) => if IsFree(s, c) then Some(WithConn(s, c, s.conns[c].(handler := CloseBridge(ch)))) else None
    case CloseStep(c) => if c in s.conns then ClosingStep(s, c) else None
    case DropConn(c) =>
      if IsFree(s, c) then Some(WithConn(s, c, s.conns[c].(live := false, sweep := SweepRead))) else None
    case ClearSlots(c) =>
      if !(c in s.conns && !s.conns[c].live && s.conns[c].entity.Some?) then None else
        var e := s.conns[c].entity.value;
        var left := map k | k in s.slots && k.0 != e :: s.slots[k];
        Some(WithConn(s, c, s.conns[c].(slotsCleared := true)).(slots := left))
    case SweepStep(c, pick) => if c in s.conns then SweepingStep(s, c, pick) else None
    case ChangeDb(db) => Some(s.(dbs := s.dbs + [db]))
  }

  function Exec(s: System, ls: seq<Label>): Option<System> {
    if ls == [] then Some(s) else
      var before := Exec(s, ls[..|ls| - 1]);
      if before.None? then None else Next(before.value, ls[|ls| - 1])
  }
}
