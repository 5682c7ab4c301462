/**
 Live events against the registry: every tunnel is announced once and stopped
 once, whoever stops it, and the two event streams account for the tunnels.
 */
module BridgeEvents {
  import opened Options
  import opened Bridges
  import opened BridgeInvariants
  import opened BridgeSafety

  function StartedIds(evs: seq<Event>): set<BridgeId> {
    if evs == [] then {} else
      var e := evs[|evs| - 1];
      StartedIds(evs[..|evs| - 1]) + if e.BridgeStarted? then {e.tunnel.id} else {}
  }

  function StoppedIds(evs: seq<Event>): set<BridgeId> {
    if evs == [] then {} else
      var e := evs[|evs| - 1];
      StoppedIds(evs[..|evs| - 1]) + if e.BridgeStopped? then {e.tunnel.id} else {}
  }

  /** No tunnel is announced twice or stopped twice, and events carry real tunnels. */
  predicate NoRepeat(evs: seq<Event>, born: map<BridgeId, Tunnel>) {
    evs == [] ||
      var n := |evs| - 1;
      var t := evs[n].tunnel;
      && NoRepeat(evs[..n], born)
      && t.id in born && born[t.id] == t
      && t.id !in (if evs[n].BridgeStarted? then StartedIds(evs[..n]) else StoppedIds(evs[..n]))
  }

  /** The tunnel is registered but its start event has not gone out. */
  predicate OwesStart(s: System, id: BridgeId) {
    && id in s.born && s.born[id].req.conn in s.conns
    && var conn, ch := s.conns[s.born[id].req.conn], s.born[id].req.ch;
    ch in conn.opens && HasTunnel(conn.opens[ch].stage) && conn.opens[ch].stage.tunnel.id == id
  }

  /** The tunnel has been taken out but its stop event has not gone out. */
  predicate OwedBy(conn: Conn, id: BridgeId) {
    (conn.handler.CloseSend? && conn.handler.tunnel.id == id) || (conn.sweep.SweepSend? && id in conn.sweep.pending)
  }

  predicate OwesStop(s: System, id: BridgeId) {
    id in s.born && s.born[id].req.conn in s.conns && OwedBy(s.conns[s.born[id].req.conn], id)
  }

  predicate Accounted(s: System, id: BridgeId) {
    && (id in StartedIds(s.events) <==> !OwesStart(s, id))
    && (id in StoppedIds(s.events) <==> id !in s.tunnels && !OwesStop(s, id))
  }

  predicate EventsOk(s: System) {
    NoRepeat(s.events, s.born) && forall id :: id in s.born ==> Accounted(s, id)
  }

  lemma {:induction false} EventIdsAreBorn(evs: seq<Event>, born: map<BridgeId, Tunnel>, id: BridgeId)
    requires NoRepeat(evs, born) && (id in StartedIds(evs) || id in StoppedIds(evs))
    ensures id in born
  {
    if evs[|evs| - 1].tunnel.id != id { EventIdsAreBorn(evs[..|evs| - 1], born, id); }
  }

  // ------------------------------------------------------------ quiet steps

  /** The step sends nothing, moves no tunnel, and changes no debt of its connection. */
  predicate NoDebtChange(s: System, s': System, c: ConnId, conn: Conn) {
    && c in s.conns && s'.conns == s.conns[c := conn]
    && s'.events == s.events && s'.born == s.born && s'.tunnels == s.tunnels
    && (forall ch :: ch in s.conns[c].opens && HasTunnel(s.conns[c].opens[ch].stage) ==>
          ch in conn.opens && HasTunnel(conn.opens[ch].stage)
            && conn.opens[ch].stage.tunnel == s.conns[c].opens[ch].stage.tunnel)
    && (forall ch :: ch in conn.opens && HasTunnel(conn.opens[ch].stage) ==>
          ch in s.conns[c].opens && HasTunnel(s.conns[c].opens[ch].stage))
    && (forall id :: id in s.born ==> (OwedBy(conn, id) <==> OwedBy(s.conns[c], id)))
  }

  lemma QuietKeepsEvents(s: System, s': System, c: ConnId, conn: Conn)
    requires EventsOk(s) && NoDebtChange(s, s', c, conn)
    ensures EventsOk(s')
  {
    forall id | id in s.born ensures Accounted(s', id) {
      assert Accounted(s, id);
      assert OwesStart(s', id) <==> OwesStart(s, id);
      assert OwesStop(s', id) <==> OwesStop(s, id);
    }
  }

  // ---------------------------------------------------------- opening steps

  lemma EarlyEvents(s: System, c: ConnId, ch: ChannelId, conn: Conn)
    requires EventsOk(s) && EarlyStage(s, c, ch) && EarlyResult(s, c, ch, conn)
    ensures EventsOk(WithConn(s, c, conn))
  {
    QuietKeepsEvents(s, WithConn(s, c, conn), c, conn);
  }

  lemma BirthEvents(s: System, c: ConnId, ch: ChannelId, o: Opening, id: BridgeId)
    requires EventsOk(s) && c in s.conns && ch in s.conns[c].opens && o == s.conns[c].opens[ch]
    requires o.stage.NeedTunnel? && o.req.conn == c && o.req.ch == ch && StageOk(s, c, ch, o) && id !in s.born
    ensures EventsOk(Birth(s, c, ch, o, id))
  {
    var s' := Birth(s, c, ch, o, id);
    BornGrows(s.events, s.born, s'.born);
    if id in StartedIds(s.events) || id in StoppedIds(s.events) { EventIdsAreBorn(s.events, s.born, id); }
    forall k | k in s'.born ensures Accounted(s', k) {
      if k != id {
        assert Accounted(s, k);
        assert !OwnedBy(s, k, c, ch);
        assert OwesStart(s', k) <==> OwesStart(s, k);
        assert OwesStop(s', k) <==> OwesStop(s, k);
      }
    }
  }

  lemma {:induction false} BornGrows(evs: seq<Event>, born: map<BridgeId, Tunnel>, born': map<BridgeId, Tunnel>)
    requires NoRepeat(evs, born) && forall id :: id in born ==> id in born' && born'[id] == born[id]
    ensures NoRepeat(evs, born')
  {
    if evs != [] { BornGrows(evs[..|evs| - 1], born, born'); }
  }

  lemma NotedEvents(s: System, c: ConnId, ch: ChannelId, o: Opening, t: Tunnel)
    requires EventsOk(s) && c in s.conns && ch in s.conns[c].opens && o == s.conns[c].opens[ch] && o.stage == NeedId(t)
    ensures EventsOk(Noted(s, c, ch, o, t))
  {
    QuietKeepsEvents(s, Noted(s, c, ch, o, t), c, Noted(s, c, ch, o, t).conns[c]);
  }

  lemma EventAppended(evs: seq<Event>, e: Event)
    ensures StartedIds(evs + [e]) == StartedIds(evs) + if e.BridgeStarted? then {e.tunnel.id} else {}
    ensures StoppedIds(evs + [e]) == StoppedIds(evs) + if e.BridgeStopped? then {e.tunnel.id} else {}
  {
    assert (evs + [e])[..|evs|] == evs;
  }

  lemma RepeatFree(evs: seq<Event>, e: Event, born: map<BridgeId, Tunnel>)
    requires NoRepeat(evs, born) && e.tunnel.id in born && born[e.tunnel.id] == e.tunnel
    requires e.tunnel.id !in (if e.BridgeStarted? then StartedIds(evs) else StoppedIds(evs))
    ensures NoRepeat(evs + [e], born)
  {
    assert (evs + [e])[..|evs|] == evs;
  }

  lemma AnnouncedAccounts(s: System, c: ConnId, ch: ChannelId, o: Opening, t: Tunnel, k: BridgeId)
    requires EventsOk(s) && c in s.conns && ch in s.conns[c].opens && o == s.conns[c].opens[ch]
    requires o.stage == NeedStart(t) && o.req.conn == c && o.req.ch == ch && StageOk(s, c, ch, o) && k in s.born
    ensures Accounted(Announced(s, c, ch, o, t), k)
  {
    var s' := Announced(s, c, ch, o, t);
    EventAppended(s.events, BridgeStarted(t));
    assert Accounted(s, k);
    assert OwesStop(s', k) <==> OwesStop(s, k);
    if k != t.id {
      assert !OwnedBy(s, k, c, ch);
      assert OwesStart(s', k) <==> OwesStart(s, k);
    }
  }

  lemma AnnouncedEvents(s: System, c: ConnId, ch: ChannelId, o: Opening, t: Tunnel)
    requires EventsOk(s) && c in s.conns && ch in s.conns[c].opens && o == s.conns[c].opens[ch]
    requires o.stage == NeedStart(t) && o.req.conn == c && o.req.ch == ch && StageOk(s, c, ch, o)
    ensures EventsOk(Announced(s, c, ch, o, t))
  {
    assert Accounted(s, t.id) && OwesStart(s, t.id);
    RepeatFree(s.events, BridgeStarted(t), s.born);
    forall k | k in s.born ensures Accounted(Announced(s, c, ch, o, t), k) {
      AnnouncedAccounts(s, c, ch, o, t, k);
    }
  }

  lemma OpeningEvents(s: System, s': System, c: ConnId, ch: ChannelId, pick: nat, ok: bool)
    requires Inv(s) && EventsOk(s) && c in s.conns && ch in s.conns[c].opens
          && OpeningStep(s, c, ch, pick, ok) == Some(s')
    ensures EventsOk(s')
  {
    var o := s.conns[c].opens[ch];
    if HasTunnel(o.stage) {
      TunnelStepEvents(s, c, ch, o);
      TunnelStepIs(s, c, ch, pick, ok);
    } else if o.stage.NeedTunnel? {
      assert Openings(s, c) by { assert ConnInv(s, c); }
      BirthEvents(s, c, ch, o, pick);
    } else {
      EarlyStepEvents(s, c, ch, pick, ok);
    }
  }

  lemma TunnelStepEvents(s: System, c: ConnId, ch: ChannelId, o: Opening)
    requires Inv(s) && EventsOk(s) && c in s.conns && ch in s.conns[c].opens && o == s.conns[c].opens[ch]
          && HasTunnel(o.stage)
    ensures o.stage.NeedId? ==> EventsOk(Noted(s, c, ch, o, o.stage.tunnel))
    ensures o.stage.NeedStart? ==> EventsOk(Announced(s, c, ch, o, o.stage.tunnel))
  {
    assert Openings(s, c) by { assert ConnInv(s, c); }
    match o.stage
    case NeedId(t) => NotedEvents(s, c, ch, o, t);
    case NeedStart(t) => AnnouncedEvents(s, c, ch, o, t);
  }

  lemma EarlyStepEvents(s: System, c: ConnId, ch: ChannelId, pick: nat, ok: bool)
    requires Inv(s) && EventsOk(s) && c in s.conns && ch in s.conns[c].opens
    requires !HasTunnel(s.conns[c].opens[ch].stage) && !s.conns[c].opens[ch].stage.NeedTunnel?
    ensures EventsOk(WithConn(s, c, EarlyStep(s, s.conns[c], ch, s.conns[c].opens[ch], pick, ok)))
  {
    StageIsEarly(s, c, ch);
    EarlyStepResult(s, c, ch, pick, ok);
    EarlyEvents(s, c, ch, EarlyStep(s, s.conns[c], ch, s.conns[c].opens[ch], pick, ok));
  }

  lemma EarlyStepResult(s: System, c: ConnId, ch: ChannelId, pick: nat, ok: bool)
    requires EarlyStage(s, c, ch)
    ensures EarlyResult(s, c, ch, EarlyStep(s, s.conns[c], ch, s.conns[c].opens[ch], pick, ok))
  {
    var o := s.conns[c].opens[ch];
    if o.stage.NeedSlot? {
      SlotResult(s, c, ch, ok);
    } else if !o.stage.NeedChannel? && !o.stage.NeedBridge? {
      CheckResult(s, c, ch, pick, ok);
    }
  }

  // ---------------------------------------------------------- closing steps

  lemma TakenEvents(s: System, s': System, c: ConnId)
    requires Base(s) && EventsOk(s) && TunnelTaken(s, s', c) && Callback(s, c) && Sweeping(s, c)
    ensures EventsOk(s')
  {
    var id := s.conns[c].handler.id;
    forall k | k in s'.born ensures Accounted(s', k) {
      assert Accounted(s, k);
      assert OwesStart(s', k) <==> OwesStart(s, k);
      if k == id {
        assert OwnedBy(s, id, c, s.conns[c].handler.ch);
      } else {
        assert OwesStop(s', k) <==> OwesStop(s, k);
      }
    }
  }

  lemma StoppedEvents(s: System, c: ConnId, t: Tunnel)
    requires EventsOk(s) && c in s.conns && s.conns[c].handler.CloseSend? && t == s.conns[c].handler.tunnel
    requires Callback(s, c) && Sweeping(s, c)
    ensures EventsOk(Stopped(s, c, t))
  {
    var s' := Stopped(s, c, t);
    assert Accounted(s, t.id) && OwesStop(s, t.id);
    EventAppended(s.events, BridgeStopped(t));
    RepeatFree(s.events, BridgeStopped(t), s.born);
    forall k | k in s'.born ensures Accounted(s', k) {
      assert Accounted(s, k);
      assert OwesStart(s', k) <==> OwesStart(s, k);
      if k != t.id { assert OwesStop(s', k) <==> OwesStop(s, k); }
    }
  }

  lemma CloseOwnEvents(s: System, c: ConnId)
    requires EventsOk(s) && c in s.conns && !s.conns[c].handler.CloseSend?
    ensures EventsOk(WithConn(s, c, CloseOwn(s.conns[c])))
  {
    var conn := CloseOwn(s.conns[c]);
    assert conn.opens == s.conns[c].opens && conn.sweep == s.conns[c].sweep && !conn.handler.CloseSend?;
    QuietKeepsEvents(s, WithConn(s, c, conn), c, conn);
  }

  lemma ClosingEvents(s: System, s': System, c: ConnId)
    requires Inv(s) && EventsOk(s) && c in s.conns && ClosingStep(s, c) == Some(s')
    ensures EventsOk(s')
  {
    assert Callback(s, c) && Sweeping(s, c) by { assert ConnInv(s, c); }
    var h := s.conns[c].handler;
    if h.CloseTunnel? {
      assert TunnelTaken(s, s', c);
      TakenEvents(s, s', c);
    } else if h.CloseSend? {
      StoppedEvents(s, c, h.tunnel);
    } else {
      CloseOwnEvents(s, c);
    }
  }

  // --------------------------------------------------------- sweeping steps

  lemma RemovedEvents(s: System, c: ConnId, ids: set<BridgeId>)
    requires Base(s) && EventsOk(s) && c in s.conns && s.conns[c].sweep == SweepRemove(ids) && Callback(s, c)
          && Sweeping(s, c)
    ensures EventsOk(Removed(s, c, ids))
  {
    var s' := Removed(s, c, ids);
    forall k | k in s'.born ensures Accounted(s', k) {
      assert Accounted(s, k);
      assert OwesStart(s', k) <==> OwesStart(s, k);
      if !(k in ids && k in s.tunnels) { assert OwesStop(s', k) <==> OwesStop(s, k); }
    }
  }

  lemma SweptOneAccounts(s: System, c: ConnId, pending: map<BridgeId, Tunnel>, pick: BridgeId, k: BridgeId)
    requires Base(s) && EventsOk(s) && c in s.conns && s.conns[c].sweep == SweepSend(pending) && pick in pending
    requires Callback(s, c) && Sweeping(s, c) && k in s.born
    ensures Accounted(SweptOne(s, c, pending, pick), k)
  {
    var s' := SweptOne(s, c, pending, pick);
    EventAppended(s.events, BridgeStopped(pending[pick]));
    assert Accounted(s, k);
    assert OwesStart(s', k) <==> OwesStart(s, k);
    if k != pick { assert OwesStop(s', k) <==> OwesStop(s, k); }
  }

  lemma SweptOneEvents(s: System, c: ConnId, pending: map<BridgeId, Tunnel>, pick: BridgeId)
    requires Base(s) && EventsOk(s) && c in s.conns && s.conns[c].sweep == SweepSend(pending) && pick in pending
    requires Callback(s, c) && Sweeping(s, c)
    ensures EventsOk(SweptOne(s, c, pending, pick))
  {
    assert Accounted(s, pick) && OwesStop(s, pick);
    RepeatFree(s.events, BridgeStopped(pending[pick]), s.born);
    forall k | k in s.born ensures Accounted(SweptOne(s, c, pending, pick), k) {
      SweptOneAccounts(s, c, pending, pick, k);
    }
  }

  lemma SweepMovesQuietly(s: System, c: ConnId, conn: Conn)
    requires EventsOk(s) && c in s.conns && conn == s.conns[c].(sweep := conn.sweep)
    requires forall id :: id in s.born ==> (OwedBy(conn, id) <==> OwedBy(s.conns[c], id))
    ensures EventsOk(WithConn(s, c, conn))
  {
    QuietKeepsEvents(s, WithConn(s, c, conn), c, conn);
  }

  lemma SendingEvents(s: System, s': System, c: ConnId, pick: BridgeId)
    requires Base(s) && EventsOk(s) && c in s.conns && s.conns[c].sweep.SweepSend? && Callback(s, c) && Sweeping(s, c)
    requires SweepingStep(s, c, pick) == Some(s')
    ensures EventsOk(s')
  {
    var pending := s.conns[c].sweep.pending;
    if pending == map[] {
      SweepMovesQuietly(s, c, s.conns[c].(sweep := Swept));
    } else {
      SweptOneEvents(s, c, pending, pick);
    }
  }

  lemma SweepingEvents(s: System, s': System, c: ConnId, pick: BridgeId)
    requires Inv(s) && EventsOk(s) && c in s.conns && SweepingStep(s, c, pick) == Some(s')
    ensures EventsOk(s')
  {
    var conn := s.conns[c];
    assert Callback(s, c) && Sweeping(s, c) by { assert ConnInv(s, c); }
    if conn.sweep.SweepRead? {
      SweepMovesQuietly(s, c, Read(conn));
    } else if conn.sweep.SweepRemove? {
      RemovedEvents(s, c, conn.sweep.ids);
    } else {
      SendingEvents(s, s', c, pick);
    }
  }

  // ---------------------------------------------------------------- all steps

  lemma OpenEvents(s: System, s': System, c: ConnId, ch: ChannelId, target: EntityId, port: Port)
    requires Inv(s) && EventsOk(s) && Next(s, Open(c, ch, target, port)) == Some(s')
    ensures EventsOk(s')
  {
    assert ch !in s.conns[c].opens by { assert Openings(s, c) by { assert ConnInv(s, c); } }
    var conn := s.conns[c];
    var r := Request(c, ch, conn.entity.value, target, port, 0, 0, 0, 0);
    OpenedQuietly(s, c, ch, Opening(r, false, NeedConfig, 0));
  }

  lemma OpenedQuietly(s: System, c: ConnId, ch: ChannelId, o: Opening)
    requires EventsOk(s) && c in s.conns && ch !in s.conns[c].opens && s.conns[c].handler.Free? && o.stage.NeedConfig?
    ensures var conn := s.conns[c];
      EventsOk(WithConn(s, c, conn.(channels := conn.channels + {ch}, handler := OpeningFast(ch),
        opens := conn.opens[ch := o])))
  {
    var conn := s.conns[c].(channels := s.conns[c].channels + {ch}, handler := OpeningFast(ch),
      opens := s.conns[c].opens[ch := o]);
    QuietKeepsEvents(s, WithConn(s, c, conn), c, conn);
  }

  lemma ConnectEvents(s: System, c: ConnId)
    requires Base(s) && EventsOk(s) && c !in s.conns
    ensures EventsOk(WithConn(s, c, NEW_CONN))
  {
    var s' := WithConn(s, c, NEW_CONN);
    forall k | k in s'.born ensures Accounted(s', k) {
      assert Accounted(s, k);
      assert OwesStart(s', k) <==> OwesStart(s, k);
      assert OwesStop(s', k) <==> OwesStop(s, k);
    }
  }

  lemma UnrelatedEvents(s: System, s': System)
    requires EventsOk(s) && s'.conns == s.conns && s'.events == s.events && s'.born == s.born && s'.tunnels == s.tunnels
    ensures EventsOk(s')
  {
    forall k | k in s'.born ensures Accounted(s', k) {
      assert Accounted(s, k);
      assert OwesStart(s', k) <==> OwesStart(s, k);
      assert OwesStop(s', k) <==> OwesStop(s, k);
    }
  }

  lemma EventsStep(s: System, s': System, l: Label)
    requires Inv(s) && EventsOk(s) && Next(s, l) == Some(s')
    ensures EventsOk(s')
  {
    match l
    case OpenStep(c, ch, pick, ok) => OpeningEvents(s, s', c, ch, pick, ok);
    case CloseStep(c) => ClosingEvents(s, s', c);
    case SweepStep(c, pick) => SweepingEvents(s, s', c, pick);
    case Open(c, ch, target, port) => OpenEvents(s, s', c, ch, target, port);
    case Connect(c) => ConnectEvents(s, c);
    case Register(c, port) => UnrelatedEvents(s, s');
    case Unregister(c, port) => UnrelatedEvents(s, s');
    case ChangeDb(db) => UnrelatedEvents(s, s');
    case _ => OwnEvents(s, s', l);
  }

  /** Openings as before, and no event owed before or after, or the same ones. */
  lemma OwnQuietly(s: System, s': System, c: ConnId, conn: Conn)
    requires EventsOk(s) && c in s.conns && s'.conns == s.conns[c := conn]
    requires s'.events == s.events && s'.born == s.born && s'.tunnels == s.tunnels && conn.opens == s.conns[c].opens
    requires conn.handler == s.conns[c].handler || (!conn.handler.CloseSend? && !s.conns[c].handler.CloseSend?)
    requires conn.sweep == s.conns[c].sweep || (!conn.sweep.SweepSend? && !s.conns[c].sweep.SweepSend?)
    ensures EventsOk(s')
  {
    QuietKeepsEvents(s, s', c, conn);
  }

  lemma OwnEvents(s: System, s': System, l: Label)
    requires Inv(s) && EventsOk(s) && Next(s, l) == Some(s')
    requires l.Authenticate? || l.Close? || l.DropConn? || l.ClearSlots?
    ensures EventsOk(s')
  {
    match l
    case Authenticate(c, e) => OwnQuietly(s, s', c, s.conns[c].(entity := Some(e)));
    case Close(c, ch) => OwnQuietly(s, s', c, s.conns[c].(handler := CloseBridge(ch)));
    case DropConn(c) =>
      assert Sweeping(s, c) by { assert ConnInv(s, c); }
      OwnQuietly(s, s', c, s.conns[c].(live := false, sweep := SweepRead));
    case ClearSlots(c) => OwnQuietly(s, s', c, s.conns[c].(slotsCleared := true));
  }

  /**
   Over every run and at every step: each tunnel is announced exactly once,
   unless its opening still owes the event, and stopped exactly once, unless it
   is still registered or a close or sweep still owes the event; never twice.
   */
  lemma {:induction false} EachTunnelOnce(db: Db, ls: seq<Label>)
    requires Exec(Start(db), ls).Some?
    ensures EventsOk(Exec(Start(db), ls).value)
  {
    if ls != [] {
      var n := |ls| - 1;
      EachTunnelOnce(db, ls[..n]);
      InvHolds(db, ls[..n]);
      EventsStep(Exec(Start(db), ls[..n]).value, Exec(Start(db), ls).value, ls[n]);
    }
  }

  // -------------------------------------------------------------- conservation

  type Selector = Tunnel -> bool

  function Count(evs: seq<Event>, started: bool, sel: Selector): nat {
    if evs == [] then 0 else
      var e := evs[|evs| - 1];
      Count(evs[..|evs| - 1], started, sel) + if e.BridgeStarted? == started && sel(e.tunnel) then 1 else 0
  }

  function Pick(ids: set<BridgeId>, born: map<BridgeId, Tunnel>, sel: Selector): set<BridgeId> {
    set id | id in ids && id in born && sel(born[id])
  }

  function EventIds(evs: seq<Event>, started: bool): set<BridgeId> {
    if started then StartedIds(evs) else StoppedIds(evs)
  }

  lemma PickGrows(ids: set<BridgeId>, t: Tunnel, born: map<BridgeId, Tunnel>, sel: Selector)
    requires t.id in born && born[t.id] == t && t.id !in ids
    ensures |Pick(ids + {t.id}, born, sel)| == |Pick(ids, born, sel)| + if sel(t) then 1 else 0
  {
    if sel(t) {
      assert Pick(ids + {t.id}, born, sel) == Pick(ids, born, sel) + {t.id};
    } else {
      assert Pick(ids + {t.id}, born, sel) == Pick(ids, born, sel);
    }
  }

  /** Without repeats, counting events is counting tunnels. */
  lemma {:induction false} CountIsCard(evs: seq<Event>, started: bool, born: map<BridgeId, Tunnel>, sel: Selector)
    requires NoRepeat(evs, born)
    ensures Count(evs, started, sel) == |Pick(EventIds(evs, started), born, sel)|
  {
    if evs == [] {
      assert Pick({}, born, sel) == {};
    } else {
      var n := |evs| - 1;
      var e := evs[n];
      CountIsCard(evs[..n], started, born, sel);
      if e.BridgeStarted? == started {
        PickGrows(EventIds(evs[..n], started), e.tunnel, born, sel);
      } else {
        assert EventIds(evs, started) == EventIds(evs[..n], started);
      }
    }
  }

  function OwedStarts(s: System): set<BridgeId> {
    set id | id in s.born && OwesStart(s, id)
  }

  function OwedStops(s: System): set<BridgeId> {
    set id | id in s.born && OwesStop(s, id)
  }

  lemma SplitCard(a: set<BridgeId>, b: set<BridgeId>, all: set<BridgeId>)
    requires a + b == all && a !! b
    ensures |a| + |b| == |all|
  {
  }

  /**
   Conservation at lock granularity, for every choice of tunnels and so for
   every client, target and port: starts sent plus starts owed equal stops sent
   plus stops owed plus tunnels registered.
   */
  lemma Conservation(db: Db, ls: seq<Label>, sel: Selector)
    requires Exec(Start(db), ls).Some?
    ensures var s := Exec(Start(db), ls).value;
      Count(s.events, true, sel) + |Pick(OwedStarts(s), s.born, sel)|
      == Count(s.events, false, sel) + |Pick(OwedStops(s), s.born, sel)| + |Pick(s.tunnels.Keys, s.born, sel)|
  {
    EachTunnelOnce(db, ls);
    InvHolds(db, ls);
    var s := Exec(Start(db), ls).value;
    CountIsCard(s.events, true, s.born, sel);
    CountIsCard(s.events, false, s.born, sel);
    Partition(s, sel);
  }

  /** A stop is owed only for a tunnel that is out of the registry. */
  lemma OwedIsOut(s: System, id: BridgeId)
    requires Inv(s) && id in s.born && OwesStop(s, id)
    ensures id !in s.tunnels
  {
    var c := s.born[id].req.conn;
    assert Callback(s, c) && Sweeping(s, c) by { assert ConnInv(s, c); }
  }

  /** Two sets that split the born tunnels split every selection of them. */
  lemma PickSplits(a: set<BridgeId>, b: set<BridgeId>, born: map<BridgeId, Tunnel>, sel: Selector)
    requires a !! b && forall id :: id in born ==> id in a || id in b
    ensures |Pick(a, born, sel)| + |Pick(b, born, sel)| == |Pick(born.Keys, born, sel)|
  {
    SplitCard(Pick(a, born, sel), Pick(b, born, sel), Pick(born.Keys, born, sel));
  }

  lemma PickJoins(a: set<BridgeId>, b: set<BridgeId>, born: map<BridgeId, Tunnel>, sel: Selector)
    requires a !! b
    ensures |Pick(a, born, sel)| + |Pick(b, born, sel)| == |Pick(a + b, born, sel)|
  {
    SplitCard(Pick(a, born, sel), Pick(b, born, sel), Pick(a + b, born, sel));
  }

  /** Every tunnel ever is announced or owed; and stopped, owed or registered. */
  lemma BornSplits(s: System)
    requires Inv(s) && EventsOk(s)
    ensures StartedIds(s.events) !! OwedStarts(s)
    ensures StoppedIds(s.events) !! OwedStops(s) && (StoppedIds(s.events) + OwedStops(s)) !! s.tunnels.Keys
    ensures forall id :: id in s.born ==>
      && (id in StartedIds(s.events) || id in OwedStarts(s))
      && (id in StoppedIds(s.events) + OwedStops(s) || id in s.tunnels.Keys)
  {
    forall id | id in s.born ensures Accounted(s, id) && (OwesStop(s, id) ==> id !in s.tunnels) {
      if OwesStop(s, id) { OwedIsOut(s, id); }
    }
    forall id | id in StoppedIds(s.events) ensures id in s.born { EventIdsAreBorn(s.events, s.born, id); }
    forall id | id in StartedIds(s.events) ensures id in s.born { EventIdsAreBorn(s.events, s.born, id); }
  }

  lemma Partition(s: System, sel: Selector)
    requires Inv(s) && EventsOk(s)
    ensures |Pick(StartedIds(s.events), s.born, sel)| + |Pick(OwedStarts(s), s.born, sel)|
         == |Pick(StoppedIds(s.events), s.born, sel)| + |Pick(OwedStops(s), s.born, sel)|
           + |Pick(s.tunnels.Keys, s.born, sel)|
  {
    BornSplits(s);
    PickSplits(StartedIds(s.events), OwedStarts(s), s.born, sel);
    PickJoins(StoppedIds(s.events), OwedStops(s), s.born, sel);
    PickSplits(StoppedIds(s.events) + OwedStops(s), s.tunnels.Keys, s.born, sel);
  }
}
