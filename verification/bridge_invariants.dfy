/**
 What every step of the bridge protocol keeps: who owns a tunnel, where its id
 is recorded, and what clean-up leaves.
 */
module BridgeInvariants {
  import opened Options
  import opened Bridges

  predicate OwnedBy(s: System, id: BridgeId, c: ConnId, ch: ChannelId) {
    id in s.born && s.born[id].req.conn == c && s.born[id].req.ch == ch
  }

  /** Every tunnel was born, under its own id, for a known connection. */
  predicate Base(s: System) {
    && (forall id :: id in s.born ==> s.born[id].id == id && s.born[id].req.conn in s.conns)
    && (forall id :: id in s.tunnels ==> id in s.born && s.tunnels[id] == s.born[id])
    && (forall id :: id in s.registered ==> id in s.born)
  }

  /** The stages that read the database; only a callback is ever in them. */
  predicate IsCheck(st: OpenStage) {
    st.NeedConfig? || st.NeedSubscription? || st.NeedAccess?
  }

  predicate HasTunnel(st: OpenStage) {
    st.NeedId? || st.NeedStart?
  }

  /** What an opening knows about its channel's tunnel; a channel gets at most one. */
  predicate StageOk(s: System, c: ConnId, ch: ChannelId, o: Opening) {
    && (HasTunnel(o.stage) ==>
          && o.stage.tunnel.id in s.born && s.born[o.stage.tunnel.id] == o.stage.tunnel && o.stage.tunnel.req == o.req
          && (o.stage.tunnel.id in s.registered <==> o.stage.NeedStart?))
    && (forall id :: id in s.born && OwnedBy(s, id, c, ch) ==> HasTunnel(o.stage) && id == o.stage.tunnel.id)
  }

  predicate Openings(s: System, c: ConnId)
    requires c in s.conns
  {
    var conn := s.conns[c];
    forall ch :: ch in conn.opens ==>
      && ch in conn.channels
      && conn.opens[ch].req.conn == c && conn.opens[ch].req.ch == ch
      && (if conn.opens[ch].slow then !IsCheck(conn.opens[ch].stage) else conn.handler == OpeningFast(ch))
      && StageOk(s, c, ch, conn.opens[ch])
  }

  /** Where a tunnel's id is: still with its opening, in `bridge_ids`, or just taken out by a close. */
  predicate Owned(s: System, c: ConnId)
    requires c in s.conns
  {
    var conn := s.conns[c];
    forall id :: id in s.born && s.born[id].req.conn == c ==>
      var ch := s.born[id].req.ch;
      && ch in conn.channels
      && (id !in s.registered ==> id in s.tunnels && ch in conn.opens && conn.opens[ch].stage == NeedId(s.born[id]))
      && (id in s.registered && id in s.tunnels ==>
            (ch in conn.bridgeIds && conn.bridgeIds[ch] == id) || conn.handler == CloseTunnel(ch, id))
  }

  predicate Registry(s: System, c: ConnId)
    requires c in s.conns
  {
    var conn := s.conns[c];
    forall ch :: ch in conn.bridgeIds ==>
      && conn.bridgeIds[ch] in s.registered && OwnedBy(s, conn.bridgeIds[ch], c, ch)
      && (conn.live ==> conn.bridgeIds[ch] in s.tunnels)
  }

  predicate Callback(s: System, c: ConnId)
    requires c in s.conns
  {
    var conn := s.conns[c];
    && (!conn.live ==> conn.handler == Free)
    && (conn.handler.CloseTunnel? ==>
          && conn.handler.id in s.registered && OwnedBy(s, conn.handler.id, c, conn.handler.ch)
          && conn.handler.id in s.tunnels
          && (conn.handler.ch in conn.bridgeIds ==> conn.bridgeIds[conn.handler.ch] != conn.handler.id))
    && (conn.handler.CloseSend? ==>
          var t := conn.handler.tunnel;
          t.id in s.born && s.born[t.id] == t && t.req.conn == c && t.id !in s.tunnels)
  }

  predicate Sweeping(s: System, c: ConnId)
    requires c in s.conns
  {
    var conn := s.conns[c];
    && (conn.live <==> conn.sweep == NotDropped)
    && (conn.sweep.SweepRemove? ==>
          forall id :: id in conn.sweep.ids ==> id in s.registered && id in s.born && s.born[id].req.conn == c)
    && (conn.sweep.SweepSend? ==>
          forall id :: id in conn.sweep.pending ==>
            id in s.born && conn.sweep.pending[id] == s.born[id] && s.born[id].req.conn == c && id !in s.tunnels)
  }

  predicate Records(s: System, c: ConnId)
    requires c in s.conns
  {
    Owned(s, c) && Registry(s, c) && Callback(s, c)
  }

  predicate ConnInv(s: System, c: ConnId)
    requires c in s.conns
  {
    Openings(s, c) && Records(s, c) && Sweeping(s, c)
  }

  predicate Inv(s: System) {
    Base(s) && forall c :: c in s.conns ==> ConnInv(s, c)
  }

  // ------------------------------------------------------------- locality

  /** Only connection `c` and the tunnels it owns differ. */
  predicate Local(s: System, s': System, c: ConnId) {
    && c in s.conns && c in s'.conns && s'.conns == s.conns[c := s'.conns[c]]
    && (forall id :: id in s.born ==> id in s'.born && s'.born[id] == s.born[id])
    && (forall id :: id in s'.born && id !in s.born ==> s'.born[id].req.conn == c)
    && (forall id :: id in s.born && s.born[id].req.conn != c ==>
          (id in s'.tunnels <==> id in s.tunnels) && (id in s'.registered <==> id in s.registered))
  }

  lemma OtherOpenings(s: System, s': System, c: ConnId, d: ConnId)
    requires Local(s, s', c) && d in s.conns && d != c && Openings(s, d)
    ensures d in s'.conns && Openings(s', d)
  {
    assert s'.conns[d] == s.conns[d];
    forall ch | ch in s.conns[d].opens ensures StageOk(s', d, ch, s.conns[d].opens[ch]) {
      assert StageOk(s, d, ch, s.conns[d].opens[ch]);
      forall id | id in s'.born && OwnedBy(s', id, d, ch) ensures id in s.born && OwnedBy(s, id, d, ch) {}
    }
  }

  lemma OthersKept(s: System, s': System, c: ConnId, d: ConnId)
    requires Base(s) && Local(s, s', c) && d in s.conns && d != c && ConnInv(s, d)
    requires Base(s')
    ensures d in s'.conns && ConnInv(s', d)
  {
    OtherOpenings(s, s', c, d);
    assert s'.conns[d] == s.conns[d];
    assert Records(s', d);
    assert Sweeping(s', d);
  }

  /** A local step that re-establishes the invariant for its own connection keeps it everywhere. */
  lemma LocalKeeps(s: System, s': System, c: ConnId)
    requires Inv(s) && Local(s, s', c) && Base(s') && ConnInv(s', c)
    ensures Inv(s')
  {
    forall d | d in s'.conns ensures ConnInv(s', d) {
      if d != c { OthersKept(s, s', c, d); }
    }
  }

  /**
   The registries and the connection's recorded ids are untouched; its callback holds
   no tunnel id that is not held before.
   */
  predicate SameRecords(s: System, s': System, c: ConnId) {
    && c in s.conns && c in s'.conns && s'.conns == s.conns[c := s'.conns[c]]
    && s'.born == s.born && s'.tunnels == s.tunnels && s'.registered == s.registered
    && var a, b := s.conns[c], s'.conns[c];
    && a.bridgeIds == b.bridgeIds && a.channels <= b.channels
    && (forall ch :: ch in a.opens && a.opens[ch].stage.NeedId? ==>
      ch in b.opens && b.opens[ch].stage == a.opens[ch].stage)
    && (a.handler.CloseTunnel? || b.handler.CloseTunnel? || b.handler.CloseSend? ==> b.handler == a.handler)
    && (b.live ==> a.live) && (!b.live ==> b.handler.Free?)
  }

  lemma RecordsKept(s: System, s': System, c: ConnId)
    requires SameRecords(s, s', c) && Records(s, c)
    ensures Records(s', c)
  {
  }

  /** Nothing the sweep looks at differs. */
  predicate SameCleanUp(s: System, s': System, c: ConnId) {
    && c in s.conns && c in s'.conns
    && s'.born == s.born && s'.tunnels == s.tunnels && s'.registered == s.registered
    && var a, b := s.conns[c], s'.conns[c];
    && a.live == b.live && a.sweep == b.sweep
  }

  lemma CleanUpKept(s: System, s': System, c: ConnId)
    requires SameCleanUp(s, s', c) && Sweeping(s, c)
    ensures Sweeping(s', c)
  {
  }

  lemma SameRegistriesKeep(s: System, s': System, c: ConnId)
    requires Inv(s) && c in s.conns && c in s'.conns && s'.conns == s.conns[c := s'.conns[c]]
    requires s'.born == s.born && s'.tunnels == s.tunnels && s'.registered == s.registered
    requires ConnInv(s', c)
    ensures Inv(s')
  {
    LocalKeeps(s, s', c);
  }

  /** A step on the connection's own fields that leaves records and clean-up as they are. */
  lemma OwnStepKeeps(s: System, s': System, c: ConnId)
    requires Inv(s) && SameRecords(s, s', c) && SameCleanUp(s, s', c) && Openings(s', c)
    ensures Inv(s')
  {
    assert ConnInv(s, c);
    RecordsKept(s, s', c);
    CleanUpKept(s, s', c);
    LocalKeeps(s, s', c);
  }

  // ------------------------------------------------------ opening a bridge

  predicate EarlyMove(s: System, c: ConnId, ch: ChannelId, o: Opening, conn: Conn) {
    && c in s.conns && ch in s.conns[c].opens
    && var old_ := s.conns[c];
    && !HasTunnel(old_.opens[ch].stage) && !HasTunnel(o.stage)
    && o.req.conn == c && o.req.ch == ch && !(o.slow && IsCheck(o.stage))
    && conn == old_.(opens := old_.opens[ch := o], handler := conn.handler, bridges := conn.bridges)
    && ((conn.handler == old_.handler && (o.slow <==> old_.opens[ch].slow))
        || (conn.handler == Free && old_.handler == OpeningFast(ch) && o.slow))
  }

  lemma EarlyOpenings(s: System, c: ConnId, ch: ChannelId, o: Opening, conn: Conn)
    requires EarlyMove(s, c, ch, o, conn) && Openings(s, c)
    ensures Openings(WithConn(s, c, conn), c)
  {
    var s' := WithConn(s, c, conn);
    assert StageOk(s, c, ch, s.conns[c].opens[ch]);
    forall d | d in conn.opens ensures StageOk(s', c, d, conn.opens[d]) {
      if d != ch { assert StageOk(s, c, d, s.conns[c].opens[d]); }
      assert forall id :: OwnedBy(s', id, c, d) ==> OwnedBy(s, id, c, d);
    }
  }

  /** Moving on among the stages before the tunnel exists. */
  lemma EarlyKeeps(s: System, c: ConnId, ch: ChannelId, o: Opening, conn: Conn)
    requires Inv(s) && EarlyMove(s, c, ch, o, conn)
    ensures Inv(WithConn(s, c, conn))
  {
    assert ConnInv(s, c);
    EarlyOpenings(s, c, ch, o, conn);
    OwnStepKeeps(s, WithConn(s, c, conn), c);
  }

  lemma EndOpenings(s: System, c: ConnId, ch: ChannelId, s': System)
    requires c in s.conns && ch in s.conns[c].opens && Openings(s, c) && c in s'.conns
    requires s'.born == s.born && s'.registered == s.registered && s'.conns[c].channels == s.conns[c].channels
    requires s'.conns[c].opens == s.conns[c].opens - {ch}
    requires s'.conns[c].handler == if s.conns[c].handler == OpeningFast(ch) then Free else s.conns[c].handler
    ensures Openings(s', c)
  {
    forall d | d in s'.conns[c].opens ensures StageOk(s', c, d, s'.conns[c].opens[d]) {
      assert StageOk(s, c, d, s.conns[c].opens[d]);
      assert forall id :: id in s.born ==> (OwnedBy(s', id, c, d) <==> OwnedBy(s, id, c, d));
    }
  }

  /** The end of an opening that owns no unregistered tunnel. */
  lemma EndKeeps(s: System, c: ConnId, ch: ChannelId, confirmed: set<ChannelId>, events: seq<Event>)
    requires Inv(s) && c in s.conns && ch in s.conns[c].opens && !s.conns[c].opens[ch].stage.NeedId?
    ensures Inv(WithConn(s, c, Ended(s.conns[c], ch).(confirmed := confirmed)).(events := events))
  {
    var s' := WithConn(s, c, Ended(s.conns[c], ch).(confirmed := confirmed)).(events := events);
    assert ConnInv(s, c);
    EndOpenings(s, c, ch, s');
    OwnStepKeeps(s, s', c);
  }

  lemma BirthOpenings(s: System, c: ConnId, ch: ChannelId, pick: nat)
    requires c in s.conns && ch in s.conns[c].opens && s.conns[c].opens[ch].stage.NeedTunnel? && pick !in s.born
    requires Openings(s, c) && pick !in s.registered
    ensures Openings(Birth(s, c, ch, s.conns[c].opens[ch], pick), c)
  {
    var s' := Birth(s, c, ch, s.conns[c].opens[ch], pick);
    var conn, conn' := s.conns[c], s'.conns[c];
    forall d | d in conn'.opens ensures StageOk(s', c, d, conn'.opens[d]) {
      assert StageOk(s, c, d, conn.opens[d]);
      assert forall id :: OwnedBy(s', id, c, d) ==> OwnedBy(s, id, c, d) || (d == ch && id == pick);
    }
  }

  lemma BirthRecords(s: System, c: ConnId, ch: ChannelId, pick: nat)
    requires Base(s) && c in s.conns && ch in s.conns[c].opens && s.conns[c].opens[ch].stage.NeedTunnel?
          && pick !in s.born
    requires Openings(s, c) && Records(s, c)
    ensures Records(Birth(s, c, ch, s.conns[c].opens[ch], pick), c)
  {
    assert StageOk(s, c, ch, s.conns[c].opens[ch]);
    forall id | id in s.born && s.born[id].req.conn == c ensures s.born[id].req.ch != ch {
      assert !OwnedBy(s, id, c, ch);
    }
    assert pick !in s.registered;
    BirthOwned(s, c, ch, pick);
    BirthRegistry(s, c, ch, s.conns[c].opens[ch], pick);
  }

  lemma BirthRegistry(s: System, c: ConnId, ch: ChannelId, o: Opening, pick: nat)
    requires Base(s) && c in s.conns && pick !in s.born && Registry(s, c) && Callback(s, c)
    ensures Registry(Birth(s, c, ch, o, pick), c) && Callback(Birth(s, c, ch, o, pick), c)
  {
  }

  lemma BirthOwned(s: System, c: ConnId, ch: ChannelId, pick: nat)
    requires c in s.conns && ch in s.conns[c].opens && s.conns[c].opens[ch].stage.NeedTunnel? && pick !in s.born
          && pick !in s.registered
    requires s.conns[c].opens[ch].req.conn == c && s.conns[c].opens[ch].req.ch == ch && ch in s.conns[c].channels
    requires Owned(s, c) && forall id :: id in s.born && s.born[id].req.conn == c ==> s.born[id].req.ch != ch
    ensures Owned(Birth(s, c, ch, s.conns[c].opens[ch], pick), c)
  {
  }

  lemma BirthIsLocal(s: System, c: ConnId, ch: ChannelId, pick: nat)
    requires Base(s) && c in s.conns && ch in s.conns[c].opens && s.conns[c].opens[ch].stage.NeedTunnel?
          && pick !in s.born
    requires s.conns[c].opens[ch].req.conn == c && Sweeping(s, c)
    ensures var s' := Birth(s, c, ch, s.conns[c].opens[ch], pick); Base(s') && Local(s, s', c) && Sweeping(s', c)
  {
  }

  lemma BirthKeeps(s: System, c: ConnId, ch: ChannelId, pick: nat)
    requires Inv(s) && c in s.conns && ch in s.conns[c].opens && s.conns[c].opens[ch].stage.NeedTunnel?
          && pick !in s.born
    ensures Inv(Birth(s, c, ch, s.conns[c].opens[ch], pick))
  {
    var s' := Birth(s, c, ch, s.conns[c].opens[ch], pick);
    assert ConnInv(s, c);
    BirthOpenings(s, c, ch, pick);
    BirthRecords(s, c, ch, pick);
    BirthIsLocal(s, c, ch, pick);
    LocalKeeps(s, s', c);
  }

  lemma IdOpenings(s: System, c: ConnId, ch: ChannelId)
    requires c in s.conns && ch in s.conns[c].opens && s.conns[c].opens[ch].stage.NeedId? && Openings(s, c)
    ensures Openings(Noted(s, c, ch, s.conns[c].opens[ch], s.conns[c].opens[ch].stage.tunnel), c)
  {
    var s' := Noted(s, c, ch, s.conns[c].opens[ch], s.conns[c].opens[ch].stage.tunnel);
    var conn, conn' := s.conns[c], s'.conns[c];
    assert StageOk(s, c, ch, conn.opens[ch]);
    forall d | d in conn'.opens ensures StageOk(s', c, d, conn'.opens[d]) {
      assert StageOk(s, c, d, conn.opens[d]);
      assert forall id :: OwnedBy(s', id, c, d) ==> OwnedBy(s, id, c, d);
    }
  }

  lemma IdRecords(s: System, c: ConnId, ch: ChannelId)
    requires Base(s) && c in s.conns && ch in s.conns[c].opens && s.conns[c].opens[ch].stage.NeedId? && Openings(s, c)
          && Records(s, c)
    ensures Records(Noted(s, c, ch, s.conns[c].opens[ch], s.conns[c].opens[ch].stage.tunnel), c)
  {
    var s' := Noted(s, c, ch, s.conns[c].opens[ch], s.conns[c].opens[ch].stage.tunnel);
    assert StageOk(s, c, ch, s.conns[c].opens[ch]);
    forall id | id in s.born && s.born[id].req.conn == c && id in s.registered ensures s.born[id].req.ch != ch {
      assert !OwnedBy(s, id, c, ch);
    }
    assert Owned(s', c);
    assert Registry(s', c);
  }

  lemma IdIsLocal(s: System, c: ConnId, ch: ChannelId)
    requires Base(s) && c in s.conns && ch in s.conns[c].opens && s.conns[c].opens[ch].stage.NeedId? && Openings(s, c)
          && Sweeping(s, c)
    ensures var s' := Noted(s, c, ch, s.conns[c].opens[ch], s.conns[c].opens[ch].stage.tunnel);
      Base(s') && Local(s, s', c) && Sweeping(s', c)
  {
    assert StageOk(s, c, ch, s.conns[c].opens[ch]);
  }

  lemma IdKeeps(s: System, c: ConnId, ch: ChannelId)
    requires Inv(s) && c in s.conns && ch in s.conns[c].opens && s.conns[c].opens[ch].stage.NeedId?
    ensures Inv(Noted(s, c, ch, s.conns[c].opens[ch], s.conns[c].opens[ch].stage.tunnel))
  {
    var s' := Noted(s, c, ch, s.conns[c].opens[ch], s.conns[c].opens[ch].stage.tunnel);
    assert ConnInv(s, c);
    IdOpenings(s, c, ch);
    IdRecords(s, c, ch);
    IdIsLocal(s, c, ch);
    LocalKeeps(s, s', c);
  }

  /** A step before the tunnel ends the opening, waits, or moves on. */
  predicate EarlyResult(s: System, c: ConnId, ch: ChannelId, conn: Conn)
    requires c in s.conns && ch in s.conns[c].opens
  {
    conn == Ended(s.conns[c], ch) || conn == s.conns[c] || (ch in conn.opens
      && EarlyMove(s, c, ch, conn.opens[ch], conn))
  }

  predicate EarlyStage(s: System, c: ConnId, ch: ChannelId) {
    && c in s.conns && ch in s.conns[c].opens
    && var o := s.conns[c].opens[ch];
    && o.req.conn == c && o.req.ch == ch && !HasTunnel(o.stage) && !o.stage.NeedTunnel?
    && (if o.slow then !IsCheck(o.stage) else s.conns[c].handler == OpeningFast(ch))
  }

  lemma CheckedShape(s: System, o: Opening, pick: nat, ok: bool)
    ensures var r := Checked(s, o, pick, ok);
      r.Some? ==>
        && r.value.req.conn == o.req.conn && r.value.req.ch == o.req.ch && r.value.slow == o.slow
        && !HasTunnel(r.value.stage)
  {
  }

  lemma CheckResult(s: System, c: ConnId, ch: ChannelId, pick: nat, ok: bool)
    requires EarlyStage(s, c, ch) && IsCheck(s.conns[c].opens[ch].stage)
    ensures EarlyResult(s, c, ch, CheckStep(s, s.conns[c], ch, s.conns[c].opens[ch], pick, ok))
  {
    CheckedShape(s, s.conns[c].opens[ch], pick, ok);
  }

  lemma SlotResult(s: System, c: ConnId, ch: ChannelId, ok: bool)
    requires EarlyStage(s, c, ch) && s.conns[c].opens[ch].stage.NeedSlot?
    ensures EarlyResult(s, c, ch, SlotStep(s, s.conns[c], ch, s.conns[c].opens[ch], ok))
  {
  }

  lemma EndedKeeps(s: System, c: ConnId, ch: ChannelId)
    requires Inv(s) && c in s.conns && ch in s.conns[c].opens && !s.conns[c].opens[ch].stage.NeedId?
    ensures Inv(WithConn(s, c, Ended(s.conns[c], ch)))
  {
    EndKeeps(s, c, ch, s.conns[c].confirmed, s.events);
  }

  lemma EarlyResultKeeps(s: System, c: ConnId, ch: ChannelId, conn: Conn)
    requires Inv(s) && EarlyStage(s, c, ch) && EarlyResult(s, c, ch, conn)
    ensures Inv(WithConn(s, c, conn))
  {
    if conn == Ended(s.conns[c], ch) {
      EndedKeeps(s, c, ch);
    } else if conn == s.conns[c] {
      assert WithConn(s, c, conn) == s;
    } else {
      EarlyKeeps(s, c, ch, conn.opens[ch], conn);
    }
  }

  lemma StageIsEarly(s: System, c: ConnId, ch: ChannelId)
    requires Inv(s) && c in s.conns && ch in s.conns[c].opens
    requires !HasTunnel(s.conns[c].opens[ch].stage) && !s.conns[c].opens[ch].stage.NeedTunnel?
    ensures EarlyStage(s, c, ch)
  {
    assert Openings(s, c) by { assert ConnInv(s, c); }
  }

  /** The stages before the tunnel: the callback moves on, turns into a slow task, or ends. */
  lemma EarlyStepKeeps(s: System, c: ConnId, ch: ChannelId, pick: nat, ok: bool)
    requires Inv(s) && EarlyStage(s, c, ch)
    ensures Inv(WithConn(s, c, EarlyStep(s, s.conns[c], ch, s.conns[c].opens[ch], pick, ok)))
  {
    if s.conns[c].opens[ch].stage.NeedSlot? { SlotResult(s, c, ch, ok); }
    if IsCheck(s.conns[c].opens[ch].stage) { CheckResult(s, c, ch, pick, ok); }
    EarlyResultKeeps(s, c, ch, EarlyStep(s, s.conns[c], ch, s.conns[c].opens[ch], pick, ok));
  }

  /** The step of an opening that has a tunnel is one of two. */
  lemma TunnelStepIs(s: System, c: ConnId, ch: ChannelId, pick: nat, ok: bool)
    requires c in s.conns && ch in s.conns[c].opens && HasTunnel(s.conns[c].opens[ch].stage)
    ensures var o := s.conns[c].opens[ch];
      OpeningStep(s, c, ch, pick, ok)
      == Some(if o.stage.NeedId? then Noted(s, c, ch, o, o.stage.tunnel) else Announced(s, c, ch, o, o.stage.tunnel))
  {
  }

  lemma AnnouncedKeeps(s: System, c: ConnId, ch: ChannelId, o: Opening, t: Tunnel)
    requires Inv(s) && c in s.conns && ch in s.conns[c].opens && !s.conns[c].opens[ch].stage.NeedId?
    ensures Inv(Announced(s, c, ch, o, t))
  {
    EndKeeps(s, c, ch, AnnouncedConn(s.conns[c], ch, o).confirmed, s.events + [BridgeStarted(t)]);
  }

  lemma OpeningKeeps(s: System, c: ConnId, ch: ChannelId, pick: nat, ok: bool)
    requires Inv(s) && c in s.conns && ch in s.conns[c].opens && OpeningStep(s, c, ch, pick, ok).Some?
    ensures Inv(OpeningStep(s, c, ch, pick, ok).value)
  {
    var conn := s.conns[c];
    var o := conn.opens[ch];
    match o.stage
    case NeedTunnel => BirthKeeps(s, c, ch, pick);
    case NeedId(t) =>
      IdKeeps(s, c, ch);
      TunnelStepIs(s, c, ch, pick, ok);
    case NeedStart(t) =>
      AnnouncedKeeps(s, c, ch, o, t);
      TunnelStepIs(s, c, ch, pick, ok);
    case _ =>
      StageIsEarly(s, c, ch);
      EarlyStepKeeps(s, c, ch, pick, ok);
  }

  // -------------------------------------------------------- closing a bridge

  /** The same openings, while the callback is not a fast opening or stays one. */
  lemma OpeningsKept(s: System, s': System, c: ConnId)
    requires c in s.conns && c in s'.conns && Openings(s, c)
    requires s'.born == s.born && s'.registered == s.registered
    requires var a, b := s.conns[c], s'.conns[c];
      b.opens == a.opens && a.channels <= b.channels && (a.handler.OpeningFast? ==> b.handler == a.handler)
    ensures Openings(s', c)
  {
    forall ch | ch in s.conns[c].opens ensures StageOk(s', c, ch, s.conns[c].opens[ch]) {
      assert StageOk(s, c, ch, s.conns[c].opens[ch]);
      assert forall id :: id in s.born ==> (OwnedBy(s', id, c, ch) <==> OwnedBy(s, id, c, ch));
    }
  }

  /** A step that keeps openings, records and clean-up of its connection. */
  lemma QuietStepKeeps(s: System, s': System, c: ConnId)
    requires Inv(s) && SameRecords(s, s', c) && SameCleanUp(s, s', c)
    requires var a, b := s.conns[c], s'.conns[c];
      b.opens == a.opens && (a.handler.OpeningFast? ==> b.handler == a.handler)
    ensures Inv(s')
  {
    assert Openings(s, c) by { assert ConnInv(s, c); }
    OpeningsKept(s, s', c);
    OwnStepKeeps(s, s', c);
  }

  /** The close has taken the channel's id out of `bridge_ids`. */
  predicate IdTaken(s: System, s': System, c: ConnId) {
    && c in s.conns && s.conns[c].handler.CloseId? && s.conns[c].handler.ch in s.conns[c].bridgeIds
    && var conn, ch := s.conns[c], s.conns[c].handler.ch;
    s' == WithConn(s, c, conn.(bridgeIds := conn.bridgeIds - {ch}, handler := CloseTunnel(ch, conn.bridgeIds[ch])))
  }

  lemma CloseIdRecords(s: System, s': System, c: ConnId)
    requires IdTaken(s, s', c) && Records(s, c)
    ensures Records(s', c)
  {
    assert s.conns[c].live;
    assert Owned(s', c);
    assert Registry(s', c);
    assert Callback(s', c);
  }

  /** The close has taken the tunnel out of `active_tunnels` and still owes its event. */
  predicate TunnelTaken(s: System, s': System, c: ConnId) {
    && c in s.conns && s.conns[c].handler.CloseTunnel? && s.conns[c].handler.id in s.tunnels
    && var h := s.conns[c].handler;
    s' == WithConn(s, c, s.conns[c].(handler := CloseSend(h.ch, s.tunnels[h.id]))).(tunnels := s.tunnels - {h.id})
  }

  lemma TakenRecords(s: System, s': System, c: ConnId)
    requires Base(s) && TunnelTaken(s, s', c) && Records(s, c)
    ensures Records(s', c)
  {
    var id, ch := s.conns[c].handler.id, s.conns[c].handler.ch;
    assert Owned(s', c);
    forall d | d in s.conns[c].bridgeIds ensures s.conns[c].bridgeIds[d] != id {
      assert OwnedBy(s, s.conns[c].bridgeIds[d], c, d);
      assert OwnedBy(s, id, c, ch);
    }
    assert Registry(s', c);
    assert Callback(s', c);
  }

  lemma TakenIsLocal(s: System, s': System, c: ConnId)
    requires Base(s) && TunnelTaken(s, s', c) && Callback(s, c) && Sweeping(s, c)
    ensures Base(s') && Local(s, s', c) && Sweeping(s', c)
  {
  }

  lemma CloseTunnelKeeps(s: System, s': System, c: ConnId)
    requires Inv(s) && TunnelTaken(s, s', c)
    ensures Inv(s')
  {
    assert ConnInv(s, c);
    OpeningsKept(s, s', c);
    TakenRecords(s, s', c);
    TakenIsLocal(s, s', c);
    LocalKeeps(s, s', c);
  }

  lemma CloseIdKeeps(s: System, s': System, c: ConnId)
    requires Inv(s) && IdTaken(s, s', c)
    ensures Inv(s')
  {
    assert Openings(s, c) && Records(s, c) && Sweeping(s, c) by { assert ConnInv(s, c); }
    OpeningsKept(s, s', c);
    CloseIdRecords(s, s', c);
    CleanUpKept(s, s', c);
    SameRegistriesKeep(s, s', c);
  }

  lemma ClosingTakesTunnel(s: System, s': System, c: ConnId)
    requires c in s.conns && ClosingStep(s, c) == Some(s') && Callback(s, c) && s.conns[c].handler.CloseTunnel?
    ensures TunnelTaken(s, s', c)
  {
  }

  lemma ClosingTakesId(s: System, s': System, c: ConnId)
    requires c in s.conns && ClosingStep(s, c) == Some(s')
    requires s.conns[c].handler.CloseId? && s.conns[c].handler.ch in s.conns[c].bridgeIds
    ensures IdTaken(s, s', c)
  {
  }

  /** The close's steps that touch neither ids nor tunnels change only what does not matter here. */
  predicate QuietChange(a: Conn, b: Conn) {
    && b == a.(handler := b.handler, bridges := b.bridges, confirmed := b.confirmed)
    && (b.handler.Free? || b.handler.CloseId?)
  }

  lemma CloseOwnIsQuiet(conn: Conn)
    requires conn.handler.CloseBridge? || (conn.handler.CloseId? && conn.handler.ch !in conn.bridgeIds)
    ensures QuietChange(conn, CloseOwn(conn))
  {
  }

  lemma ClosingIsQuiet(s: System, s': System, c: ConnId)
    requires c in s.conns && ClosingStep(s, c) == Some(s') && !s.conns[c].handler.CloseTunnel?
    requires s.conns[c].handler.CloseId? ==> s.conns[c].handler.ch !in s.conns[c].bridgeIds
    ensures c in s'.conns && s' == WithConn(s, c, s'.conns[c]).(events := s'.events)
    ensures QuietChange(s.conns[c], s'.conns[c])
    ensures !s.conns[c].handler.OpeningFast?
  {
    if s.conns[c].handler.CloseBridge? || s.conns[c].handler.CloseId? { CloseOwnIsQuiet(s.conns[c]); }
  }

  lemma QuietChangeKeeps(s: System, s': System, c: ConnId)
    requires Inv(s) && c in s.conns && c in s'.conns && s' == WithConn(s, c, s'.conns[c]).(events := s'.events)
    requires QuietChange(s.conns[c], s'.conns[c]) && !s.conns[c].handler.CloseTunnel?
    requires !s.conns[c].handler.OpeningFast? && s.conns[c].live
    ensures Inv(s')
  {
    QuietStepKeeps(s, s', c);
  }

  lemma ClosingKeeps(s: System, c: ConnId)
    requires Inv(s) && c in s.conns && ClosingStep(s, c).Some?
    ensures Inv(ClosingStep(s, c).value)
  {
    var h, s' := s.conns[c].handler, ClosingStep(s, c).value;
    assert Callback(s, c) by { assert ConnInv(s, c); }
    if h.CloseTunnel? {
      ClosingTakesTunnel(s, s', c);
      CloseTunnelKeeps(s, s', c);
    } else if h.CloseId? && h.ch in s.conns[c].bridgeIds {
      ClosingTakesId(s, s', c);
      CloseIdKeeps(s, s', c);
    } else {
      ClosingIsQuiet(s, s', c);
      QuietChangeKeeps(s, s', c);
    }
  }

  // ---------------------------------------------------------------- clean-up

  lemma SweepReadCleanUp(s: System, c: ConnId)
    requires Base(s) && c in s.conns && ConnInv(s, c) && s.conns[c].sweep.SweepRead?
    ensures Sweeping(SweepingStep(s, c, 0).value, c)
  {
    var conn := s.conns[c];
    var s' := SweepingStep(s, c, 0).value;
    assert Sweeping(s', c) by {
      forall id | id in conn.bridgeIds.Values ensures id in s.registered && id in s.born && s.born[id].req.conn == c {
        var ch :| ch in conn.bridgeIds && conn.bridgeIds[ch] == id;
        assert OwnedBy(s, id, c, ch);
      }
    }
  }

  lemma SweepReadKeeps(s: System, c: ConnId)
    requires Inv(s) && c in s.conns && s.conns[c].sweep.SweepRead?
    ensures Inv(SweepingStep(s, c, 0).value)
  {
    var s' := SweepingStep(s, c, 0).value;
    assert ConnInv(s, c);
    OpeningsKept(s, s', c);
    RecordsKept(s, s', c);
    SweepReadCleanUp(s, c);
    LocalKeeps(s, s', c);
  }

  lemma SweepRemoveRecords(s: System, c: ConnId)
    requires Base(s) && c in s.conns && ConnInv(s, c) && s.conns[c].sweep.SweepRemove?
    ensures Records(SweepingStep(s, c, 0).value, c) && Sweeping(SweepingStep(s, c, 0).value, c)
  {
    var s' := SweepingStep(s, c, 0).value;
    assert Owned(s', c);
    assert Registry(s', c);
    assert Callback(s', c);
  }

  lemma SweepRemoveKeeps(s: System, c: ConnId)
    requires Inv(s) && c in s.conns && s.conns[c].sweep.SweepRemove?
    ensures Inv(SweepingStep(s, c, 0).value)
  {
    var s' := SweepingStep(s, c, 0).value;
    assert ConnInv(s, c);
    OpeningsKept(s, s', c);
    SweepRemoveRecords(s, c);
    LocalKeeps(s, s', c);
  }

  /** The sweep has sent one owed event, or found its list empty. */
  predicate SweepMoved(s: System, s': System, c: ConnId) {
    && c in s.conns && s.conns[c].sweep.SweepSend?
    && var conn := s.conns[c];
    && (|| s' == WithConn(s, c, conn.(sweep := Swept))
        || exists pick :: pick in conn.sweep.pending
             && s' == WithConn(s, c, conn.(sweep := SweepSend(conn.sweep.pending - {pick}))).(events := s'.events))
  }

  lemma MovedCleanUp(s: System, s': System, c: ConnId)
    requires SweepMoved(s, s', c) && Sweeping(s, c)
    ensures Sweeping(s', c)
  {
  }

  lemma SweepSendKeeps(s: System, s': System, c: ConnId)
    requires Inv(s) && SweepMoved(s, s', c)
    ensures Inv(s')
  {
    assert ConnInv(s, c);
    OpeningsKept(s, s', c);
    RecordsKept(s, s', c);
    MovedCleanUp(s, s', c);
    LocalKeeps(s, s', c);
  }

  lemma SweepingKeeps(s: System, c: ConnId, pick: BridgeId)
    requires Inv(s) && c in s.conns && SweepingStep(s, c, pick).Some?
    ensures Inv(SweepingStep(s, c, pick).value)
  {
    if s.conns[c].sweep.SweepRead? {
      SweepReadKeeps(s, c);
    } else if s.conns[c].sweep.SweepRemove? {
      SweepRemoveKeeps(s, c);
    } else {
      SweepSendKeeps(s, SweepingStep(s, c, pick).value, c);
    }
  }

  // ---------------------------------------------------------- all the others

  lemma ConnectKeeps(s: System, c: ConnId)
    requires Inv(s) && c !in s.conns
    ensures Inv(WithConn(s, c, NEW_CONN))
  {
    var s' := WithConn(s, c, NEW_CONN);
    forall d | d in s'.conns ensures ConnInv(s', d) {
      if d != c {
        assert ConnInv(s, d);
        OpeningsKept(s, s', d);
      }
    }
  }

  lemma OpenKeeps(s: System, c: ConnId, ch: ChannelId, target: EntityId, port: Port)
    requires Inv(s) && Next(s, Open(c, ch, target, port)).Some?
    ensures Inv(Next(s, Open(c, ch, target, port)).value)
  {
    var s' := Next(s, Open(c, ch, target, port)).value;
    assert ConnInv(s, c);
    var a, b := s.conns[c], s'.conns[c];
    assert Openings(s', c) by {
      forall d | d in b.opens ensures StageOk(s', c, d, b.opens[d])
        && (if b.opens[d].slow then !IsCheck(b.opens[d].stage) else b.handler == OpeningFast(d)) {
        if d == ch {
          assert forall id :: id in s.born && OwnedBy(s', id, c, ch) ==> ch in a.channels;
        } else {
          assert StageOk(s, c, d, a.opens[d]);
          assert forall id :: id in s.born ==> (OwnedBy(s', id, c, d) <==> OwnedBy(s, id, c, d));
        }
      }
    }
    assert !(ch in a.opens);
    OwnStepKeeps(s, s', c);
  }

  lemma DropKeeps(s: System, c: ConnId)
    requires Inv(s) && IsFree(s, c)
    ensures Inv(Next(s, DropConn(c)).value)
  {
    var s' := Next(s, DropConn(c)).value;
    assert ConnInv(s, c);
    OpeningsKept(s, s', c);
    RecordsKept(s, s', c);
    assert Sweeping(s', c);
    LocalKeeps(s, s', c);
  }

  /** Steps that change none of the fields the invariant speaks of. */
  lemma UnrelatedKeeps(s: System, s': System)
    requires Inv(s) && s'.tunnels == s.tunnels && s'.born == s.born && s'.registered == s.registered
          && s'.conns == s.conns
    ensures Inv(s')
  {
    forall d | d in s'.conns ensures ConnInv(s', d) {
      assert ConnInv(s, d);
      OpeningsKept(s, s', d);
      RecordsKept(s, s', d);
      CleanUpKept(s, s', d);
    }
  }

  lemma StepKeeps(s: System, l: Label)
    requires Inv(s) && Next(s, l).Some?
    ensures Inv(Next(s, l).value)
  {
    match l
    case Connect(c) => ConnectKeeps(s, c);
    case Open(c, ch, target, port) => OpenKeeps(s, c, ch, target, port);
    case OpenStep(c, ch, pick, ok) => OpeningKeeps(s, c, ch, pick, ok);
    case CloseStep(c) => ClosingKeeps(s, c);
    case DropConn(c) => DropKeeps(s, c);
    case SweepStep(c, pick) => SweepingKeeps(s, c, pick);
    case Authenticate(c, e) => QuietStepKeeps(s, Next(s, l).value, c);
    case Close(c, ch) => QuietStepKeeps(s, Next(s, l).value, c);
    case ClearSlots(c) => ClearKeeps(s, c);
    case _ => UnrelatedKeeps(s, Next(s, l).value);
  }

  lemma ClearKeeps(s: System, c: ConnId)
    requires Inv(s) && Next(s, ClearSlots(c)).Some?
    ensures Inv(Next(s, ClearSlots(c)).value)
  {
    assert Callback(s, c) by { assert ConnInv(s, c); }
    QuietStepKeeps(s, Next(s, ClearSlots(c)).value, c);
  }

  /** Over every run of the system. */
  lemma {:induction false} InvHolds(db: Db, ls: seq<Label>)
    requires Exec(Start(db), ls).Some?
    ensures Inv(Exec(Start(db), ls).value)
  {
    if ls != [] {
      InvHolds(db, ls[..|ls| - 1]);
      StepKeeps(Exec(Start(db), ls[..|ls| - 1]).value, ls[|ls| - 1]);
    }
  }
}
