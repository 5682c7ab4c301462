/**
 What the bridge protocol guarantees over every run: a consistent registry,
 complete clean-up when nothing is in flight, slots that never outlive their
 connection, and tunnels only for authorized requests.
 */
module BridgeSafety {
  import opened Options
  import opened Bridges
  import opened BridgeInvariants

  // ---------------------------------------------------------- the registry

  /**
   At every step, the ids a live connection records are distinct keys of
   `active_tunnels`, each for its own channel.
   */
  lemma RegistryConsistent(db: Db, ls: seq<Label>, c: ConnId)
    requires Exec(Start(db), ls).Some?
    requires c in Exec(Start(db), ls).value.conns && Exec(Start(db), ls).value.conns[c].live
    ensures var s := Exec(Start(db), ls).value; var ids := s.conns[c].bridgeIds;
      && (forall ch :: ch in ids ==>
        ids[ch] in s.tunnels && s.tunnels[ids[ch]].req.conn == c && s.tunnels[ids[ch]].req.ch == ch)
      && (forall ch, ch' :: ch in ids && ch' in ids && ch != ch' ==> ids[ch] != ids[ch'])
  {
    InvHolds(db, ls);
    var s := Exec(Start(db), ls).value;
    assert Records(s, c) by { assert ConnInv(s, c); }
    var ids := s.conns[c].bridgeIds;
    forall ch | ch in ids ensures ids[ch] in s.tunnels && s.tunnels[ids[ch]].req.conn == c
      && s.tunnels[ids[ch]].req.ch == ch {
      assert OwnedBy(s, ids[ch], c, ch);
    }
  }

  // -------------------------------------------------------- one opening step

  /** All that a step of channel `ch`'s opening changes in its connection. */
  predicate SameButOpening(a: Conn, b: Conn, ch: ChannelId) {
    && b == a.(opens := b.opens, handler := b.handler, bridges := b.bridges, bridgeIds := b.bridgeIds,
      confirmed := b.confirmed)
    && (forall e :: e in b.opens && e != ch ==> e in a.opens && b.opens[e] == a.opens[e])
    && (forall e :: e in a.bridges ==> e in b.bridges)
  }

  lemma CheckShape(s: System, conn: Conn, ch: ChannelId, o: Opening, pick: nat, ok: bool)
    ensures SameButOpening(conn, CheckStep(s, conn, ch, o, pick, ok), ch)
  {
  }

  lemma SlotShape(s: System, conn: Conn, ch: ChannelId, o: Opening, ok: bool)
    ensures SameButOpening(conn, SlotStep(s, conn, ch, o, ok), ch)
  {
  }

  lemma EarlyShape(s: System, conn: Conn, ch: ChannelId, o: Opening, pick: nat, ok: bool)
    ensures SameButOpening(conn, EarlyStep(s, conn, ch, o, pick, ok), ch)
  {
    if o.stage.NeedSlot? {
      SlotShape(s, conn, ch, o, ok);
    } else if !o.stage.NeedChannel? && !o.stage.NeedBridge? {
      CheckShape(s, conn, ch, o, pick, ok);
    }
  }

  /** What a step of an opening may change at all; `conn` is the connection afterwards. */
  predicate OpeningEffect(s: System, s': System, c: ConnId, ch: ChannelId, conn: Conn) {
    && c in s.conns && s'.conns == s.conns[c := conn] && SameButOpening(s.conns[c], conn, ch)
    && s'.slots == s.slots && s'.dbs == s.dbs
    && (forall id :: id in s.tunnels ==> id in s'.tunnels && (id in s.born ==> s'.tunnels[id] == s.tunnels[id]))
    && s.registered <= s'.registered
  }

  lemma BirthEffect(s: System, c: ConnId, ch: ChannelId, o: Opening, id: BridgeId)
    requires c in s.conns && id !in s.born
    ensures OpeningEffect(s, Birth(s, c, ch, o, id), c, ch,
          AtStage(s.conns[c], ch, o.(stage := NeedId(Tunnel(id, o.req)))))
  {
  }

  lemma NotedEffect(s: System, c: ConnId, ch: ChannelId, o: Opening, t: Tunnel)
    requires c in s.conns
    ensures OpeningEffect(s, Noted(s, c, ch, o, t), c, ch,
                          NotedConn(s.conns[c], ch, o, t))
  {
  }

  lemma AnnouncedEffect(s: System, c: ConnId, ch: ChannelId, o: Opening, t: Tunnel)
    requires c in s.conns
    ensures OpeningEffect(s, Announced(s, c, ch, o, t), c, ch,
                          AnnouncedConn(s.conns[c], ch, o))
  {
  }

  lemma OpeningTouches(s: System, s': System, c: ConnId, ch: ChannelId, pick: nat, ok: bool) returns (conn: Conn)
    requires c in s.conns && ch in s.conns[c].opens && OpeningStep(s, c, ch, pick, ok) == Some(s')
    ensures OpeningEffect(s, s', c, ch, conn)
  {
    var o := s.conns[c].opens[ch];
    match o.stage
    case NeedTunnel =>
      BirthEffect(s, c, ch, o, pick);
      conn := AtStage(s.conns[c], ch, o.(stage := NeedId(Tunnel(pick, o.req))));
    case NeedId(t) =>
      NotedEffect(s, c, ch, o, t);
      conn := NotedConn(s.conns[c], ch, o, t);
    case NeedStart(t) =>
      AnnouncedEffect(s, c, ch, o, t);
      conn := AnnouncedConn(s.conns[c], ch, o);
    case _ =>
      conn := EarlyStep(s, s.conns[c], ch, o, pick, ok);
      EarlyShape(s, s.conns[c], ch, o, pick, ok);
  }

  /** What a step of a close may change. */
  predicate ClosingEffect(s: System, s': System, c: ConnId, conn: Conn) {
    && c in s.conns && s'.conns == s.conns[c := conn]
    && conn == s.conns[c].(handler := conn.handler, bridges := conn.bridges, bridgeIds := conn.bridgeIds,
      confirmed := conn.confirmed)
    && s' == s.(conns := s'.conns, tunnels := s'.tunnels, events := s'.events)
    && (forall id :: id in s'.tunnels ==> id in s.tunnels && s'.tunnels[id] == s.tunnels[id])
    && (forall id :: id in s.tunnels && id !in s'.tunnels ==>
      s.conns[c].handler.CloseTunnel? && s.conns[c].handler.id == id)
  }

  lemma ClosingTouches(s: System, s': System, c: ConnId) returns (conn: Conn)
    requires c in s.conns && ClosingStep(s, c) == Some(s')
    ensures ClosingEffect(s, s', c, conn)
  {
    var old_ := s.conns[c];
    match old_.handler
    case CloseTunnel(ch, id) =>
      conn := old_.(handler := if id in s.tunnels then CloseSend(ch, s.tunnels[id]) else Free);
    case CloseSend(ch, t) => conn := old_.(handler := Free);
    case _ => conn := CloseOwn(old_);
  }

  /** What a step of a sweep may change. */
  predicate SweepingEffect(s: System, s': System, c: ConnId, conn: Conn) {
    && c in s.conns && s'.conns == s.conns[c := conn]
    && conn == s.conns[c].(sweep := conn.sweep)
    && s' == s.(conns := s'.conns, tunnels := s'.tunnels, events := s'.events)
    && (forall id :: id in s'.tunnels ==> id in s.tunnels && s'.tunnels[id] == s.tunnels[id])
    && (forall id :: id in s.tunnels && id !in s'.tunnels ==>
      s.conns[c].sweep.SweepRemove? && id in s.conns[c].sweep.ids)
    && (PastRemoval(s.conns[c]) ==> PastRemoval(conn))
  }

  lemma SweepingTouches(s: System, s': System, c: ConnId, pick: BridgeId) returns (conn: Conn)
    requires c in s.conns && SweepingStep(s, c, pick) == Some(s')
    ensures SweepingEffect(s, s', c, conn)
  {
    var old_ := s.conns[c];
    match old_.sweep
    case SweepRead => conn := Read(old_);
    case SweepRemove(ids) => conn := old_.(sweep := SweepSend(map id | id in ids && id in s.tunnels :: s.tunnels[id]));
    case SweepSend(pending) => conn := old_.(sweep := if pending == map[] then Swept else SweepSend(pending - {pick}));
  }

  // ------------------------------------------------------- complete clean-up

  /** The sweep has taken its list out of `active_tunnels`, or found it empty. */
  predicate PastRemoval(conn: Conn) {
    conn.sweep.SweepSend? || conn.sweep.Swept?
  }

  /** No opening in flight is short of noting its tunnel's id in `bridge_ids`. */
  predicate AllNoted(conn: Conn) {
    forall ch :: ch in conn.opens ==> conn.opens[ch].stage.NeedStart?
  }

  /** What is left of the connection's tunnels is on the sweep's own list. */
  predicate OnlyListed(s: System, c: ConnId)
    requires c in s.conns
  {
    forall id :: id in s.tunnels && s.tunnels[id].req.conn == c ==>
      s.conns[c].sweep.SweepRemove? && id in s.conns[c].sweep.ids
  }

  /** A dropped connection with all ids noted, whose sweep is still to read or has read them all. */
  predicate Quiet(s: System, c: ConnId) {
    && c in s.conns && !s.conns[c].live && AllNoted(s.conns[c])
    && (s.conns[c].sweep.SweepRead? || OnlyListed(s, c))
  }

  /** Steps that add no tunnel of the connection and change it only in ways that keep it quiet. */
  lemma QuietKept(s: System, s': System, c: ConnId, d: ConnId, conn: Conn)
    requires Quiet(s, c) && s'.conns == s.conns[d := conn]
    requires forall id :: id in s'.tunnels && s'.tunnels[id].req.conn == c ==>
          id in s.tunnels && s'.tunnels[id] == s.tunnels[id]
    requires d == c ==> !conn.live && AllNoted(conn) && conn.sweep == s.conns[c].sweep
    ensures Quiet(s', c)
  {
  }

  /** An opening adds at most a tunnel of its own request. */
  lemma OpeningAdds(s: System, s': System, d: ConnId, ch: ChannelId, pick: nat, ok: bool)
    requires d in s.conns && ch in s.conns[d].opens && OpeningStep(s, d, ch, pick, ok) == Some(s')
    ensures forall id :: id in s'.tunnels ==>
      (id in s.tunnels && s'.tunnels[id] == s.tunnels[id]) || s'.tunnels[id].req == s.conns[d].opens[ch].req
  {
  }

  /** The last step of a dropped connection's opening. */
  lemma QuietAnnounced(s: System, c: ConnId, ch: ChannelId, o: Opening, t: Tunnel)
    requires Quiet(s, c)
    ensures Quiet(Announced(s, c, ch, o, t), c)
  {
    var conn := Announced(s, c, ch, o, t).conns[c];
    assert conn.opens == s.conns[c].opens - {ch};
    QuietKept(s, Announced(s, c, ch, o, t), c, c, conn);
  }

  lemma QuietOpening(s: System, s': System, c: ConnId, d: ConnId, ch: ChannelId, pick: nat, ok: bool)
    requires Inv(s) && Quiet(s, c) && d in s.conns && ch in s.conns[d].opens
          && OpeningStep(s, d, ch, pick, ok) == Some(s')
    ensures Quiet(s', c)
  {
    if d == c {
      assert s.conns[c].opens[ch].stage.NeedStart?;
      TunnelStepIs(s, c, ch, pick, ok);
      QuietAnnounced(s, c, ch, s.conns[c].opens[ch], s.conns[c].opens[ch].stage.tunnel);
    } else {
      assert Openings(s, d) by { assert ConnInv(s, d); }
      OpeningAdds(s, s', d, ch, pick, ok);
      var conn := OpeningTouches(s, s', d, ch, pick, ok);
      QuietKept(s, s', c, d, conn);
    }
  }

  lemma QuietClosing(s: System, s': System, c: ConnId, d: ConnId)
    requires Inv(s) && Quiet(s, c) && d in s.conns && ClosingStep(s, d) == Some(s')
    ensures Quiet(s', c)
  {
    var conn := ClosingTouches(s, s', d);
    assert Callback(s, c) by { assert ConnInv(s, c); }
    QuietKept(s, s', c, d, conn);
  }

  /** At the read every tunnel of the connection is registered, so its id is in `bridge_ids`. */
  lemma ReadListsAll(s: System, c: ConnId)
    requires Inv(s) && Quiet(s, c) && s.conns[c].sweep.SweepRead?
    ensures forall id :: id in s.tunnels && s.tunnels[id].req.conn == c ==> id in s.conns[c].bridgeIds.Values
  {
    assert Owned(s, c) && Callback(s, c) by { assert ConnInv(s, c); }
    forall id | id in s.tunnels && s.tunnels[id].req.conn == c ensures id in s.conns[c].bridgeIds.Values {
      assert s.born[id] == s.tunnels[id];
      var ch := s.born[id].req.ch;
      assert id in s.registered;
      assert ch in s.conns[c].bridgeIds && s.conns[c].bridgeIds[ch] == id;
    }
  }

  lemma QuietRead(s: System, c: ConnId)
    requires Inv(s) && Quiet(s, c) && s.conns[c].sweep.SweepRead?
    ensures Quiet(WithConn(s, c, Read(s.conns[c])), c)
  {
    ReadListsAll(s, c);
  }

  lemma QuietRemoved(s: System, c: ConnId)
    requires Quiet(s, c) && s.conns[c].sweep.SweepRemove?
    ensures Quiet(Removed(s, c, s.conns[c].sweep.ids), c)
  {
  }

  lemma QuietSent(s: System, s': System, c: ConnId, conn: Conn)
    requires Quiet(s, c) && s.conns[c].sweep.SweepSend? && SweepingEffect(s, s', c, conn)
    ensures Quiet(s', c)
  {
  }

  lemma QuietSweeping(s: System, s': System, c: ConnId, d: ConnId, pick: BridgeId)
    requires Inv(s) && Quiet(s, c) && d in s.conns && SweepingStep(s, d, pick) == Some(s')
    ensures Quiet(s', c)
  {
    if d == c && s.conns[c].sweep.SweepRead? {
      QuietRead(s, c);
    } else if d == c && s.conns[c].sweep.SweepRemove? {
      QuietRemoved(s, c);
    } else {
      var conn := SweepingTouches(s, s', d, pick);
      if d == c { QuietSent(s, s', c, conn); } else { QuietKept(s, s', c, d, conn); }
    }
  }

  lemma QuietStays(s: System, s': System, l: Label, c: ConnId)
    requires Inv(s) && Quiet(s, c) && Next(s, l) == Some(s')
    ensures Quiet(s', c)
  {
    match l
    case OpenStep(d, ch, pick, ok) => QuietOpening(s, s', c, d, ch, pick, ok);
    case CloseStep(d) => QuietClosing(s, s', c, d);
    case SweepStep(d, pick) => QuietSweeping(s, s', c, d, pick);
    case _ => QuietOther(s, s', l, c);
  }

  lemma QuietOther(s: System, s': System, l: Label, c: ConnId)
    requires Quiet(s, c) && Next(s, l) == Some(s')
    requires !l.CloseStep? && !l.SweepStep? && !l.OpenStep?
    ensures Quiet(s', c)
  {
    PlainTouches(s, s', l);
    if !l.ChangeDb? { QuietKept(s, s', c, l.c, s'.conns[l.c]); }
  }

  lemma {:induction false} QuietRun(s: System, ls: seq<Label>, c: ConnId)
    requires Inv(s) && Quiet(s, c) && Exec(s, ls).Some?
    ensures Inv(Exec(s, ls).value) && Quiet(Exec(s, ls).value, c)
  {
    if ls != [] {
      var n := |ls| - 1;
      QuietRun(s, ls[..n], c);
      StepKeeps(Exec(s, ls[..n]).value, ls[n]);
      QuietStays(Exec(s, ls[..n]).value, Exec(s, ls).value, ls[n], c);
    }
  }

  /**
   Clean-up is complete when every opening in flight at the read has noted its
   id: once the sweep is past its removal, none of the connection's tunnels remain.
   */
  lemma SweepIsComplete(s: System, ls: seq<Label>, c: ConnId)
    requires Inv(s) && c in s.conns && s.conns[c].sweep.SweepRead? && AllNoted(s.conns[c])
    requires Exec(s, ls).Some? && c in Exec(s, ls).value.conns && PastRemoval(Exec(s, ls).value.conns[c])
    ensures var s' := Exec(s, ls).value; forall id :: id in s'.tunnels ==> s'.tunnels[id].req.conn != c
  {
    assert Sweeping(s, c) by { assert ConnInv(s, c); }
    QuietRun(s, ls, c);
  }

  // ------------------------------------------------------------------ leaks

  /** A registered tunnel that the sweep of its connection has passed by. */
  predicate Leaked(s: System, c: ConnId, id: BridgeId) {
    && c in s.conns && PastRemoval(s.conns[c]) && id in s.registered
    && id in s.tunnels && s.tunnels[id].req.conn == c
  }

  /** Steps that take neither the tunnel nor its registration away, nor touch the swept connection's sweep. */
  lemma LeakKept(s: System, s': System, c: ConnId, id: BridgeId, d: ConnId, conn: Conn)
    requires Leaked(s, c, id) && s'.conns == s.conns[d := conn] && (d == c ==> PastRemoval(conn))
    requires id in s'.tunnels && s'.tunnels[id] == s.tunnels[id] && id in s'.registered
    ensures Leaked(s', c, id)
  {
  }

  /** The tunnel a close takes out is of its own connection, which a swept connection's is not. */
  lemma ClosedIsOther(s: System, s': System, c: ConnId, id: BridgeId, d: ConnId, conn: Conn)
    requires Base(s) && Leaked(s, c, id) && ClosingEffect(s, s', d, conn)
    requires Callback(s, d) && Callback(s, c) && Sweeping(s, c)
    ensures id in s'.tunnels && s'.tunnels[id] == s.tunnels[id]
  {
    assert s.born[id] == s.tunnels[id];
  }

  lemma LeakClosing(s: System, s': System, c: ConnId, id: BridgeId, d: ConnId)
    requires Inv(s) && Leaked(s, c, id) && d in s.conns && ClosingStep(s, d) == Some(s')
    ensures Leaked(s', c, id)
  {
    var conn := ClosingTouches(s, s', d);
    assert Callback(s, d) && Callback(s, c) && Sweeping(s, c) by { assert ConnInv(s, c) && ConnInv(s, d); }
    ClosedIsOther(s, s', c, id, d, conn);
    LeakKept(s, s', c, id, d, conn);
  }

  /** A sweep takes out only what is on its list, and that is of its own connection. */
  lemma SweepSpares(s: System, s': System, c: ConnId, id: BridgeId, d: ConnId, conn: Conn)
    requires Base(s) && Leaked(s, c, id) && SweepingEffect(s, s', d, conn) && Sweeping(s, d)
    ensures id in s'.tunnels && s'.tunnels[id] == s.tunnels[id]
  {
    assert s.born[id] == s.tunnels[id];
  }

  lemma LeakSweeping(s: System, s': System, c: ConnId, id: BridgeId, d: ConnId, pick: BridgeId)
    requires Inv(s) && Leaked(s, c, id) && d in s.conns && SweepingStep(s, d, pick) == Some(s')
    ensures Leaked(s', c, id)
  {
    var conn := SweepingTouches(s, s', d, pick);
    assert Sweeping(s, d) by { assert ConnInv(s, d); }
    SweepSpares(s, s', c, id, d, conn);
    LeakKept(s, s', c, id, d, conn);
  }

  /** Steps other than those of an opening, a close or a sweep leave tunnels and sweeps alone, but for a drop. */
  predicate SameTunnels(s: System, s': System, l: Label) {
    && s'.tunnels == s.tunnels && s'.registered == s.registered && s'.born == s.born
    && (l.ChangeDb? ==> s'.conns == s.conns)
    && (!l.ChangeDb? ==>
          && l.c in s'.conns && s'.conns == s.conns[l.c := s'.conns[l.c]]
          && (l.c in s.conns && !s.conns[l.c].live ==> SameOpens(s.conns[l.c], s'.conns[l.c])))
  }

  predicate SameOpens(a: Conn, b: Conn) {
    b.sweep == a.sweep && b.opens == a.opens && b.live == a.live
  }

  lemma PlainTouches(s: System, s': System, l: Label)
    requires Next(s, l) == Some(s') && !l.CloseStep? && !l.SweepStep? && !l.OpenStep?
    ensures SameTunnels(s, s', l)
  {
    match l
    case Connect(c) =>
    case Authenticate(c, e) =>
    case Register(c, port) => assert s'.conns == s.conns[c := s.conns[c]];
    case Unregister(c, port) => assert s'.conns == s.conns[c := s.conns[c]];
    case Open(c, ch, target, port) => assert s'.conns == s.conns[c := s'.conns[c]];
    case Close(c, ch) =>
    case DropConn(c) =>
    case ClearSlots(c) =>
    case ChangeDb(db) =>
  }

  lemma LeakOther(s: System, s': System, l: Label, c: ConnId, id: BridgeId)
    requires Inv(s) && Leaked(s, c, id) && Next(s, l) == Some(s')
    requires !l.CloseStep? && !l.SweepStep? && !l.OpenStep?
    ensures Leaked(s', c, id)
  {
    assert Sweeping(s, c) by { assert ConnInv(s, c); }
    PlainTouches(s, s', l);
    if !l.ChangeDb? { LeakKept(s, s', c, id, l.c, s'.conns[l.c]); }
  }

  lemma LeakStep(s: System, s': System, l: Label, c: ConnId, id: BridgeId)
    requires Inv(s) && Leaked(s, c, id) && Next(s, l) == Some(s')
    ensures Leaked(s', c, id)
  {
    match l
    case CloseStep(d) => LeakClosing(s, s', c, id, d);
    case SweepStep(d, pick) => LeakSweeping(s, s', c, id, d, pick);
    case OpenStep(d, ch, pick, ok) =>
      var conn := OpeningTouches(s, s', d, ch, pick, ok);
      LeakKept(s, s', c, id, d, conn);
    case _ => LeakOther(s, s', l, c, id);
  }

  /** A leaked tunnel is never removed by any later step. */
  lemma {:induction false} LeakStays(s: System, ls: seq<Label>, c: ConnId, id: BridgeId)
    requires Inv(s) && Leaked(s, c, id) && Exec(s, ls).Some?
    ensures Inv(Exec(s, ls).value) && Leaked(Exec(s, ls).value, c, id)
  {
    if ls != [] {
      var n := |ls| - 1;
      LeakStays(s, ls[..n], c, id);
      StepKeeps(Exec(s, ls[..n]).value, ls[n]);
      LeakStep(Exec(s, ls[..n]).value, Exec(s, ls).value, ls[n], c, id);
    }
  }

  // --------------------------------------------------- a run that leaks

  lemma {:induction false} ExecAppend(s: System, a: seq<Label>, b: seq<Label>)
    requires Exec(s, a).Some?
    ensures Exec(s, a + b) == Exec(Exec(s, a).value, b)
  {
    if b == [] {
      assert a + b == a;
    } else {
      assert (a + b)[..|a + b| - 1] == a + b[..|b| - 1];
      ExecAppend(s, a, b[..|b| - 1]);
    }
  }

  lemma ExecFirst(s: System, l: Label, s1: System, ls: seq<Label>)
    requires Next(s, l) == Some(s1)
    ensures Exec(s, [l] + ls) == Exec(s1, ls)
  {
    assert [l][..0] == [];
    assert Exec(s, [l]) == Some(s1);
    ExecAppend(s, [l], ls);
  }

  /** Some number is not in a finite set of numbers. */
  lemma {:induction false} Unused(ks: set<nat>) returns (n: nat)
    ensures forall k :: k in ks ==> k < n
  {
    if ks == {} {
      n := 0;
    } else {
      var k :| k in ks;
      var m := Unused(ks - {k});
      n := if m <= k then k + 1 else m;
      forall j | j in ks ensures j < n {
        if j != k { assert j in ks - {k}; }
      }
    }
  }

  /** How many steps an opening that is past its checks is away from noting its tunnel's id. */
  function StepsLeft(st: OpenStage): nat {
    match st
    case NeedSlot => 5
    case NeedChannel => 4
    case NeedBridge => 3
    case NeedTunnel => 2
    case NeedId(_) => 1
    case _ => 0
  }

  /** An opening that goes on while its connection's sweep is past its removal. */
  predicate Late(s: System, c: ConnId, ch: ChannelId) {
    && c in s.conns && PastRemoval(s.conns[c])
    && ch in s.conns[c].opens && StepsLeft(s.conns[c].opens[ch].stage) > 0
  }

  /** A run after which the opening has noted a tunnel of its own. */
  ghost predicate Leaks(s: System, ls: seq<Label>, c: ConnId, id: BridgeId) {
    Exec(s, ls).Some? && Leaked(Exec(s, ls).value, c, id)
  }

  lemma LeaksFirst(s: System, l: Label, s1: System, ls: seq<Label>, c: ConnId, id: BridgeId)
    requires Next(s, l) == Some(s1) && Leaks(s1, ls, c, id)
    ensures Leaks(s, [l] + ls, c, id)
  {
    ExecFirst(s, l, s1, ls);
  }

  /** A tunnel whose id is not noted yet is active and of this connection. */
  lemma UnnotedIsActive(s: System, c: ConnId, ch: ChannelId)
    requires Inv(s) && Late(s, c, ch) && s.conns[c].opens[ch].stage.NeedId?
    ensures var t := s.conns[c].opens[ch].stage.tunnel; t.id in s.tunnels && s.tunnels[t.id].req.conn == c
  {
    assert Owned(s, c) && Openings(s, c) by { assert ConnInv(s, c); }
    assert StageOk(s, c, ch, s.conns[c].opens[ch]);
  }

  /** The id gets noted, and the tunnel has been active since it was born. */
  lemma NotedLeaks(s: System, c: ConnId, ch: ChannelId, t: Tunnel)
    requires Late(s, c, ch) && s.conns[c].opens[ch].stage == NeedId(t)
    requires t.id in s.tunnels && s.tunnels[t.id].req.conn == c
    ensures Leaks(s, [OpenStep(c, ch, 0, true)], c, t.id)
  {
    TunnelStepIs(s, c, ch, 0, true);
    NotedIsLeaked(s, c, ch, s.conns[c].opens[ch], t);
    LeaksAtOnce(s, OpenStep(c, ch, 0, true), c, t.id);
  }

  lemma NotedIsLeaked(s: System, c: ConnId, ch: ChannelId, o: Opening, t: Tunnel)
    requires c in s.conns && PastRemoval(s.conns[c]) && t.id in s.tunnels && s.tunnels[t.id].req.conn == c
    ensures Leaked(Noted(s, c, ch, o, t), c, t.id)
  {
  }

  lemma LeaksAtOnce(s: System, l: Label, c: ConnId, id: BridgeId)
    requires Next(s, l).Some? && Leaked(Next(s, l).value, c, id)
    ensures Leaks(s, [l], c, id)
  {
    assert [l] == [l] + [];
    LeaksFirst(s, l, Next(s, l).value, [], c, id);
  }

  /** The opening is late and at a stage nearer to noting. */
  predicate Nearer(s: System, s': System, c: ConnId, ch: ChannelId)
    requires Late(s, c, ch)
  {
    Late(s', c, ch) && StepsLeft(s'.conns[c].opens[ch].stage) < StepsLeft(s.conns[c].opens[ch].stage)
  }

  lemma StageMoves(s: System, c: ConnId, ch: ChannelId, o: Opening, conn: Conn, s': System)
    requires Late(s, c, ch) && s'.conns == s.conns[c := conn]
    requires conn.sweep == s.conns[c].sweep && conn.opens == s.conns[c].opens[ch := o]
    requires 0 < StepsLeft(o.stage) < StepsLeft(s.conns[c].opens[ch].stage)
    ensures Nearer(s, s', c, ch)
  {
  }

  /** A late opening that finds its slot, gets its channel, or inserts its bridge. */
  lemma LateEarly(s: System, c: ConnId, ch: ChannelId, pick: nat) returns (s': System)
    requires Late(s, c, ch) && !s.conns[c].opens[ch].stage.NeedId? && !s.conns[c].opens[ch].stage.NeedTunnel?
    requires s.conns[c].opens[ch].stage.NeedSlot? ==> HasSlot(s, c, ch)
    ensures OpeningStep(s, c, ch, pick, true) == Some(s') && Nearer(s, s', c, ch)
  {
    var conn' := EarlyStep(s, s.conns[c], ch, s.conns[c].opens[ch], pick, true);
    s' := WithConn(s, c, conn');
    StageMoves(s, c, ch, conn'.opens[ch], conn', s');
  }

  /** One step brings a late opening nearer to noting; a slot must be there if it waits for one. */
  lemma LateStep(s: System, c: ConnId, ch: ChannelId, unused: BridgeId) returns (s': System)
    requires Late(s, c, ch) && unused !in s.born && !s.conns[c].opens[ch].stage.NeedId?
    requires s.conns[c].opens[ch].stage.NeedSlot? ==> HasSlot(s, c, ch)
    ensures OpeningStep(s, c, ch, unused, true) == Some(s') && Nearer(s, s', c, ch)
  {
    var o := s.conns[c].opens[ch];
    if o.stage.NeedTunnel? {
      s' := Birth(s, c, ch, o, unused);
      StageMoves(s, c, ch, o.(stage := NeedId(Tunnel(unused, o.req))), s'.conns[c], s');
    } else {
      s' := LateEarly(s, c, ch, unused);
    }
  }

  predicate HasSlot(s: System, c: ConnId, ch: ChannelId)
    requires c in s.conns && ch in s.conns[c].opens
  {
    (s.conns[c].opens[ch].req.target, s.conns[c].opens[ch].req.port) in s.slots
  }

  /** A step of another connection that only logs it in or forwards a port. */
  lemma NewcomerStep(s: System, l: Label, c: ConnId, ch: ChannelId)
    requires Inv(s) && Late(s, c, ch) && (l.Connect? || l.Authenticate? || l.Register?) && l.c != c && Next(s, l).Some?
    ensures var s' := Next(s, l).value;
      Inv(s') && s'.conns == s.conns[l.c := s'.conns[l.c]] && s'.born == s.born
  {
    StepKeeps(s, l);
    if l.Register? { assert Next(s, l).value.conns == s.conns; }
  }

  /** The target turns up: a new connection logs in as the target entity and forwards the port. */
  lemma TargetTurnsUp(s: System, c: ConnId, ch: ChannelId) returns (ls: seq<Label>, s': System)
    requires Inv(s) && Late(s, c, ch) && s.conns[c].opens[ch].stage.NeedSlot?
    ensures Exec(s, ls) == Some(s') && Inv(s') && Late(s', c, ch)
    ensures s'.conns[c] == s.conns[c] && s'.born == s.born && HasSlot(s', c, ch)
  {
    var r := s.conns[c].opens[ch].req;
    var d := Unused(s.conns.Keys);
    assert d !in s.conns.Keys;
    NewcomerStep(s, Connect(d), c, ch);
    var s1 := Next(s, Connect(d)).value;
    NewcomerStep(s1, Authenticate(d, r.target), c, ch);
    var s2 := Next(s1, Authenticate(d, r.target)).value;
    NewcomerStep(s2, Register(d, r.port), c, ch);
    s' := Next(s2, Register(d, r.port)).value;
    ls := ThreeSteps(s, Connect(d), s1, Authenticate(d, r.target), s2, Register(d, r.port), s');
  }

  lemma ThreeSteps(
      s: System, l1: Label, s1: System, l2: Label, s2: System, l3: Label, s3: System) returns (ls: seq<Label>)
    requires Next(s, l1) == Some(s1) && Next(s1, l2) == Some(s2) && Next(s2, l3) == Some(s3)
    ensures Exec(s, ls) == Some(s3)
  {
    ls := [l1] + ([l2] + ([l3] + []));
    ExecFirst(s, l1, s1, [l2] + ([l3] + []));
    ExecFirst(s1, l2, s2, [l3] + []);
    ExecFirst(s2, l3, s3, []);
  }

  /** However far a late opening is, some run lets it note a tunnel that nobody will take out. */
  lemma {:induction false} LateLeaks(s: System, c: ConnId, ch: ChannelId) returns (ls: seq<Label>, id: BridgeId)
    requires Inv(s) && Late(s, c, ch)
    ensures Leaks(s, ls, c, id)
    decreases StepsLeft(s.conns[c].opens[ch].stage)
  {
    if s.conns[c].opens[ch].stage.NeedId? {
      var t := s.conns[c].opens[ch].stage.tunnel;
      UnnotedIsActive(s, c, ch);
      NotedLeaks(s, c, ch, t);
      ls, id := [OpenStep(c, ch, 0, true)], t.id;
    } else {
      var pre, s0 := [], s;
      if s.conns[c].opens[ch].stage.NeedSlot? { pre, s0 := TargetTurnsUp(s, c, ch); }
      var unused := Unused(s.born.Keys);
      assert unused !in s.born.Keys;
      var s1 := LateStep(s0, c, ch, unused);
      StepKeeps(s0, OpenStep(c, ch, unused, true));
      var rest;
      rest, id := LateLeaks(s1, c, ch);
      LeaksFirst(s0, OpenStep(c, ch, unused, true), s1, rest, c, id);
      ls := pre + ([OpenStep(c, ch, unused, true)] + rest);
      ExecAppend(s, pre, [OpenStep(c, ch, unused, true)] + rest);
    }
  }

  /** Reading and removing take the sweep past its removal and leave all openings in flight. */
  lemma SweepRuns(s: System, c: ConnId) returns (ls: seq<Label>, s': System)
    requires Inv(s) && c in s.conns && s.conns[c].sweep.SweepRead?
    ensures Exec(s, ls) == Some(s') && Inv(s')
    ensures c in s'.conns && PastRemoval(s'.conns[c]) && s'.conns[c].opens == s.conns[c].opens
  {
    var s1 := Next(s, SweepStep(c, 0)).value;
    StepKeeps(s, SweepStep(c, 0));
    if s1.conns[c].sweep.Swept? {
      s', ls := s1, [SweepStep(c, 0)] + [];
      ExecFirst(s, SweepStep(c, 0), s1, []);
    } else {
      s' := Next(s1, SweepStep(c, 0)).value;
      StepKeeps(s1, SweepStep(c, 0));
      ls := [SweepStep(c, 0)] + ([SweepStep(c, 0)] + []);
      ExecFirst(s, SweepStep(c, 0), s1, [SweepStep(c, 0)] + []);
      ExecFirst(s1, SweepStep(c, 0), s', []);
    }
  }

  /**
   From every state in which the sweep is to read while an opening has not noted its
   id, some run leaks its tunnel.
   */
  lemma SlowTaskCanLeak(s: System, c: ConnId, ch: ChannelId) returns (ls: seq<Label>, id: BridgeId)
    requires Inv(s) && c in s.conns && s.conns[c].sweep.SweepRead?
    requires ch in s.conns[c].opens && !s.conns[c].opens[ch].stage.NeedStart?
    ensures Leaks(s, ls, c, id)
  {
    assert Openings(s, c) && Callback(s, c) && Sweeping(s, c) by { assert ConnInv(s, c); }
    var o := s.conns[c].opens[ch];
    assert o.slow && StepsLeft(o.stage) > 0;
    var pre, s0 := SweepRuns(s, c);
    var rest;
    rest, id := LateLeaks(s0, c, ch);
    ls := pre + rest;
    ExecAppend(s, pre, rest);
  }

  /** Whatever follows, no tunnel of the connection is left once its sweep is past its removal. */
  ghost predicate AlwaysCleansUp(s: System, c: ConnId) {
    forall ls :: Exec(s, ls).Some? && c in Exec(s, ls).value.conns && PastRemoval(Exec(s, ls).value.conns[c]) ==>
      forall id :: id in Exec(s, ls).value.tunnels ==> Exec(s, ls).value.tunnels[id].req.conn != c
  }

  /** Clean-up is sure to be complete exactly if every opening in flight at the read has noted its id. */
  lemma CleanUpCompleteIff(db: Db, before: seq<Label>, c: ConnId)
    requires Exec(Start(db), before).Some?
    requires c in Exec(Start(db), before).value.conns && Exec(Start(db), before).value.conns[c].sweep.SweepRead?
    ensures var s := Exec(Start(db), before).value; AlwaysCleansUp(s, c) <==> AllNoted(s.conns[c])
  {
    InvHolds(db, before);
    var s := Exec(Start(db), before).value;
    if AllNoted(s.conns[c]) {
      forall ls | Exec(s, ls).Some? && c in Exec(s, ls).value.conns && PastRemoval(Exec(s, ls).value.conns[c])
        ensures forall id :: id in Exec(s, ls).value.tunnels ==> Exec(s, ls).value.tunnels[id].req.conn != c
      {
        SweepIsComplete(s, ls, c);
      }
    } else {
      var ch :| ch in s.conns[c].opens && !s.conns[c].opens[ch].stage.NeedStart?;
      var ls, id := SlowTaskCanLeak(s, c, ch);
    }
  }

  /** A database in which entity 1 may use port 22 of entity 2. */
  const ONE_GRANT := Db({(2, 22, 5)}, {(1, 5)}, {(2, 5, 1)}, map[])

  const POLLING_REQUEST := Request(0, 7, 1, 2, 22, 5, 0, 0, 0)

  /** Connection 0 with its one opening at a stage. */
  predicate OpeningAt(s: System, handler: Handler, o: Opening) {
    && s.dbs == [ONE_GRANT] && s.slots == map[] && 0 in s.conns
    && s.conns[0].live && s.conns[0].handler == handler && s.conns[0].sweep.NotDropped?
    && s.conns[0].opens == map[7 := o]
  }

  /** It logs in and asks for the port. */
  lemma Asks() returns (ls: seq<Label>, s: System)
    ensures Exec(Start(ONE_GRANT), ls) == Some(s)
    ensures OpeningAt(s, OpeningFast(7), Opening(POLLING_REQUEST.(config := 0), false, NeedConfig, 0))
  {
    var s0 := Start(ONE_GRANT);
    var s1 := Next(s0, Connect(0)).value;
    var s2 := Next(s1, Authenticate(0, 1)).value;
    s := Next(s2, Open(0, 7, 2, 22)).value;
    ls := ThreeSteps(s0, Connect(0), s1, Authenticate(0, 1), s2, Open(0, 7, 2, 22), s);
    assert s.conns[0].opens == map[7 := Opening(POLLING_REQUEST.(config := 0), false, NeedConfig, 0)];
  }

  lemma CheckMoves(s: System, o: Opening, next: Opening) returns (s': System)
    requires OpeningAt(s, OpeningFast(7), o) && IsCheck(o.stage) && Checked(s, o, 5, true) == Some(next)
    ensures Next(s, OpenStep(0, 7, 5, true)) == Some(s') && OpeningAt(s', OpeningFast(7), next)
  {
    s' := WithConn(s, 0, AtStage(s.conns[0], 7, next));
    assert s.conns[0].opens[7 := next] == map[7 := next];
  }

  /** All three reads let it pass. */
  lemma Passes(s: System) returns (ls: seq<Label>, s': System)
    requires OpeningAt(s, OpeningFast(7), Opening(POLLING_REQUEST.(config := 0), false, NeedConfig, 0))
    ensures Exec(s, ls) == Some(s') && OpeningAt(s', OpeningFast(7), Opening(POLLING_REQUEST, false, NeedSlot, 0))
  {
    var step, r := OpenStep(0, 7, 5, true), POLLING_REQUEST;
    var s1 := CheckMoves(s, Opening(r.(config := 0), false, NeedConfig, 0), Opening(r, false, NeedSubscription, 0));
    var s2 := CheckMoves(s1, Opening(r, false, NeedSubscription, 0), Opening(r, false, NeedAccess, 0));
    s' := CheckMoves(s2, Opening(r, false, NeedAccess, 0), Opening(r, false, NeedSlot, 0));
    ls := ThreeSteps(s, step, s1, step, s2, step, s');
  }

  /** Finding no slot it polls in a task of its own, and the connection is dropped meanwhile. */
  lemma Polls(s: System) returns (ls: seq<Label>, s': System)
    requires OpeningAt(s, OpeningFast(7), Opening(POLLING_REQUEST, false, NeedSlot, 0))
    ensures Exec(s, ls) == Some(s') && 0 in s'.conns && s'.conns[0].sweep.SweepRead?
    ensures 7 in s'.conns[0].opens && s'.conns[0].opens[7].stage.NeedSlot?
  {
    var step := OpenStep(0, 7, 5, true);
    var s1 := Next(s, step).value;
    s' := Next(s1, DropConn(0)).value;
    ls := [step] + ([DropConn(0)] + []);
    ExecFirst(s, step, s1, [DropConn(0)] + []);
    ExecFirst(s1, DropConn(0), s', []);
  }

  /** Some run from the start leads to a sweep that is to read while a slow task polls. */
  lemma SlowTaskReachable() returns (ls: seq<Label>)
    ensures Exec(Start(ONE_GRANT), ls).Some?
    ensures var s := Exec(Start(ONE_GRANT), ls).value;
      0 in s.conns && s.conns[0].sweep.SweepRead? && !AllNoted(s.conns[0])
  {
    var a, s1 := Asks();
    var b, s2 := Passes(s1);
    var c, s3 := Polls(s2);
    ls := a + b + c;
    ExecAppend(Start(ONE_GRANT), a, b);
    ExecAppend(Start(ONE_GRANT), a + b, c);
    assert !s3.conns[0].opens[7].stage.NeedStart?;
  }

  // ------------------------------------------------------------------ slots

  predicate SlotsOk(s: System) {
    && (forall k :: k in s.slots ==>
      s.slots[k] in s.conns && s.conns[s.slots[k]].entity == Some(k.0) && !s.conns[s.slots[k]].slotsCleared)
    && (forall c :: c in s.conns && s.conns[c].slotsCleared ==> !s.conns[c].live)
  }

  /** A connection changes, but not in who it is, and it does not come back to life. */
  lemma SlotsKept(s: System, s': System, c: ConnId, conn: Conn)
    requires SlotsOk(s) && c in s.conns && s'.conns == s.conns[c := conn] && s'.slots == s.slots
    requires conn.entity == s.conns[c].entity && conn.slotsCleared == s.conns[c].slotsCleared
          && (conn.live ==> s.conns[c].live)
    ensures SlotsOk(s')
  {
  }

  lemma SlotChanges(s: System, l: Label)
    requires SlotsOk(s) && Next(s, l).Some?
    requires l.Connect? || l.Authenticate? || l.Register? || l.Unregister? || l.ClearSlots?
    ensures SlotsOk(Next(s, l).value)
  {
    match l
    case Connect(c) =>
    case Authenticate(c, e) =>
    case Register(c, port) =>
    case Unregister(c, port) =>
    case ClearSlots(c) =>
  }

  lemma SlotsStep(s: System, s': System, l: Label)
    requires SlotsOk(s) && Next(s, l) == Some(s')
    ensures SlotsOk(s')
  {
    match l
    case OpenStep(c, ch, pick, ok) =>
      var conn := OpeningTouches(s, s', c, ch, pick, ok);
      SlotsKept(s, s', c, conn);
    case CloseStep(c) =>
      var conn := ClosingTouches(s, s', c);
      SlotsKept(s, s', c, conn);
    case SweepStep(c, pick) =>
      var conn := SweepingTouches(s, s', c, pick);
      SlotsKept(s, s', c, conn);
    case Open(c, ch, target, port) => SlotsKept(s, s', c, s'.conns[c]);
    case Close(c, ch) => SlotsKept(s, s', c, s'.conns[c]);
    case DropConn(c) => SlotsKept(s, s', c, s'.conns[c]);
    case ChangeDb(db) =>
    case _ => SlotChanges(s, l);
  }

  /** No slot ever points at a connection whose slot clean-up has run. */
  lemma {:induction false} SlotSafety(db: Db, ls: seq<Label>)
    requires Exec(Start(db), ls).Some?
    ensures SlotsOk(Exec(Start(db), ls).value)
  {
    if ls != [] {
      var n := |ls| - 1;
      SlotSafety(db, ls[..n]);
      SlotsStep(Exec(Start(db), ls[..n]).value, Exec(Start(db), ls).value, ls[n]);
    }
  }

  /** The port forwarding a connection changes or gives up with a label. */
  predicate Touches(s: System, l: Label, k: (EntityId, Port)) {
    (l.Register? || l.Unregister?) && l.c in s.conns && s.conns[l.c].entity == Some(k.0) && l.port == k.1
  }

  /**
   What takes a slot from its connection: its entity's re-registration, cancellation,
   or any dropped connection's clean-up.
   */
  predicate TakesSlot(s: System, l: Label, k: (EntityId, Port))
    requires k in s.slots
  {
    || (Touches(s, l, k) && (l.Unregister? || l.c != s.slots[k]))
    || (l.ClearSlots? && l.c in s.conns && s.conns[l.c].entity == Some(k.0))
  }

  /**
   A slot survives a step exactly if the step does not take it.  Clean-up goes
   by entity, so a dropped connection also takes the slots of a live connection
   that logged in as the same entity.
   */
  lemma SlotSurvivesIff(s: System, l: Label, k: (EntityId, Port))
    requires k in s.slots && Next(s, l).Some?
    ensures var s' := Next(s, l).value; (k in s'.slots && s'.slots[k] == s.slots[k]) <==> !TakesSlot(s, l, k)
  {
    var s' := Next(s, l).value;
    match l
    case OpenStep(c, ch, pick, ok) => var conn := OpeningTouches(s, s', c, ch, pick, ok);
    case CloseStep(c) => var conn := ClosingTouches(s, s', c);
    case SweepStep(c, pick) => var conn := SweepingTouches(s, s', c, pick);
    case Register(c, port) =>
    case Unregister(c, port) =>
    case ClearSlots(c) =>
    case _ => assert s'.slots == s.slots;
  }

  /** No step of the run takes the slot. */
  predicate NeverTaken(s: System, ls: seq<Label>, k: (EntityId, Port)) {
    ls == [] ||
      var n := |ls| - 1;
      && NeverTaken(s, ls[..n], k)
      && Exec(s, ls[..n]).Some?
      && (k in Exec(s, ls[..n]).value.slots ==> !TakesSlot(Exec(s, ls[..n]).value, ls[n], k))
  }

  lemma {:induction false} SlotSurvivesRun(s: System, ls: seq<Label>, k: (EntityId, Port))
    requires k in s.slots && Exec(s, ls).Some? && NeverTaken(s, ls, k)
    ensures k in Exec(s, ls).value.slots && Exec(s, ls).value.slots[k] == s.slots[k]
  {
    if ls != [] {
      var n := |ls| - 1;
      SlotSurvivesRun(s, ls[..n], k);
      SlotSurvivesIff(Exec(s, ls[..n]).value, ls[n], k);
    }
  }

  // ----------------------------------------------- confirmed means bridged

  predicate PastBridge(st: OpenStage) {
    st.NeedTunnel? || st.NeedId? || st.NeedStart?
  }

  /** Confirmed channels are bridged, and so are fast openings past their bridge step. */
  predicate Bridged(s: System) {
    forall c :: c in s.conns ==> BridgedConn(s.conns[c])
  }

  predicate BridgedConn(conn: Conn) {
    && conn.confirmed <= conn.bridges.Keys
    && (forall ch :: ch in conn.opens && !conn.opens[ch].slow && PastBridge(conn.opens[ch].stage) ==>
      ch in conn.bridges)
  }

  lemma BridgedChecks(s: System, conn: Conn, ch: ChannelId, o: Opening, pick: nat, ok: bool)
    requires BridgedConn(conn)
    ensures BridgedConn(CheckStep(s, conn, ch, o, pick, ok))
  {
    var next := Checked(s, o, pick, ok);
    assert next.Some? ==> !PastBridge(next.value.stage);
  }

  lemma BridgedSlot(s: System, conn: Conn, ch: ChannelId, o: Opening, ok: bool)
    requires BridgedConn(conn)
    ensures BridgedConn(SlotStep(s, conn, ch, o, ok))
  {
  }

  lemma BridgedEarly(s: System, conn: Conn, ch: ChannelId, o: Opening, pick: nat, ok: bool)
    requires BridgedConn(conn)
    ensures BridgedConn(EarlyStep(s, conn, ch, o, pick, ok))
  {
    if o.stage.NeedSlot? {
      BridgedSlot(s, conn, ch, o, ok);
    } else if !o.stage.NeedChannel? && !o.stage.NeedBridge? {
      BridgedChecks(s, conn, ch, o, pick, ok);
    }
  }

  lemma BridgedOpening(s: System, s': System, c: ConnId, ch: ChannelId, pick: nat, ok: bool) returns (conn: Conn)
    requires c in s.conns && ch in s.conns[c].opens && OpeningStep(s, c, ch, pick, ok) == Some(s')
    requires BridgedConn(s.conns[c])
    ensures s'.conns == s.conns[c := conn] && BridgedConn(conn)
  {
    var old_ := s.conns[c];
    var o := old_.opens[ch];
    match o.stage
    case NeedTunnel => conn := AtStage(old_, ch, o.(stage := NeedId(Tunnel(pick, o.req))));
    case NeedId(t) => conn := NotedConn(old_, ch, o, t);
    case NeedStart(t) => conn := AnnouncedConn(old_, ch, o);
    case _ =>
      BridgedEarly(s, old_, ch, o, pick, ok);
      conn := EarlyStep(s, old_, ch, o, pick, ok);
  }

  /** A close takes its channel out of both sets at once; it cannot interrupt a fast opening. */
  lemma BridgedCloseOwn(conn: Conn)
    requires BridgedConn(conn)
    requires conn.handler.CloseBridge? ==> forall ch :: ch in conn.opens ==> conn.opens[ch].slow
    ensures BridgedConn(CloseOwn(conn))
  {
  }

  lemma BridgedClosing(s: System, s': System, c: ConnId) returns (conn: Conn)
    requires c in s.conns && ClosingStep(s, c) == Some(s') && Openings(s, c) && BridgedConn(s.conns[c])
    ensures s'.conns == s.conns[c := conn] && BridgedConn(conn)
  {
    var old_ := s.conns[c];
    match old_.handler
    case CloseTunnel(ch, id) =>
      conn := old_.(handler := if id in s.tunnels then CloseSend(ch, s.tunnels[id]) else Free);
    case CloseSend(ch, t) => conn := old_.(handler := Free);
    case _ =>
      BridgedCloseOwn(old_);
      conn := CloseOwn(old_);
  }

  lemma BridgedKept(s: System, s': System, c: ConnId, conn: Conn)
    requires Bridged(s) && s'.conns == s.conns[c := conn] && BridgedConn(conn)
    ensures Bridged(s')
  {
  }

  lemma BridgedStep(s: System, s': System, l: Label)
    requires Inv(s) && Bridged(s) && Next(s, l) == Some(s')
    ensures Bridged(s')
  {
    match l
    case OpenStep(c, ch, pick, ok) =>
      var conn := BridgedOpening(s, s', c, ch, pick, ok);
      BridgedKept(s, s', c, conn);
    case CloseStep(c) =>
      assert Openings(s, c) by { assert ConnInv(s, c); }
      var conn := BridgedClosing(s, s', c);
      BridgedKept(s, s', c, conn);
    case SweepStep(c, pick) =>
      var conn := SweepingTouches(s, s', c, pick);
      BridgedKept(s, s', c, conn);
    case Connect(c) => BridgedKept(s, s', c, NEW_CONN);
    case Open(c, ch, target, port) =>
      assert BridgedConn(s.conns[c]);
      BridgedKept(s, s', c, s'.conns[c]);
    case Register(c, port) =>
    case Unregister(c, port) =>
    case ChangeDb(db) =>
    case Authenticate(c, e) => BridgedKept(s, s', c, s.conns[c].(entity := Some(e)));
    case Close(c, ch) => BridgedKept(s, s', c, s.conns[c].(handler := CloseBridge(ch)));
    case DropConn(c) => BridgedKept(s, s', c, s.conns[c].(live := false, sweep := SweepRead));
    case ClearSlots(c) => BridgedKept(s, s', c, s.conns[c].(slotsCleared := true));
  }

  /** From a fast confirmation until the client's close, every `data()` finds its channel bridged. */
  lemma {:induction false} ConfirmedIsBridged(db: Db, ls: seq<Label>)
    requires Exec(Start(db), ls).Some?
    ensures Bridged(Exec(Start(db), ls).value)
  {
    if ls != [] {
      var n := |ls| - 1;
      ConfirmedIsBridged(db, ls[..n]);
      InvHolds(db, ls[..n]);
      BridgedStep(Exec(Start(db), ls[..n]).value, Exec(Start(db), ls).value, ls[n]);
    }
  }

  // ---------------------------------------------------------- authorization

  predicate ConfigPassed(dbs: seq<Db>, r: Request) {
    r.configAt < |dbs| && HasConfig(dbs[r.configAt], r)
  }

  predicate SubscriptionPassed(dbs: seq<Db>, r: Request) {
    ConfigPassed(dbs, r) && r.configAt <= r.subscriptionAt < |dbs| && HasSubscription(dbs[r.subscriptionAt], r)
  }

  /** Each check passed against some database state, in this order. */
  predicate Authorized(dbs: seq<Db>, r: Request) {
    SubscriptionPassed(dbs, r) && r.subscriptionAt <= r.accessAt < |dbs| && MayUse(dbs[r.accessAt], r)
  }

  predicate Passed(dbs: seq<Db>, o: Opening) {
    match o.stage
    case NeedConfig => true
    case NeedSubscription => ConfigPassed(dbs, o.req)
    case NeedAccess => SubscriptionPassed(dbs, o.req)
    case _ => Authorized(dbs, o.req)
  }

  predicate AllAuthorized(s: System) {
    && s.dbs != []
    && (forall c, ch :: c in s.conns && ch in s.conns[c].opens ==> Passed(s.dbs, s.conns[c].opens[ch]))
    && (forall id :: id in s.born ==> Authorized(s.dbs, s.born[id].req))
    && (forall id :: id in s.tunnels ==> id in s.born && s.tunnels[id] == s.born[id])
  }

  lemma MoreStates(dbs: seq<Db>, db: Db, r: Request)
    ensures ConfigPassed(dbs, r) ==> ConfigPassed(dbs + [db], r)
    ensures SubscriptionPassed(dbs, r) ==> SubscriptionPassed(dbs + [db], r)
    ensures Authorized(dbs, r) ==> Authorized(dbs + [db], r)
  {
  }

  lemma CheckedPassed(s: System, o: Opening, pick: nat, ok: bool)
    requires s.dbs != [] && Passed(s.dbs, o) && Checked(s, o, pick, ok).Some?
    requires o.stage.NeedConfig? || o.stage.NeedSubscription? || o.stage.NeedAccess?
    ensures Passed(s.dbs, Checked(s, o, pick, ok).value)
  {
  }

  predicate OpeningsPassed(dbs: seq<Db>, conn: Conn) {
    forall ch :: ch in conn.opens ==> Passed(dbs, conn.opens[ch])
  }

  lemma SlotPassed(s: System, conn: Conn, ch: ChannelId, o: Opening, ok: bool)
    requires OpeningsPassed(s.dbs, conn) && o.stage.NeedSlot? && Passed(s.dbs, o)
    ensures OpeningsPassed(s.dbs, SlotStep(s, conn, ch, o, ok))
  {
  }

  lemma ChecksPassed(s: System, conn: Conn, ch: ChannelId, o: Opening, pick: nat, ok: bool)
    requires s.dbs != [] && OpeningsPassed(s.dbs, conn) && Passed(s.dbs, o)
    requires o.stage.NeedConfig? || o.stage.NeedSubscription? || o.stage.NeedAccess?
    ensures OpeningsPassed(s.dbs, CheckStep(s, conn, ch, o, pick, ok))
  {
    if Checked(s, o, pick, ok).Some? { CheckedPassed(s, o, pick, ok); }
  }

  lemma EarlyPassed(s: System, conn: Conn, ch: ChannelId, o: Opening, pick: nat, ok: bool)
    requires s.dbs != [] && OpeningsPassed(s.dbs, conn) && Passed(s.dbs, o)
    requires !HasTunnel(o.stage) && !o.stage.NeedTunnel?
    ensures OpeningsPassed(s.dbs, EarlyStep(s, conn, ch, o, pick, ok))
  {
    if o.stage.NeedSlot? {
      SlotPassed(s, conn, ch, o, ok);
    } else if o.stage.NeedChannel? || o.stage.NeedBridge? {
      MovedPassed(s, conn, ch, o, ok);
    } else {
      ChecksPassed(s, conn, ch, o, pick, ok);
    }
  }

  lemma MovedPassed(s: System, conn: Conn, ch: ChannelId, o: Opening, ok: bool)
    requires OpeningsPassed(s.dbs, conn) && (o.stage.NeedChannel? || o.stage.NeedBridge?) && Passed(s.dbs, o)
    ensures OpeningsPassed(s.dbs, EarlyStep(s, conn, ch, o, 0, ok))
  {
  }

  lemma AuthorizedBirth(s: System, c: ConnId, ch: ChannelId, o: Opening, id: BridgeId)
    requires AllAuthorized(s) && c in s.conns && OpeningsPassed(s.dbs, s.conns[c]) && Authorized(s.dbs, o.req)
          && id !in s.born
    ensures AllAuthorized(Birth(s, c, ch, o, id))
  {
    AuthorizedKept(s, Birth(s, c, ch, o, id), c, AtStage(s.conns[c], ch, o.(stage := NeedId(Tunnel(id, o.req)))));
  }

  lemma AuthorizedNoted(s: System, c: ConnId, ch: ChannelId, o: Opening, t: Tunnel)
    requires AllAuthorized(s) && c in s.conns && OpeningsPassed(s.dbs, s.conns[c]) && Authorized(s.dbs, o.req)
    ensures AllAuthorized(Noted(s, c, ch, o, t))
  {
    AuthorizedKept(s, Noted(s, c, ch, o, t), c, NotedConn(s.conns[c], ch, o, t));
  }

  lemma AuthorizedAnnounced(s: System, c: ConnId, ch: ChannelId, o: Opening, t: Tunnel)
    requires AllAuthorized(s) && c in s.conns && OpeningsPassed(s.dbs, s.conns[c])
    ensures AllAuthorized(Announced(s, c, ch, o, t))
  {
    var conn := s.conns[c];
    AuthorizedKept(s, Announced(s, c, ch, o, t), c, AnnouncedConn(conn, ch, o));
  }

  lemma AuthorizedOpening(s: System, s': System, c: ConnId, ch: ChannelId, pick: nat, ok: bool)
    requires AllAuthorized(s) && c in s.conns && ch in s.conns[c].opens && OpeningStep(s, c, ch, pick, ok) == Some(s')
    ensures AllAuthorized(s')
  {
    var o := s.conns[c].opens[ch];
    assert Passed(s.dbs, o);
    assert OpeningsPassed(s.dbs, s.conns[c]);
    match o.stage
    case NeedTunnel => AuthorizedBirth(s, c, ch, o, pick);
    case NeedId(t) =>
      AuthorizedNoted(s, c, ch, o, t);
      TunnelStepIs(s, c, ch, pick, ok);
    case NeedStart(t) =>
      AuthorizedAnnounced(s, c, ch, o, t);
      TunnelStepIs(s, c, ch, pick, ok);
    case _ => AuthorizedEarly(s, c, ch, o, pick, ok);
  }

  lemma AuthorizedEarly(s: System, c: ConnId, ch: ChannelId, o: Opening, pick: nat, ok: bool)
    requires AllAuthorized(s) && c in s.conns && OpeningsPassed(s.dbs, s.conns[c]) && Passed(s.dbs, o)
    requires !HasTunnel(o.stage) && !o.stage.NeedTunnel?
    ensures AllAuthorized(WithConn(s, c, EarlyStep(s, s.conns[c], ch, o, pick, ok)))
  {
    EarlyPassed(s, s.conns[c], ch, o, pick, ok);
    AuthorizedKept(s, WithConn(s, c, EarlyStep(s, s.conns[c], ch, o, pick, ok)), c,
      EarlyStep(s, s.conns[c], ch, o, pick, ok));
  }

  lemma AuthorizedKept(s: System, s': System, c: ConnId, conn: Conn)
    requires AllAuthorized(s) && s'.conns == s.conns[c := conn] && s'.dbs == s.dbs && OpeningsPassed(s.dbs, conn)
    requires forall id :: id in s'.born ==>
          (id in s.born && s'.born[id] == s.born[id]) || Authorized(s.dbs, s'.born[id].req)
    requires forall id :: id in s'.tunnels ==> id in s'.born && s'.tunnels[id] == s'.born[id]
    ensures AllAuthorized(s')
  {
  }

  lemma AuthorizedLater(s: System, db: Db)
    requires AllAuthorized(s)
    ensures AllAuthorized(s.(dbs := s.dbs + [db]))
  {
    var dbs := s.dbs + [db];
    forall d, e | d in s.conns && e in s.conns[d].opens ensures Passed(dbs, s.conns[d].opens[e]) {
      assert Passed(s.dbs, s.conns[d].opens[e]);
      MoreStates(s.dbs, db, s.conns[d].opens[e].req);
    }
    forall id | id in s.born ensures Authorized(dbs, s.born[id].req) { MoreStates(s.dbs, db, s.born[id].req); }
  }

  lemma AuthorizedStep(s: System, s': System, l: Label)
    requires AllAuthorized(s) && Next(s, l) == Some(s')
    ensures AllAuthorized(s')
  {
    match l
    case OpenStep(c, ch, pick, ok) => AuthorizedOpening(s, s', c, ch, pick, ok);
    case CloseStep(c) =>
      var conn := ClosingTouches(s, s', c);
      assert OpeningsPassed(s.dbs, conn);
      AuthorizedKept(s, s', c, conn);
    case SweepStep(c, pick) =>
      var conn := SweepingTouches(s, s', c, pick);
      assert OpeningsPassed(s.dbs, conn);
      AuthorizedKept(s, s', c, conn);
    case ChangeDb(db) => AuthorizedLater(s, db);
    case _ => AuthorizedOther(s, s', l);
  }

  lemma AuthorizedOther(s: System, s': System, l: Label)
    requires AllAuthorized(s) && Next(s, l) == Some(s')
    requires !l.OpenStep? && !l.CloseStep? && !l.SweepStep? && !l.ChangeDb?
    ensures AllAuthorized(s')
  {
    if l.Connect? {
      AuthorizedKept(s, s', l.c, NEW_CONN);
    } else if !l.Register? && !l.Unregister? {
      assert OpeningsPassed(s.dbs, s.conns[l.c]);
      assert OpeningsPassed(s.dbs, s'.conns[l.c]);
      AuthorizedKept(s, s', l.c, s'.conns[l.c]);
    }
  }

  /**
   Every tunnel that ever exists was requested when an enabled config, then an
   enabled subscription, then same-account or granted access were each read as
   holding.
   */
  lemma {:induction false} BridgesAreAuthorized(db: Db, ls: seq<Label>)
    requires Exec(Start(db), ls).Some?
    ensures AllAuthorized(Exec(Start(db), ls).value)
  {
    if ls != [] {
      var n := |ls| - 1;
      BridgesAreAuthorized(db, ls[..n]);
      AuthorizedStep(Exec(Start(db), ls[..n]).value, Exec(Start(db), ls).value, ls[n]);
    }
  }
}
