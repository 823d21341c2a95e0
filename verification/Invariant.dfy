/** The invariant of the whole server, and every event keeps it. */
module Invariant {
  import opened Types
  import opened Members
  import opened Delivery
  import opened RateLimit
  import opened Persistence
  import opened History
  import Json
  import opened Chat
  import opened World
  import opened RoomSteps
  import opened WorldSteps
  import opened PacketSteps
  import opened Registry
  import opened Sessions
  import opened Revive

  /** The limits admit somebody, and clients without a connection leave room for connected ones. */
  ghost predicate GoodConfig(cfg: Config) {
    1 <= cfg.maxConnectionsFromIp <= cfg.maxClientsFromIp
  }

  ghost predicate CapsOk(s: State) {
    forall ip :: CounterOf(s.mgr, ip).connections <= s.cfg.maxConnectionsFromIp
                 && CounterOf(s.mgr, ip).clients <= s.cfg.maxClientsFromIp
  }

  ghost predicate ClockOk(s: State, c: ClientRef)
    requires c in s.client
  {
    var cl := s.client[c];
    && s.lastTick - ORPHAN_TIMEOUT <= cl.lastPacketTime <= s.now
    && (cl.connection.Some? ==> s.lastTick - CONNECT_TIMEOUT <= cl.lastPacketTime)
  }

  /** At the last sweep nobody had been silent for too long. */
  ghost predicate ClocksOk(s: State) {
    s.lastTick <= s.now && forall c :: c in s.mgr.clients && c in s.client ==> ClockOk(s, c)
  }

  ghost predicate Inv(s: State) {
    && GoodConfig(s.cfg) && Sound(s) && CapsOk(s) && ClocksOk(s)
    && |s.mgr.clients| < U32 - 1
    && s.alarms == {}
  }

  /**
   * A handler runs at one moment; no connection that was ever opened comes back into the index.
   */
  ghost predicate Onward(s: State, t: State) {
    && t.now == s.now && t.cfg == s.cfg && (t.lastTick == s.lastTick || t.lastTick == s.now)
    && s.out.Keys <= t.out.Keys
    && forall k :: k in s.out && k in t.mgr.connectionToClient ==> k in s.mgr.connectionToClient
  }

  /** Nobody's limiter changes; a new client starts with a fresh one. */
  ghost predicate LimitersKept(s: State, t: State) {
    && s.nextClient <= t.nextClient
    && (forall d :: d in t.client && d < s.nextClient ==> d in s.client && t.client[d].limiter == s.client[d].limiter)
    && (forall d :: d in t.client && d >= s.nextClient ==> t.client[d].limiter == Limiter(t.now, 0))
  }

  ghost predicate Next(s: State, t: State) {
    Inv(t) && Onward(s, t) && LimitersKept(s, t)
  }

  // ---- steps that only orphan or remove ----

  lemma ShrunkInv(s: State, t: State)
    requires Inv(s) && Sound(t) && Shrunk(s, t)
    ensures Next(s, t)
  {
    NobodyNew(s);
    ShrunkClocks(s, t);
    hide Sound, CountersShrunk, CapsOk, ClocksOk;
    ShrunkCaps(s, t);
  }

  lemma ShrunkClocks(s: State, t: State)
    requires ClocksOk(s) && Shrunk(s, t)
    ensures ClocksOk(t)
  {
    hide CountersShrunk;
    forall c | c in t.mgr.clients && c in t.client ensures ClockOk(t, c) {
      assert ClockOk(s, c);
      assert t.client[c].connection in {None, s.client[c].connection};
    }
  }

  /** A step on rooms only. */
  lemma FineShrunk(s: State, t: State)
    requires Sound(s) && Fine(s, t)
    ensures Sound(t) && Shrunk(s, t) && t.mgr == s.mgr
  {
    hide WorldOk;
    forall d | d in s.client ensures SameSession(s.client[d], t.client[d]) {
    }
    IdentitiesKeepManager(s.mgr, s.client, t.client, s.nextClient);
  }

  // ---- the clock moves on ----

  lemma TimePasses(s: State, now: int)
    requires Inv(s) && now >= s.now
    ensures Inv(s.(now := now))
  {
    hide ManagerOk;
    var t := s.(now := now);
    TimeWorld(s, t);
    forall c | c in t.mgr.clients && c in t.client ensures ClockOk(t, c) {
      assert ClockOk(s, c);
    }
  }

  lemma TimeWorld(s: State, t: State)
    requires WorldOk(s) && t == s.(now := t.now, lastTick := t.lastTick, alarms := t.alarms)
    ensures WorldOk(t)
  {
    hide RoomOk, HistoryOk, ClientOk;
    forall r | r in t.rooms ensures RoomOk(t, r, None) && HistoryOk(t, r) {
      assert RoomOk(s, r, None) && HistoryOk(s, r);
      RoomCarried(s, t, None, r, None);
    }
    forall d | d in t.client ensures ClientOk(t, d) {
      assert ClientOk(s, d);
      ClientCarried(s, t, None, d);
    }
  }

  // ---- messages ----

  /** The client behind an indexed connection. */
  lemma Indexed(s: State, k: Conn)
    requires Sound(s) && k in s.mgr.connectionToClient
    ensures var c := s.mgr.connectionToClient[k];
      c in s.mgr.clients && c in s.client && s.client[c].connection == Some(k)
  {
  }

  lemma HeardInv(s: State, c: ClientRef)
    requires Inv(s) && c in s.mgr.clients && c in s.client
    ensures Inv(s.(client := s.client[c := s.client[c].(lastPacketTime := s.now)]))
  {
    hide CountersOk, TokensOk, ConnectionsOk;
    var t := s.(client := s.client[c := s.client[c].(lastPacketTime := s.now)]);
    SameHandsSound(s, t, c);
    forall d | d in t.mgr.clients && d in t.client ensures ClockOk(t, d) {
      assert ClockOk(s, d);
    }
  }

  lemma ShrunkCaps(s: State, t: State)
    requires CapsOk(s) && t.cfg == s.cfg && CountersShrunk(s.mgr, t.mgr)
    ensures CapsOk(t)
  {
    forall ip ensures CounterOf(t.mgr, ip).connections <= t.cfg.maxConnectionsFromIp
      && CounterOf(t.mgr, ip).clients <= t.cfg.maxClientsFromIp
    {
      assert CounterOf(t.mgr, ip).connections <= CounterOf(s.mgr, ip).connections;
    }
  }

  lemma RevivedLimiters(s: State, y: State, c: ClientRef, t: ClientRef, k: Conn)
    requires c in s.client && t in s.client && c != t && Revived(s, y, c, t, k, s.now)
    requires forall d :: d in s.client ==> d < s.nextClient
    ensures LimitersKept(s, y)
  {
    hide Decrement, CountersShrunk;
  }

  lemma RevivedClocks(s: State, y: State, c: ClientRef, t: ClientRef, k: Conn)
    requires ClocksOk(s) && c in s.client && t in s.client && c != t && Revived(s, y, c, t, k, s.now)
    ensures ClocksOk(y)
  {
    hide Decrement, CountersShrunk;
    forall d | d in y.mgr.clients && d in y.client ensures ClockOk(y, d) {
      assert d in s.mgr.clients;
      assert ClockOk(s, d);
    }
  }

  lemma RevivedIndex(s: State, y: State, c: ClientRef, t: ClientRef, k: Conn)
    requires Ascending(s.mgr.clients) && c in s.client && t in s.client && Revived(s, y, c, t, k, s.now)
    requires k in s.mgr.connectionToClient
    ensures Onward(s, y) && |y.mgr.clients| <= |s.mgr.clients| && y.alarms == s.alarms && y.cfg == s.cfg
    ensures CountersShrunk(s.mgr, y.mgr)
  {
    EraseAscending(s.mgr.clients, c);
    EraseLength(s.mgr.clients, c);
    hide Decrement, CountersShrunk;
  }

  lemma {:induction false} EraseLength(cs: seq<ClientRef>, c: ClientRef)
    ensures |Erase(cs, c)| <= |cs|
  {
    if cs != [] { EraseLength(cs[1..], c); }
  }

  lemma ReviveInv(s: State, c: ClientRef, t: ClientRef, k: Conn)
    requires Inv(s) && Revivable(s, c, t, k) && k in s.mgr.connectionToClient
    ensures Next(s, ReviveClient(s, c, t, s.now))
  {
    var y := ReviveClient(s, c, t, s.now);
    ReviveClientStep(s, c, t, k, s.now);
    assert Ascending(s.mgr.clients) && forall d :: d in s.client ==> d < s.nextClient;
    hide Sound, ReviveClient, Revived, CapsOk, ClocksOk, CountersShrunk, Ascending, Onward;
    RevivedIndex(s, y, c, t, k);
    RevivedClocks(s, y, c, t, k);
    RevivedLimiters(s, y, c, t, k);
    ShrunkCaps(s, y);
  }

  lemma TokenTarget(s: State, token: string)
    requires Sound(s) && token in s.mgr.tokenToClient
    ensures s.mgr.tokenToClient[token] in s.mgr.clients
  {
  }

  lemma AuthReviveInv(s: State, c: ClientRef, k: Conn, p: InPacket)
    requires Inv(s) && c in s.mgr.clients && c in s.client && s.client[c].connection == Some(k)
    requires k in s.mgr.connectionToClient && Revives(s, c, p)
    ensures Next(s, Process(s, c, s.now, p))
  {
    hide Inv, Sound, Fine, Shrunk, ReviveClient, Onward, LimitersKept;
    var t := s.mgr.tokenToClient[p.token];
    InvSound(s);
    TokenTarget(s, p.token);
    var a := AuthPacket(s.client[t].uid, s.client[t].name, s.client[t].token);
    var u := SendPacket(s, c, a);
    SoundWorld(s);
    SendFine(s, c, a);
    FineShrunk(s, u);
    ShrunkInv(s, u);
    InvSound(u);
    ReviveInv(u, c, t, k);
    OnwardTransitive(s, u, ReviveClient(u, c, t, s.now));
    LimitersTransitive(s, u, ReviveClient(u, c, t, s.now));
  }

  lemma InvSound(s: State)
    requires Inv(s)
    ensures Sound(s)
  {
  }

  lemma SoundWorld(s: State)
    requires Sound(s)
    ensures WorldOk(s)
  {
  }

  lemma LimitersTransitive(s: State, t: State, u: State)
    requires LimitersKept(s, t) && LimitersKept(t, u) && u.now == t.now
    ensures LimitersKept(s, u)
  {
  }

  lemma OnwardTransitive(s: State, t: State, u: State)
    requires Onward(s, t) && Onward(t, u)
    ensures Onward(s, u)
  {
  }

  lemma LimitedInv(s: State, c: ClientRef, p: InPacket)
    requires Inv(s) && c in s.client
    ensures Inv(Limited(s, c, s.now, p)) && Onward(s, Limited(s, c, s.now, p))
  {
    var t := Limited(s, c, s.now, p);
    SameHandsSound(s, t, c);
    hide Sound;
    forall d | d in t.mgr.clients && d in t.client ensures ClockOk(t, d) {
      assert ClockOk(s, d);
    }
  }

  /** Neither the world nor the manager cares about clocks and limiters of a client. */
  lemma SameHandsSound(s: State, t: State, c: ClientRef)
    requires Sound(s) && c in s.client && c in t.client && t == s.(client := s.client[c := t.client[c]])
    requires t.client[c] == s.client[c].(lastPacketTime := t.client[c].lastPacketTime, limiter := t.client[c].limiter)
    ensures Sound(t)
  {
    hide WorldOk;
    PutClientFine(s, c, t.client[c]);
    IdentitiesKeepManager(s.mgr, s.client, t.client, s.nextClient);
  }

  lemma ProcessInv(s: State, c: ClientRef, k: Conn, p: InPacket)
    requires Inv(s) && c in s.mgr.clients && c in s.client && s.client[c].connection == Some(k)
    requires k in s.mgr.connectionToClient
    ensures Inv(Process(s, c, s.now, p)) && Onward(s, Process(s, c, s.now, p))
    ensures LimitersKept(Limited(s, c, s.now, p), Process(s, c, s.now, p))
  {
    if Revives(s, c, p) {
      AuthReviveInv(s, c, k, p);
    } else {
      hide Sound, CapsOk, ClocksOk, Fine, Shrunk, Process, Onward, LimitersKept, Limited;
      SoundWorld(s);
      ProcessFine(s, c, s.now, p);
      LimitedInv(s, c, p);
      var l := Limited(s, c, s.now, p);
      FineShrunk(l, Process(s, c, s.now, p));
      ShrunkInv(l, Process(s, c, s.now, p));
      OnwardTransitive(s, l, Process(s, c, s.now, p));
    }
  }

  /** The state once the client behind k has been heard and its message has met the limiter. */
  function Heard(s: State, k: Conn, p: InPacket): State {
    if k in s.mgr.connectionToClient && s.mgr.connectionToClient[k] in s.client && p != Invalid then
      var c := s.mgr.connectionToClient[k];
      Limited(s.(client := s.client[c := s.client[c].(lastPacketTime := s.now)]), c, s.now, p)
    else s
  }

  lemma ReceiveInv(s: State, k: Conn, p: InPacket)
    requires Inv(s)
    ensures Inv(OnReceive(s, k, s.now, p)) && Onward(s, OnReceive(s, k, s.now, p))
    ensures LimitersKept(Heard(s, k, p), OnReceive(s, k, s.now, p))
  {
    hide Inv, Sound, Process, Limited, Onward;
    if k in s.mgr.connectionToClient && p != Invalid {
      InvSound(s);
      Indexed(s, k);
      var c := s.mgr.connectionToClient[k];
      var t := s.(client := s.client[c := s.client[c].(lastPacketTime := s.now)]);
      HeardInv(s, c);
      ProcessInv(t, c, k, p);
      HeardOnward(s, c);
      OnwardTransitive(s, t, Process(t, c, s.now, p));
    } else {
      OnwardSame(s);
      NobodyNew(s);
    }
  }

  lemma NobodyNew(s: State)
    requires Inv(s)
    ensures LimitersKept(s, s)
  {
  }

  lemma HeardOnward(s: State, c: ClientRef)
    requires c in s.client
    ensures Onward(s, s.(client := s.client[c := s.client[c].(lastPacketTime := s.now)]))
  {
  }

  lemma OnwardSame(s: State)
    ensures Onward(s, s)
  {
  }

  // ---- closing ----

  lemma RemoveInv(s: State, c: ClientRef)
    requires Inv(s) && c in s.mgr.clients
    ensures c in s.client && Next(s, Remove(s, c))
  {
    RemoveStep(s, c);
    hide Inv, Sound, Shrunk, Remove;
    ShrunkInv(s, Remove(s, c));
  }

  lemma MakeOrphanInv(s: State, c: ClientRef)
    requires Inv(s) && c in s.mgr.clients
    ensures c in s.client && Next(s, MakeOrphan(s, c))
  {
    MakeOrphanStep(s, c);
    hide Inv, Sound, Shrunk, MakeOrphan;
    ShrunkInv(s, MakeOrphan(s, c));
  }

  lemma CloseInv(s: State, k: Conn, status: int)
    requires Inv(s)
    ensures Next(s, OnClose(s, k, status)) && Next(s, OnError(s, k))
  {
    hide Inv, Sound, Remove, MakeOrphan, LimitersKept;
    if k in s.mgr.connectionToClient {
      InvSound(s);
      Indexed(s, k);
      RemoveInv(s, s.mgr.connectionToClient[k]);
      MakeOrphanInv(s, s.mgr.connectionToClient[k]);
    } else {
      NobodyNew(s);
    }
  }

  // ---- opening ----

  lemma NobodyOrphaned(s: State, ip: string)
    requires Sound(s)
    ensures FindOrphan(s, s.mgr.clients, ip).None? ==> Connected(s.mgr, s.client, ip) == Living(s.mgr, s.client, ip)
  {
  }

  /** Pigeonhole: if fewer clients of an address are connected than there are, one is an orphan. */
  lemma OrphanExists(s: State, ip: string)
    requires Sound(s)
    requires CounterOf(s.mgr, ip).connections < CounterOf(s.mgr, ip).clients
    ensures FindOrphan(s, s.mgr.clients, ip).Some?
  {
    NobodyOrphaned(s, ip);
    assert |Connected(s.mgr, s.client, ip)| < |Living(s.mgr, s.client, ip)|;
  }

  lemma OpenedInv(s: State, k: Conn)
    requires Inv(s) && k !in s.out
    ensures Next(s, s.(out := s.out[k := []]))
    ensures forall d :: d in s.client ==> s.client[d].connection != Some(k)
    ensures k !in s.mgr.connectionToClient
  {
    NobodyNew(s);
    hide ManagerOk;
    var t := s.(out := s.out[k := []]);
    OpenedWorld(s, k);
    forall c | c in t.mgr.clients && c in t.client ensures ClockOk(t, c) {
      assert ClockOk(s, c);
    }
    UnknownConnection(s, k);
  }

  lemma UnknownConnection(s: State, k: Conn)
    requires Sound(s) && k !in s.out
    ensures forall d :: d in s.client ==> s.client[d].connection != Some(k)
    ensures k !in s.mgr.connectionToClient
  {
    IndexOpened(s);
  }

  lemma IndexOpened(s: State)
    requires Sound(s)
    ensures forall q :: q in s.mgr.connectionToClient ==> q in s.out
  {
    forall q | q in s.mgr.connectionToClient ensures q in s.out {
      Indexed(s, q);
    }
  }

  lemma OpenedWorld(s: State, k: Conn)
    requires WorldOk(s) && k !in s.out
    ensures WorldOk(s.(out := s.out[k := []]))
  {
    var t := s.(out := s.out[k := []]);
    forall r | r in t.rooms ensures RoomOk(t, r, None) && HistoryOk(t, r) {
      assert RoomOk(s, r, None) && HistoryOk(s, r);
      forall m | m in t.rooms[r].members ensures MemberLinked(t, r, m) {
        assert MemberLinked(s, r, m);
      }
    }
    forall d | d in t.client ensures ClientOk(t, d) {
      assert ClientOk(s, d);
    }
  }

  /** Room for one more client of the address; no alarm. */
  lemma MakeSpaceStep(s: State, ip: string)
    requires Inv(s) && CounterOf(s.mgr, ip).connections < s.cfg.maxConnectionsFromIp
    requires CounterOf(s.mgr, ip).clients >= s.cfg.maxClientsFromIp
    ensures var t := MakeSpace(s, ip);
      && Next(s, t) && Shrunk(s, t) && CounterOf(t.mgr, ip).clients < s.cfg.maxClientsFromIp
      && |t.mgr.clients| < |s.mgr.clients|
  {
    OrphanExists(s, ip);
    var o := FindOrphan(s, s.mgr.clients, ip).value;
    RemoveInv(s, o);
    RemoveStep(s, o);
    EvictedCount(s, o);
    assert CounterOf(s.mgr, ip).clients <= s.cfg.maxClientsFromIp;
  }

  lemma EvictedCount(s: State, o: ClientRef)
    requires Sound(s) && o in s.mgr.clients && o in s.client && s.client[o].connection.None?
    ensures CounterOf(RemovedManager(s, o), s.client[o].lastIp).clients == CounterOf(s.mgr, s.client[o].lastIp).clients - 1
  {
    CountedClient(s.mgr, s.client, o);
    DecrementExact(s.mgr.countersFromIp, s.client[o].lastIp, Clients);
  }

  lemma ConnectCaps(s: State, k: Conn, token: string)
    requires CapsOk(s)
    requires CounterOf(s.mgr, k.ip).connections < s.cfg.maxConnectionsFromIp
    requires CounterOf(s.mgr, k.ip).clients < s.cfg.maxClientsFromIp
    ensures CapsOk(Connect(s, k, token, s.now))
  {
    var t := Connect(s, k, token, s.now);
    forall ip ensures CounterOf(t.mgr, ip).connections <= t.cfg.maxConnectionsFromIp
      && CounterOf(t.mgr, ip).clients <= t.cfg.maxClientsFromIp
    {
      assert CounterOf(s.mgr, ip).connections <= s.cfg.maxConnectionsFromIp;
    }
  }

  lemma ConnectClocks(s: State, k: Conn, token: string)
    requires ClocksOk(s) && s.nextClient !in s.client
    ensures ClocksOk(Connect(s, k, token, s.now))
  {
    var t := Connect(s, k, token, s.now);
    forall c | c in t.mgr.clients && c in t.client ensures ClockOk(t, c) {
      if c != s.nextClient { assert ClockOk(s, c); }
    }
  }

  lemma ConnectInv(s: State, k: Conn, token: string)
    requires Inv(s) && k in s.out && k !in s.mgr.connectionToClient && token !in s.mgr.tokenToClient
    requires forall d :: d in s.client ==> s.client[d].connection != Some(k)
    requires |s.mgr.clients| < U32 - 2
    requires CounterOf(s.mgr, k.ip).connections < s.cfg.maxConnectionsFromIp
    requires CounterOf(s.mgr, k.ip).clients < s.cfg.maxClientsFromIp
    ensures Inv(Connect(s, k, token, s.now))
  {
    ConnectStep(s, k, token, s.now);
    assert s.nextClient !in s.client;
    hide Sound, CapsOk, ClocksOk;
    ConnectCaps(s, k, token);
    ConnectClocks(s, k, token);
  }

  /** Looking a counter up creates an entry, but never one that stays without a client. */
  lemma TouchHarmless(s: State, ip: string)
    ensures ip in s.mgr.countersFromIp ==> TouchCounter(s, ip) == s
    ensures CounterOf(TouchCounter(s, ip).mgr, ip) == CounterOf(s.mgr, ip)
  {
    if ip in s.mgr.countersFromIp {
      assert s.mgr.countersFromIp[ip := s.mgr.countersFromIp[ip]] == s.mgr.countersFromIp;
    }
  }

  lemma TouchThenConnect(s: State, k: Conn, token: string, now: int)
    ensures Connect(TouchCounter(s, k.ip), k, token, now) == Connect(s, k, token, now)
  {
    TouchHarmless(s, k.ip);
    var n := CounterOf(s.mgr, k.ip);
    assert s.mgr.countersFromIp[k.ip := n][k.ip := Counter(n.connections + 1, n.clients + 1)]
        == s.mgr.countersFromIp[k.ip := Counter(n.connections + 1, n.clients + 1)];
  }

  lemma OpenIs(s: State, k: Conn, token: string)
    requires GoodConfig(s.cfg)
    ensures var s0 := s.(out := s.out[k := []]); var n := CounterOf(s.mgr, k.ip);
      OnOpen(s, k, token, s.now) ==
        if n.connections >= s.cfg.maxConnectionsFromIp then s0
        else Connect(if n.clients >= s.cfg.maxClientsFromIp then MakeSpace(s0, k.ip) else s0, k, token, s.now)
  {
    hide MakeSpace, Connect, TouchCounter;
    var s0 := s.(out := s.out[k := []]);
    TouchHarmless(s0, k.ip);
    TouchThenConnect(s0, k, token, s.now);
  }

  lemma OpenInv(s: State, k: Conn, token: string)
    requires Inv(s) && k !in s.out && token !in s.mgr.tokenToClient && |s.mgr.clients| < U32 - 2
    ensures Next(s, OnOpen(s, k, token, s.now))
  {
    hide Inv, MakeSpace, Connect, OnOpen, Shrunk;
    var s0 := s.(out := s.out[k := []]);
    var n := CounterOf(s.mgr, k.ip);
    InvConfig(s);
    OpenIs(s, k, token);
    OpenedInv(s, k);
    if n.connections < s.cfg.maxConnectionsFromIp {
      var s1 := if n.clients >= s.cfg.maxClientsFromIp then MakeSpace(s0, k.ip) else s0;
      if n.clients >= s.cfg.maxClientsFromIp {
        MakeSpaceStep(s0, k.ip);
        SpaceKeeps(s0, s1, k);
      } else {
        NobodyNew(s0);
      }
      ConnectInv(s1, k, token);
      ConnectIndex(s, s1, k, token);
      ConnectLimiters(s, s0, s1, k, token);
    }
  }

  lemma InvConfig(s: State)
    requires Inv(s)
    ensures GoodConfig(s.cfg)
  {
  }

  lemma SpaceKeeps(s: State, t: State, k: Conn)
    requires Shrunk(s, t) && k in s.out && k !in s.mgr.connectionToClient
    requires forall d :: d in s.client ==> s.client[d].connection != Some(k)
    ensures k in t.out && k !in t.mgr.connectionToClient && t.cfg == s.cfg && t.now == s.now && t.lastTick == s.lastTick
    ensures t.mgr.tokenToClient.Keys <= s.mgr.tokenToClient.Keys
    ensures CounterOf(t.mgr, k.ip).connections <= CounterOf(s.mgr, k.ip).connections
    ensures forall d :: d in t.client ==> t.client[d].connection != Some(k)
    ensures t.out.Keys == s.out.Keys && t.mgr.connectionToClient.Keys <= s.mgr.connectionToClient.Keys
  {
    forall d | d in t.client ensures t.client[d].connection != Some(k) {
      assert t.client[d].connection in {None, s.client[d].connection};
    }
  }

  lemma ConnectLimiters(s: State, s0: State, s1: State, k: Conn, token: string)
    requires LimitersKept(s, s0) && LimitersKept(s0, s1) && s1.now == s0.now
    ensures LimitersKept(s, Connect(s1, k, token, s1.now))
  {
  }

  lemma ConnectIndex(s: State, s1: State, k: Conn, token: string)
    requires s1.now == s.now && s1.cfg == s.cfg && s1.lastTick == s.lastTick
    requires k !in s.out && s1.out.Keys == s.out.Keys + {k}
    requires forall q :: q in s.out && q in s1.mgr.connectionToClient ==> q in s.mgr.connectionToClient
    ensures Onward(s, Connect(s1, k, token, s1.now))
  {
  }
}
