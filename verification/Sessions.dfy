/** Connecting, orphaning, removing and reviving clients, on the whole state. */
module Sessions {
  import opened Types
  import opened Members
  import opened Delivery
  import opened Chat
  import opened World
  import opened WorldSteps
  import opened PacketSteps
  import opened Registry

  ghost predicate Sound(s: State) {
    WorldOk(s) && ManagerOk(s.mgr, s.client, s.nextClient)
  }

  ghost predicate CountersShrunk(g: Manager, g': Manager) {
    forall ip :: CounterOf(g', ip).connections <= CounterOf(g, ip).connections && CounterOf(g', ip).clients <= CounterOf(g, ip).clients
  }

  /** From s to t clients were only orphaned or removed. */
  ghost predicate Shrunk(s: State, t: State) {
    && t.cfg == s.cfg && t.now == s.now && t.lastTick == s.lastTick && t.alarms == s.alarms
    && t.out.Keys == s.out.Keys && t.nextClient == s.nextClient && t.client.Keys == s.client.Keys
    && (forall d :: d in s.client ==> t.client[d].lastPacketTime == s.client[d].lastPacketTime
                                      && t.client[d].limiter == s.client[d].limiter)
    && (forall d :: d in s.client ==> t.client[d].connection in {None, s.client[d].connection})
    && (forall d :: d in t.mgr.clients ==> d in s.mgr.clients)
    && |t.mgr.clients| <= |s.mgr.clients|
    && t.mgr.connectionToClient.Keys <= s.mgr.connectionToClient.Keys
    && t.mgr.tokenToClient.Keys <= s.mgr.tokenToClient.Keys
    && CountersShrunk(s.mgr, t.mgr)
  }

  lemma ShrunkTransitive(s: State, t: State, u: State)
    requires Shrunk(s, t) && Shrunk(t, u)
    ensures Shrunk(s, u)
  {
    forall d | d in s.client ensures u.client[d].connection in {None, s.client[d].connection} {
      assert t.client[d].connection in {None, s.client[d].connection};
    }
    forall ip ensures CounterOf(u.mgr, ip).connections <= CounterOf(s.mgr, ip).connections
      && CounterOf(u.mgr, ip).clients <= CounterOf(s.mgr, ip).clients
    {
      assert CounterOf(t.mgr, ip).connections <= CounterOf(s.mgr, ip).connections;
    }
  }

  lemma DecrementShrinks(g: Manager, g': Manager, ip: string, f: CounterField)
    requires Field(CounterOf(g, ip), f) > 0 && CounterOf(g, ip).connections >= 0 && CounterOf(g, ip).clients >= 0
    requires g'.countersFromIp == Decrement(g.countersFromIp, ip, f)
    ensures CountersShrunk(g, g')
  {
    DecrementExact(g.countersFromIp, ip, f);
    forall q ensures CounterOf(g', q).connections <= CounterOf(g, q).connections && CounterOf(g', q).clients <= CounterOf(g, q).clients {
      CounterSame(g.countersFromIp, g'.countersFromIp, ip, q);
    }
  }

  /** Clients other than y have the same links and connection, and are listed if they were. */
  ghost predicate OthersSame(s: State, t: State, y: Option<ClientRef>) {
    && t.rooms == s.rooms && t.registered == s.registered && t.nextRoom == s.nextRoom
    && t.log == s.log && t.cfg == s.cfg && s.out == t.out
    && (forall d :: d in s.client ==> d in t.client)
    && (forall d :: d in s.client && Some(d) != y ==>
          && t.client[d].rooms == s.client[d].rooms && t.client[d].connection == s.client[d].connection
          && (d in t.mgr.clients <==> d in s.mgr.clients))
  }

  lemma RoomCarried(s: State, t: State, y: Option<ClientRef>, r: RoomRef, x: Option<ClientRef>)
    requires OthersSame(s, t, y) && r in s.rooms && RoomOk(s, r, None) && HistoryOk(s, r)
    requires x == y || (y.Some? && !HasClient(s.rooms[r].members, y.value))
    ensures RoomOk(t, r, x) && HistoryOk(t, r)
  {
    forall m | m in t.rooms[r].members && x != Some(m.client) ensures MemberLinked(t, r, m) {
      assert MemberLinked(s, r, m);
      assert Some(m.client) != y;
    }
  }

  lemma ClientCarried(s: State, t: State, y: Option<ClientRef>, d: ClientRef)
    requires OthersSame(s, t, y) && d in s.client && ClientOk(s, d)
    requires Some(d) != y || (t.client[d].rooms == s.client[d].rooms && d in t.mgr.clients)
    ensures ClientOk(t, d)
  {
  }

  lemma RegistryCarried(s: State, t: State, y: Option<ClientRef>)
    requires OthersSame(s, t, y) && RegistryOk(s)
    requires forall c :: c in t.mgr.clients ==> c in t.client
    ensures RegistryOk(t)
  {
  }

  /** Where client c has no link it has no member. */
  lemma NoLinkNoMember(s: State, c: ClientRef, r: RoomRef)
    requires WorldOk(s) && c in s.client && r in s.rooms && r !in s.client[c].rooms
    ensures !HasClient(s.rooms[r].members, c)
  {
    LinkedMember(s, r, c);
  }

  /** Everything but client y is carried over; y is unsettled wherever it is linked. */
  lemma WorldCarried(s: State, t: State, y: ClientRef)
    requires WorldOk(s) && OthersSame(s, t, Some(y)) && y in s.client && t.client.Keys == s.client.Keys
    requires t.client[y].rooms == s.client[y].rooms && Wired(t.out, t.client)
    requires forall c :: c in t.mgr.clients ==> c in t.client
    ensures WorldBut(t, Some(y), t.client[y].rooms)
  {
    hide RoomOk, HistoryOk, ClientOk, OthersSame, RegistryOk, Wired;
    RegistryCarried(s, t, Some(y));
    SameRooms(s, t, y);
    forall r | r in t.rooms ensures RoomOk(t, r, Exempt(Some(y), t.client[y].rooms, r)) && HistoryOk(t, r) {
      assert RoomOk(s, r, None) && HistoryOk(s, r);
      if r !in t.client[y].rooms { NoLinkNoMember(s, y, r); }
      RoomCarried(s, t, Some(y), r, Exempt(Some(y), t.client[y].rooms, r));
    }
    forall d | d in t.client && Some(d) != Some(y) ensures ClientOk(t, d) {
      assert ClientOk(s, d);
      ClientCarried(s, t, Some(y), d);
    }
  }

  lemma SameRooms(s: State, t: State, y: ClientRef)
    requires OthersSame(s, t, Some(y))
    ensures t.rooms == s.rooms
  {
  }

  /** A listed client may be unsettled in all its rooms at once. */
  lemma Unsettle(s: State, t: State, c: ClientRef)
    requires WorldOk(s) && OthersSame(s, t, Some(c)) && c in s.client && t.client.Keys == s.client.Keys
    requires c in s.mgr.clients && c in t.mgr.clients
    requires t.client[c].rooms == s.client[c].rooms && Wired(t.out, t.client)
    requires forall d :: d in t.mgr.clients ==> d in t.client
    ensures Unsettled(t, c, t.client[c].rooms)
  {
    WorldCarried(s, t, c);
    assert ClientOk(s, c);
    ClientCarried(s, t, Some(c), c);
  }

  // ---- orphaning ----

  /** The state of MakeOrphan when the client's rooms are about to hear of it. */
  function Cut(s: State, c: ClientRef, k: Conn): State
    requires c in s.client
  {
    s.(mgr := OrphanManager(s.mgr, s.client[c], k), client := s.client[c := s.client[c].(connection := None)])
  }

  lemma MakeOrphanIs(s: State, c: ClientRef, k: Conn)
    requires Sound(s) && c in s.mgr.clients && s.client[c].connection == Some(k)
    ensures k in s.mgr.connectionToClient
    ensures MakeOrphan(s, c) == OrphanRooms(Cut(s, c, k), c, s.client[c].rooms)
  {
    CountedConnection(s.mgr, s.client, c);
  }

  /** A cut only takes the connection of c away. */
  lemma CutStep(s: State, c: ClientRef, k: Conn)
    requires Sound(s) && c in s.mgr.clients && s.client[c].connection == Some(k)
    ensures var u := Cut(s, c, k);
      && Unsettled(u, c, s.client[c].rooms) && ManagerOk(u.mgr, u.client, u.nextClient) && Shrunk(s, u)
      && u.mgr.clients == s.mgr.clients && u.client[c].connection == None
  {
    hide CountersOk, TokensOk, ConnectionsOk, Unsettled, ClientOk, RoomOk, HistoryOk, Decrement;
    var u := Cut(s, c, k);
    CutUnsettled(s, c, k);
    OrphanKeepsManager(s.mgr, s.client, s.nextClient, c, k);
    CutCounters(s, c, k);
  }

  lemma CutUnsettled(s: State, c: ClientRef, k: Conn)
    requires Sound(s) && c in s.mgr.clients && s.client[c].connection == Some(k)
    ensures Unsettled(Cut(s, c, k), c, s.client[c].rooms)
  {
    hide RoomOk, HistoryOk, ClientOk, Unsettled, TokensOk, ConnectionsOk, CountersOk;
    Unsettle(s, Cut(s, c, k), c);
  }

  lemma CutCounters(s: State, c: ClientRef, k: Conn)
    requires CountersOk(s.mgr, s.client) && c in s.mgr.clients && c in s.client && s.client[c].connection == Some(k)
    ensures CountersShrunk(s.mgr, Cut(s, c, k).mgr)
  {
    CountedConnection(s.mgr, s.client, c);
    CountedClient(s.mgr, s.client, c);
    DecrementShrinks(s.mgr, Cut(s, c, k).mgr, s.client[c].lastIp, Connections);
  }

  lemma MakeOrphanStep(s: State, c: ClientRef)
    requires Sound(s) && c in s.mgr.clients
    ensures c in s.client
    ensures var t := MakeOrphan(s, c);
      && Sound(t) && Shrunk(s, t) && t.mgr.clients == s.mgr.clients && t.client[c].connection == None
      && t.client == s.client[c := s.client[c].(connection := None)]
  {
    var cl := s.client[c];
    if cl.connection.Some? {
      var k := cl.connection.value;
      var u := Cut(s, c, k);
      MakeOrphanIs(s, c, k);
      CutStep(s, c, k);
      hide Unsettled, ManagerOk, WorldOk, Shrunk, OrphanRooms, MakeOrphan, OrphanManager;
      OrphanRoomsStep(u, c, cl.rooms);
      StillShrunk(s, u, MakeOrphan(s, c));
    } else {
      assert s.client[c := cl.(connection := None)] == s.client;
      ShrunkSame(s);
    }
  }

  lemma ShrunkSame(s: State)
    ensures Shrunk(s, s)
  {
  }

  lemma StillShrunk(s: State, u: State, t: State)
    requires Shrunk(s, u) && Still(u, t)
    ensures Shrunk(s, t)
  {
    forall d | d in s.client ensures t.client[d].lastPacketTime == s.client[d].lastPacketTime
      && t.client[d].limiter == s.client[d].limiter && t.client[d].connection in {None, s.client[d].connection}
    {
      assert SameButRooms(u.client[d], t.client[d]);
    }
  }

  // ---- removing ----

  /** What the manager is left with after a removal. */
  function RemovedManager(s: State, c: ClientRef): Manager
    requires c in s.client
  {
    DelistManager(DroppedManager(s, c), c, s.client[c])
  }

  lemma UnlistIs(s: State, c: ClientRef)
    requires Sound(s) && c in s.mgr.clients
    ensures Unlist(s, c) == s.(mgr := RemovedManager(s, c))
  {
    var cl := s.client[c];
    CountedClient(s.mgr, s.client, c);
    if cl.connection.Some? {
      CountedConnection(s.mgr, s.client, c);
      DecrementExact(s.mgr.countersFromIp, cl.lastIp, Connections);
    }
  }

  function DroppedManager(s: State, c: ClientRef): Manager
    requires c in s.client
  {
    var cl := s.client[c];
    if cl.connection.Some? then OrphanManager(s.mgr, cl, cl.connection.value) else s.mgr
  }

  lemma DroppedManagerOk(s: State, c: ClientRef)
    requires Sound(s) && c in s.mgr.clients
    ensures ManagerOk(DroppedManager(s, c), s.client[c := s.client[c].(connection := None)], s.nextClient)
    ensures CountersShrunk(s.mgr, DroppedManager(s, c))
    ensures DroppedManager(s, c).clients == s.mgr.clients
  {
    var cl := s.client[c];
    if cl.connection.Some? {
      OrphanKeepsManager(s.mgr, s.client, s.nextClient, c, cl.connection.value);
      CutCounters(s, c, cl.connection.value);
    } else {
      assert s.client[c := cl.(connection := None)] == s.client;
    }
  }

  lemma DelistCounted(g: Manager, client: Clients, c: ClientRef)
    requires CountersOk(g, client) && c in g.clients && c in client
    ensures CountersShrunk(g, DelistManager(g, c, client[c]))
  {
    CountedClient(g, client, c);
    DecrementShrinks(g, DelistManager(g, c, client[c]), client[c].lastIp, Clients);
  }

  lemma DelistedManagerOk(g: Manager, client: Clients, next: ClientRef, c: ClientRef)
    requires ManagerOk(g, client, next) && c in g.clients && client[c].connection.None?
    ensures ManagerOk(DelistManager(g, c, client[c]), client[c := client[c].(rooms := [])], next)
    ensures CountersShrunk(g, DelistManager(g, c, client[c]))
  {
    hide CountersOk, TokensOk, ConnectionsOk, Decrement;
    DelistKeepsManager(g, client, next, c);
    DelistCounted(g, client, c);
    IdentitiesKeepManager(DelistManager(g, c, client[c]), client, client[c := client[c].(rooms := [])], next);
  }

  lemma ShrunkTwice(g: Manager, g1: Manager, g2: Manager)
    requires CountersShrunk(g, g1) && CountersShrunk(g1, g2)
    ensures CountersShrunk(g, g2)
  {
    forall ip ensures CounterOf(g2, ip).connections <= CounterOf(g, ip).connections && CounterOf(g2, ip).clients <= CounterOf(g, ip).clients {
      assert CounterOf(g1, ip).connections <= CounterOf(g, ip).connections;
    }
  }

  lemma RemovedManagerOk(s: State, c: ClientRef)
    requires Sound(s) && c in s.mgr.clients
    ensures ManagerOk(RemovedManager(s, c), s.client[c := s.client[c].(rooms := [], connection := None)], s.nextClient)
    ensures CountersShrunk(s.mgr, RemovedManager(s, c))
  {
    hide ManagerOk, CountersShrunk, DelistManager, OrphanManager;
    var client1 := s.client[c := s.client[c].(connection := None)];
    var g := DroppedManager(s, c);
    DroppedManagerOk(s, c);
    assert c in g.clients && client1[c].connection.None?;
    DelistedManagerOk(g, client1, s.nextClient, c);
    assert client1[c := client1[c].(rooms := [])] == s.client[c := s.client[c].(rooms := [], connection := None)];
    assert DelistManager(g, c, client1[c]) == RemovedManager(s, c) by { SameToken(g, c, s.client[c], client1[c]); }
    ShrunkTwice(s.mgr, g, RemovedManager(s, c));
  }

  lemma SameToken(g: Manager, c: ClientRef, a: Client, b: Client)
    requires a.token == b.token && a.lastIp == b.lastIp
    ensures DelistManager(g, c, a) == DelistManager(g, c, b)
  {
  }

  /** Once off the list, a client with all its memberships is ready to be taken apart. */
  lemma ReadyToLeave(s: State, t: State, c: ClientRef)
    requires WorldOk(s) && c in s.client && t == s.(mgr := t.mgr)
    requires forall d :: d in t.mgr.clients <==> d in s.mgr.clients && d != c
    ensures Leaving(t, c, t.client[c].rooms)
  {
    WorldCarried(s, t, c);
    assert ClientOk(s, c);
  }

  lemma UnlistStep(s: State, c: ClientRef)
    requires Sound(s) && c in s.mgr.clients
    ensures c in s.client
    ensures var u := Unlist(s, c);
      && u == s.(mgr := RemovedManager(s, c)) && Leaving(u, c, u.client[c].rooms)
      && u.mgr.clients == Erase(s.mgr.clients, c) && c !in u.mgr.clients && |u.mgr.clients| == |s.mgr.clients| - 1
      && u.mgr.connectionToClient.Keys <= s.mgr.connectionToClient.Keys
      && u.mgr.tokenToClient.Keys <= s.mgr.tokenToClient.Keys
  {
    hide Leaving, CountersOk, TokensOk, ConnectionsOk;
    UnlistIs(s, c);
    EraseAscending(s.mgr.clients, c);
    ReadyToLeave(s, Unlist(s, c), c);
  }

  lemma RemoveShrunk(s: State, t: State, c: ClientRef)
    requires c in s.client && t.client == s.client[c := s.client[c].(rooms := [], connection := None)]
    requires t.cfg == s.cfg && t.now == s.now && t.lastTick == s.lastTick && t.alarms == s.alarms
    requires t.out.Keys == s.out.Keys && t.nextClient == s.nextClient && t.mgr.clients == Erase(s.mgr.clients, c)
    requires |t.mgr.clients| <= |s.mgr.clients|
    requires t.mgr.connectionToClient.Keys <= s.mgr.connectionToClient.Keys
    requires t.mgr.tokenToClient.Keys <= s.mgr.tokenToClient.Keys && CountersShrunk(s.mgr, t.mgr)
    ensures Shrunk(s, t)
  {
  }

  lemma RemoveStep(s: State, c: ClientRef)
    requires Sound(s) && c in s.mgr.clients
    ensures c in s.client
    ensures var t := Remove(s, c);
      && Sound(t) && Shrunk(s, t)
      && t.mgr.clients == Erase(s.mgr.clients, c) && c !in t.mgr.clients && |t.mgr.clients| == |s.mgr.clients| - 1
      && t.mgr == RemovedManager(s, c)
      && t.client == s.client[c := s.client[c].(rooms := [], connection := None)]
      && (forall r :: r in t.rooms ==> !HasClient(t.rooms[r].members, c))
  {
    UnlistStep(s, c);
    RemovedManagerOk(s, c);
    hide Leaving, ManagerOk, WorldOk, OnRemove, Unlist, RemovedManager, HasClient, Shrunk, CountersShrunk;
    OnRemoveStep(Unlist(s, c), c);
    RemoveShrunk(s, Remove(s, c), c);
  }

  // ---- connecting ----

  lemma ConnectWorld(s: State, k: Conn, token: string, now: int)
    requires WorldOk(s) && s.nextClient !in s.client && k in s.out
    requires forall d :: d in s.client ==> s.client[d].connection != Some(k)
    ensures WorldOk(Connect(s, k, token, now))
  {
    hide RoomOk, HistoryOk, ClientOk, RegistryOk;
    var t := Connect(s, k, token, now);
    var c := s.nextClient;
    ListedIn(s);
    assert forall d :: d in t.mgr.clients <==> d in s.mgr.clients || d == c;
    RegistryCarried(s, t, None);
    forall r | r in t.rooms ensures RoomOk(t, r, None) && HistoryOk(t, r) {
      assert RoomOk(s, r, None) && HistoryOk(s, r);
      RoomCarried(s, t, None, r, None);
    }
    forall d | d in t.client ensures ClientOk(t, d) {
      if d == c {
        NewClientOk(t, c);
      } else {
        assert ClientOk(s, d);
        ClientCarried(s, t, None, d);
      }
    }
  }

  lemma ListedIn(s: State)
    requires RegistryOk(s)
    ensures forall d :: d in s.mgr.clients ==> d in s.client
  {
  }

  lemma NewClientOk(t: State, c: ClientRef)
    requires c in t.client && t.client[c].rooms == [] && c in t.mgr.clients
    ensures ClientOk(t, c)
  {
  }

  lemma ConnectStep(s: State, k: Conn, token: string, now: int)
    requires Sound(s) && k in s.out
    requires k !in s.mgr.connectionToClient && token !in s.mgr.tokenToClient
    requires forall d :: d in s.client ==> s.client[d].connection != Some(k)
    ensures var t := Connect(s, k, token, now);
      Sound(t) && t.mgr == ConnectManager(s.mgr, s.nextClient, k, token)
  {
    hide WorldOk, CountersOk, TokensOk, ConnectionsOk;
    var t := Connect(s, k, token, now);
    assert s.nextClient !in s.client;
    ConnectWorld(s, k, token, now);
    ConnectKeepsManager(s.mgr, s.client, s.nextClient, k, t.client[s.nextClient], token);
  }
}
