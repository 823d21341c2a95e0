/** A revive: the discarded client is taken apart and the target takes over its connection. */
module Revive {
  import opened Types
  import opened Members
  import opened Delivery
  import opened Chat
  import opened World
  import opened WorldSteps
  import opened PacketSteps
  import opened Registry
  import opened Sessions

  ghost predicate Revivable(s: State, c: ClientRef, t: ClientRef, k: Conn) {
    Sound(s) && c in s.mgr.clients && t in s.mgr.clients && c != t && c in s.client && t in s.client
    && s.client[c].connection == Some(k)
  }

  function ReviveManager(s: State, c: ClientRef, t: ClientRef): Manager
    requires c in s.client && t in s.client
  {
    var g := DroppedManager(s, t);
    g.(clients := Erase(g.clients, c), tokenToClient := g.tokenToClient - {s.client[c].token},
       countersFromIp := Decrement(g.countersFromIp, s.client[t].lastIp, Clients))
  }

  lemma UnlistForReviveIs(s: State, c: ClientRef, t: ClientRef, k: Conn)
    requires Revivable(s, c, t, k)
    ensures UnlistForRevive(s, c, t) == s.(mgr := ReviveManager(s, c, t))
    ensures CountersShrunk(s.mgr, ReviveManager(s, c, t))
  {
    var tl := s.client[t];
    var g := DroppedManager(s, t);
    CountedClient(s.mgr, s.client, t);
    if tl.connection.Some? {
      CountedConnection(s.mgr, s.client, t);
      DecrementExact(s.mgr.countersFromIp, tl.lastIp, Connections);
      DecrementShrinks(s.mgr, g, tl.lastIp, Connections);
    }
    DecrementShrinks(g, ReviveManager(s, c, t), tl.lastIp, Clients);
    ShrunkTwice(s.mgr, g, ReviveManager(s, c, t));
  }

  /** The discarded client has left everything. */
  function Discarded(s: State, c: ClientRef, t: ClientRef): State
    requires c in s.client && t in s.client
  {
    OnRemove(UnlistForRevive(s, c, t), c)
  }

  lemma DiscardStep(s: State, c: ClientRef, t: ClientRef, k: Conn)
    requires Revivable(s, c, t, k)
    ensures var v := Discarded(s, c, t);
      && WorldOk(v) && v.mgr == ReviveManager(s, c, t) && v.alarms == s.alarms
      && v.client == s.client[c := s.client[c].(rooms := [], connection := None)]
      && v.registered == s.registered && v.rooms.Keys == s.rooms.Keys
      && (forall r :: r in v.rooms ==> !HasClient(v.rooms[r].members, c))
      && v.cfg == s.cfg && v.now == s.now && v.lastTick == s.lastTick && v.nextClient == s.nextClient
      && v.nextRoom == s.nextRoom && v.out.Keys == s.out.Keys
  {
    var u := UnlistForRevive(s, c, t);
    UnlistForReviveIs(s, c, t, k);
    EraseAscending(s.mgr.clients, c);
    ReadyToLeave(s, u, c);
    hide WorldOk, Leaving, OnRemove, HasClient, ReviveManager, UnlistForRevive;
    OnRemoveStep(u, c);
  }

  /** The target has the connection and its rooms are about to be told. */
  function Reconnected(v: State, t: ClientRef, k: Conn, now: int): State
    requires t in v.client
  {
    var w := v.(mgr := v.mgr.(connectionToClient := v.mgr.connectionToClient[k := t]));
    var x := SetConnection(w, t, Some(k));
    x.(client := x.client[t := x.client[t].(lastPacketTime := now)])
  }

  lemma ReconnectWired(s: State, v: State, c: ClientRef, t: ClientRef, k: Conn, now: int)
    requires c in s.client && t in s.client && c != t && s.client[c].connection == Some(k)
    requires Wired(s.out, s.client) && v.out.Keys == s.out.Keys
    requires v.client == s.client[c := s.client[c].(rooms := [], connection := None)]
    ensures Wired(Reconnected(v, t, k, now).out, Reconnected(v, t, k, now).client)
  {
    var x := Reconnected(v, t, k, now);
    assert k in s.out;
    forall d, e | d in x.client && e in x.client && x.client[d].connection.Some? && x.client[d].connection == x.client[e].connection
      ensures d == e
    {
      assert s.client[c].connection == Some(k);
    }
  }

  lemma ReconnectStep(s: State, v: State, c: ClientRef, t: ClientRef, k: Conn, now: int)
    requires Revivable(s, c, t, k) && WorldOk(v) && v.out.Keys == s.out.Keys
    requires v.client == s.client[c := s.client[c].(rooms := [], connection := None)]
    requires t in v.mgr.clients
    ensures Unsettled(Reconnected(v, t, k, now), t, s.client[t].rooms)
  {
    hide Unsettled, RoomOk, HistoryOk, ClientOk, RegistryOk, Sound;
    var x := Reconnected(v, t, k, now);
    RevivableWired(s, c, t, k);
    ReconnectWired(s, v, c, t, k, now);
    assert RegistryOk(v);
    ListedExist(v);
    Unsettle(v, x, t);
  }

  lemma RevivableWired(s: State, c: ClientRef, t: ClientRef, k: Conn)
    requires Revivable(s, c, t, k)
    ensures Wired(s.out, s.client)
  {
  }

  lemma ListedExist(v: State)
    requires RegistryOk(v)
    ensures forall d :: d in v.mgr.clients ==> d in v.client
  {
  }

  lemma ReviveIs(s: State, c: ClientRef, t: ClientRef, k: Conn, now: int)
    requires Revivable(s, c, t, k) && t in Discarded(s, c, t).client
    requires Discarded(s, c, t).client[t] == s.client[t]
    ensures s.client[t].connection != Some(k)
    ensures ReviveClient(s, c, t, now) == ReviveRooms(Reconnected(Discarded(s, c, t), t, k, now), t, s.client[t].rooms)
  {
    hide OnRemove, UnlistForRevive, ReviveRooms;
  }

  /** What a revive does to sessions and indexes. */
  ghost predicate Revived(s: State, y: State, c: ClientRef, t: ClientRef, k: Conn, now: int)
    requires c in s.client && t in s.client
  {
    && y.cfg == s.cfg && y.now == s.now && y.lastTick == s.lastTick && y.alarms == s.alarms
    && y.nextClient == s.nextClient && y.out.Keys == s.out.Keys
    && y.client == s.client[c := s.client[c].(rooms := [], connection := None)]
                           [t := s.client[t].(connection := Some(k), lastIp := k.ip, lastPacketTime := now)]
    && y.mgr == ReviveManager(s, c, t).(connectionToClient := ReviveManager(s, c, t).connectionToClient[k := t])
    && CountersShrunk(s.mgr, y.mgr)
  }

  lemma RevivedSpliced(s: State, y: State, c: ClientRef, t: ClientRef, k: Conn, now: int)
    requires c in s.client && t in s.client && c != t && Revived(s, y, c, t, k, now)
    ensures Spliced(s.mgr, s.client, y.mgr, y.client, c, t, k)
  {
    hide Decrement, CountersShrunk;
  }

  lemma ReviveManagerOk(s: State, y: State, c: ClientRef, t: ClientRef, k: Conn, now: int)
    requires Revivable(s, c, t, k) && Revived(s, y, c, t, k, now)
    ensures ManagerOk(y.mgr, y.client, y.nextClient)
  {
    RevivedSpliced(s, y, c, t, k, now);
    assert y.nextClient == s.nextClient;
    hide ManagerOk, Spliced, Revived, WorldOk;
    SpliceKeepsManager(s.mgr, s.client, y.mgr, y.client, s.nextClient, c, t, k);
  }

  lemma StillSameClient(x: State, y: State)
    requires Still(x, y) && y.client == x.client
    ensures y.mgr == x.mgr && y.cfg == x.cfg && y.now == x.now && y.lastTick == x.lastTick && y.alarms == x.alarms
    ensures y.nextClient == x.nextClient && y.out.Keys == x.out.Keys && y.rooms.Keys == x.rooms.Keys && y.registered == x.registered
  {
  }

  lemma ReconnectedFields(s: State, v: State, c: ClientRef, t: ClientRef, k: Conn, now: int)
    requires c in s.client && t in s.client && c != t
    requires v.client == s.client[c := s.client[c].(rooms := [], connection := None)]
    ensures var x := Reconnected(v, t, k, now);
      && x.mgr == v.mgr.(connectionToClient := v.mgr.connectionToClient[k := t])
      && x.client == v.client[t := s.client[t].(connection := Some(k), lastIp := k.ip, lastPacketTime := now)]
      && x.cfg == v.cfg && x.now == v.now && x.lastTick == v.lastTick && x.alarms == v.alarms
      && x.nextClient == v.nextClient && x.out.Keys == v.out.Keys
  {
  }

  lemma ReviveWorld(s: State, c: ClientRef, t: ClientRef, k: Conn, now: int)
    requires Revivable(s, c, t, k)
    ensures var y := ReviveClient(s, c, t, now); WorldOk(y) && Revived(s, y, c, t, k, now)
  {
    hide WorldOk, Unsettled, ManagerOk, OnRemove, UnlistForRevive, ReviveRooms, ReviveClient, CountersShrunk, ReviveManager,
         Reconnected, Discarded, HasClient;
    var v := Discarded(s, c, t);
    DiscardStep(s, c, t, k);
    TargetStays(s, c, t, k);
    ReviveIs(s, c, t, k, now);
    UnlistForReviveIs(s, c, t, k);
    var x := Reconnected(v, t, k, now);
    ReconnectedFields(s, v, c, t, k, now);
    ReconnectStep(s, v, c, t, k, now);
    var y := ReviveRooms(x, t, s.client[t].rooms);
    ReviveRoomsStep(x, t, s.client[t].rooms);
    StillSameClient(x, y);
    IndexNotCounted(s.mgr, v.mgr, y.mgr);
  }

  lemma IndexNotCounted(g: Manager, g1: Manager, g2: Manager)
    requires CountersShrunk(g, g1) && g2.countersFromIp == g1.countersFromIp
    ensures CountersShrunk(g, g2)
  {
    forall ip ensures CounterOf(g2, ip) == CounterOf(g1, ip) {
    }
  }

  lemma TargetStays(s: State, c: ClientRef, t: ClientRef, k: Conn)
    requires Revivable(s, c, t, k)
    ensures t in ReviveManager(s, c, t).clients
  {
    EraseAscending(s.mgr.clients, c);
  }

  lemma ReviveClientStep(s: State, c: ClientRef, t: ClientRef, k: Conn, now: int)
    requires Revivable(s, c, t, k)
    ensures var y := ReviveClient(s, c, t, now); Sound(y) && Revived(s, y, c, t, k, now)
  {
    hide WorldOk, ManagerOk, ReviveClient, Revived;
    ReviveWorld(s, c, t, k, now);
    ReviveManagerOk(s, ReviveClient(s, c, t, now), c, t, k, now);
  }
}
