/** A client that comes back: what a revive transfers, and that reconnecting restores the session. */
module Reviving {
  import opened Types
  import opened Members
  import opened Chat
  import opened World
  import opened PacketSteps
  import opened Registry
  import opened Sessions
  import opened Revive
  import opened Transfers
  import opened Invariant
  import opened Runs

  /** The event brings the token of another live client. */
  predicate AsksForRevive(s: State, e: Timed) {
    && e.event.Receive? && e.event.p.Auth? && e.event.p.token != ""
    && e.event.k in s.mgr.connectionToClient && e.event.p.token in s.mgr.tokenToClient
    && s.mgr.tokenToClient[e.event.p.token] != s.mgr.connectionToClient[e.event.k]
  }

  /** The state in which the token has been accepted and the reply is out. */
  function Accepted(s: State, c: ClientRef, t: ClientRef): State
    requires c in s.client && t in s.client
  {
    var u := s.(client := s.client[c := s.client[c].(lastPacketTime := s.now)]);
    SendPacket(u, c, AuthPacket(s.client[t].uid, s.client[t].name, s.client[t].token))
  }

  lemma AcceptedFields(s: State, c: ClientRef, t: ClientRef)
    requires c in s.client && t in s.client
    ensures var b := Accepted(s, c, t);
      && b == s.(out := b.out, client := s.client[c := s.client[c].(lastPacketTime := s.now)])
      && t in b.client && c in b.client
  {
  }

  lemma ReviveStepIs(s: State, e: Timed, c: ClientRef, t: ClientRef)
    requires AsksForRevive(s, e) && c == s.mgr.connectionToClient[e.event.k] && t == s.mgr.tokenToClient[e.event.p.token]
    requires c in s.client && t in s.client
    ensures Step(s, e) == ReviveClient(Accepted(s.(now := e.now), c, t), c, t, e.now)
  {
    hide ReviveClient, SendPacket;
  }

  lemma AcceptedSound(s: State, c: ClientRef, t: ClientRef)
    requires Inv(s) && c in s.mgr.clients && c in s.client && t in s.client
    ensures Sound(Accepted(s, c, t))
  {
    hide Inv, Sound, WorldOk;
    var u := s.(client := s.client[c := s.client[c].(lastPacketTime := s.now)]);
    HeardInv(s, c);
    InvSound(u);
    SoundWorld(u);
    var p := AuthPacket(s.client[t].uid, s.client[t].name, s.client[t].token);
    SendFine(u, c, p);
    FineShrunk(u, SendPacket(u, c, p));
  }

  /** What the revive does to the session of the target t and to the discarded client c. */
  ghost predicate SessionMoved(s: State, y: State, c: ClientRef, t: ClientRef, k: Conn, now: int)
    requires c in s.client && t in s.client
  {
    && y.client == s.client[c := s.client[c].(rooms := [], connection := None, lastPacketTime := now)]
                           [t := s.client[t].(connection := Some(k), lastIp := k.ip, lastPacketTime := now)]
    && y.mgr.clients == Erase(s.mgr.clients, c)
    && y.mgr.tokenToClient == s.mgr.tokenToClient - {s.client[c].token}
    && y.mgr.connectionToClient ==
         (if s.client[t].connection.Some? then s.mgr.connectionToClient - {s.client[t].connection.value}
          else s.mgr.connectionToClient)[k := t]
  }

  lemma RevivedMoved(s: State, c: ClientRef, t: ClientRef, k: Conn, y: State)
    requires c in s.client && t in s.client && c != t && s.client[c].connection == Some(k)
    requires var b := Accepted(s, c, t);
      c in b.client && t in b.client && Revived(b, y, c, t, k, s.now)
    ensures SessionMoved(s, y, c, t, k, s.now)
  {
    hide Decrement, CountersShrunk;
    AcceptedFields(s, c, t);
  }

  lemma MovedCounts(s: State, y: State, c: ClientRef, t: ClientRef, k: Conn, now: int)
    requires ManagerOk(s.mgr, s.client, s.nextClient) && Ascending(s.mgr.clients) && c in s.mgr.clients && t in s.mgr.clients
    requires c in s.client && t in s.client && c != t && s.client[c].connection == Some(k)
    requires SessionMoved(s, y, c, t, k, now)
    ensures |y.mgr.clients| == |s.mgr.clients| - 1
    ensures |y.mgr.connectionToClient| == |s.mgr.connectionToClient| - if s.client[t].connection.Some? then 1 else 0
    ensures s.client[t].connection.Some? ==> s.client[t].connection.value !in y.mgr.connectionToClient
  {
    hide ManagerOk, Erase, Ascending;
    EraseAscending(s.mgr.clients, c);
    var index := s.mgr.connectionToClient;
    IndexedHere(s, c, k);
    if s.client[t].connection.Some? { IndexedHere(s, t, s.client[t].connection.value); }
    IndexCount(index, k, s.client[t].connection, t);
  }

  lemma IndexedHere(s: State, c: ClientRef, k: Conn)
    requires ManagerOk(s.mgr, s.client, s.nextClient) && c in s.mgr.clients && c in s.client && s.client[c].connection == Some(k)
    ensures k in s.mgr.connectionToClient && s.mgr.connectionToClient[k] == c
  {
  }

  lemma IndexCount(index: map<Conn, ClientRef>, k: Conn, j: Option<Conn>, t: ClientRef)
    requires k in index && index[k] != t && (j.Some? ==> j.value in index && index[j.value] == t)
    ensures var left := if j.Some? then index - {j.value} else index;
      |left[k := t]| == |index| - (if j.Some? then 1 else 0) && (j.Some? ==> j.value !in left[k := t])
  {
    var left := if j.Some? then index - {j.value} else index;
    if j.Some? { assert index.Keys == left.Keys + {j.value}; }
    assert left[k := t].Keys == left.Keys;
  }

  /** The rooms after a revive: the discarded client is out everywhere, the target is online. */
  ghost predicate RoomsMoved(s: State, y: State, c: ClientRef, t: ClientRef) {
    && y.rooms.Keys == s.rooms.Keys && y.log == s.log
    && forall r :: r in s.rooms ==>
         && y.rooms[r] == s.rooms[r].(members := y.rooms[r].members, membersInfo := y.rooms[r].membersInfo)
         && Survivors(s.rooms[r].members, y.rooms[r].members, c, t)
         && Stored(s.rooms[r], y.rooms[r].membersInfo, c, UidOf(s, c))
  }

  lemma ReviveRoomsMoved(s: State, b: State, c: ClientRef, t: ClientRef, k: Conn)
    requires WorldOk(s) && Revivable(b, c, t, k) && b.rooms == s.rooms && b.log == s.log && UidOf(b, c) == UidOf(s, c)
    ensures RoomsMoved(s, ReviveClient(b, c, t, b.now), c, t)
  {
    hide WorldOk, Sound, ReviveClient, RevivedRoom, Survivors, Stored;
    var y := ReviveClient(b, c, t, b.now);
    ReviveRoomsAre(b, c, t, k, b.now);
    forall r | r in s.rooms
      ensures y.rooms[r] == s.rooms[r].(members := y.rooms[r].members, membersInfo := y.rooms[r].membersInfo)
      ensures Survivors(s.rooms[r].members, y.rooms[r].members, c, t)
      ensures Stored(s.rooms[r], y.rooms[r].membersInfo, c, UidOf(s, c))
    {
      DistinctRoom(s, r);
      RevivedRoomIs(s.rooms[r], c, UidOf(b, c), t);
    }
  }

  lemma ReviveParties(s: State, e: Timed)
    requires Inv(s) && AsksForRevive(s, e)
    ensures var c := s.mgr.connectionToClient[e.event.k]; var t := s.mgr.tokenToClient[e.event.p.token];
      && c in s.mgr.clients && t in s.mgr.clients && c in s.client && t in s.client && c != t
      && s.client[c].connection == Some(e.event.k) && ManagerOk(s.mgr, s.client, s.nextClient) && Ascending(s.mgr.clients)
      && WorldOk(s)
  {
  }

  /**
   * A revive: the target keeps its rooms, token, name and looks and takes over the connection; the
   * discarded client leaves every room; one client less is alive, and one connection less if the
   * target was still connected, which is then in the index no more; the counters are exact.
   */
  lemma ReviveTransfer(s: State, e: Timed)
    requires Reachable(s) && Valid(s, e) && AsksForRevive(s, e)
    ensures var c := s.mgr.connectionToClient[e.event.k]; var t := s.mgr.tokenToClient[e.event.p.token];
      var y := Step(s, e);
      && c in s.client && t in s.client && SessionMoved(s, y, c, t, e.event.k, e.now) && RoomsMoved(s, y, c, t)
      && |y.mgr.clients| == |s.mgr.clients| - 1
      && |y.mgr.connectionToClient| == |s.mgr.connectionToClient| - (if s.client[t].connection.Some? then 1 else 0)
      && (s.client[t].connection.Some? ==> s.client[t].connection.value !in y.mgr.connectionToClient)
      && CounterOf(y.mgr, e.event.k.ip).connections == |Connected(y.mgr, y.client, e.event.k.ip)|
  {
    ReachableInv(s);
    ReviveParties(s, e);
    TimePasses(s, e.now);
    StepInv(s, e);
    ExactAt(Step(s, e), e.event.k.ip);
    hide Inv, WorldOk, ManagerOk, Reachable, Step, ReviveClient, Revived, SessionMoved, RoomsMoved, Connected, Accepted;
    var c := s.mgr.connectionToClient[e.event.k];
    var t := s.mgr.tokenToClient[e.event.p.token];
    var s1 := s.(now := e.now);
    var b := Accepted(s1, c, t);
    AcceptedFields(s1, c, t);
    AcceptedSound(s1, c, t);
    ReviveStepIs(s, e, c, t);
    ReviveClientStep(b, c, t, e.event.k, e.now);
    RevivedMoved(s1, c, t, e.event.k, Step(s, e));
    MovedLater(s, s1, Step(s, e), c, t, e.event.k);
    MovedCounts(s, Step(s, e), c, t, e.event.k, e.now);
    SoundWorld(s1);
    ReviveRoomsMoved(s1, b, c, t, e.event.k);
    RoomsMovedLater(s, s1, Step(s, e), c, t);
  }

  lemma ExactAt(s: State, ip: string)
    requires Inv(s)
    ensures CounterOf(s.mgr, ip).connections == |Connected(s.mgr, s.client, ip)|
    ensures CounterOf(s.mgr, ip).clients == |Living(s.mgr, s.client, ip)|
  {
    assert CounterOf(s.mgr, ip) == Counter(|Connected(s.mgr, s.client, ip)|, |Living(s.mgr, s.client, ip)|);
  }

  lemma MovedLater(s: State, s1: State, y: State, c: ClientRef, t: ClientRef, k: Conn)
    requires c in s1.client && t in s1.client && s1 == s.(now := s1.now) && SessionMoved(s1, y, c, t, k, s1.now)
    ensures SessionMoved(s, y, c, t, k, s1.now)
  {
  }

  lemma RoomsMovedLater(s: State, s1: State, y: State, c: ClientRef, t: ClientRef)
    requires s1 == s.(now := s1.now) && RoomsMoved(s1, y, c, t)
    ensures RoomsMoved(s, y, c, t)
  {
    hide Survivors, Stored;
    assert UidOf(s1, c) == UidOf(s, c);
  }
}
