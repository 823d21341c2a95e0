/** Operations that go through several rooms keep the world in order. */
module WorldSteps {
  import opened Types
  import opened Members
  import opened Presence
  import opened Delivery
  import opened Chat
  import opened World
  import opened RoomSteps
  import opened RoomEntries

  /** After a step on room r in which nobody left, all links to r still hold. */
  lemma SeatsKeepLinks(s: State, t: State, r: RoomRef, x: Option<ClientRef>)
    requires r in s.rooms && Touch(s, t, r) && t.client == s.client
    requires SameSeats(s.rooms[r].members, t.rooms[r].members)
    requires forall c :: c in s.client && Some(c) != x ==> ClientOk(s, c)
    ensures forall c :: c in s.client && Some(c) != x ==> LinkedTo(t, c, r) && (c !in s.mgr.clients ==> r !in t.client[c].rooms)
  {
    forall c | c in s.client && Some(c) != x ensures LinkedTo(t, c, r) {
      assert ClientOk(s, c);
      if r in s.client[c].rooms {
        SeatsSameClients(s.rooms[r].members, t.rooms[r].members, c);
      }
    }
  }

  lemma SeatsKeepClient(s: State, t: State, r: RoomRef, c: ClientRef)
    requires r in s.rooms && Touch(s, t, r) && t.client == s.client && c in s.client && ClientOk(s, c)
    requires SameSeats(s.rooms[r].members, t.rooms[r].members)
    ensures ClientOk(t, c)
  {
    if HasClient(s.rooms[r].members, c) {
      SeatsSameClients(s.rooms[r].members, t.rooms[r].members, c);
    }
    TouchClient(s, t, r, c);
  }

  lemma NoDupTail(todo: seq<RoomRef>)
    requires todo != [] && NoDup(todo)
    ensures NoDup(todo[1..]) && todo[0] !in todo[1..]
    ensures forall q :: q != todo[0] ==> (q in todo <==> q in todo[1..])
  {
    assert todo == [todo[0]] + todo[1..];
  }

  /** Client c is settled except in the rooms of todo, where it waits for its turn. */
  ghost predicate Unsettled(s: State, c: ClientRef, todo: seq<RoomRef>) {
    && WorldBut(s, Some(c), todo)
    && c in s.client && ClientOk(s, c) && c in s.mgr.clients
    && NoDup(todo) && (forall r :: r in todo ==> r in s.client[c].rooms)
  }

  lemma UnsettledStep(s: State, t: State, c: ClientRef, todo: seq<RoomRef>)
    requires Unsettled(s, c, todo) && todo != []
    requires todo[0] in s.rooms && Touch(s, t, todo[0]) && RoomOk(t, todo[0], None) && t.client == s.client
    requires SameSeats(s.rooms[todo[0]].members, t.rooms[todo[0]].members)
    ensures Unsettled(t, c, todo[1..]) && Still(s, t)
  {
    NoDupTail(todo);
    assert todo[0] in todo;
    SeatsKeepLinks(s, t, todo[0], Some(c));
    TouchWorld(s, t, todo[0], Some(c), todo, todo[1..]);
    SeatsKeepClient(s, t, todo[0], c);
  }

  lemma AllSettled(s: State, c: ClientRef)
    requires Unsettled(s, c, [])
    ensures WorldOk(s)
  {
  }

  lemma {:induction false} OrphanRoomsStep(s: State, c: ClientRef, todo: seq<RoomRef>)
    requires Unsettled(s, c, todo) && s.client[c].connection.None?
    ensures var t := OrphanRooms(s, c, todo); WorldOk(t) && Still(s, t) && t.client == s.client
    decreases |todo|
  {
    if todo == [] {
      AllSettled(s, c);
    } else {
      assert todo[0] in todo;
      var t := OrphanIn(s, c, todo[0]);
      assert RoomOk(s, todo[0], Some(c));
      OrphanStep(s, c, todo[0]);
      UnsettledStep(s, t, c, todo);
      OrphanRoomsStep(t, c, todo[1..]);
      StillTransitive(s, t, OrphanRooms(s, c, todo));
    }
  }

  lemma {:induction false} ReviveRoomsStep(s: State, c: ClientRef, todo: seq<RoomRef>)
    requires Unsettled(s, c, todo) && s.client[c].connection.Some?
    ensures var t := ReviveRooms(s, c, todo); WorldOk(t) && Still(s, t) && t.client == s.client
    decreases |todo|
  {
    if todo == [] {
      AllSettled(s, c);
    } else {
      assert todo[0] in todo;
      var t := ReviveIn(s, c, todo[0]);
      assert RoomOk(s, todo[0], Some(c));
      ReviveStep(s, c, todo[0]);
      UnsettledStep(s, t, c, todo);
      ReviveRoomsStep(t, c, todo[1..]);
      StillTransitive(s, t, ReviveRooms(s, c, todo));
    }
  }

  lemma {:induction false} ChangeStatusRoomsStep(s: State, c: ClientRef, status: Status, todo: seq<RoomRef>)
    requires WorldOk(s) && c in s.client && s.client[c].connection.Some?
    requires status == Away || status == Back
    requires forall r :: r in todo ==> r in s.registered
    ensures var t := ChangeStatusRooms(s, c, status, todo); WorldOk(t) && Still(s, t) && t.client == s.client
    decreases |todo|
  {
    if todo != [] {
      var r := todo[0];
      var t := ChangeStatusIn(s, c, r, status);
      assert r in todo && RoomOk(s, r, None);
      ChangeStatusStep(s, c, r, status);
      SeatsKeepLinks(s, t, r, None);
      TouchWorld(s, t, r, None, [], []);
      assert forall q :: q in todo[1..] ==> q in todo;
      ChangeStatusRoomsStep(t, c, status, todo[1..]);
      StillTransitive(s, t, ChangeStatusRooms(s, c, status, todo));
    }
  }

  // ---- a client taken apart ----

  /** Client c still has a member in each room of todo and in no other. */
  ghost predicate Leaving(s: State, c: ClientRef, todo: seq<RoomRef>) {
    && WorldBut(s, Some(c), todo)
    && NoDup(todo)
    && forall r :: r in todo ==> r in s.registered && r in s.rooms && HasClient(s.rooms[r].members, c)
  }

  lemma GoneKeepsLinks(s: State, t: State, r: RoomRef, c: ClientRef)
    requires r in s.rooms && Touch(s, t, r) && t.client == s.client
    requires Gone(s.rooms[r].members, t.rooms[r].members, c)
    requires forall d :: d in s.client && d != c ==> ClientOk(s, d)
    ensures forall d :: d in s.client && d != c ==> LinkedTo(t, d, r) && (d !in s.mgr.clients ==> r !in t.client[d].rooms)
  {
    forall d | d in s.client && d != c ensures LinkedTo(t, d, r) {
      assert ClientOk(s, d);
    }
  }

  lemma {:induction false} RemoveRoomsStep(s: State, c: ClientRef, todo: seq<RoomRef>)
    requires Leaving(s, c, todo)
    ensures var t := RemoveRooms(s, c, todo); WorldBut(t, Some(c), []) && Still(s, t) && t.client == s.client
    decreases |todo|
  {
    if todo != [] {
      var r := todo[0];
      var t := RemoveMember(s, r, c);
      NoDupTail(todo);
      assert r in todo && RoomOk(s, r, Some(c));
      RemoveMemberStep(s, r, c, Some(c));
      GoneKeepsLinks(s, t, r, c);
      TouchWorld(s, t, r, Some(c), todo, todo[1..]);
      forall q | q in todo[1..] ensures HasClient(t.rooms[q].members, c) {
        assert q in todo && q != r;
      }
      RemoveRoomsStep(t, c, todo[1..]);
      StillTransitive(s, t, RemoveRooms(s, c, todo));
    }
  }

  function Dismissed(u: State, c: ClientRef): State
    requires c in u.client
  {
    u.(client := u.client[c := u.client[c].(rooms := [], connection := None)])
  }

  lemma DismissedRoom(u: State, c: ClientRef, r: RoomRef)
    requires c in u.client && c !in u.mgr.clients && r in u.rooms && RoomOk(u, r, None) && HistoryOk(u, r)
    ensures RoomOk(Dismissed(u, c), r, None) && HistoryOk(Dismissed(u, c), r) && !HasClient(u.rooms[r].members, c)
  {
    forall m | m in u.rooms[r].members ensures m.client != c && MemberLinked(Dismissed(u, c), r, m) {
      assert MemberLinked(u, r, m);
    }
  }

  lemma DismissedClient(u: State, c: ClientRef, d: ClientRef)
    requires c in u.client && c !in u.mgr.clients && d in u.client && (d != c ==> ClientOk(u, d))
    ensures ClientOk(Dismissed(u, c), d)
  {
  }

  lemma DismissedWorld(u: State, c: ClientRef)
    requires c in u.client && c !in u.mgr.clients && WorldBut(u, Some(c), [])
    ensures WorldOk(Dismissed(u, c))
    ensures forall r :: r in u.rooms ==> !HasClient(u.rooms[r].members, c)
  {
    hide RoomOk, HistoryOk, ClientOk, HasClient;
    var t := Dismissed(u, c);
    forall r | r in t.rooms ensures RoomOk(t, r, None) && HistoryOk(t, r) && !HasClient(t.rooms[r].members, c) {
      assert RoomOk(u, r, Exempt(Some(c), [], r)) && HistoryOk(u, r);
      DismissedRoom(u, c, r);
    }
    forall d | d in t.client ensures ClientOk(t, d) {
      assert d != c ==> ClientOk(u, d);
      DismissedClient(u, c, d);
    }
  }

  /** Once a client that is no longer listed has left all its rooms, nothing refers to it. */
  lemma OnRemoveStep(s: State, c: ClientRef)
    requires c in s.client && c !in s.mgr.clients && Leaving(s, c, s.client[c].rooms)
    ensures var t := OnRemove(s, c);
      && WorldOk(t)
      && t.mgr == s.mgr && t.registered == s.registered && t.alarms == s.alarms && t.rooms.Keys == s.rooms.Keys
      && t.client == s.client[c := s.client[c].(rooms := [], connection := None)]
      && (forall r :: r in t.rooms ==> !HasClient(t.rooms[r].members, c))
      && t.cfg == s.cfg && t.now == s.now && t.lastTick == s.lastTick && t.nextClient == s.nextClient
      && t.nextRoom == s.nextRoom && t.out.Keys == s.out.Keys
  {
    hide Leaving, WorldBut, RemoveRooms, HasClient;
    var u := RemoveRooms(s, c, s.client[c].rooms);
    RemoveRoomsStep(s, c, s.client[c].rooms);
    DismissedWorld(u, c);
  }

  // ---- single departures, and a room taken apart ----

  lemma UnlinkedWorld(s: State, t: State, c: ClientRef, r: RoomRef)
    requires WorldOk(s) && c in s.client && r in s.registered && r in s.rooms
    requires Touch(s, t, r) && RoomOk(t, r, None) && Unlinked(s, t, c, r)
    ensures WorldOk(t) && Still(s, t)
  {
    forall d | d in s.client ensures LinkedTo(t, d, r) && (d !in s.mgr.clients ==> r !in t.client[d].rooms) {
      assert ClientOk(s, d);
    }
    TouchWorld(s, t, r, None, [], []);
  }

  lemma LeaveRoomWorld(s: State, c: ClientRef, r: RoomRef)
    requires WorldOk(s) && c in s.client && r in s.client[c].rooms
    ensures var t := LeaveRoom(s, c, r); WorldOk(t) && Still(s, t) && r in s.rooms && Unlinked(s, t, c, r) && Touch(s, t, r)
  {
    assert ClientOk(s, c);
    assert RoomOk(s, r, None);
    LeaveRoomStep(s, c, r);
    UnlinkedWorld(s, LeaveRoom(s, c, r), c, r);
  }

  lemma KickMemberWorld(s: State, r: RoomRef, i: nat)
    requires WorldOk(s) && r in s.rooms && i < |s.rooms[r].members|
    ensures var t := KickMember(s, r, i);
      && WorldOk(t) && Still(s, t)
      && Touch(s, t, r) && s.rooms[r].members[i].client in s.client && Unlinked(s, t, s.rooms[r].members[i].client, r)
  {
    assert RoomOk(s, r, None);
    StatusInOrder(s, r, None, i);
    var c := s.rooms[r].members[i].client;
    assert ClientOk(s, c);
    KickMemberStep(s, r, i);
    UnlinkedWorld(s, KickMember(s, r, i), c, r);
  }

  lemma SendWorld(s: State, c: ClientRef, p: Packet)
    requires WorldOk(s) && !p.StatusPacket? && !p.OnlineListPacket?
    ensures WorldOk(SendPacket(s, c, p)) && Still(s, SendPacket(s, c, p))
  {
    var t := SendPacket(s, c, p);
    SendQuiet(s.out, s.client, c, p);
    forall r | r in t.rooms ensures RoomOk(t, r, None) && HistoryOk(t, r) {
      assert RoomOk(s, r, None) && HistoryOk(s, r);
      SameViewsKeep(s, t, r, None);
    }
    forall d | d in t.client ensures ClientOk(t, d) {
      assert ClientOk(s, d);
    }
  }

  /** Every member still in the room is on the list of those to be shown out. */
  ghost predicate Listed(ms: seq<Member>, mems: seq<Member>) {
    forall m :: m in ms ==> HasClient(mems, m.client)
  }

  lemma {:induction false} LeaveAllStep(s: State, r: RoomRef, name: string, mems: seq<Member>)
    requires WorldOk(s) && r in s.rooms && Listed(s.rooms[r].members, mems)
    ensures var t := LeaveAll(s, r, name, mems); WorldOk(t) && Still(s, t) && t.rooms[r].members == []
    decreases |mems|
  {
    if mems == [] {
      forall m ensures m !in s.rooms[r].members {
        assert m in s.rooms[r].members ==> HasClient(mems, m.client);
      }
      NoMembers(s.rooms[r].members);
    } else {
      var c := mems[0].client;
      var u := LeaveRoom(s, c, r);
      assert mems == [mems[0]] + mems[1..];
      if c in s.client && r in s.client[c].rooms {
        LeaveRoomWorld(s, c, r);
      } else {
        LinkedMember(s, r, c);
      }
      forall m | m in u.rooms[r].members ensures HasClient(mems[1..], m.client) {
        ShownOut(s, c, r, mems, m);
      }
      SendWorld(u, c, LeavePacket(name));
      var v := SendPacket(u, c, LeavePacket(name));
      LeaveAllStep(v, r, name, mems[1..]);
      StillTransitive(s, u, v);
      StillTransitive(s, v, LeaveAll(s, r, name, mems));
    }
  }

  lemma NoMembers(ms: seq<Member>)
    ensures ms == [] || exists m :: m in ms
  {
    if ms != [] { assert ms[0] in ms; }
  }

  /** A client without a link to r has no member there. */
  lemma LinkedMember(s: State, r: RoomRef, c: ClientRef)
    requires WorldOk(s) && r in s.rooms && !(c in s.client && r in s.client[c].rooms)
    ensures !HasClient(s.rooms[r].members, c)
  {
    assert RoomOk(s, r, None);
    forall m | m in s.rooms[r].members ensures m.client != c {
      assert MemberLinked(s, r, m);
    }
  }

  lemma ShownOut(s: State, c: ClientRef, r: RoomRef, mems: seq<Member>, m: Member)
    requires WorldOk(s) && r in s.rooms && mems != [] && mems[0].client == c && Listed(s.rooms[r].members, mems)
    requires r in LeaveRoom(s, c, r).rooms && m in LeaveRoom(s, c, r).rooms[r].members
    ensures HasClient(mems[1..], m.client)
  {
    hide WorldOk;
    if c in s.client && r in s.client[c].rooms {
      LeaveRoomWorld(s, c, r);
      LinkedHas(s, c, r);
      LeaveRoomMembers(s, c, r, m);
      assert HasClient(LeaveRoom(s, c, r).rooms[r].members, m.client);
    } else {
      LinkedMember(s, r, c);
    }
    hide LeaveRoom;
    ListedTail(s.rooms[r].members, mems, m);
  }

  lemma LinkedHas(s: State, c: ClientRef, r: RoomRef)
    requires WorldOk(s) && c in s.client && r in s.client[c].rooms
    ensures r in s.rooms && HasClient(s.rooms[r].members, c)
  {
    assert ClientOk(s, c);
  }

  lemma ListedTail(ms: seq<Member>, mems: seq<Member>, m: Member)
    requires mems != [] && Listed(ms, mems) && m in ms && m.client != mems[0].client
    ensures HasClient(mems[1..], m.client)
  {
    var n :| n in mems && n.client == m.client;
    assert mems == [mems[0]] + mems[1..];
    assert n in mems[1..];
  }

  lemma LeaveRoomMembers(s: State, c: ClientRef, r: RoomRef, m: Member)
    requires r in s.rooms && c in s.client && r in s.client[c].rooms && HasClient(s.rooms[r].members, c)
    requires m in LeaveRoom(s, c, r).rooms[r].members
    ensures m in s.rooms[r].members
  {
  }

  /** Leaving does not look at the list of registered rooms. */
  lemma {:induction false} LeaveAllUnregistered(s: State, r: RoomRef, name: string, mems: seq<Member>, registered: seq<RoomRef>)
    ensures LeaveAll(s.(registered := registered), r, name, mems) == LeaveAll(s, r, name, mems).(registered := registered)
    decreases |mems|
  {
    if mems != [] {
      var c := mems[0].client;
      var u := s.(registered := registered);
      assert LeaveRoom(u, c, r) == LeaveRoom(s, c, r).(registered := registered);
      LeaveAllUnregistered(SendPacket(LeaveRoom(s, c, r), c, LeavePacket(name)), r, name, mems[1..], registered);
    }
  }

  /** An empty room can be taken off the list. */
  lemma UnregisterWorld(s: State, r: RoomRef)
    requires WorldOk(s) && r in s.rooms && s.rooms[r].members == []
    ensures WorldOk(s.(registered := Erase(s.registered, r)))
    ensures r !in Erase(s.registered, r)
  {
    EraseNoDup(s.registered, r);
    var t := s.(registered := Erase(s.registered, r));
    forall q | q in t.rooms ensures RoomOk(t, q, None) && HistoryOk(t, q) {
      assert RoomOk(s, q, None) && HistoryOk(s, q);
      forall m | m in t.rooms[q].members ensures MemberLinked(t, q, m) {
        assert MemberLinked(s, q, m);
      }
    }
    forall c | c in t.client ensures ClientOk(t, c) {
      assert ClientOk(s, c);
    }
  }

  /** A removed room is unregistered, empty, and no client refers to it. */
  lemma RemoveRoomWorld(s: State, r: RoomRef)
    requires WorldOk(s) && r in s.rooms
    ensures var t := RemoveRoom(s, r);
      && WorldOk(t) && t.mgr == s.mgr && t.rooms.Keys == s.rooms.Keys && t.alarms == s.alarms
      && t.registered == Erase(s.registered, r) && r !in t.registered
      && t.rooms[r].members == []
      && (forall c :: c in t.client ==> r !in t.client[c].rooms)
      && t.client.Keys == s.client.Keys && (forall c :: c in s.client ==> SameButRooms(s.client[c], t.client[c]))
      && t.cfg == s.cfg && t.now == s.now && t.lastTick == s.lastTick && t.nextClient == s.nextClient && t.out.Keys == s.out.Keys
      && t.nextRoom == s.nextRoom
  {
    var name := s.rooms[r].name;
    var mems := s.rooms[r].members;
    forall m | m in mems ensures HasClient(mems, m.client) {
    }
    LeaveAllStep(s, r, name, mems);
    LeaveAllUnregistered(s, r, name, mems, Erase(s.registered, r));
    var u := LeaveAll(s, r, name, mems);
    UnregisterWorld(u, r);
    var t := RemoveRoom(s, r);
    forall c | c in t.client ensures r !in t.client[c].rooms {
      assert ClientOk(t, c);
    }
  }
}
