/** What leaving, orphaning and reviving do to the rooms, member by member. */
module Transfers {
  import opened Types
  import opened Members
  import opened Presence
  import opened Chat
  import opened World
  import opened WorldSteps
  import opened PacketSteps
  import opened Registry
  import opened Sessions
  import opened Revive
  import opened Invariant
  import opened Runs

  // ---- one room ----

  /** The room once the member of client c is gone and its data is stored. */
  function LeftRoom(room: Room, c: ClientRef, uid: nat): Room {
    match FindByClient(room.members, c)
    case None => room
    case Some(i) =>
      var m := room.members[i];
      room.(members := RemoveAt(room.members, i),
            membersInfo := if IsGuest(uid) then room.membersInfo
                           else room.membersInfo[uid := MemberInfo(uid, m.nick, m.girl, m.color)])
  }

  /** The room once the member of client c has another status. */
  function TurnedRoom(room: Room, c: ClientRef, status: Status): Room {
    match FindByClient(room.members, c)
    case None => room
    case Some(i) => room.(members := room.members[i := room.members[i].(status := status)])
  }

  /** Client c has no member any more; nobody else changed. */
  ghost predicate Without(ms: seq<Member>, ms': seq<Member>, c: ClientRef) {
    forall m :: m in ms' <==> m in ms && m.client != c
  }

  function Turned(m: Member, c: ClientRef, status: Status): Member {
    if m.client == c then m.(status := status) else m
  }

  /** The member of client c has a new status; nobody else, and nothing else, changed. */
  ghost predicate TurnedOnly(ms: seq<Member>, ms': seq<Member>, c: ClientRef, status: Status) {
    |ms'| == |ms| && forall i :: 0 <= i < |ms| ==> ms'[i] == Turned(ms[i], c, status)
  }

  lemma LeftRoomWithout(room: Room, c: ClientRef, uid: nat)
    requires Distinct(room.members)
    ensures Without(room.members, LeftRoom(room, c, uid).members, c)
    ensures Distinct(LeftRoom(room, c, uid).members)
  {
    match FindByClient(room.members, c) {
      case None =>
      case Some(i) =>
        RemoveKeepsDistinct(room.members, i);
        forall m | m in room.members && m.client == c ensures m == room.members[i] {
          SameIdSameMember(room.members, m, room.members[i]);
        }
    }
  }

  lemma TurnedRoomOnly(room: Room, c: ClientRef, status: Status)
    requires Distinct(room.members)
    ensures TurnedOnly(room.members, TurnedRoom(room, c, status).members, c, status)
  {
    var ms := room.members;
    match FindByClient(ms, c) {
      case None =>
        forall i | 0 <= i < |ms| ensures ms[i].client != c {
          assert ms[i] in ms;
        }
      case Some(j) =>
    }
  }

  // ---- all rooms of a client ----

  /** The rooms of todo are changed by f, the others are not. */
  ghost predicate RoomsMapped(s: State, t: State, todo: seq<RoomRef>, f: Room -> Room) {
    && t.rooms.Keys == s.rooms.Keys
    && forall r :: r in s.rooms ==> t.rooms[r] == if r in todo then f(s.rooms[r]) else s.rooms[r]
  }

  lemma MappedFurther(s: State, u: State, t: State, todo: seq<RoomRef>, f: Room -> Room)
    requires todo != [] && NoDup(todo) && todo[0] in s.rooms
    requires u.rooms == s.rooms[todo[0] := f(s.rooms[todo[0]])] && RoomsMapped(u, t, todo[1..], f)
    ensures RoomsMapped(s, t, todo, f)
  {
    NoDupTail(todo);
    assert todo == [todo[0]] + todo[1..];
  }

  lemma RemoveMemberRooms(s: State, r: RoomRef, c: ClientRef)
    requires r in s.rooms
    ensures var t := RemoveMember(s, r, c);
      t.rooms == s.rooms[r := LeftRoom(s.rooms[r], c, UidOf(s, c))] && t.client == s.client && t.log == s.log
  {
    if FindMember(s, r, c).None? { assert s.rooms[r := s.rooms[r]] == s.rooms; }
  }

  lemma {:induction false} RemoveRoomsRooms(s: State, c: ClientRef, todo: seq<RoomRef>)
    requires NoDup(todo) && forall r :: r in todo ==> r in s.rooms
    ensures var t := RemoveRooms(s, c, todo);
      RoomsMapped(s, t, todo, room => LeftRoom(room, c, UidOf(s, c))) && t.client == s.client && t.log == s.log
    decreases |todo|
  {
    hide RemoveMember, LeftRoom;
    if todo != [] {
      var u := RemoveMember(s, todo[0], c);
      RemoveMemberRooms(s, todo[0], c);
      NoDupTail(todo);
      RemoveRoomsRooms(u, c, todo[1..]);
      assert UidOf(u, c) == UidOf(s, c);
      MappedSame(u, RemoveRooms(s, c, todo), todo[1..], room => LeftRoom(room, c, UidOf(u, c)), room => LeftRoom(room, c, UidOf(s, c)));
      MappedFurther(s, u, RemoveRooms(s, c, todo), todo, room => LeftRoom(room, c, UidOf(s, c)));
    }
  }

  lemma MappedSame(s: State, t: State, todo: seq<RoomRef>, f: Room -> Room, g: Room -> Room)
    requires RoomsMapped(s, t, todo, f) && forall room :: f(room) == g(room)
    ensures RoomsMapped(s, t, todo, g)
  {
  }

  lemma OrphanInRooms(s: State, c: ClientRef, r: RoomRef)
    requires r in s.rooms
    ensures var t := OrphanIn(s, c, r);
      t.rooms == s.rooms[r := TurnedRoom(s.rooms[r], c, Orphan)] && t.client == s.client && t.log == s.log
  {
    if FindMember(s, r, c).None? { assert s.rooms[r := s.rooms[r]] == s.rooms; }
  }

  lemma {:induction false} OrphanRoomsRooms(s: State, c: ClientRef, todo: seq<RoomRef>)
    requires NoDup(todo) && forall r :: r in todo ==> r in s.rooms
    ensures var t := OrphanRooms(s, c, todo);
      RoomsMapped(s, t, todo, room => TurnedRoom(room, c, Orphan)) && t.client == s.client && t.log == s.log
    decreases |todo|
  {
    hide OrphanIn, TurnedRoom;
    if todo != [] {
      var u := OrphanIn(s, c, todo[0]);
      OrphanInRooms(s, c, todo[0]);
      NoDupTail(todo);
      OrphanRoomsRooms(u, c, todo[1..]);
      MappedSame(u, OrphanRooms(s, c, todo), todo[1..], room => TurnedRoom(room, c, Orphan), room => TurnedRoom(room, c, Orphan));
      MappedFurther(s, u, OrphanRooms(s, c, todo), todo, room => TurnedRoom(room, c, Orphan));
    }
  }

  lemma ReviveInRooms(s: State, c: ClientRef, r: RoomRef)
    requires r in s.rooms
    ensures var t := ReviveIn(s, c, r);
      t.rooms == s.rooms[r := TurnedRoom(s.rooms[r], c, Online)] && t.client == s.client && t.log == s.log
  {
    hide SendMessages, OnlineList, Deliver;
    if FindMember(s, r, c).None? { assert s.rooms[r := s.rooms[r]] == s.rooms; }
  }

  lemma {:induction false} ReviveRoomsRooms(s: State, c: ClientRef, todo: seq<RoomRef>)
    requires NoDup(todo) && forall r :: r in todo ==> r in s.rooms
    ensures var t := ReviveRooms(s, c, todo);
      RoomsMapped(s, t, todo, room => TurnedRoom(room, c, Online)) && t.client == s.client && t.log == s.log
    decreases |todo|
  {
    hide ReviveIn, TurnedRoom;
    if todo != [] {
      var u := ReviveIn(s, c, todo[0]);
      ReviveInRooms(s, c, todo[0]);
      NoDupTail(todo);
      ReviveRoomsRooms(u, c, todo[1..]);
      MappedSame(u, ReviveRooms(s, c, todo), todo[1..], room => TurnedRoom(room, c, Online), room => TurnedRoom(room, c, Online));
      MappedFurther(s, u, ReviveRooms(s, c, todo), todo, room => TurnedRoom(room, c, Online));
    }
  }

  // ---- a revive ----

  /** A room after a revive: the discarded client's member has left and the target's is online. */
  function RevivedRoom(room: Room, c: ClientRef, uid: nat, t: ClientRef): Room {
    TurnedRoom(LeftRoom(room, c, uid), t, Online)
  }

  lemma OnRemoveRooms(s: State, c: ClientRef)
    requires c in s.client
    ensures OnRemove(s, c).rooms == RemoveRooms(s, c, s.client[c].rooms).rooms
    ensures OnRemove(s, c).log == RemoveRooms(s, c, s.client[c].rooms).log
  {
    hide RemoveRooms;
  }

  lemma RoomsOfClient(s: State, c: ClientRef)
    requires WorldOk(s) && c in s.client
    ensures NoDup(s.client[c].rooms) && forall r :: r in s.client[c].rooms ==> r in s.rooms
  {
    assert ClientOk(s, c);
  }

  lemma DiscardedRooms(s: State, c: ClientRef, t: ClientRef, k: Conn)
    requires Revivable(s, c, t, k)
    ensures var v := Discarded(s, c, t);
      RoomsMapped(s, v, s.client[c].rooms, room => LeftRoom(room, c, UidOf(s, c))) && v.log == s.log
  {
    RoomsOfClient(s, c);
    UnlistForReviveIs(s, c, t, k);
    hide WorldOk, ManagerOk, RemoveRooms, LeftRoom, UnlistForRevive, OnRemove, ReviveManager;
    var u := UnlistForRevive(s, c, t);
    RemoveRoomsRooms(u, c, s.client[c].rooms);
    OnRemoveRooms(u, c);
    assert UidOf(u, c) == UidOf(s, c);
  }

  lemma ReconnectedRooms(v: State, t: ClientRef, k: Conn, now: int)
    requires t in v.client
    ensures Reconnected(v, t, k, now).rooms == v.rooms && Reconnected(v, t, k, now).log == v.log
  {
  }

  lemma ReviveMaps(s: State, c: ClientRef, t: ClientRef, k: Conn, now: int)
    requires Revivable(s, c, t, k)
    ensures var v := Discarded(s, c, t); var y := ReviveClient(s, c, t, now);
      && RoomsMapped(s, v, s.client[c].rooms, room => LeftRoom(room, c, UidOf(s, c)))
      && RoomsMapped(v, y, s.client[t].rooms, room => TurnedRoom(room, t, Online)) && y.log == s.log
  {
    hide WorldOk, OnRemove, UnlistForRevive, ReviveRooms, ReviveClient, ManagerOk, Discarded, Reconnected, HasClient,
         LeftRoom, TurnedRoom, ReviveManager, RoomsMapped;
    SoundWorld(s);
    RoomsOfClient(s, t);
    DiscardStep(s, c, t, k);
    DiscardedRooms(s, c, t, k);
    ReviveIs(s, c, t, k, now);
    var v := Discarded(s, c, t);
    ReconnectedRooms(v, t, k, now);
    ReviveRoomsRooms(Reconnected(v, t, k, now), t, s.client[t].rooms);
    MappedFrom(Reconnected(v, t, k, now), v, ReviveClient(s, c, t, now), s.client[t].rooms, room => TurnedRoom(room, t, Online));
  }

  lemma MappedFrom(s: State, s': State, t: State, todo: seq<RoomRef>, f: Room -> Room)
    requires RoomsMapped(s, t, todo, f) && s'.rooms == s.rooms
    ensures RoomsMapped(s', t, todo, f)
  {
  }

  lemma ReviveRoomsAre(s: State, c: ClientRef, t: ClientRef, k: Conn, now: int)
    requires Revivable(s, c, t, k)
    ensures var y := ReviveClient(s, c, t, now);
      && y.rooms.Keys == s.rooms.Keys && y.log == s.log
      && forall r :: r in s.rooms ==> y.rooms[r] == RevivedRoom(s.rooms[r], c, UidOf(s, c), t)
  {
    SoundWorld(s);
    ReviveMaps(s, c, t, k, now);
    hide WorldOk, Sound, ReviveClient, Discarded, LeftRoom, TurnedRoom;
    var y := ReviveClient(s, c, t, now);
    forall r | r in s.rooms ensures y.rooms[r] == RevivedRoom(s.rooms[r], c, UidOf(s, c), t) {
      NotLinked(s, c, r);
      NotLinked(s, t, r);
      StrangerTurned(s.rooms[r], c, UidOf(s, c), t);
    }
  }

  lemma NotLinked(s: State, c: ClientRef, r: RoomRef)
    requires WorldOk(s) && c in s.client && r in s.rooms
    ensures r !in s.client[c].rooms ==> FindByClient(s.rooms[r].members, c).None?
  {
    if r !in s.client[c].rooms {
      NoLinkNoMember(s, c, r);
    }
  }

  /** Where a client has no member neither leaving nor turning changes anything. */
  lemma StrangerTurned(room: Room, c: ClientRef, uid: nat, t: ClientRef)
    ensures FindByClient(room.members, c).None? ==> LeftRoom(room, c, uid) == room
    ensures FindByClient(room.members, t).None? ==> TurnedRoom(LeftRoom(room, c, uid), t, Online) == LeftRoom(room, c, uid)
  {
  }

  /** The members that survive a revive: everybody but the discarded client, the target online. */
  ghost predicate Survivors(ms: seq<Member>, ms': seq<Member>, c: ClientRef, t: ClientRef) {
    forall m :: m in ms' <==> exists n :: n in ms && n.client != c && m == Turned(n, t, Online)
  }

  /** The infos a room keeps once the member of client c, if it had one, has left: a known user's data is stored. */
  ghost predicate Stored(room: Room, infos: map<nat, MemberInfo>, c: ClientRef, uid: nat) {
    && (!HasClient(room.members, c) || uid == 0 ==> infos == room.membersInfo)
    && forall m :: m in room.members && m.client == c && uid != 0 ==>
         infos == room.membersInfo[uid := MemberInfo(uid, m.nick, m.girl, m.color)]
  }

  lemma LeftRoomStored(room: Room, c: ClientRef, uid: nat)
    requires Distinct(room.members)
    ensures Stored(room, LeftRoom(room, c, uid).membersInfo, c, uid)
  {
    var i := FindByClient(room.members, c);
    forall m | m in room.members && m.client == c ensures i.Some? && m == room.members[i.value] {
      if i.Some? { SameIdSameMember(room.members, m, room.members[i.value]); }
    }
    assert i.Some? ==> room.members[i.value] in room.members;
  }

  lemma RevivedRoomIs(room: Room, c: ClientRef, uid: nat, t: ClientRef)
    requires Distinct(room.members)
    ensures var y := RevivedRoom(room, c, uid, t);
      && y == room.(members := y.members, membersInfo := y.membersInfo)
      && Survivors(room.members, y.members, c, t) && Stored(room, y.membersInfo, c, uid)
  {
    LeftRoomStored(room, c, uid);
    LeftRoomWithout(room, c, uid);
    TurnedRoomOnly(LeftRoom(room, c, uid), t, Online);
    var y := RevivedRoom(room, c, uid, t);
    ThenTurned(room.members, LeftRoom(room, c, uid).members, y.members, c, t);
  }

  lemma ThenTurned(ms: seq<Member>, mid: seq<Member>, ms': seq<Member>, c: ClientRef, t: ClientRef)
    requires Without(ms, mid, c) && TurnedOnly(mid, ms', t, Online)
    ensures Survivors(ms, ms', c, t)
  {
    forall m ensures m in ms' <==> exists n :: n in ms && n.client != c && m == Turned(n, t, Online) {
      if m in ms' {
        var i :| 0 <= i < |ms'| && ms'[i] == m;
        assert mid[i] in mid;
      }
      forall n | n in ms && n.client != c && m == Turned(n, t, Online) ensures m in ms' {
        var i :| 0 <= i < |mid| && mid[i] == n;
        assert ms'[i] == m;
      }
    }
  }

  // ---- a removal ----

  /** From s to t client o left every room; known users' data was stored; nothing else in a room changed. */
  ghost predicate LeftBy(s: State, t: State, o: ClientRef) {
    && t.rooms.Keys == s.rooms.Keys && t.log == s.log
    && forall r :: r in s.rooms ==>
         && t.rooms[r] == s.rooms[r].(members := t.rooms[r].members, membersInfo := t.rooms[r].membersInfo)
         && Without(s.rooms[r].members, t.rooms[r].members, o)
         && Stored(s.rooms[r], t.rooms[r].membersInfo, o, UidOf(s, o))
  }

  lemma RemoveIs(s: State, o: ClientRef)
    requires Sound(s) && o in s.mgr.clients && o in s.client
    ensures Remove(s, o).rooms == RemoveRooms(Unlist(s, o), o, s.client[o].rooms).rooms
    ensures Remove(s, o).log == RemoveRooms(Unlist(s, o), o, s.client[o].rooms).log
    ensures Unlist(s, o).rooms == s.rooms && Unlist(s, o).client == s.client && Unlist(s, o).log == s.log
  {
    UnlistIs(s, o);
    hide Sound, RemoveRooms, Unlist, OnRemove, RemovedManager;
    OnRemoveRooms(Unlist(s, o), o);
  }

  lemma RemovedLeaves(s: State, o: ClientRef)
    requires Sound(s) && o in s.mgr.clients && o in s.client
    ensures LeftBy(s, Remove(s, o), o)
  {
    hide Sound, WorldOk, Remove, RemoveRooms, Unlist, LeftRoom, Without, Stored;
    SoundWorld(s);
    RoomsOfClient(s, o);
    RemoveIs(s, o);
    var u := Unlist(s, o);
    var t := Remove(s, o);
    RemoveRoomsRooms(u, o, s.client[o].rooms);
    assert UidOf(u, o) == UidOf(s, o);
    forall r | r in s.rooms
      ensures t.rooms[r] == s.rooms[r].(members := t.rooms[r].members, membersInfo := t.rooms[r].membersInfo)
      ensures Without(s.rooms[r].members, t.rooms[r].members, o)
      ensures Stored(s.rooms[r], t.rooms[r].membersInfo, o, UidOf(s, o))
    {
      NotLinked(s, o, r);
      StrangerTurned(s.rooms[r], o, UidOf(s, o), o);
      DistinctRoom(s, r);
      LeftRoomWithout(s.rooms[r], o, UidOf(s, o));
      LeftRoomStored(s.rooms[r], o, UidOf(s, o));
      LeftRoomFields(s.rooms[r], o, UidOf(s, o));
    }
  }

  lemma DistinctRoom(s: State, r: RoomRef)
    requires WorldOk(s) && r in s.rooms
    ensures Distinct(s.rooms[r].members)
  {
    assert RoomOk(s, r, None);
  }

  lemma LeftRoomFields(room: Room, c: ClientRef, uid: nat)
    ensures var l := LeftRoom(room, c, uid); l == room.(members := l.members, membersInfo := l.membersInfo)
  {
  }

  // ---- an orphaning ----

  /** From s to t client o became an orphan in every room; nothing else in a room changed. */
  ghost predicate OrphanedIn(s: State, t: State, o: ClientRef) {
    && t.rooms.Keys == s.rooms.Keys && t.log == s.log
    && forall r :: r in s.rooms ==>
         && t.rooms[r] == s.rooms[r].(members := t.rooms[r].members)
         && TurnedOnly(s.rooms[r].members, t.rooms[r].members, o, Orphan)
  }

  lemma OrphanLeaves(s: State, o: ClientRef, k: Conn)
    requires Sound(s) && o in s.mgr.clients && o in s.client && s.client[o].connection == Some(k)
    ensures OrphanedIn(s, MakeOrphan(s, o), o)
  {
    hide Sound, WorldOk, MakeOrphan, OrphanRooms, TurnedRoom, TurnedOnly, OrphanManager, HasClient;
    SoundWorld(s);
    RoomsOfClient(s, o);
    MakeOrphanIs(s, o, k);
    var u := Cut(s, o, k);
    var t := MakeOrphan(s, o);
    OrphanRoomsRooms(u, o, s.client[o].rooms);
    forall r | r in s.rooms
      ensures t.rooms[r] == s.rooms[r].(members := t.rooms[r].members)
      ensures TurnedOnly(s.rooms[r].members, t.rooms[r].members, o, Orphan)
    {
      NotLinked(s, o, r);
      NoTurn(s.rooms[r], o, Orphan);
      DistinctRoom(s, r);
      TurnedRoomOnly(s.rooms[r], o, Orphan);
    }
  }

  lemma NoTurn(room: Room, c: ClientRef, status: Status)
    ensures FindByClient(room.members, c).None? ==> TurnedRoom(room, c, status) == room
    ensures TurnedRoom(room, c, status) == room.(members := TurnedRoom(room, c, status).members)
  {
  }
}
