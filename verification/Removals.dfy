/** The removal of a room as an event: everybody is sent out, in order, and told so. */
module Removals {
  import opened Types
  import opened Members
  import opened Presence
  import opened Delivery
  import opened Chat
  import opened World
  import opened WorldSteps
  import opened Sessions
  import opened Transfers
  import opened Invariant
  import opened Runs
  import opened Theorems
  import opened Talking
  import opened Effects
  import opened Commands
  import opened Packets
  import opened Notices

  function Uid(client: Clients, c: ClientRef): nat {
    if c in client then client[c].uid else 0
  }

  /** The infos once all these members have left, one after the other. */
  function StoreAll(client: Clients, infos: map<nat, MemberInfo>, ms: seq<Member>): map<nat, MemberInfo>
    decreases |ms|
  {
    if ms == [] then infos
    else
      var m := ms[0];
      var uid := Uid(client, m.client);
      StoreAll(client, if uid == 0 then infos else infos[uid := MemberInfo(uid, m.nick, m.girl, m.color)], ms[1..])
  }

  /** What k gets while these members are sent out: each departure that it is still in to hear, and its own leave packet. */
  ghost function Farewells(client: Clients, name: string, ms: seq<Member>, k: Conn): seq<Packet> {
    if ms == [] then []
    else
      var m := ms[0];
      (if m.nick == "" then [] else Told(client, ms, k, StatusPacket(StatusInfo(name, Offline, m.id, m.nick, m.girl, m.color))))
      + (if ConnectedVia(client, m.client, k) then [LeavePacket(name)] else [])
      + Farewells(client, name, ms[1..], k)
  }

  /** All members of room r, as listed, are linked to it. */
  ghost predicate AllLinked(s: State, r: RoomRef, ms: seq<Member>) {
    && Wired(s.out, s.client) && r in s.rooms && s.rooms[r].members == ms && Distinct(ms)
    && forall j :: 0 <= j < |ms| ==> ms[j].client in s.client && r in s.client[ms[j].client].rooms
  }

  /** Only links, room r and outboxes differ. */
  ghost predicate Emptied(s: State, t: State, r: RoomRef, ms: seq<Member>) {
    && r in s.rooms && t.log == s.log && t.mgr == s.mgr && t.registered == s.registered && t.nextRoom == s.nextRoom
    && t.rooms == s.rooms[r := s.rooms[r].(members := [], membersInfo := StoreAll(s.client, s.rooms[r].membersInfo, ms))]
    && t.client.Keys == s.client.Keys
    && (forall d :: d in s.client ==> t.client[d] == s.client[d].(rooms := t.client[d].rooms))
    && (forall d :: d in s.client ==>
          t.client[d].rooms == if HasClient(ms, d) then Erase(s.client[d].rooms, r) else s.client[d].rooms)
    && t.out.Keys == s.out.Keys
    && forall k :: k in s.out ==> t.out[k] == s.out[k] + Farewells(s.client, s.rooms[r].name, ms, k)
  }

  lemma {:induction false} StoreAlike(client: Clients, client': Clients, infos: map<nat, MemberInfo>, ms: seq<Member>)
    requires client'.Keys == client.Keys && forall d :: d in client ==> client'[d].uid == client[d].uid
    ensures StoreAll(client', infos, ms) == StoreAll(client, infos, ms)
    decreases |ms|
  {
    if ms != [] {
      var m := ms[0];
      var uid := Uid(client, m.client);
      StoreAlike(client, client', if uid == 0 then infos else infos[uid := MemberInfo(uid, m.nick, m.girl, m.color)], ms[1..]);
    }
  }

  lemma HearsAlike(client: Clients, client': Clients, ms: seq<Member>, k: Conn)
    requires SameLines(client, client')
    ensures Hears(client', ms, k) == Hears(client, ms, k)
  {
    forall c ensures ConnectedVia(client', c, k) == ConnectedVia(client, c, k) {
    }
  }

  lemma {:induction false} FarewellsAlike(client: Clients, client': Clients, name: string, ms: seq<Member>, k: Conn)
    requires SameLines(client, client')
    ensures Farewells(client', name, ms, k) == Farewells(client, name, ms, k)
  {
    if ms != [] {
      HearsAlike(client, client', ms, k);
      assert ConnectedVia(client', ms[0].client, k) == ConnectedVia(client, ms[0].client, k);
      hide Hears, ConnectedVia;
      FarewellsAlike(client, client', name, ms[1..], k);
    }
  }

  lemma FirstSeat(ms: seq<Member>)
    requires ms != []
    ensures FindByClient(ms, ms[0].client) == Some(0)
  {
  }

  /** The room and the sessions when one member is sent out. */
  ghost predicate OneGone(s: State, u: State, r: RoomRef, m: Member) {
    && r in s.rooms && s.rooms[r].members != [] && m.client in s.client
    && u.log == s.log && u.mgr == s.mgr && u.registered == s.registered && u.nextRoom == s.nextRoom
    && u.rooms == s.rooms[r := s.rooms[r].(members := s.rooms[r].members[1..],
         membersInfo := Remembered(s.rooms[r], m, s.client[m.client].uid))]
    && u.client == s.client[m.client := s.client[m.client].(rooms := Erase(s.client[m.client].rooms, r))]
  }

  /** What k gets when the first of these members is sent out. */
  ghost function OneWord(client: Clients, name: string, ms: seq<Member>, k: Conn): seq<Packet>
    requires ms != []
  {
    var m := ms[0];
    (if m.nick == "" then [] else Told(client, ms, k, StatusPacket(StatusInfo(name, Offline, m.id, m.nick, m.girl, m.color))))
    + (if ConnectedVia(client, m.client, k) then [LeavePacket(name)] else [])
  }

  lemma OneOut(s: State, r: RoomRef, ms: seq<Member>)
    requires AllLinked(s, r, ms) && ms != []
    ensures var u := SendPacket(LeaveRoom(s, ms[0].client, r), ms[0].client, LeavePacket(s.rooms[r].name));
      && OneGone(s, u, r, ms[0]) && u.out.Keys == s.out.Keys
      && forall k :: k in s.out ==> u.out[k] == s.out[k] + OneWord(s.client, s.rooms[r].name, ms, k)
  {
    hide LeaveRoom, FindByClient, Hears, Erase, OneWord, SendOne, Deliver, Distinct;
    FirstSeat(ms);
    LeaveRoomIs(s, ms[0].client, r, 0);
    assert ms[..0] + ms[1..] == ms[1..];
    OneOutWords(s, r, ms);
  }

  lemma OneOutWords(s: State, r: RoomRef, ms: seq<Member>)
    requires AllLinked(s, r, ms) && ms != []
    requires var l := LeaveRoom(s, ms[0].client, r); var h1 := ForgetRoom(s, ms[0].client, r);
      && l.client == h1.client
      && l.out == if ms[0].nick != "" then Deliver(s.out, h1.client, ms, GoneNotice(s.rooms[r], 0)) else s.out
    ensures var u := SendPacket(LeaveRoom(s, ms[0].client, r), ms[0].client, LeavePacket(s.rooms[r].name));
      && u.out.Keys == s.out.Keys
      && forall k :: k in s.out ==> u.out[k] == s.out[k] + OneWord(s.client, s.rooms[r].name, ms, k)
  {
    hide LeaveRoom, Hears, Erase, Distinct, ForgetRoom;
    var c := ms[0].client;
    var h1 := ForgetRoom(s, c, r);
    var l := LeaveRoom(s, c, r);
    var p := GoneNotice(s.rooms[r], 0);
    var u := SendPacket(l, c, LeavePacket(s.rooms[r].name));
    WiredLinks(s, h1, c, r);
    DeliveredTold(s.out, h1.client, ms, p);
    hide SendOne, Deliver, OneWord, Told, Wired;
    assert l.out.Keys == s.out.Keys;
    forall k | k in s.out ensures k in u.out && u.out[k] == s.out[k] + OneWord(s.client, s.rooms[r].name, ms, k) {
      ToldAlike(s.client, h1.client, ms, k, p);
      OneLine(s, l, u, h1.client, c, k, LeavePacket(s.rooms[r].name));
      OneWordIs(s, r, ms, k);
      Chained(s.out[k], if ms[0].nick == "" then [] else Told(s.client, ms, k, p),
              if ConnectedVia(s.client, c, k) then [LeavePacket(s.rooms[r].name)] else []);
      assert s.out[k] + [] == s.out[k];
    }
    SentKeys(s.out, l.out, l.client, c, LeavePacket(s.rooms[r].name));
  }

  lemma SentKeys(out: Outboxes, out': Outboxes, client: Clients, c: ClientRef, p: Packet)
    requires Wired(out, client) && out'.Keys == out.Keys
    ensures SendOne(out', client, c, p).Keys == out'.Keys
  {
  }

  lemma ToldAlike(client: Clients, client': Clients, ms: seq<Member>, k: Conn, p: Packet)
    requires SameLines(client, client')
    ensures Told(client', ms, k, p) == Told(client, ms, k, p)
  {
    hide Hears;
    HearsAlike(client, client', ms, k);
  }

  lemma OneWordIs(s: State, r: RoomRef, ms: seq<Member>, k: Conn)
    requires r in s.rooms && ms != [] && s.rooms[r].members == ms
    ensures OneWord(s.client, s.rooms[r].name, ms, k)
         == (if ms[0].nick == "" then [] else Told(s.client, ms, k, GoneNotice(s.rooms[r], 0)))
            + (if ConnectedVia(s.client, ms[0].client, k) then [LeavePacket(s.rooms[r].name)] else [])
  {
    hide Told;
  }

  lemma OneLine(s: State, l: State, u: State, client': Clients, c: ClientRef, k: Conn, p: Packet)
    requires l.client == client' && SameLines(s.client, client') && u == SendPacket(l, c, p) && k in l.out
    ensures k in u.out && u.out[k] == l.out[k] + if ConnectedVia(s.client, c, k) then [p] else []
  {
    assert l.out[k] + [] == l.out[k];
  }

  lemma WiredLinks(s: State, h: State, c: ClientRef, r: RoomRef)
    requires Wired(s.out, s.client) && c in s.client && h == ForgetRoom(s, c, r)
    ensures Wired(s.out, h.client) && SameLines(s.client, h.client)
  {
    hide Erase;
  }

  lemma SeatsRest(ms: seq<Member>)
    requires ms != [] && Distinct(ms)
    ensures forall d :: HasClient(ms, d) <==> d == ms[0].client || HasClient(ms[1..], d)
    ensures !HasClient(ms[1..], ms[0].client) && Distinct(ms[1..])
  {
    assert ms == [ms[0]] + ms[1..];
    assert ms[0] in ms;
    forall m | m in ms[1..] ensures m.client != ms[0].client {
      var j :| 0 <= j < |ms[1..]| && ms[1..][j] == m;
      assert ms[j + 1] == m;
    }
  }

  lemma LinkedRest(s: State, u: State, r: RoomRef, ms: seq<Member>)
    requires AllLinked(s, r, ms) && ms != [] && OneGone(s, u, r, ms[0]) && u.out.Keys == s.out.Keys
    ensures AllLinked(u, r, ms[1..]) && SameLines(s.client, u.client)
  {
    SeatsRest(ms);
    hide Erase, HasClient, Remembered;
    forall j | 0 <= j < |ms[1..]| ensures ms[1..][j].client in u.client && r in u.client[ms[1..][j].client].rooms {
      assert ms[1..][j] == ms[j + 1] && ms[j + 1].client != ms[0].client;
    }
  }

  lemma {:induction false} LeaveAllEmpties(s: State, r: RoomRef, ms: seq<Member>)
    requires AllLinked(s, r, ms)
    ensures Emptied(s, LeaveAll(s, r, s.rooms[r].name, ms), r, ms)
    decreases |ms|
  {
    hide AllLinked, LeaveRoom, SendOne, Erase, OneWord, Remembered, Emptied;
    if ms == [] {
      NobodyThere(s, r);
    } else {
      FirstLinked(s, r, ms);
      var name := s.rooms[r].name;
      var u := SendPacket(LeaveRoom(s, ms[0].client, r), ms[0].client, LeavePacket(name));
      OneOut(s, r, ms);
      LinkedRest(s, u, r, ms);
      LeaveAllEmpties(u, r, ms[1..]);
      OneThenRest(s, u, LeaveAll(u, r, name, ms[1..]), r, ms);
    }
  }

  lemma FirstLinked(s: State, r: RoomRef, ms: seq<Member>)
    requires AllLinked(s, r, ms) && ms != []
    ensures r in s.rooms && ms[0].client in s.client && s.rooms[r].members == ms && Distinct(ms)
  {
  }

  lemma NobodyThere(s: State, r: RoomRef)
    requires AllLinked(s, r, [])
    ensures r in s.rooms && Emptied(s, s, r, [])
  {
    assert s.rooms[r := s.rooms[r].(members := [], membersInfo := s.rooms[r].membersInfo)] == s.rooms;
    forall k | k in s.out ensures s.out[k] == s.out[k] + Farewells(s.client, s.rooms[r].name, [], k) {
    }
  }

  lemma OneThenRest(s: State, u: State, t: State, r: RoomRef, ms: seq<Member>)
    requires ms != [] && Distinct(ms) && r in s.rooms && s.rooms[r].members == ms && SameLines(s.client, u.client)
    requires OneGone(s, u, r, ms[0]) && u.out.Keys == s.out.Keys
    requires forall k :: k in s.out ==> u.out[k] == s.out[k] + OneWord(s.client, s.rooms[r].name, ms, k)
    requires Emptied(u, t, r, ms[1..])
    ensures Emptied(s, t, r, ms)
  {
    hide Erase, HasClient, OneWord, Remembered, StoreAll, Distinct, OneGone, SameLines, Farewells;
    GoneFields(s, u, r, ms[0]);
    StoreAlike(s.client, u.client, u.rooms[r].membersInfo, ms[1..]);
    RestStored(s, t, u, r, ms);
    RestLinks(s, u, t, r, ms);
    forall k | k in s.out ensures t.out[k] == s.out[k] + Farewells(s.client, s.rooms[r].name, ms, k) {
      RestHeard(s, u, t, r, ms, k);
    }
  }

  lemma GoneFields(s: State, u: State, r: RoomRef, m: Member)
    requires OneGone(s, u, r, m)
    ensures r in u.rooms && u.rooms[r].name == s.rooms[r].name
    ensures u.client.Keys == s.client.Keys && forall d :: d in s.client ==> u.client[d].uid == s.client[d].uid
    ensures u.log == s.log && u.mgr == s.mgr && u.registered == s.registered && u.nextRoom == s.nextRoom
    ensures forall infos ::
      u.rooms[r := u.rooms[r].(members := [], membersInfo := infos)] == s.rooms[r := s.rooms[r].(members := [], membersInfo := infos)]
  {
    hide Erase, Remembered;
  }

  lemma RestLinks(s: State, u: State, t: State, r: RoomRef, ms: seq<Member>)
    requires ms != [] && Distinct(ms) && OneGone(s, u, r, ms[0]) && t.client.Keys == u.client.Keys
    requires forall d :: d in u.client ==> t.client[d] == u.client[d].(rooms := t.client[d].rooms)
    requires forall d :: d in u.client ==>
      t.client[d].rooms == if HasClient(ms[1..], d) then Erase(u.client[d].rooms, r) else u.client[d].rooms
    ensures t.client.Keys == s.client.Keys
    ensures forall d :: d in s.client ==> t.client[d] == s.client[d].(rooms := t.client[d].rooms)
    ensures forall d :: d in s.client ==>
      t.client[d].rooms == if HasClient(ms, d) then Erase(s.client[d].rooms, r) else s.client[d].rooms
  {
    SeatsRest(ms);
    hide Erase, HasClient, Remembered, Distinct;
  }

  lemma RestStored(s: State, t: State, u: State, r: RoomRef, ms: seq<Member>)
    requires ms != [] && r in s.rooms && s.rooms[r].members == ms && OneGone(s, u, r, ms[0])
    requires StoreAll(u.client, u.rooms[r].membersInfo, ms[1..]) == StoreAll(s.client, u.rooms[r].membersInfo, ms[1..])
    ensures StoreAll(u.client, u.rooms[r].membersInfo, ms[1..]) == StoreAll(s.client, s.rooms[r].membersInfo, ms)
  {
    hide Erase;
  }

  lemma RestHeard(s: State, u: State, t: State, r: RoomRef, ms: seq<Member>, k: Conn)
    requires ms != [] && r in s.rooms && r in u.rooms && SameLines(s.client, u.client) && k in s.out && k in u.out && k in t.out
    requires u.out[k] == s.out[k] + OneWord(s.client, s.rooms[r].name, ms, k)
    requires t.out[k] == u.out[k] + Farewells(u.client, s.rooms[r].name, ms[1..], k)
    ensures t.out[k] == s.out[k] + Farewells(s.client, s.rooms[r].name, ms, k)
  {
    hide Farewells, OneWord;
    var name := s.rooms[r].name;
    FarewellsAlike(s.client, u.client, name, ms[1..], k);
    FarewellsSplit(s.client, name, ms, k);
    Chained(s.out[k], OneWord(s.client, name, ms, k), Farewells(s.client, name, ms[1..], k));
  }

  lemma FarewellsSplit(client: Clients, name: string, ms: seq<Member>, k: Conn)
    requires ms != []
    ensures Farewells(client, name, ms, k) == OneWord(client, name, ms, k) + Farewells(client, name, ms[1..], k)
  {
  }

  lemma Chained(a: seq<Packet>, b: seq<Packet>, c: seq<Packet>)
    ensures (a + b) + c == a + (b + c)
  {
  }

  lemma LinkedAll(s: State, r: RoomRef)
    requires Reachable(s) && r in s.rooms
    ensures AllLinked(s, r, s.rooms[r].members)
  {
    ReachableWorld(s);
    InShape(s, r);
    forall j | 0 <= j < |s.rooms[r].members|
      ensures s.rooms[r].members[j].client in s.client && r in s.client[s.rooms[r].members[j].client].rooms
    {
      assert s.rooms[r].members[j] in s.rooms[r].members;
      Seated(s, r, s.rooms[r].members[j]);
    }
  }

  lemma LinkedAllAwake(s: State, h: State, r: RoomRef, ms: seq<Member>)
    requires AllLinked(s, r, ms) && h.rooms == s.rooms && h.out == s.out && SameLines(s.client, h.client)
    requires forall d :: d in s.client ==> h.client[d].rooms == s.client[d].rooms
    ensures AllLinked(h, r, ms)
  {
    hide Distinct;
  }

  /**
   * The owner or an administrator removes a room: it is registered no more and empty, the departing
   * users' data is stored, every member has been sent out in turn, and the remover is answered.
   */
  lemma RemoveDone(s: State, e: Timed, c: ClientRef, target: string, r: RoomRef)
    requires Reachable(s) && Sends(s, e, c) && e.event.p == RemoveRoomIn(target)
    requires r in s.registered && r in s.rooms && s.rooms[r].name == target
    requires s.client[c].uid != 0 && (s.client[c].uid in {1, 2} || s.client[c].uid == s.rooms[r].ownerId)
    ensures var t := Step(s, e); var room := s.rooms[r]; var h := Awake(s, c, e.now);
      && (forall q :: q in t.registered <==> q in s.registered && q != r)
      && t.rooms == s.rooms[r := room.(members := [], membersInfo := StoreAll(s.client, room.membersInfo, room.members))]
      && t.log == s.log && t.mgr == s.mgr && t.client.Keys == s.client.Keys
      && (forall d :: d in s.client ==> t.client[d] == h.client[d].(rooms := t.client[d].rooms))
      && (forall d, q :: d in s.client ==> (q in t.client[d].rooms <==> q in s.client[d].rooms && q != r))
      && e.event.k in s.out && t.out.Keys == s.out.Keys
      && forall k :: k in s.out ==>
           t.out[k] == s.out[k] + Farewells(s.client, target, room.members, k) + (if k == e.event.k then [RemoveRoomPacket(target)] else [])
  {
    hide Reachable, Step, RoomByName, LeaveAll, SendOne, AllLinked, Erase, Farewells, Wired;
    Processed(s, e, c);
    LineOf(s, e, c);
    AwakeFields(s, c, e.now);
    var h := Awake(s, c, e.now);
    var ms := s.rooms[r].members;
    FoundRegistered(s, h, r);
    LinkedAll(s, r);
    LinkedAllAwake(s, h, r, ms);
    var g := h.(registered := Erase(h.registered, r));
    LinkedAllAwake(h, g, r, ms);
    LeaveAllEmpties(g, r, ms);
    var v := RemoveRoom(h, r);
    RemoveRoomIs(h, r);
    RemoveStepIs(h, c, e.now, target, r);
    hide Emptied, StoreAll, RemoveRoom, SameLines;
    EmptiedRooms(s, g, v, r);
    EmptiedLinks(s, g, v, r);
    EmptiedWords(s, g, v, c, r, e.event.k, target);
  }

  lemma RemoveRoomIs(h: State, r: RoomRef)
    requires r in h.rooms
    ensures RemoveRoom(h, r) == LeaveAll(h.(registered := Erase(h.registered, r)), r, h.rooms[r].name, h.rooms[r].members)
  {
    hide LeaveAll, Erase;
  }

  lemma RemoveStepIs(h: State, c: ClientRef, now: int, target: string, r: RoomRef)
    requires c in h.client && r in h.rooms && RoomByName(h, h.registered, target) == Some(r)
    requires h.client[c].uid != 0 && (h.client[c].uid in {1, 2} || h.client[c].uid == h.rooms[r].ownerId)
    ensures Process(h, c, now, RemoveRoomIn(target)) == SendPacket(RemoveRoom(h, r), c, RemoveRoomPacket(target))
  {
    hide RoomByName, RemoveRoom, SendPacket;
  }

  lemma RegisteredOnceOnly(s: State, r: RoomRef)
    requires Reachable(s)
    ensures forall q :: q in Erase(s.registered, r) <==> q in s.registered && q != r
  {
    ReachableWorld(s);
    EraseNoDup(s.registered, r);
  }

  lemma LinksGone(s: State, r: RoomRef, d: ClientRef)
    requires Reachable(s) && d in s.client && r in s.rooms
    ensures forall q ::
      q in (if HasClient(s.rooms[r].members, d) then Erase(s.client[d].rooms, r) else s.client[d].rooms) <==> q in s.client[d].rooms && q != r
  {
    RoomsOnce(s, d, r);
    ReachableWorld(s);
    if r in s.client[d].rooms { LinkedHas(s, d, r); }
    hide Reachable, WorldOk, Inv, Sound, HasClient, Erase;
  }

  lemma EmptiedRooms(s: State, g: State, v: State, r: RoomRef)
    requires Reachable(s) && r in s.rooms && g.rooms == s.rooms && g.registered == Erase(s.registered, r) && g.log == s.log && g.mgr == s.mgr
    requires g.client.Keys == s.client.Keys && forall d :: d in s.client ==> g.client[d].uid == s.client[d].uid
    requires Emptied(g, v, r, s.rooms[r].members)
    ensures forall q :: q in v.registered <==> q in s.registered && q != r
    ensures v.rooms == s.rooms[r := s.rooms[r].(members := [],
                                                membersInfo := StoreAll(s.client, s.rooms[r].membersInfo, s.rooms[r].members))]
    ensures v.log == s.log && v.mgr == s.mgr && v.client.Keys == s.client.Keys
  {
    hide Reachable, Erase, HasClient, Farewells, StoreAll;
    RegisteredOnceOnly(s, r);
    StoreAlike(s.client, g.client, s.rooms[r].membersInfo, s.rooms[r].members);
  }

  lemma EmptiedLinks(s: State, g: State, v: State, r: RoomRef)
    requires Reachable(s) && r in s.rooms && g.client.Keys == s.client.Keys
    requires forall d :: d in s.client ==> g.client[d].rooms == s.client[d].rooms
    requires Emptied(g, v, r, s.rooms[r].members)
    ensures forall d :: d in s.client ==> d in v.client && v.client[d] == g.client[d].(rooms := v.client[d].rooms)
    ensures forall d, q :: d in s.client ==> (q in v.client[d].rooms <==> q in s.client[d].rooms && q != r)
  {
    hide Reachable, Erase, HasClient, Farewells, StoreAll;
    forall d | d in s.client ensures forall q :: q in v.client[d].rooms <==> q in s.client[d].rooms && q != r {
      LinksGone(s, r, d);
    }
  }

  lemma EmptiedWords(s: State, g: State, v: State, c: ClientRef, r: RoomRef, k: Conn, target: string)
    requires c in s.client && r in s.rooms && s.client[c].connection == Some(k) && k in s.out && Wired(s.out, s.client)
    requires g.out == s.out && g.rooms == s.rooms && SameLines(s.client, g.client) && s.rooms[r].name == target
    requires Emptied(g, v, r, s.rooms[r].members)
    ensures var t := SendPacket(v, c, RemoveRoomPacket(target));
      && t.out.Keys == s.out.Keys
      && forall q :: q in s.out ==>
           t.out[q] == s.out[q] + Farewells(s.client, target, s.rooms[r].members, q) + (if q == k then [RemoveRoomPacket(target)] else [])
  {
    hide Erase, HasClient, SendOne, Farewells, StoreAll, Wired;
    LinesAfter(s, g, v);
    SentTo(s, v.out, v.client, c, RemoveRoomPacket(target));
    CopyToSelf(s, c, k, RemoveRoomPacket(target));
    forall q | q in s.out ensures v.out[q] == s.out[q] + Farewells(s.client, target, s.rooms[r].members, q) {
      FarewellsAlike(s.client, g.client, target, s.rooms[r].members, q);
    }
  }

  lemma LinesAfter(s: State, g: State, v: State)
    requires SameLines(s.client, g.client) && v.client.Keys == g.client.Keys
    requires forall d :: d in g.client ==> v.client[d] == g.client[d].(rooms := v.client[d].rooms)
    ensures SameLines(s.client, v.client)
  {
  }
}
