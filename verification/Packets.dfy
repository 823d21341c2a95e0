/** The packets that concern one room or one session, as events: exactly what they change and whom they reach. */
module Packets {
  import opened Types
  import opened Members
  import opened Presence
  import opened RateLimit
  import opened Delivery
  import opened Chat
  import opened Rights
  import opened World
  import opened WorldSteps
  import opened PacketSteps
  import opened Sessions
  import opened Transfers
  import opened Invariant
  import opened Runs
  import opened Theorems
  import opened Talking
  import opened Effects
  import opened Commands

  /** Client c, behind its connection, sends a valid packet. */
  predicate Sends(s: State, e: Timed, c: ClientRef) {
    && e.event.Receive? && e.event.p != Invalid
    && e.event.k in s.mgr.connectionToClient && s.mgr.connectionToClient[e.event.k] == c && c in s.client
  }

  /** The state once the packet counts as a sign of life. */
  function Awake(s: State, c: ClientRef, now: int): State
    requires c in s.client
  {
    s.(now := now, client := s.client[c := s.client[c].(lastPacketTime := now)])
  }

  lemma AwakeFields(s: State, c: ClientRef, now: int)
    requires c in s.client
    ensures var h := Awake(s, c, now);
      && h.rooms == s.rooms && h.out == s.out && h.log == s.log && h.mgr == s.mgr && h.registered == s.registered
      && h.nextRoom == s.nextRoom && h.cfg == s.cfg
      && h.client == s.client[c := s.client[c].(lastPacketTime := now)] && SameLines(s.client, h.client) && OnlyHeard(s, h, c, now)
  {
  }

  lemma Processed(s: State, e: Timed, c: ClientRef)
    requires Sends(s, e, c)
    ensures Step(s, e) == Process(Awake(s, c, e.now), c, e.now, e.event.p)
  {
    hide Process;
  }

  /** Whatever else a valid packet does, its sender has been heard, unless the packet revives another session. */
  lemma HeardNow(s: State, e: Timed, c: ClientRef)
    requires Reachable(s) && Valid(s, e) && Sends(s, e, c)
    requires !(e.event.p.Auth? && e.event.p.token != "" && e.event.p.token in s.mgr.tokenToClient && s.mgr.tokenToClient[e.event.p.token] != c)
    ensures c in Step(s, e).client && Step(s, e).client[c].lastPacketTime == e.now
  {
    hide Reachable, Valid, Process, Step, Limited, Fine, WorldOk;
    Behind(s, e.event.k);
    ReachableInv(s);
    TimeMoves(s, e);
    TimePasses(s, e.now);
    var h := Awake(s, c, e.now);
    AwakeOk(s, c, e.now);
    Processed(s, e, c);
    NotReviving(s, e, c);
    ProcessFine(h, c, e.now, e.event.p);
    ClockKept(h, Limited(h, c, e.now, e.event.p), Step(s, e), c, e.now, e.event.p);
  }

  lemma AwakeOk(s: State, c: ClientRef, now: int)
    requires Inv(s.(now := now)) && c in s.mgr.clients && c in s.client
    ensures WorldOk(Awake(s, c, now)) && |Awake(s, c, now).mgr.clients| < U32 - 1
  {
    HeardInv(s.(now := now), c);
    InvSound(Awake(s, c, now));
  }

  lemma NotReviving(s: State, e: Timed, c: ClientRef)
    requires Sends(s, e, c)
    requires !(e.event.p.Auth? && e.event.p.token != "" && e.event.p.token in s.mgr.tokenToClient && s.mgr.tokenToClient[e.event.p.token] != c)
    ensures !Revives(Awake(s, c, e.now), c, e.event.p)
  {
  }

  lemma ClockKept(h: State, l: State, t: State, c: ClientRef, now: int, p: InPacket)
    requires c in h.client && h.client[c].lastPacketTime == now && l == Limited(h, c, now, p) && Fine(l, t)
    ensures c in t.client && t.client[c].lastPacketTime == now
  {
    hide WorldOk, IsBlank, AfterMessage;
  }

  /** An invalid packet does nothing, not even count as a sign of life. */
  lemma InvalidIgnored(s: State, e: Timed)
    requires e.event.Receive? && (e.event.p == Invalid || e.event.k !in s.mgr.connectionToClient)
    ensures Step(s, e) == s.(now := e.now)
  {
  }

  // ---- answers ----

  lemma LineOf(s: State, e: Timed, c: ClientRef)
    requires Reachable(s) && Sends(s, e, c)
    ensures s.client[c].connection == Some(e.event.k) && e.event.k in s.out && Wired(s.out, s.client)
  {
    Behind(s, e.event.k);
    WiredHere(s);
    hide Reachable;
  }

  lemma Replied(s: State, e: Timed, c: ClientRef, p: Packet)
    requires Reachable(s) && Sends(s, e, c)
    ensures OnlyAnswered(s, SendPacket(Awake(s, c, e.now), c, p), c, e.event.k, e.now, [p])
  {
    LineOf(s, e, c);
    hide Reachable, Wired;
  }

  /** Pings, and packets with nothing to do, only count as a sign of life. */
  lemma IdleIsLife(s: State, e: Timed, c: ClientRef)
    requires Sends(s, e, c) && e.event.p == Idle
    ensures Step(s, e) == s.(now := e.now, client := s.client[c := s.client[c].(lastPacketTime := e.now)])
  {
  }

  // ---- rooms by name ----

  /** Client c is member i of room r, which has the name. */
  ghost predicate Inside(s: State, c: ClientRef, name: string, r: RoomRef, i: nat) {
    && c in s.client && r in s.client[c].rooms && r in s.rooms && s.rooms[r].name == name
    && i < |s.rooms[r].members| && s.rooms[r].members[i].client == c
  }

  ghost predicate Outside(s: State, c: ClientRef, name: string) {
    c in s.client && forall r :: r in s.client[c].rooms && r in s.rooms ==> s.rooms[r].name != name
  }

  lemma FoundInside(s: State, h: State, c: ClientRef, r: RoomRef, i: nat)
    requires Reachable(s) && h.rooms == s.rooms && r in s.rooms && Inside(s, c, s.rooms[r].name, r, i)
    ensures RoomByName(h, s.client[c].rooms, s.rooms[r].name) == Some(r) && FindMember(h, r, c) == Some(i)
  {
    hide Reachable, RoomByName, FindByClient;
    HomeRoom(s, c, r, i);
    FoundByName(h, s.client[c].rooms, r);
  }

  /** No registered room has the name. */
  ghost predicate NoRoom(s: State, name: string) {
    forall r :: r in s.registered && r in s.rooms ==> s.rooms[r].name != name
  }

  lemma FoundRegistered(s: State, h: State, r: RoomRef)
    requires Reachable(s) && h.rooms == s.rooms && r in s.registered && r in s.rooms
    ensures RoomByName(h, s.registered, s.rooms[r].name) == Some(r)
  {
    hide Reachable, RoomByName;
    forall q | q in s.registered && q in s.rooms && s.rooms[q].name == s.rooms[r].name ensures q == r {
      NamesUnique(s, q, r);
    }
    FoundByName(h, s.registered, r);
  }

  // ---- the online list ----

  lemma OnlineListDone(s: State, e: Timed, c: ClientRef, target: string, r: RoomRef, i: nat)
    requires Reachable(s) && Sends(s, e, c) && e.event.p == OnlineListIn(target) && Inside(s, c, target, r, i)
    ensures OnlyAnswered(s, Step(s, e), c, e.event.k, e.now, [OnlineListPacket(target, OnlineList(target, s.rooms[r].members))])
  {
    hide Reachable, Step, RoomByName, OnlineList, SendPacket, FindByClient;
    Processed(s, e, c);
    AwakeFields(s, c, e.now);
    FoundInside(s, Awake(s, c, e.now), c, r, i);
    Replied(s, e, c, OnlineListPacket(target, OnlineList(target, s.rooms[r].members)));
  }

  lemma OnlineListRefused(s: State, e: Timed, c: ClientRef, target: string)
    requires Reachable(s) && Sends(s, e, c) && e.event.p == OnlineListIn(target) && Outside(s, c, target)
    ensures OnlyAnswered(s, Step(s, e), c, e.event.k, e.now, [ErrorPacket(NotFound, target)])
  {
    hide Reachable, Step, RoomByName, OnlineList, SendPacket;
    Processed(s, e, c);
    AwakeFields(s, c, e.now);
    Replied(s, e, c, ErrorPacket(NotFound, target));
  }

  // ---- login ----

  /** An auth packet whose token, if any, is nobody else's. */
  predicate LogsIn(s: State, e: Timed, c: ClientRef, outcome: LoginOutcome) {
    && Sends(s, e, c) && e.event.p.Auth? && e.event.p.outcome == outcome
    && (e.event.p.token == "" || e.event.p.token !in s.mgr.tokenToClient || s.mgr.tokenToClient[e.event.p.token] == c)
  }

  /** A login that was not tried or found nobody tells the session as it is. */
  lemma NoLoginDone(s: State, e: Timed, c: ClientRef)
    requires Reachable(s) && LogsIn(s, e, c, NoLogin)
    ensures var cl := s.client[c]; OnlyAnswered(s, Step(s, e), c, e.event.k, e.now, [AuthPacket(cl.uid, cl.name, cl.token)])
  {
    hide Reachable, Step, SendPacket;
    Processed(s, e, c);
    AwakeFields(s, c, e.now);
    Replied(s, e, c, AuthPacket(s.client[c].uid, s.client[c].name, s.client[c].token));
  }

  lemma LoginFails(s: State, e: Timed, c: ClientRef, code: ErrorCode)
    requires Reachable(s) && LogsIn(s, e, c, LoginFailed(code))
    ensures OnlyAnswered(s, Step(s, e), c, e.event.k, e.now, [ErrorPacket(code, "")])
  {
    hide Reachable, Step, SendPacket;
    Processed(s, e, c);
    AwakeFields(s, c, e.now);
    Replied(s, e, c, ErrorPacket(code, ""));
  }

  /** A login gives the session the account's id, name and looks, and keeps token, rooms and connection. */
  lemma LoginDone(s: State, e: Timed, c: ClientRef, uid: nat, name: string, girl: bool, color: string)
    requires Reachable(s) && LogsIn(s, e, c, LoggedIn(uid, name, girl, color))
    ensures var t := Step(s, e); var k := e.event.k;
      && t.client == s.client[c := s.client[c].(uid := uid, name := name, girl := girl, color := color, lastPacketTime := e.now)]
      && t.mgr == s.mgr && t.registered == s.registered && t.rooms == s.rooms && t.log == s.log
      && k in s.out && t.out == s.out[k := s.out[k] + [AuthPacket(uid, name, s.client[c].token)]]
  {
    hide Reachable, Step, Wired, Process;
    LineOf(s, e, c);
    Processed(s, e, c);
    AwakeFields(s, c, e.now);
    LoginRuns(Awake(s, c, e.now), c, e.now, e.event.p.token, uid, name, girl, color);
  }

  lemma LoginRuns(h: State, c: ClientRef, now: int, token: string, uid: nat, name: string, girl: bool, color: string)
    requires c in h.client && (token == "" || token !in h.mgr.tokenToClient || h.mgr.tokenToClient[token] == c)
    ensures Process(h, c, now, Auth(token, LoggedIn(uid, name, girl, color))) ==
      SendPacket(h.(client := h.client[c := h.client[c].(uid := uid, name := name, girl := girl, color := color)]), c,
                 AuthPacket(uid, name, h.client[c].token))
  {
    hide SendPacket, ReviveClient;
  }

  // ---- leaving ----

  /** What a departure stores: the nick and the looks of a user that is no guest. */
  function Remembered(room: Room, m: Member, uid: nat): map<nat, MemberInfo> {
    if uid == 0 then room.membersInfo else room.membersInfo[uid := MemberInfo(uid, m.nick, m.girl, m.color)]
  }

  lemma LeaveRefused(s: State, e: Timed, c: ClientRef, target: string)
    requires Reachable(s) && Sends(s, e, c) && e.event.p == LeaveIn(target) && Outside(s, c, target)
    ensures OnlyAnswered(s, Step(s, e), c, e.event.k, e.now, [ErrorPacket(NotFound, target)])
  {
    hide Reachable, Step, RoomByName, SendPacket, LeaveRoom;
    Processed(s, e, c);
    AwakeFields(s, c, e.now);
    Replied(s, e, c, ErrorPacket(NotFound, target));
  }

  /** The member goes, its data is stored, the link goes; those in the room hear of it, and the leaver gets its answer. */
  lemma LeaveDone(s: State, e: Timed, c: ClientRef, target: string, r: RoomRef, i: nat)
    requires Reachable(s) && Sends(s, e, c) && e.event.p == LeaveIn(target) && Inside(s, c, target, r, i)
    ensures var t := Step(s, e); var room := s.rooms[r]; var m := room.members[i];
      && t.rooms == s.rooms[r := room.(members := room.members[..i] + room.members[i + 1..],
                                       membersInfo := Remembered(room, m, s.client[c].uid))]
      && t.log == s.log && Unlinks(s, t, c, e.now, r, c) && e.event.k in s.out && t.out.Keys == s.out.Keys
      && forall q :: q in s.out ==>
           t.out[q] == s.out[q] + (if m.nick != "" then Tell(s, r, q, GoneNotice(room, i)) else [])
                                + (if q == e.event.k then [LeavePacket(target)] else [])
  {
    hide Reachable, Step, RoomByName, SendOne, LeaveRoom, FindByClient, Listens, Erase, Wired, Unlinks;
    Processed(s, e, c);
    LineOf(s, e, c);
    var h := Awake(s, c, e.now);
    AwakeFields(s, c, e.now);
    FoundInside(s, h, c, r, i);
    LeaveRoomIs(h, c, r, i);
    var h1 := ForgetRoom(h, c, r);
    var u := LeaveRoom(h, c, r);
    LinesForgotten(s, h, c, r);
    GoneAndAnswered(s, u, h1.client, c, r, i, e.event.k, target);
    hide Deliver, GoneNotice, Remembered, Tell, ForgetRoom, SameLines;
    KickLinks(s, h, u, c, e.now, r, c);
    UnlinksSent(s, u, SendPacket(u, c, LeavePacket(target)), c, e.now, r, c);
  }

  /** The notice to those who listen, then the answer to the leaver. */
  lemma GoneAndAnswered(s: State, u: State, client': Clients, c: ClientRef, r: RoomRef, i: nat, k: Conn, target: string)
    requires Reachable(s) && c in s.client && s.client[c].connection == Some(k) && Wired(s.out, s.client)
    requires r in s.rooms && i < |s.rooms[r].members|
    requires u.client == client' && SameLines(s.client, client')
    requires u.out == if s.rooms[r].members[i].nick != "" then Deliver(s.out, client', s.rooms[r].members, GoneNotice(s.rooms[r], i)) else s.out
    ensures var t := SendPacket(u, c, LeavePacket(target));
      && t.out.Keys == s.out.Keys
      && forall q :: q in s.out ==>
           t.out[q] == s.out[q] + (if s.rooms[r].members[i].nick != "" then Tell(s, r, q, GoneNotice(s.rooms[r], i)) else [])
                                + (if q == k then [LeavePacket(target)] else [])
  {
    hide Reachable, SendOne, Deliver, Listens, Wired, GoneNotice, Tell, SameLines;
    SpokenTo(s, client', r, GoneNotice(s.rooms[r], i));
    SentTo(s, u.out, u.client, c, LeavePacket(target));
    CopyToSelf(s, c, k, LeavePacket(target));
    forall q | q in s.out ensures s.out[q] + [] == s.out[q] {
    }
  }

  lemma LeaveRoomIs(h: State, c: ClientRef, r: RoomRef, i: nat)
    requires c in h.client && r in h.client[c].rooms && r in h.rooms && FindMember(h, r, c) == Some(i)
    ensures var t := LeaveRoom(h, c, r); var room := h.rooms[r]; var m := room.members[i];
      && t.rooms == h.rooms[r := room.(members := room.members[..i] + room.members[i + 1..],
                                       membersInfo := Remembered(room, m, h.client[c].uid))]
      && t.log == h.log && t.mgr == h.mgr && t.registered == h.registered && t.nextRoom == h.nextRoom
      && t.client == h.client[c := h.client[c].(rooms := Erase(h.client[c].rooms, r))]
      && t.out == if m.nick != "" then Deliver(h.out, ForgetRoom(h, c, r).client, room.members, GoneNotice(room, i)) else h.out
  {
    hide Deliver, FindByClient, Erase;
  }

  // ---- creating and removing a room ----

  lemma CreateRefused(s: State, e: Timed, c: ClientRef, target: string, legalName: bool)
    requires Reachable(s) && Sends(s, e, c) && e.event.p == CreateRoomIn(target, legalName)
    requires s.client[c].uid == 0 || !legalName || !NoRoom(s, target)
    ensures OnlyAnswered(s, Step(s, e), c, e.event.k, e.now,
              [ErrorPacket(if s.client[c].uid == 0 then AccessDenied else if !legalName then InvalidTarget else AlreadyExists, target)])
  {
    hide Reachable, Step, RoomByName, SendPacket, CreateRoom;
    Processed(s, e, c);
    AwakeFields(s, c, e.now);
    Replied(s, e, c, ErrorPacket(if s.client[c].uid == 0 then AccessDenied else if !legalName then InvalidTarget else AlreadyExists, target));
    if r :| r in s.registered && r in s.rooms && s.rooms[r].name == target { FoundRegistered(s, Awake(s, c, e.now), r); }
  }

  /** A new, empty room that belongs to its creator. */
  lemma CreateDone(s: State, e: Timed, c: ClientRef, target: string)
    requires Reachable(s) && Sends(s, e, c) && e.event.p == CreateRoomIn(target, true)
    requires s.client[c].uid != 0 && NoRoom(s, target)
    ensures var t := Step(s, e); var k := e.event.k; var n := s.nextRoom;
      && t.rooms == s.rooms[n := Room(target, s.client[c].uid, 0, [], map[], {}, {}, {}, {}, [], 0)]
      && t.registered == s.registered + [n] && t.log == s.log[n := []] && t.mgr == s.mgr
      && t.client == s.client[c := s.client[c].(lastPacketTime := e.now)]
      && k in s.out && t.out == s.out[k := s.out[k] + [CreateRoomPacket(target)]]
  {
    hide Reachable, Step, RoomByName, Wired;
    Processed(s, e, c);
    LineOf(s, e, c);
    AwakeFields(s, c, e.now);
    assert RoomByName(Awake(s, c, e.now), s.registered, target).None?;
  }

  lemma RemoveRefused(s: State, e: Timed, c: ClientRef, target: string)
    requires Reachable(s) && Sends(s, e, c) && e.event.p == RemoveRoomIn(target)
    requires s.client[c].uid == 0 || NoRoom(s, target)
      || (s.client[c].uid !in {1, 2} &&
            exists r :: r in s.registered && r in s.rooms && s.rooms[r].name == target && s.rooms[r].ownerId != s.client[c].uid)
    ensures OnlyAnswered(s, Step(s, e), c, e.event.k, e.now,
              [ErrorPacket(if s.client[c].uid != 0 && NoRoom(s, target) then NotFound else AccessDenied, target)])
  {
    hide Reachable, Step, RoomByName, SendPacket, RemoveRoom;
    Processed(s, e, c);
    AwakeFields(s, c, e.now);
    Replied(s, e, c, ErrorPacket(if s.client[c].uid != 0 && NoRoom(s, target) then NotFound else AccessDenied, target));
    if r :| r in s.registered && r in s.rooms && s.rooms[r].name == target && s.rooms[r].ownerId != s.client[c].uid {
      FoundRegistered(s, Awake(s, c, e.now), r);
    }
  }
}
