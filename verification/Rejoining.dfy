/** A known user that leaves a room and joins it again finds nick and looks as they were. */
module Rejoining {
  import opened Types
  import opened Members
  import opened MemberIds
  import opened Presence
  import opened Delivery
  import opened Chat
  import opened World
  import opened WorldSteps
  import opened PacketSteps
  import opened Sessions
  import opened Transfers
  import opened Invariant
  import opened Runs
  import opened Lifecycle
  import opened Theorems
  import opened Talking
  import opened Rights
  import opened Authority

  /** Member m left alone its room is without it, and its data is stored under its user id. */
  ghost predicate LeftBehind(room: Room, room': Room, m: Member, uid: nat) {
    && SameRules(room, room') && Without(room.members, room'.members, m.client) && Distinct(room'.members)
    && uid in room'.membersInfo && room'.membersInfo[uid] == MemberInfo(uid, m.nick, m.girl, m.color)
  }

  lemma LeavesBehind(room: Room, m: Member, uid: nat)
    requires Distinct(room.members) && m in room.members && uid != 0
    ensures LeftBehind(room, LeftRoom(room, m.client, uid), m, uid)
  {
    LeftRoomWithout(room, m.client, uid);
    LeftRoomStored(room, m.client, uid);
    LeftRoomMild(room, m.client, uid);
  }

  /** Nobody but the member that left held its nick. */
  lemma NickIsFree(room: Room, room': Room, m: Member, uid: nat)
    requires Distinct(room.members) && m in room.members && LeftBehind(room, room', m, uid)
    ensures FindByNick(room'.members, m.nick).None?
  {
    var h := FindByNick(room'.members, m.nick);
    if h.Some? {
      var n := room'.members[h.value];
      assert n in room'.members;
      SameIdSameMember(room.members, n, m);
    }
  }

  /** The session and the room right after leaving. */
  ghost predicate LeftSession(s: State, t: State, c: ClientRef, r: RoomRef, m: Member) {
    && c in s.client && c in t.client && r in s.rooms && r in t.rooms
    && t.client[c] == s.client[c].(rooms := Erase(s.client[c].rooms, r), lastPacketTime := t.client[c].lastPacketTime)
    && LeftBehind(s.rooms[r], t.rooms[r], m, s.client[c].uid)
    && t.registered == s.registered && t.rooms.Keys == s.rooms.Keys
    && (forall q :: q in s.rooms ==> t.rooms[q].name == s.rooms[q].name)
    && t.mgr == s.mgr
  }

  lemma LeaveIs(s: State, e: Timed, c: ClientRef, r: RoomRef, m: Member)
    requires Reachable(s) && Valid(s, e) && Acts(s, e, c) && e.event.p.LeaveIn?
    requires r in s.client[c].rooms && r in s.rooms && s.rooms[r].name == e.event.p.target
    requires m in s.rooms[r].members && m.client == c && s.client[c].uid != 0
    ensures LeftSession(s, Step(s, e), c, r, m)
  {
    RoomDistinct(s, r);
    NamesAmong(s, c, r);
    var h := s.(now := e.now, client := s.client[c := s.client[c].(lastPacketTime := e.now)]);
    FoundByName(h, s.client[c].rooms, r);
    LeavesBehind(s.rooms[r], m, s.client[c].uid);
    RemoveMemberRooms(ForgetRoom(h, c, r), r, c);
    RemoveKeepsRest(ForgetRoom(h, c, r), r, c);
    LeaveStepIs(s, e, c, r);
    hide Reachable, Valid, Step, RemoveMember, LeftRoom, LeftBehind, Erase, SendOne, Distinct, RoomByName;
  }

  lemma RemoveKeepsRest(s: State, r: RoomRef, c: ClientRef)
    requires r in s.rooms
    ensures var t := RemoveMember(s, r, c); t.registered == s.registered && t.mgr == s.mgr && t.client == s.client
  {
    hide Deliver;
  }

  lemma LeaveStepIs(s: State, e: Timed, c: ClientRef, r: RoomRef)
    requires Acts(s, e, c) && e.event.p.LeaveIn? && r in s.client[c].rooms
    requires var h := s.(now := e.now, client := s.client[c := s.client[c].(lastPacketTime := e.now)]);
      RoomByName(h, s.client[c].rooms, e.event.p.target) == Some(r)
    ensures var h := s.(now := e.now, client := s.client[c := s.client[c].(lastPacketTime := e.now)]);
      Step(s, e) == SendPacket(RemoveMember(ForgetRoom(h, c, r), r, c), c, LeavePacket(e.event.p.target))
  {
    hide RoomByName, RemoveMember, SendPacket;
  }

  // ---- coming in again ----

  /** A nick that is free and not forbidden to the client. */
  ghost predicate NickFor(room: Room, uid: nat, nick: string) {
    nick != "" && FindByNick(room.members, nick).None? && (IsModer(room, uid) || nick !in room.bannedNicks)
  }

  /** The new member with the looks and the nick of its stored data. */
  function Named(m: Member, info: MemberInfo): Member {
    m.(nick := info.nick, girl := info.girl, color := info.color)
  }

  lemma AutoLoginIs(s: State, c: ClientRef, r: RoomRef, i: nat)
    requires c in s.client && r in s.rooms && i < |s.rooms[r].members|
    requires NickFor(s.rooms[r], s.client[c].uid, LoginInfo(s.rooms[r], s.client[c]).nick)
    ensures var info := LoginInfo(s.rooms[r], s.client[c]); var (t, nick) := AutoLogin(s, c, r, i);
      nick == info.nick && t == PutMember(s, r, i, s.rooms[r].members[i].(girl := info.girl, color := info.color))
  {
    hide LoginInfo, IsModer, FindByNick;
  }

  lemma SetNickIs(s: State, r: RoomRef, i: nat, nick: string)
    requires r in s.rooms && i < |s.rooms[r].members| && s.rooms[r].members[i].nick == "" && nick != ""
    requires IsModer(s.rooms[r], UidOf(s, s.rooms[r].members[i].client)) || nick !in s.rooms[r].bannedNicks
    ensures SetNick(s, r, i, nick).rooms == PutMember(s, r, i, s.rooms[r].members[i].(nick := nick)).rooms
  {
    hide IsModer, Deliver;
  }

  lemma EnterIs(s: State, c: ClientRef, r: RoomRef, i: nat)
    requires c in s.client && r in s.rooms && i < |s.rooms[r].members|
    requires s.rooms[r].members[i].client == c && s.rooms[r].members[i].nick == ""
    requires NickFor(s.rooms[r], s.client[c].uid, LoginInfo(s.rooms[r], s.client[c]).nick)
    ensures var info := LoginInfo(s.rooms[r], s.client[c]); var t := Enter(s, c, r, i, true);
      r in t.rooms && t.rooms[r] == s.rooms[r].(members := s.rooms[r].members[i := Named(s.rooms[r].members[i], info)])
  {
    hide AutoLogin, SetNick, LoginInfo, IsModer, SendOne, FindByNick;
    var info := LoginInfo(s.rooms[r], s.client[c]);
    AutoLoginIs(s, c, r, i);
    var s1 := AutoLogin(s, c, r, i).0;
    SameModer(s.rooms[r], s1.rooms[r], s.client[c].uid);
    var s2 := SendPacket(s1, c, SystemPacket(s.rooms[r].name));
    SetNickIs(s2, r, i, info.nick);
  }

  lemma SameModer(room: Room, room': Room, uid: nat)
    requires room'.ownerId == room.ownerId && room'.moderators == room.moderators
    ensures IsModer(room', uid) == IsModer(room, uid)
  {
  }

  lemma WelcomeIs(s: State, c: ClientRef, r: RoomRef, i: nat, loadHistory: bool)
    requires c in s.client && r in s.rooms && i < |s.rooms[r].members|
    requires s.rooms[r].members[i].client == c && s.rooms[r].members[i].nick == ""
    requires NickFor(s.rooms[r], s.client[c].uid, LoginInfo(s.rooms[r], s.client[c]).nick)
    ensures var info := LoginInfo(s.rooms[r], s.client[c]); var t := Welcome(s, c, r, i, true, loadHistory);
      r in t.rooms && t.rooms[r] == s.rooms[r].(members := s.rooms[r].members[i := Named(s.rooms[r].members[i], info)])
  {
    hide Enter, LoginInfo, NickFor, SendOne, OnlineList, SendMessages;
    var room := s.rooms[r];
    var s1 := SendPacket(s, c, JoinPacket(room.name, room.members[i].id, room.members[i].nick));
    var s2 := SendPacket(s1, c, OnlineListPacket(room.name, OnlineList(room.name, room.members)));
    var s3 := if loadHistory then SendHistory(s2, c, room.name, room.history) else s2;
    assert s3 == s.(out := s3.out);
    EnterIs(s3, c, r, i);
  }

  /** A client that is let in stands last, without a nick, and its session has one more room. */
  lemma LetIn(s: State, c: ClientRef, r: RoomRef)
    requires c in s.client && r in s.rooms && |s.rooms[r].members| < U32 - 1 && !BannedFrom(s.rooms[r], s.client[c])
    ensures var (t, outcome) := JoinRoom(s, c, r); var room := s.rooms[r];
      && outcome == Joined && r in t.rooms && c in t.client
      && t.client[c] == s.client[c].(rooms := s.client[c].rooms + [r])
      && exists id :: t.rooms[r] == room.(nextMemberId := id, members := room.members + [Member(id, c, "", Online, false, "gray")])
  {
    hide NextMemberId, BannedFrom;
    var id := NextMemberId(s.rooms[r].members, s.rooms[r].nextMemberId);
    assert JoinRoom(s, c, r).0.rooms[r] ==
      s.rooms[r].(nextMemberId := id, members := s.rooms[r].members + [Member(id, c, "", Online, false, "gray")]);
  }

  lemma NickStaysFree(room: Room, room': Room, m: Member, uid: nat, nick: string)
    requires NickFor(room, uid, nick) && m.nick == ""
    requires room' == room.(nextMemberId := room'.nextMemberId, members := room.members + [m])
    ensures NickFor(room', uid, nick)
  {
    hide IsModer;
    SameModer(room, room', uid);
    forall n | n in room'.members ensures n.nick != nick {
      assert n in room.members || n == m;
    }
  }

  /** The room after the join: one more member, with the stored nick and looks. */
  ghost predicate BackWith(room: Room, room': Room, c: ClientRef, info: MemberInfo) {
    exists id :: room'.members == room.members + [Member(id, c, info.nick, Online, info.girl, info.color)]
  }

  lemma JoinBack(s: State, c: ClientRef, target: string, loadHistory: bool, r: RoomRef)
    requires c in s.client && r in s.rooms && |s.rooms[r].members| < U32 - 1 && !BannedFrom(s.rooms[r], s.client[c])
    requires RoomByName(s, s.client[c].rooms, target).None? && RoomByName(s, s.registered, target) == Some(r)
    requires NickFor(s.rooms[r], s.client[c].uid, LoginInfo(s.rooms[r], s.client[c]).nick)
    ensures var t := OnJoin(s, c, target, true, loadHistory);
      r in t.rooms && BackWith(s.rooms[r], t.rooms[r], c, LoginInfo(s.rooms[r], s.client[c]))
  {
    hide JoinRoom, Welcome, NickFor, BannedFrom, RoomByName;
    var room := s.rooms[r];
    var info := LoginInfo(room, s.client[c]);
    LetIn(s, c, r);
    var s1 := JoinRoom(s, c, r).0;
    var id :| s1.rooms[r] == room.(nextMemberId := id, members := room.members + [Member(id, c, "", Online, false, "gray")]);
    var m := Member(id, c, "", Online, false, "gray");
    var i := |room.members|;
    NickStaysFree(room, s1.rooms[r], m, s.client[c].uid, info.nick);
    assert s1.rooms[r].members[i] == m;
    assert LoginInfo(s1.rooms[r], s1.client[c]) == info;
    WelcomeIs(s1, c, r, i, loadHistory);
    assert (room.members + [m])[i := Named(m, info)] == room.members + [Named(m, info)];
    assert Named(m, info) == Member(id, c, info.nick, Online, info.girl, info.color);
  }

  /** A client that is not in a registered room is in no room of that name. */
  lemma NotInside(s: State, c: ClientRef, r: RoomRef)
    requires Reachable(s) && c in s.client && r in s.registered && r in s.rooms && r !in s.client[c].rooms
    ensures RoomByName(s, s.client[c].rooms, s.rooms[r].name).None?
    ensures RoomByName(s, s.registered, s.rooms[r].name) == Some(r)
  {
    ReachableWorld(s);
    assert ClientOk(s, c);
    hide Reachable, Inv, Sound, RoomOk, HistoryOk, Wired, RoomByName;
    FoundByName(s, s.registered, r);
    forall q | q in s.client[c].rooms && q in s.rooms ensures s.rooms[q].name != s.rooms[r].name {
      assert q in s.registered;
    }
  }

  lemma {:induction false} SameNames(s: State, t: State, refs: seq<RoomRef>, name: string)
    requires t.rooms == s.rooms
    ensures RoomByName(t, refs, name) == RoomByName(s, refs, name)
  {
    if refs != [] { SameNames(s, t, refs[1..], name); }
  }

  lemma RoomHasSpace(s: State, r: RoomRef)
    requires Reachable(s) && r in s.rooms
    ensures |s.rooms[r].members| < U32 - 1
  {
    ReachableWorld(s);
    MembersAtMostClients(s, r);
  }

  predicate Rejoins(e: Timed, target: string) {
    e.event.Receive? && e.event.p.JoinIn? && e.event.p.target == target && e.event.p.autoLogin
  }

  lemma JoinAgain(s: State, e: Timed, c: ClientRef, r: RoomRef)
    requires Reachable(s) && Acts(s, e, c) && r in s.registered && r in s.rooms && r !in s.client[c].rooms
    requires Rejoins(e, s.rooms[r].name) && !BannedFrom(s.rooms[r], s.client[c])
    requires NickFor(s.rooms[r], s.client[c].uid, LoginInfo(s.rooms[r], s.client[c]).nick)
    ensures r in Step(s, e).rooms && BackWith(s.rooms[r], Step(s, e).rooms[r], c, LoginInfo(s.rooms[r], s.client[c]))
  {
    hide Reachable, NickFor, OnJoin, RoomByName, BackWith, BannedFrom;
    var h := s.(now := e.now, client := s.client[c := s.client[c].(lastPacketTime := e.now)]);
    NotInside(s, c, r);
    SameNames(s, h, s.client[c].rooms, s.rooms[r].name);
    SameNames(s, h, s.registered, s.rooms[r].name);
    RoomHasSpace(s, r);
    BansIgnoreClock(s.rooms[r], s.client[c], h.client[c]);
    JoinBack(h, c, e.event.p.target, e.event.p.loadHistory, r);
    assert LoginInfo(h.rooms[r], h.client[c]) == LoginInfo(s.rooms[r], s.client[c]);
  }

  lemma BansIgnoreClock(room: Room, a: Client, b: Client)
    requires a.uid == b.uid && a.lastIp == b.lastIp
    ensures BannedFrom(room, a) == BannedFrom(room, b)
  {
  }

  // ---- both together ----

  lemma SameRights(room: Room, room': Room, a: Client, b: Client)
    requires SameRules(room, room') && a.uid == b.uid && a.lastIp == b.lastIp
    ensures BannedFrom(room', b) == BannedFrom(room, a) && IsModer(room', b.uid) == IsModer(room, a.uid)
  {
  }

  lemma ErasedRoom(s: State, c: ClientRef, r: RoomRef)
    requires Reachable(s) && c in s.client && r in s.client[c].rooms
    ensures r !in Erase(s.client[c].rooms, r) && r in s.registered
  {
    ReachableWorld(s);
    assert ClientOk(s, c);
    EraseNoDup(s.client[c].rooms, r);
  }

  /**
   * A known user with a nick that leaves a room and joins it again, not banned from it in the meantime,
   * gets its nick and its looks back under a new id; everybody else is as before.
   */
  lemma RejoinRestores(s: State, e1: Timed, e2: Timed, c: ClientRef, r: RoomRef, m: Member)
    requires Reachable(s) && Valid(s, e1) && Acts(s, e1, c) && e1.event.p.LeaveIn?
    requires r in s.client[c].rooms && r in s.rooms && s.rooms[r].name == e1.event.p.target
    requires m in s.rooms[r].members && m.client == c && s.client[c].uid != 0 && m.nick != ""
    requires var room, cl := s.rooms[r], s.client[c];
      cl.uid in {1, 2} || cl.uid == room.ownerId || cl.uid in room.moderators
      || (cl.lastIp !in room.bannedIps && cl.uid !in room.bannedUids && m.nick !in room.bannedNicks)
    requires Rejoins(e2, s.rooms[r].name) && e2.event.k == e1.event.k
    ensures var t := Step(Step(s, e1), e2);
      r in t.rooms && exists id :: forall n :: n in t.rooms[r].members <==>
        (n in s.rooms[r].members && n.client != c) || n == m.(id := id, status := Online)
  {
    RightsAre(s.rooms[r], s.client[c].uid);
    BansAre(s.rooms[r], s.client[c]);
    hide Reachable, Valid, Step, IsModer, BannedFrom, SameRules, Erase, Distinct, Without, IsOwner;
    var s1 := Step(s, e1);
    LeaveIs(s, e1, c, r, m);
    StepKeeps(s, e1);
    ErasedRoom(s, c, r);
    RoomDistinct(s, r);
    NickIsFree(s.rooms[r], s1.rooms[r], m, s.client[c].uid);
    SameRights(s.rooms[r], s1.rooms[r], s.client[c], s1.client[c]);
    SameNickBans(s.rooms[r], s1.rooms[r]);
    JoinAgain(s1, e2, c, r);
    var info := MemberInfo(s.client[c].uid, m.nick, m.girl, m.color);
    assert LoginInfo(s1.rooms[r], s1.client[c]) == info;
    hide LoginInfo, BackWith;
    BackAgain(s.rooms[r].members, s1.rooms[r], Step(s1, e2).rooms[r], c, m, info);
  }

  lemma BackAgain(ms: seq<Member>, room: Room, room': Room, c: ClientRef, m: Member, info: MemberInfo)
    requires BackWith(room, room', c, info) && Without(ms, room.members, c)
    requires m.client == c && info == MemberInfo(info.userId, m.nick, m.girl, m.color)
    ensures exists id :: forall n :: n in room'.members <==> (n in ms && n.client != c) || n == m.(id := id, status := Online)
  {
    hide Without;
    var id :| room'.members == room.members + [Member(id, c, info.nick, Online, info.girl, info.color)];
    BackAmong(ms, room.members, room'.members, c, m.(id := id, status := Online));
  }

  lemma SameNickBans(room: Room, room': Room)
    requires SameRules(room, room')
    ensures room'.bannedNicks == room.bannedNicks && room'.name == room.name
  {
  }

  lemma BackAmong(ms: seq<Member>, mid: seq<Member>, ms': seq<Member>, c: ClientRef, m: Member)
    requires Without(ms, mid, c) && ms' == mid + [m]
    ensures forall n :: n in ms' <==> (n in ms && n.client != c) || n == m
  {
  }
}
