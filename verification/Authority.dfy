/** Who may change a room's rules and who may be thrown out of it, over every event. */
module Authority {
  import opened Types
  import opened Members
  import opened Presence
  import opened MemberIds
  import opened RateLimit
  import opened Chat
  import opened Rights
  import opened World
  import opened WorldSteps
  import opened PacketSteps
  import opened Registry
  import opened Sessions
  import opened Transfers
  import opened Invariant
  import opened Runs
  import opened Opening
  import opened Reviving
  import opened Lifecycle

  /** Name, owner, bans and moderators of a room are the same. */
  ghost predicate SameRules(a: Room, b: Room) {
    && b.name == a.name && b.ownerId == a.ownerId && b.moderators == a.moderators
    && b.bannedNicks == a.bannedNicks && b.bannedIps == a.bannedIps && b.bannedUids == a.bannedUids
  }

  /** Every client with a member in b has one in a. */
  ghost predicate NobodyNew(a: Room, b: Room) {
    forall d :: HasClient(b.members, d) ==> HasClient(a.members, d)
  }

  /** Room r has the same rules and nobody new in it, and everybody but client c who was there still is. */
  ghost predicate Mild(s: State, t: State, r: RoomRef, c: ClientRef) {
    && r in s.rooms && r in t.rooms && SameRules(s.rooms[r], t.rooms[r]) && NobodyNew(s.rooms[r], t.rooms[r])
    && forall d :: d != c && HasClient(s.rooms[r].members, d) ==> HasClient(t.rooms[r].members, d)
  }

  lemma MildTransitive(s: State, t: State, u: State, r: RoomRef, c: ClientRef)
    requires Mild(s, t, r, c) && Mild(t, u, r, c)
    ensures Mild(s, u, r, c)
  {
  }

  lemma MildSame(s: State, t: State, r: RoomRef, c: ClientRef)
    requires r in s.rooms && r in t.rooms && t.rooms[r] == s.rooms[r]
    ensures Mild(s, t, r, c)
  {
  }

  // ---- what anybody may do ----

  lemma PutMemberMild(s: State, q: RoomRef, i: nat, m: Member, r: RoomRef, c: ClientRef)
    requires q in s.rooms && i < |s.rooms[q].members| && m.client == s.rooms[q].members[i].client && r in s.rooms
    ensures Mild(s, PutMember(s, q, i, m), r, c)
  {
    var ms := s.rooms[q].members;
    forall d | HasClient(ms, d) ensures HasClient(ms[i := m], d) {
      var n :| n in ms && n.client == d;
      var j :| 0 <= j < |ms| && ms[j] == n;
      assert ms[i := m][j] in ms[i := m];
    }
    forall d | HasClient(ms[i := m], d) ensures HasClient(ms, d) {
      var n :| n in ms[i := m] && n.client == d;
      var j :| 0 <= j < |ms| && ms[i := m][j] == n;
      assert ms[j] in ms && ms[j].client == d;
    }
  }

  lemma SetNickMild(s: State, q: RoomRef, i: nat, nick: string, r: RoomRef, c: ClientRef)
    requires q in s.rooms && i < |s.rooms[q].members| && r in s.rooms
    ensures Mild(s, SetNick(s, q, i, nick), r, c)
  {
    PutMemberMild(s, q, i, s.rooms[q].members[i].(nick := nick), r, c);
    hide IsModer, SendOne, Deliver, HasClient;
  }

  lemma ChangeLooksMild(s: State, q: RoomRef, i: nat, m: Member, status: Status, r: RoomRef, c: ClientRef)
    requires q in s.rooms && i < |s.rooms[q].members| && m.client == s.rooms[q].members[i].client && r in s.rooms
    ensures Mild(s, ChangeLooks(s, q, i, m, status), r, c)
  {
    PutMemberMild(s, q, i, m, r, c);
    hide SendOne, Deliver, HasClient;
  }

  lemma ChangeStatusMild(s: State, c: ClientRef, q: RoomRef, status: Status, r: RoomRef)
    requires r in s.rooms
    ensures Mild(s, ChangeStatusIn(s, c, q, status), r, c)
  {
    var i := FindMember(s, q, c);
    if i.Some? {
      PutMemberMild(s, q, i.value, s.rooms[q].members[i.value].(status := if status == Back then Online else Away), r, c);
    }
    MildSame(s, s, r, c);
    hide FindByClient, Deliver, HasClient, SameRules;
  }

  lemma {:induction false} ChangeStatusRoomsMild(s: State, c: ClientRef, status: Status, todo: seq<RoomRef>, r: RoomRef)
    requires r in s.rooms
    ensures Mild(s, ChangeStatusRooms(s, c, status, todo), r, c)
    decreases |todo|
  {
    hide Mild, ChangeStatusIn;
    if todo == [] {
      MildSame(s, s, r, c);
    } else {
      var u := ChangeStatusIn(s, c, todo[0], status);
      ChangeStatusMild(s, c, todo[0], status, r);
      MildIn(s, u, r, c);
      ChangeStatusRoomsMild(u, c, status, todo[1..], r);
      MildTransitive(s, u, ChangeStatusRooms(u, c, status, todo[1..]), r, c);
    }
  }

  lemma MildIn(s: State, t: State, r: RoomRef, c: ClientRef)
    requires Mild(s, t, r, c)
    ensures r in t.rooms
  {
  }

  lemma OnStatusMild(s: State, c: ClientRef, target: string, status: Status, r: RoomRef)
    requires c in s.client && r in s.rooms
    ensures Mild(s, OnStatus(s, c, target, status), r, c)
  {
    ChangeStatusRoomsMild(s, c, status, s.client[c].rooms, r);
    MildSame(s, OnStatusQuiet(s, c, target, status), r, c);
    hide ChangeStatusRooms, Mild, RoomByName, FindByClient, Deliver;
  }

  function OnStatusQuiet(s: State, c: ClientRef, target: string, status: Status): State
    requires c in s.client
  {
    if status == Away || status == Back then s else OnStatus(s, c, target, status)
  }

  /** Leaving takes nobody but the client itself out of the room. */
  lemma LeaveRoomMild(s: State, c: ClientRef, q: RoomRef, r: RoomRef)
    requires r in s.rooms && q in s.rooms
    ensures Mild(s, LeaveRoom(s, c, q), r, c)
    ensures r != q ==> LeaveRoom(s, c, q).rooms[r] == s.rooms[r]
    ensures LeaveRoom(s, c, q).rooms.Keys == s.rooms.Keys
  {
    if c in s.client && q in s.client[c].rooms {
      var f := ForgetRoom(s, c, q);
      RemoveMemberRooms(f, q, c);
      LeftRoomMild(s.rooms[q], c, UidOf(f, c));
    }
    hide LeftRoom, RemoveMember, HasClient;
  }

  lemma LeftRoomMild(room: Room, c: ClientRef, uid: nat)
    ensures SameRules(room, LeftRoom(room, c, uid)) && NobodyNew(room, LeftRoom(room, c, uid))
    ensures forall d :: d != c && HasClient(room.members, d) ==> HasClient(LeftRoom(room, c, uid).members, d)
  {
    var l := LeftRoom(room, c, uid);
    forall d | d != c && HasClient(room.members, d) ensures HasClient(l.members, d) {
      var m :| m in room.members && m.client == d;
      assert m in l.members;
    }
  }

  /** A join adds the client, if it is not banned, to the room it joins; nothing else happens. */
  ghost predicate EntersOnly(s: State, t: State, r: RoomRef, c: ClientRef) {
    && r in s.rooms && r in t.rooms && c in s.client && SameRules(s.rooms[r], t.rooms[r])
    && (forall d :: HasClient(s.rooms[r].members, d) ==> HasClient(t.rooms[r].members, d))
    && (forall d :: HasClient(t.rooms[r].members, d) && !HasClient(s.rooms[r].members, d) ==>
          d == c && !Barred(s.rooms[r], s.client[c].uid, s.client[c].lastIp))
  }

  lemma JoinEnters(s: State, c: ClientRef, q: RoomRef, r: RoomRef)
    requires c in s.client && q in s.rooms && r in s.rooms
    ensures EntersOnly(s, JoinRoom(s, c, q).0, r, c) && JoinRoom(s, c, q).0.rooms.Keys == s.rooms.Keys
    ensures c in JoinRoom(s, c, q).0.client
    ensures JoinRoom(s, c, q).1 == Joined ==> |s.rooms[q].members| < |JoinRoom(s, c, q).0.rooms[q].members|
  {
    BansAre(s.rooms[q], s.client[c]);
    hide NextMemberId, BannedFrom, Barred;
    var t := JoinRoom(s, c, q).0;
    forall d | HasClient(s.rooms[r].members, d) ensures HasClient(t.rooms[r].members, d) {
      var m :| m in s.rooms[r].members && m.client == d;
      assert m in t.rooms[r].members;
    }
  }

  lemma AutoLoginMild(s: State, c: ClientRef, q: RoomRef, i: nat, r: RoomRef)
    requires c in s.client && q in s.rooms && i < |s.rooms[q].members| && r in s.rooms
    ensures Mild(s, AutoLogin(s, c, q, i).0, r, c)
    ensures q in AutoLogin(s, c, q, i).0.rooms && i < |AutoLogin(s, c, q, i).0.rooms[q].members|
  {
    var info := LoginInfo(s.rooms[q], s.client[c]);
    PutMemberMild(s, q, i, s.rooms[q].members[i].(girl := info.girl, color := info.color), r, c);
    hide LoginInfo, FindByNick, IsModer, SendOne, HasClient;
  }

  lemma SentMild(s: State, t: State, u: State, r: RoomRef, c: ClientRef)
    requires Mild(s, t, r, c) && u.rooms == t.rooms
    ensures Mild(s, u, r, c)
  {
  }

  lemma WelcomeMild(s: State, c: ClientRef, q: RoomRef, i: nat, autoLogin: bool, loadHistory: bool, r: RoomRef)
    requires c in s.client && q in s.rooms && i < |s.rooms[q].members| && r in s.rooms
    ensures Mild(s, Welcome(s, c, q, i, autoLogin, loadHistory), r, c)
  {
    hide Mild, AutoLogin, SetNick, SendOne, OnlineList, SendMessages;
    var room := s.rooms[q];
    var s1 := SendPacket(s, c, JoinPacket(room.name, room.members[i].id, room.members[i].nick));
    var s2 := SendPacket(s1, c, OnlineListPacket(room.name, OnlineList(room.name, room.members)));
    var s3 := if loadHistory then SendHistory(s2, c, room.name, room.history) else s2;
    assert s3 == s.(out := s3.out);
    MildSame(s, s3, r, c);
    EnterMild(s3, c, q, i, autoLogin, r);
    MildTransitive(s, s3, Enter(s3, c, q, i, autoLogin), r, c);
  }

  lemma EnterMild(s: State, c: ClientRef, q: RoomRef, i: nat, autoLogin: bool, r: RoomRef)
    requires c in s.client && q in s.rooms && i < |s.rooms[q].members| && r in s.rooms
    ensures Mild(s, Enter(s, c, q, i, autoLogin), r, c)
  {
    hide Mild, AutoLogin, SetNick, SendOne;
    MildSame(s, s, r, c);
    if autoLogin { AutoLoginMild(s, c, q, i, r); }
    var (s1, nick) := if autoLogin then AutoLogin(s, c, q, i) else (s, "");
    var s2 := SendPacket(s1, c, SystemPacket(s.rooms[q].name));
    SentMild(s, s1, s2, r, c);
    if nick == "" {
      SentMild(s, s2, SendPacket(s2, c, SystemPacket(s.rooms[q].name)), r, c);
    } else {
      MildIn(s, s2, r, c);
      SetNickMild(s2, q, i, nick, r, c);
      MildTransitive(s, s2, SetNick(s2, q, i, nick), r, c);
    }
  }

  lemma PublicMessageMild(s: State, q: RoomRef, i: nat, style: Style, text: string, r: RoomRef, c: ClientRef)
    requires q in s.rooms && i < |s.rooms[q].members| && r in s.rooms
    ensures Mild(s, PublicMessage(s, q, i, style, text), r, c)
  {
    hide Deliver, HasClient;
  }

  // ---- what needs a right ----

  /**
   * What client c may do to room r: its rules change only by a moderator among its members, its
   * moderators only by an owner, somebody else leaves it only by a moderator, and nobody enters it but
   * c itself, and c only if it is not banned.
   */
  ghost predicate Rightful(s: State, t: State, r: RoomRef, c: ClientRef)
    requires r in s.rooms && c in s.client
  {
    var room, uid := s.rooms[r], s.client[c].uid;
    && r in t.rooms
    && (SameRules(room, t.rooms[r]) || (Moderates(room, uid) && HasClient(room.members, c)))
    && (t.rooms[r].moderators == room.moderators || Owns(room, uid))
    && (Moderates(room, uid) || forall d :: d != c && HasClient(room.members, d) ==> HasClient(t.rooms[r].members, d))
    && (forall d :: HasClient(t.rooms[r].members, d) && !HasClient(room.members, d) ==> d == c && !Barred(room, uid, s.client[c].lastIp))
  }

  lemma MildRightful(s: State, t: State, r: RoomRef, c: ClientRef)
    requires r in s.rooms && c in s.client && Mild(s, t, r, c)
    ensures Rightful(s, t, r, c)
  {
  }

  lemma EntersThen(s: State, t: State, u: State, r: RoomRef, c: ClientRef)
    requires EntersOnly(s, t, r, c) && Mild(t, u, r, c)
    ensures Rightful(s, u, r, c)
  {
    hide Barred, Moderates, Owns, HasClient;
  }

  lemma OnJoinRightful(s: State, c: ClientRef, target: string, autoLogin: bool, loadHistory: bool, r: RoomRef)
    requires c in s.client && r in s.rooms
    ensures Rightful(s, OnJoin(s, c, target, autoLogin, loadHistory), r, c)
  {
    hide Rightful, Mild, EntersOnly, Welcome, JoinRoom, RoomByName, SendOne;
    var t := OnJoin(s, c, target, autoLogin, loadHistory);
    var found := RoomByName(s, s.registered, target);
    if RoomByName(s, s.client[c].rooms, target).None? && found.Some? {
      var q := found.value;
      var (s1, outcome) := JoinRoom(s, c, q);
      JoinEnters(s, c, q, r);
      if outcome == Joined {
        WelcomeMild(s1, c, q, |s.rooms[q].members|, autoLogin, loadHistory, r);
      } else {
        MildSame(s1, t, r, c);
      }
      EntersThen(s, s1, t, r, c);
    } else {
      MildSame(s, t, r, c);
      MildRightful(s, t, r, c);
    }
  }

  lemma KickElsewhere(s: State, q: RoomRef, i: nat, r: RoomRef)
    requires q in s.rooms && i < |s.rooms[q].members| && r in s.rooms
    ensures r in KickMember(s, q, i).rooms
    ensures r != q ==> KickMember(s, q, i).rooms[r] == s.rooms[r]
    ensures SameRules(s.rooms[r], KickMember(s, q, i).rooms[r]) && NobodyNew(s.rooms[r], KickMember(s, q, i).rooms[r])
  {
    hide Deliver, SendOne, Erase, RemoveAt;
  }

  /** A moderator's command: other rooms do not notice, and the moderators stay the same. */
  lemma ModerEffect(s: State, q: RoomRef, i: nat, cmd: Command, r: RoomRef)
    requires q in s.rooms && i < |s.rooms[q].members| && r in s.rooms && LevelOf(cmd) == LevelModer && !cmd.Listing?
    ensures var t := RunCommand(s, q, i, cmd);
      && r in t.rooms && t.rooms[r].moderators == s.rooms[r].moderators && (r != q ==> t.rooms[r] == s.rooms[r])
      && NobodyNew(s.rooms[r], t.rooms[r])
  {
    hide SendOne, KickMember, FindByNick;
    match cmd {
      case Kick(nick) =>
        var h := FindByNick(s.rooms[q].members, nick);
        if h.Some? { KickElsewhere(s, q, h.value, r); }
      case BanNick(nick) =>
        var h := FindByNick(s.rooms[q].members, nick);
        var u := PutRoom(s, q, s.rooms[q].(bannedNicks := s.rooms[q].bannedNicks + {nick}));
        if h.Some? { KickElsewhere(u, q, h.value, r); }
      case _ =>
    }
  }

  lemma ModerRightful(s: State, q: RoomRef, i: nat, cmd: Command, r: RoomRef, c: ClientRef)
    requires q in s.rooms && i < |s.rooms[q].members| && r in s.rooms && c in s.client
    requires s.rooms[q].members[i].client == c && Moderates(s.rooms[q], s.client[c].uid)
    requires LevelOf(cmd) == LevelModer && !cmd.Listing?
    ensures Rightful(s, RunCommand(s, q, i, cmd), r, c)
  {
    ModerEffect(s, q, i, cmd, r);
    hide RunCommand, Moderates, SameRules, Barred;
    assert s.rooms[q].members[i] in s.rooms[q].members;
    SameRulesSame(s.rooms[r]);
  }

  lemma SameRulesSame(room: Room)
    ensures SameRules(room, room)
  {
  }

  lemma OwnerRightful(s: State, q: RoomRef, i: nat, cmd: Command, r: RoomRef, c: ClientRef)
    requires q in s.rooms && i < |s.rooms[q].members| && r in s.rooms && c in s.client
    requires s.rooms[q].members[i].client == c && Owns(s.rooms[q], s.client[c].uid)
    requires LevelOf(cmd) == LevelOwner && !cmd.Listing?
    ensures Rightful(s, RunCommand(s, q, i, cmd), r, c)
  {
    var room := s.rooms[q];
    assert room.members[i] in room.members && HasClient(room.members, c);
    hide HasClient, SendOne;
  }

  lemma PlainCommandMild(s: State, q: RoomRef, i: nat, cmd: Command, r: RoomRef, c: ClientRef)
    requires q in s.rooms && i < |s.rooms[q].members| && r in s.rooms
    requires (LevelOf(cmd) != LevelModer && LevelOf(cmd) != LevelOwner) || cmd.Listing?
    ensures Mild(s, RunCommand(s, q, i, cmd), r, c)
  {
    var m := s.rooms[q].members[i];
    MildSame(s, s, r, c);
    match cmd {
      case Nick(nick, legal) => SetNickMild(s, q, i, nick, r, c);
      case Gender(given) => ChangeLooksMild(s, q, i, m.(girl := if given.None? then !m.girl else given.value), GenderChange, r, c);
      case Color(color) => if color.Some? { ChangeLooksMild(s, q, i, m.(color := color.value), ColorChange, r, c); }
      case Styled(style, text) => PublicMessageMild(s, q, i, style, text, r, c);
      case _ =>
    }
    hide SetNick, ChangeLooks, PublicMessage, SendOne, IsBlank, FindByNick, FindById, SameRules, HasClient;
  }

  lemma SayRightful(s: State, q: RoomRef, i: nat, text: string, cmd: Command, r: RoomRef, c: ClientRef)
    requires q in s.rooms && i < |s.rooms[q].members| && r in s.rooms && c in s.client && s.rooms[q].members[i].client == c
    ensures Rightful(s, Say(s, q, i, text, cmd), r, c)
  {
    RightsAre(s.rooms[q], UidOf(s, c));
    hide Rightful, Mild, RunCommand, PublicMessage, SendOne, IsModer, IsOwner, Moderates, Owns;
    var t := Say(s, q, i, text, cmd);
    PublicMessageMild(s, q, i, StyleMessage, text, r, c);
    if cmd != Plain && Allowed(s.rooms[q], UidOf(s, c), s.rooms[q].members[i], LevelOf(cmd)) {
      if LevelOf(cmd) == LevelModer && !cmd.Listing? {
        ModerRightful(s, q, i, cmd, r, c);
      } else if LevelOf(cmd) == LevelOwner && !cmd.Listing? {
        OwnerRightful(s, q, i, cmd, r, c);
      } else {
        PlainCommandMild(s, q, i, cmd, r, c);
        MildRightful(s, t, r, c);
      }
    } else if cmd == Plain && s.rooms[q].members[i].nick != "" {
      MildRightful(s, t, r, c);
    } else {
      MildSame(s, t, r, c);
      MildRightful(s, t, r, c);
    }
  }

  // ---- one packet ----

  lemma SpeakRightful(s: State, c: ClientRef, target: string, text: string, cmd: Command, r: RoomRef)
    requires c in s.client && r in s.rooms
    ensures Rightful(s, SpeakIn(s, c, target, text, cmd), r, c)
  {
    hide Rightful, Mild, Say, RoomByName, FindByClient, SendOne;
    var t := SpeakIn(s, c, target, text, cmd);
    var q := RoomByName(s, s.client[c].rooms, target);
    if q.Some? && FindMember(s, q.value, c).Some? {
      SayRightful(s, q.value, FindMember(s, q.value, c).value, text, cmd, r, c);
    } else {
      MildSame(s, t, r, c);
      MildRightful(s, t, r, c);
    }
  }

  /** The same rooms and the same rights. */
  lemma RightfulFrom(s: State, s': State, t: State, r: RoomRef, c: ClientRef)
    requires r in s'.rooms && c in s'.client && Rightful(s', t, r, c)
    requires s.rooms == s'.rooms && c in s.client && s.client[c].uid == s'.client[c].uid && s.client[c].lastIp == s'.client[c].lastIp
    ensures Rightful(s, t, r, c)
  {
  }

  lemma OnMessageRightful(s: State, c: ClientRef, now: int, target: string, text: string, cmd: Command, r: RoomRef)
    requires c in s.client && r in s.rooms
    ensures Rightful(s, OnMessage(s, c, now, target, text, cmd), r, c)
  {
    hide Rightful, Mild, SpeakIn, OpenWindow, IsBlank, SendOne;
    var t := OnMessage(s, c, now, target, text, cmd);
    var l := OpenWindow(s.client[c].limiter, now);
    if target == "" || text == "" || Blocked(l) || IsBlank(text) {
      MildSame(s, t, r, c);
      MildRightful(s, t, r, c);
    } else {
      var s2 := PutLimiter(PutLimiter(s, c, l), c, CountMessage(l));
      SpeakRightful(s2, c, target, text, cmd, r);
      RightfulFrom(s, s2, t, r, c);
    }
  }

  lemma {:induction false} LeaveAllElsewhere(s: State, q: RoomRef, name: string, mems: seq<Member>, r: RoomRef)
    requires q in s.rooms && r in s.rooms
    ensures r in LeaveAll(s, q, name, mems).rooms && SameRules(s.rooms[r], LeaveAll(s, q, name, mems).rooms[r])
    ensures NobodyNew(s.rooms[r], LeaveAll(s, q, name, mems).rooms[r])
    ensures r != q ==> LeaveAll(s, q, name, mems).rooms[r] == s.rooms[r]
    decreases |mems|
  {
    hide LeaveRoom, SendOne;
    if mems != [] {
      var c := mems[0].client;
      LeaveRoomMild(s, c, q, r);
      var u := SendPacket(LeaveRoom(s, c, q), c, LeavePacket(name));
      LeaveAllElsewhere(u, q, name, mems[1..], r);
    }
  }

  lemma RemoveRoomRightful(s: State, q: RoomRef, r: RoomRef, c: ClientRef, t: State)
    requires q in s.rooms && r in s.rooms && c in s.client && t.rooms == RemoveRoom(s, q).rooms
    requires IsAdmin(s.client[c].uid) || (s.client[c].uid == s.rooms[q].ownerId && !IsGuest(s.client[c].uid))
    ensures Rightful(s, t, r, c)
  {
    hide LeaveAll, HasClient;
    LeaveAllElsewhere(s.(registered := Erase(s.registered, q)), q, s.rooms[q].name, s.rooms[q].members, r);
  }

  lemma LeaveRightful(s: State, c: ClientRef, now: int, target: string, r: RoomRef)
    requires c in s.client && r in s.rooms
    ensures Rightful(s, Process(s, c, now, LeaveIn(target)), r, c)
  {
    hide Rightful, Mild, RoomByName, LeaveRoom, SendOne;
    var t := Process(s, c, now, LeaveIn(target));
    var q := RoomByName(s, s.client[c].rooms, target);
    if q.Some? {
      LeaveRoomMild(s, c, q.value, r);
      SentMild(s, LeaveRoom(s, c, q.value), t, r, c);
    } else {
      MildSame(s, t, r, c);
    }
    MildRightful(s, t, r, c);
  }

  lemma CreateRightful(s: State, c: ClientRef, now: int, target: string, legalName: bool, r: RoomRef)
    requires c in s.client && r in s.rooms && r != s.nextRoom
    ensures Rightful(s, Process(s, c, now, CreateRoomIn(target, legalName)), r, c)
  {
    hide Rightful, Mild, RoomByName, SendOne;
    var t := Process(s, c, now, CreateRoomIn(target, legalName));
    MildSame(s, t, r, c);
    MildRightful(s, t, r, c);
  }

  lemma RemoveRightful(s: State, c: ClientRef, now: int, target: string, r: RoomRef)
    requires c in s.client && r in s.rooms
    ensures Rightful(s, Process(s, c, now, RemoveRoomIn(target)), r, c)
  {
    hide Rightful, Mild, RoomByName, RemoveRoom, SendOne;
    var t := Process(s, c, now, RemoveRoomIn(target));
    var uid := s.client[c].uid;
    var q := RoomByName(s, s.registered, target);
    if !IsGuest(uid) && q.Some? && (IsAdmin(uid) || uid == s.rooms[q.value].ownerId) {
      RemoveRoomRightful(s, q.value, r, c, t);
    } else {
      MildSame(s, t, r, c);
      MildRightful(s, t, r, c);
    }
  }

  lemma QuietRightful(s: State, c: ClientRef, now: int, p: InPacket, r: RoomRef)
    requires c in s.client && r in s.rooms
    requires p == Invalid || p == Idle || p.OnlineListIn? || (p.Auth? && !Revives(s, c, p))
    ensures Rightful(s, Process(s, c, now, p), r, c)
  {
    hide Rightful, Mild, RoomByName, SendOne, OnlineList;
    var t := Process(s, c, now, p);
    MildSame(s, t, r, c);
    MildRightful(s, t, r, c);
  }

  /** Every packet but one that revives a session is rightful in every room. */
  lemma ProcessRightful(s: State, c: ClientRef, now: int, p: InPacket, r: RoomRef)
    requires c in s.client && r in s.rooms && r != s.nextRoom && !Revives(s, c, p)
    ensures Rightful(s, Process(s, c, now, p), r, c)
  {
    match p {
      case StatusIn(target, status) =>
        OnStatusMild(s, c, target, status, r);
        hide Rightful, Mild, OnStatus;
        MildRightful(s, Process(s, c, now, p), r, c);
      case JoinIn(target, autoLogin, loadHistory) =>
        hide Rightful, OnJoin;
        OnJoinRightful(s, c, target, autoLogin, loadHistory, r);
      case MessageIn(target, text, command) =>
        hide Rightful, OnMessage;
        OnMessageRightful(s, c, now, target, text, command, r);
      case LeaveIn(target) => hide Rightful, Process; LeaveRightful(s, c, now, target, r);
      case CreateRoomIn(target, legalName) => hide Rightful, Process; CreateRightful(s, c, now, target, legalName, r);
      case RemoveRoomIn(target) => hide Rightful, Process; RemoveRightful(s, c, now, target, r);
      case _ => hide Rightful, Process; QuietRightful(s, c, now, p, r);
    }
  }

  // ---- every event ----

  /** Client c, connected and listed, is behind the event. */
  predicate Acts(s: State, e: Timed, c: ClientRef) {
    e.event.Receive? && e.event.k in s.mgr.connectionToClient && s.mgr.connectionToClient[e.event.k] == c && c in s.client
  }

  /** Room r keeps its rules, nobody enters it, and every listed client that had a member there still has one. */
  ghost predicate KeptForAll(s: State, t: State, r: RoomRef) {
    && r in s.rooms && r in t.rooms && SameRules(s.rooms[r], t.rooms[r]) && NobodyNew(s.rooms[r], t.rooms[r])
    && forall d :: d in t.mgr.clients && HasClient(s.rooms[r].members, d) ==> HasClient(t.rooms[r].members, d)
  }

  /** Nothing happens to a room but by right. */
  ghost predicate ByRight(s: State, e: Timed, t: State, r: RoomRef) {
    KeptForAll(s, t, r) || (r in s.rooms && exists c :: Acts(s, e, c) && Rightful(s, t, r, c))
  }

  lemma SameRoomKept(s: State, t: State, r: RoomRef)
    requires r in s.rooms && r in t.rooms && t.rooms[r] == s.rooms[r]
    ensures KeptForAll(s, t, r)
  {
  }

  lemma LeftByKept(s: State, t: State, o: ClientRef, r: RoomRef)
    requires r in s.rooms && LeftBy(s, t, o) && o !in t.mgr.clients
    ensures KeptForAll(s, t, r)
  {
    hide Stored;
    assert Without(s.rooms[r].members, t.rooms[r].members, o);
    forall d | d in t.mgr.clients && HasClient(s.rooms[r].members, d) ensures HasClient(t.rooms[r].members, d) {
      var m :| m in s.rooms[r].members && m.client == d;
      assert m in t.rooms[r].members;
    }
  }

  lemma OrphanedKept(s: State, t: State, o: ClientRef, r: RoomRef)
    requires r in s.rooms && OrphanedIn(s, t, o)
    ensures KeptForAll(s, t, r)
  {
    var ms, ms' := s.rooms[r].members, t.rooms[r].members;
    assert TurnedOnly(ms, ms', o, Orphan);
    forall d | HasClient(ms, d) ensures HasClient(ms', d) {
      var m :| m in ms && m.client == d;
      var i :| 0 <= i < |ms| && ms[i] == m;
      assert ms'[i] in ms' && ms'[i].client == d;
    }
    forall d | HasClient(ms', d) ensures HasClient(ms, d) {
      var m :| m in ms' && m.client == d;
      var i :| 0 <= i < |ms'| && ms'[i] == m;
      assert ms[i] in ms && ms[i].client == d;
    }
  }

  lemma MovedKept(s: State, t: State, c: ClientRef, target: ClientRef, r: RoomRef)
    requires r in s.rooms && RoomsMoved(s, t, c, target) && c !in t.mgr.clients
    ensures KeptForAll(s, t, r)
  {
    hide Stored;
    var ms, ms' := s.rooms[r].members, t.rooms[r].members;
    assert Survivors(ms, ms', c, target);
    forall d | d in t.mgr.clients && HasClient(ms, d) ensures HasClient(ms', d) {
      var m :| m in ms && m.client == d;
      assert Turned(m, target, Online) in ms';
    }
    forall d | HasClient(ms', d) ensures HasClient(ms, d) {
      var m :| m in ms' && m.client == d;
      var n :| n in ms && n.client != c && m == Turned(n, target, Online);
    }
  }

  lemma KeptTransitive(s: State, t: State, u: State, r: RoomRef)
    requires KeptForAll(s, t, r) && KeptForAll(t, u, r) && forall d :: d in u.mgr.clients ==> d in t.mgr.clients
    ensures KeptForAll(s, u, r)
  {
  }

  lemma StillListed(s: State, t: State)
    requires Shrunk(s, t)
    ensures forall d :: d in t.mgr.clients ==> d in s.mgr.clients
  {
  }

  lemma SweepOneKept(s: State, c: ClientRef, now: int, r: RoomRef)
    requires Sound(s) && c in s.mgr.clients && r in s.rooms
    ensures KeptForAll(s, SweepOne(s, c, now), r)
  {
    hide Sound, MakeOrphan, KeptForAll, SendOne, OrphanedIn;
    ListedClient(s, c);
    var w := Silence(s, c, now);
    if 150 < w <= 300 && s.client[c].connection.Some? {
      OrphanLeaves(s, c, s.client[c].connection.value);
      OrphanedKept(s, MakeOrphan(s, c), c, r);
    } else {
      SameRoomKept(s, SweepOne(s, c, now), r);
    }
  }

  lemma {:induction false} SweepKept(s: State, cs: seq<ClientRef>, now: int, r: RoomRef)
    requires Sound(s) && r in s.rooms && forall c :: c in cs ==> c in s.mgr.clients
    ensures KeptForAll(s, Sweep(s, cs, now), r)
    decreases |cs|
  {
    hide Sound, SweepOne, KeptForAll, Shrunk, Swept;
    if cs == [] {
      SameRoomKept(s, s, r);
    } else {
      assert cs == [cs[0]] + cs[1..];
      var u := SweepOne(s, cs[0], now);
      SweepOneStep(s, cs[0], now);
      SweepOneKept(s, cs[0], now, r);
      KeptIn(s, u, r);
      SweepKept(u, cs[1..], now, r);
      SweepStep(u, cs[1..], now);
      StillListed(u, Sweep(u, cs[1..], now));
      KeptTransitive(s, u, Sweep(u, cs[1..], now), r);
    }
  }

  lemma KeptIn(s: State, t: State, r: RoomRef)
    requires KeptForAll(s, t, r)
    ensures r in t.rooms
  {
  }

  lemma {:induction false} KickAllKept(s: State, cs: seq<ClientRef>, r: RoomRef)
    requires Sound(s) && r in s.rooms && Ascending(cs) && forall c :: c in cs ==> c in s.mgr.clients
    ensures KeptForAll(s, KickAll(s, cs), r)
    decreases |cs|
  {
    hide Sound, Remove, KeptForAll, Shrunk, Ascending, Kicking, LeftBy, RemovedManager, HasClient;
    if cs == [] {
      SameRoomKept(s, s, r);
    } else {
      AscendingTail(cs);
      RemoveStep(s, cs[0]);
      var u := Remove(s, cs[0]);
      RemoveKicks(s, cs[0]);
      KickedFrom(s, u, cs[0]);
      RemovedLeaves(s, cs[0]);
      LeftByKept(s, u, cs[0], r);
      KeptIn(s, u, r);
      KickAllKept(u, cs[1..], r);
      KickAllStep(u, cs[1..]);
      StillListed(u, KickAll(u, cs[1..]));
      KeptTransitive(s, u, KickAll(u, cs[1..]), r);
    }
  }

  lemma TickKept(s: State, r: RoomRef)
    requires Sound(s) && r in s.rooms
    ensures KeptForAll(s, OnTick(s, s.now), r)
  {
    hide Sound, KeptForAll, Sweep, KickAll, Overdue, Ascending, Shrunk, Swept;
    var u := Sweep(s, s.mgr.clients, s.now);
    var o := Overdue(s, s.mgr.clients, s.now);
    SoundList(s);
    SweepStep(s, s.mgr.clients, s.now);
    SweepKept(s, s.mgr.clients, s.now, r);
    KeptIn(s, u, r);
    OverdueAscending(s, s.mgr.clients, s.now);
    KickAllKept(u, o, r);
    KickAllStep(u, o);
    StillListed(u, KickAll(u, o));
    KeptTransitive(s, u, KickAll(u, o), r);
    KeptTicked(s, KickAll(u, o), s.now, r);
  }

  lemma KeptTicked(s: State, t: State, now: int, r: RoomRef)
    requires KeptForAll(s, t, r)
    ensures KeptForAll(s, t.(lastTick := now), r)
  {
  }

  lemma CloseKept(s: State, k: Conn, status: int, r: RoomRef)
    requires Sound(s) && r in s.rooms
    ensures KeptForAll(s, OnClose(s, k, status), r) && KeptForAll(s, OnError(s, k), r)
  {
    hide Sound, KeptForAll, Remove, MakeOrphan, LeftBy, OrphanedIn, Shrunk, RemovedManager, HasClient;
    SameRoomKept(s, s, r);
    if k in s.mgr.connectionToClient {
      Indexed(s, k);
      var c := s.mgr.connectionToClient[k];
      RemoveStep(s, c);
      RemovedLeaves(s, c);
      LeftByKept(s, Remove(s, c), c, r);
      OrphanLeaves(s, c, k);
      OrphanedKept(s, MakeOrphan(s, c), c, r);
    }
  }

  lemma OpenKept(s: State, e: Timed, r: RoomRef)
    requires Reachable(s) && Valid(s, e) && e.event.Open? && r in s.rooms
    ensures KeptForAll(s, Step(s, e), r)
  {
    hide Reachable, Valid, Step, KeptForAll, EarliestOrphan, LeftBy, Inv;
    OpenOutcome(s, e);
    ReachableInv(s);
    ListedBelow(s);
    ListedOnce(s);
    var t := Step(s, e);
    if o :| AdmittedFor(s, t, e.event.k, e.event.token, e.now, o) {
      EarliestListed(s, e.event.k.ip, o);
      EraseAscending(s.mgr.clients, o);
      LeftByKept(s, t, o, r);
    } else {
      SameRoomKept(s, t, r);
    }
  }

  lemma ListedOnce(s: State)
    requires Inv(s)
    ensures Ascending(s.mgr.clients)
  {
  }

  lemma EarliestListed(s: State, ip: string, o: ClientRef)
    requires EarliestOrphan(s, ip, o)
    ensures o in s.mgr.clients
  {
  }

  lemma SwapKept(s: State, e: Timed, r: RoomRef)
    requires Valid(s, e) && r in s.rooms && (e.event.SwapMembers? || e.event.SwapRooms? || e.event.SwapRegistered?)
    ensures KeptForAll(s, Step(s, e), r)
  {
    hide Swap;
    var t := Step(s, e);
    forall d | HasClient(s.rooms[r].members, d) ensures HasClient(t.rooms[r].members, d) {
      var m :| m in s.rooms[r].members && m.client == d;
      assert m in t.rooms[r].members;
    }
  }

  lemma ReceiveByRight(s: State, e: Timed, r: RoomRef)
    requires Reachable(s) && Valid(s, e) && e.event.Receive? && r in s.rooms
    ensures ByRight(s, e, Step(s, e), r)
  {
    hide Reachable, Valid, Inv, KeptForAll, Rightful, SessionMoved, RoomsMoved, Process, WorldOk, ManagerOk;
    ReachableInv(s);
    var k, p := e.event.k, e.event.p;
    if k !in s.mgr.connectionToClient || p == Invalid {
      SameRoomKept(s, Step(s, e), r);
    } else if AsksForRevive(s, e) {
      ReviveTransfer(s, e);
      ReviveParties(s, e);
      var c, t := s.mgr.connectionToClient[k], s.mgr.tokenToClient[p.token];
      GoneFromList(s, Step(s, e), c, t, k, e.now);
      MovedKept(s, Step(s, e), c, t, r);
    } else {
      InvIndexed(s, k);
      FreshRoom(s, r);
      var c := s.mgr.connectionToClient[k];
      var h := s.(now := e.now, client := s.client[c := s.client[c].(lastPacketTime := e.now)]);
      ProcessRightful(h, c, e.now, p, r);
      RightfulFrom(s, h, Step(s, e), r, c);
      assert Acts(s, e, c);
    }
  }

  lemma GoneFromList(s: State, y: State, c: ClientRef, t: ClientRef, k: Conn, now: int)
    requires c in s.client && t in s.client && SessionMoved(s, y, c, t, k, now) && Ascending(s.mgr.clients)
    ensures c !in y.mgr.clients
  {
    EraseAscending(s.mgr.clients, c);
  }

  lemma InvIndexed(s: State, k: Conn)
    requires Inv(s) && k in s.mgr.connectionToClient
    ensures s.mgr.connectionToClient[k] in s.client
    ensures forall t :: t in s.mgr.tokenToClient ==> s.mgr.tokenToClient[t] in s.client
  {
  }

  lemma FreshRoom(s: State, r: RoomRef)
    requires Inv(s) && r in s.rooms
    ensures r != s.nextRoom
  {
  }

  /** Over every event but a restart, nothing happens to a room but by right. */
  lemma RoomsByRight(s: State, e: Timed, r: RoomRef)
    requires Reachable(s) && Valid(s, e) && !e.event.Restart? && r in s.rooms
    ensures ByRight(s, e, Step(s, e), r)
  {
    hide Reachable, Valid, Inv, Sound, KeptForAll, Rightful, OnTick, OnOpen, OnClose, OnError, OnReceive, ByRight, Swap;
    ReachableInv(s);
    TimeMoves(s, e);
    TimePasses(s, e.now);
    var s1 := s.(now := e.now);
    InvSound(s1);
    match e.event {
      case Open(_, _) => OpenKept(s, e, r); KeptIsRight(s, s, e, Step(s, e), r);
      case Receive(_, _) => ReceiveByRight(s, e, r);
      case Close(k, status) => CloseKept(s1, k, status, r); KeptIsRight(s, s1, e, Step(s, e), r);
      case Fail(k) => CloseKept(s1, k, 0, r); KeptIsRight(s, s1, e, Step(s, e), r);
      case Tick => TickKept(s1, r); KeptIsRight(s, s1, e, Step(s, e), r);
      case _ => SwapKept(s, e, r); KeptIsRight(s, s, e, Step(s, e), r);
    }
  }

  lemma KeptIsRight(s: State, s1: State, e: Timed, t: State, r: RoomRef)
    requires s1 == s.(now := s1.now) && KeptForAll(s1, t, r)
    ensures ByRight(s, e, t, r)
  {
    hide HasClient, SameRules;
  }

  /** The right of a moderator, and with it that of an owner, as Rightful has them. */
  lemma Spelled(s: State, t: State, r: RoomRef, c: ClientRef)
    requires r in s.rooms && c in s.client && Rightful(s, t, r, c)
    ensures var room, uid := s.rooms[r], s.client[c].uid;
      && r in t.rooms
      && (SameRules(room, t.rooms[r]) ||
            (HasClient(room.members, c) && (uid in {1, 2} || (uid != 0 && (uid == room.ownerId || uid in room.moderators)))))
      && (t.rooms[r].moderators == room.moderators || uid in {1, 2} || (uid != 0 && uid == room.ownerId))
      && ((uid in {1, 2} || (uid != 0 && (uid == room.ownerId || uid in room.moderators)))
          || forall d :: d != c && HasClient(room.members, d) ==> HasClient(t.rooms[r].members, d))
      && forall d :: HasClient(t.rooms[r].members, d) && !HasClient(room.members, d) ==>
           d == c && (uid in {1, 2} || (uid != 0 && (uid == room.ownerId || uid in room.moderators))
                      || (s.client[c].lastIp !in room.bannedIps && uid !in room.bannedUids))
  {
    hide HasClient, SameRules;
  }

  /**
   * The bans, the name, the owner and the moderators of a room change only by a message of a member who
   * is an administrator, the owner or a moderator of it; its moderators change only by one of the first two.
   */
  lemma RulesChangeByRight(s: State, e: Timed, r: RoomRef)
    requires Reachable(s) && Valid(s, e) && !e.event.Restart? && r in s.rooms
    ensures r in Step(s, e).rooms
    ensures var room := s.rooms[r];
      !SameRules(room, Step(s, e).rooms[r]) ==>
        exists c :: Acts(s, e, c) && HasClient(room.members, c) && var uid := s.client[c].uid;
          uid in {1, 2} || (uid != 0 && (uid == room.ownerId || uid in room.moderators))
    ensures var room := s.rooms[r];
      Step(s, e).rooms[r].moderators != room.moderators ==>
        exists c :: Acts(s, e, c) && var uid := s.client[c].uid; uid in {1, 2} || (uid != 0 && uid == room.ownerId)
  {
    RoomsByRight(s, e, r);
    hide Reachable, Valid, Step, HasClient, SameRules, Rightful;
    var t := Step(s, e);
    if c :| Acts(s, e, c) && Rightful(s, t, r, c) { Spelled(s, t, r, c); }
    RulesOfSame(s.rooms[r]);
    KeptRules(s, t, r);
  }

  lemma RulesOfSame(room: Room)
    ensures SameRules(room, room)
  {
  }

  lemma KeptRules(s: State, t: State, r: RoomRef)
    ensures KeptForAll(s, t, r) ==> r in t.rooms && r in s.rooms && SameRules(s.rooms[r], t.rooms[r]) && NobodyNew(s.rooms[r], t.rooms[r])
    ensures KeptForAll(s, t, r) ==> t.rooms[r].moderators == s.rooms[r].moderators
  {
  }

  /**
   * A client that stays alive loses its member in a room only by its own packet or by that of an
   * administrator, the owner or a moderator: kicked, banned, or sent out of a room that is removed.
   */
  lemma ExpelledByRight(s: State, e: Timed, r: RoomRef, d: ClientRef)
    requires Reachable(s) && Valid(s, e) && !e.event.Restart? && r in s.rooms
    requires HasClient(s.rooms[r].members, d) && d in Step(s, e).mgr.clients
    ensures r in Step(s, e).rooms
    ensures var room := s.rooms[r];
      !HasClient(Step(s, e).rooms[r].members, d) ==>
        exists c :: Acts(s, e, c) && var uid := s.client[c].uid;
          c == d || uid in {1, 2} || (uid != 0 && (uid == room.ownerId || uid in room.moderators))
  {
    RoomsByRight(s, e, r);
    hide Reachable, Valid, Step, HasClient, SameRules, Rightful;
    var t := Step(s, e);
    if c :| Acts(s, e, c) && Rightful(s, t, r, c) { Spelled(s, t, r, c); }
  }

  /**
   * A client gets into a room only by its own packet, and only as an administrator, the owner or a
   * moderator, or while neither its address nor its account is banned there.
   */
  lemma EntryByRight(s: State, e: Timed, r: RoomRef, d: ClientRef)
    requires Reachable(s) && Valid(s, e) && !e.event.Restart? && r in s.rooms && !HasClient(s.rooms[r].members, d)
    ensures r in Step(s, e).rooms
    ensures var room := s.rooms[r];
      HasClient(Step(s, e).rooms[r].members, d) ==>
        Acts(s, e, d) && d in s.client && var uid := s.client[d].uid;
          uid in {1, 2} || (uid != 0 && (uid == room.ownerId || uid in room.moderators))
          || (s.client[d].lastIp !in room.bannedIps && uid !in room.bannedUids)
  {
    RoomsByRight(s, e, r);
    hide Reachable, Valid, Step, HasClient, SameRules, Rightful;
    var t := Step(s, e);
    if c :| Acts(s, e, c) && Rightful(s, t, r, c) { Spelled(s, t, r, c); }
  }
}
