/** Every incoming packet except a revive keeps the world in order and the sessions as they are. */
module PacketSteps {
  import opened Types
  import opened Members
  import opened MemberIds
  import opened Presence
  import opened RateLimit
  import opened History
  import opened Delivery
  import opened Chat
  import opened World
  import opened RoomSteps
  import opened RoomEntries
  import opened WorldSteps

  /** What the connection manager and the clocks know of a client. */
  ghost predicate SameSession(a: Client, b: Client) {
    && a.connection == b.connection && a.lastIp == b.lastIp && a.token == b.token
    && a.lastPacketTime == b.lastPacketTime && a.limiter == b.limiter
  }

  /** Sessions, indexes, counters, clocks and alarms did not change. */
  ghost predicate SameSessions(s: State, t: State) {
    && t.mgr == s.mgr && t.cfg == s.cfg && t.alarms == s.alarms
    && t.now == s.now && t.lastTick == s.lastTick && t.nextClient == s.nextClient
    && t.out.Keys == s.out.Keys && t.client.Keys == s.client.Keys
    && forall c :: c in s.client ==> SameSession(s.client[c], t.client[c])
  }

  ghost predicate Fine(s: State, t: State) {
    WorldOk(t) && SameSessions(s, t)
  }

  lemma FineTransitive(s: State, t: State, u: State)
    requires Fine(s, t) && Fine(t, u)
    ensures Fine(s, u)
  {
    forall c | c in s.client ensures SameSession(s.client[c], u.client[c]) {
      assert SameSession(s.client[c], t.client[c]);
    }
  }

  lemma FineReflexive(s: State)
    requires WorldOk(s)
    ensures Fine(s, s)
  {
  }

  lemma StillFine(s: State, t: State)
    requires Still(s, t) && WorldOk(t)
    ensures Fine(s, t)
  {
    forall c | c in s.client ensures SameSession(s.client[c], t.client[c]) {
      assert SameButRooms(s.client[c], t.client[c]);
    }
  }

  lemma SendFine(s: State, c: ClientRef, p: Packet)
    requires WorldOk(s) && !p.StatusPacket? && !p.OnlineListPacket?
    ensures Fine(s, SendPacket(s, c, p))
  {
    SendWorld(s, c, p);
    StillFine(s, SendPacket(s, c, p));
  }

  lemma ThenSendFine(s: State, t: State, c: ClientRef, p: Packet)
    requires Fine(s, t) && !p.StatusPacket? && !p.OnlineListPacket?
    ensures Fine(s, SendPacket(t, c, p))
  {
    SendFine(t, c, p);
    FineTransitive(s, t, SendPacket(t, c, p));
  }

  lemma TouchStill(s: State, t: State, r: RoomRef)
    requires r in s.rooms && Touch(s, t, r)
    ensures Still(s, t)
  {
  }

  /** A step on a registered room in which nobody came or went. */
  lemma SeatedFine(s: State, t: State, r: RoomRef)
    requires WorldOk(s) && r in s.rooms && r in s.registered
    requires Touch(s, t, r) && RoomOk(t, r, None) && t.client == s.client
    requires SameSeats(s.rooms[r].members, t.rooms[r].members)
    ensures Fine(s, t)
  {
    SeatsKeepLinks(s, t, r, None);
    TouchWorld(s, t, r, None, [], []);
    TouchStill(s, t, r);
    StillFine(s, t);
  }

  /** A room with a member is registered. */
  lemma Occupied(s: State, r: RoomRef, i: nat)
    requires WorldOk(s) && r in s.rooms && i < |s.rooms[r].members|
    ensures r in s.registered && RoomOk(s, r, None) && Wired(s.out, s.client)
    ensures s.rooms[r].members[i] in s.rooms[r].members
    ensures s.rooms[r].members[i].client in s.client
  {
    assert RoomOk(s, r, None);
  }

  lemma PutRoomFine(s: State, r: RoomRef, room: Room, i: nat)
    requires WorldOk(s) && r in s.rooms && i < |s.rooms[r].members|
    requires room.name == s.rooms[r].name && room.members == s.rooms[r].members
    requires room.history == s.rooms[r].history && room.nextMessageId == s.rooms[r].nextMessageId
    requires room.membersInfo == s.rooms[r].membersInfo && room.nextMemberId == s.rooms[r].nextMemberId
    ensures Fine(s, PutRoom(s, r, room))
  {
    Occupied(s, r, i);
    PutRoomStep(s, r, room);
    SeatedFine(s, PutRoom(s, r, room), r);
  }

  lemma KickFine(s: State, r: RoomRef, i: nat)
    requires WorldOk(s) && r in s.rooms && i < |s.rooms[r].members|
    ensures Fine(s, KickMember(s, r, i))
  {
    KickMemberWorld(s, r, i);
    StillFine(s, KickMember(s, r, i));
  }

  lemma PublicMessageFine(s: State, r: RoomRef, i: nat, style: Style, text: string)
    requires WorldOk(s) && r in s.rooms && i < |s.rooms[r].members|
    ensures Fine(s, PublicMessage(s, r, i, style, text))
  {
    Occupied(s, r, i);
    PublicMessageStep(s, r, i, style, text);
    SeatedFine(s, PublicMessage(s, r, i, style, text), r);
  }

  lemma SetNickFine(s: State, r: RoomRef, i: nat, nick: string)
    requires WorldOk(s) && r in s.rooms && i < |s.rooms[r].members|
    requires FindByNick(s.rooms[r].members, nick).None?
    ensures Fine(s, SetNick(s, r, i, nick))
  {
    Occupied(s, r, i);
    SetNickStep(s, r, i, nick);
    SeatedFine(s, SetNick(s, r, i, nick), r);
  }

  lemma ChangeLooksFine(s: State, r: RoomRef, i: nat, m: Member, status: Status)
    requires WorldOk(s) && r in s.rooms && i < |s.rooms[r].members| && status in {GenderChange, ColorChange}
    requires m == s.rooms[r].members[i].(girl := m.girl, color := m.color)
    ensures Fine(s, ChangeLooks(s, r, i, m, status))
  {
    Occupied(s, r, i);
    ChangeLooksStep(s, r, i, m, status);
    SeatedFine(s, ChangeLooks(s, r, i, m, status), r);
  }

  lemma SendPrivateFine(s: State, r: RoomRef, i: nat, to: Option<nat>, text: string)
    requires WorldOk(s) && r in s.rooms && i < |s.rooms[r].members|
    requires to.Some? ==> to.value < |s.rooms[r].members|
    ensures Fine(s, SendPrivate(s, r, i, to, text))
  {
    var room := s.rooms[r];
    var m := room.members[i];
    if to.None? {
      SendFine(s, m.client, SystemPacket(room.name));
    } else {
      var p := MessagePacket(room.name, Message(0, m.id, m.nick, room.members[to.value].id, StyleMessage, text));
      SendFine(s, m.client, p);
      ThenSendFine(s, SendPacket(s, m.client, p), room.members[to.value].client, p);
    }
  }

  lemma EditSetsFine(s: State, r: RoomRef, i: nat, uid: nat, cmd: Command)
    requires WorldOk(s) && r in s.rooms && i < |s.rooms[r].members|
    ensures Fine(s, PutRoom(s, r, EditSets(s.rooms[r], uid, cmd)))
  {
    PutRoomFine(s, r, EditSets(s.rooms[r], uid, cmd), i);
  }

  lemma BanNickFine(s: State, r: RoomRef, i: nat, nick: string)
    requires WorldOk(s) && r in s.rooms && i < |s.rooms[r].members|
    ensures Fine(s, BanNickIn(s, r, i, nick))
  {
    hide Fine, KickMember;
    FineReflexive(s);
    var room := s.rooms[r].(bannedNicks := s.rooms[r].bannedNicks + {nick});
    var s1 := PutRoom(s, r, room);
    PutRoomFine(s, r, room, i);
    match FindByNick(s.rooms[r].members, nick)
    case None =>
    case Some(h) =>
      KickFine(s1, r, h);
      FineTransitive(s, s1, KickMember(s1, r, h));
  }

  /** Commands about the sender itself. */
  lemma OwnCommandFine(s: State, r: RoomRef, i: nat, cmd: Command)
    requires WorldOk(s) && r in s.rooms && i < |s.rooms[r].members|
    requires cmd.Nick? || cmd.Gender? || cmd.Color?
    ensures Fine(s, RunCommand(s, r, i, cmd))
  {
    hide Fine, WorldOk, SetNick, ChangeLooks;
    var m := s.rooms[r].members[i];
    SendFine(s, m.client, SystemPacket(s.rooms[r].name));
    match cmd
    case Nick(nick, legal) =>
      if FindByNick(s.rooms[r].members, nick).None? { SetNickFine(s, r, i, nick); }
    case Gender(given) =>
      ChangeLooksFine(s, r, i, m.(girl := if given.None? then !m.girl else given.value), GenderChange);
    case Color(color) =>
      if color.Some? { ChangeLooksFine(s, r, i, m.(color := color.value), ColorChange); }
  }

  /** Commands that say something. */
  lemma TalkCommandFine(s: State, r: RoomRef, i: nat, cmd: Command)
    requires WorldOk(s) && r in s.rooms && i < |s.rooms[r].members|
    requires cmd.Styled? || cmd.PrivateTo? || cmd.PrivateToId?
    ensures Fine(s, RunCommand(s, r, i, cmd))
  {
    hide Fine, WorldOk, PublicMessage, SendPrivate;
    var room := s.rooms[r];
    SendFine(s, room.members[i].client, SystemPacket(room.name));
    match cmd
    case Styled(style, text) => PublicMessageFine(s, r, i, style, text);
    case PrivateTo(nick, text) => SendPrivateFine(s, r, i, FindByNick(room.members, nick), text);
    case PrivateToId(id, text) =>
      var to := FindById(room.members, id);
      SendPrivateFine(s, r, i, if to.Some? && room.members[to.value].nick == "" then None else to, text);
  }

  /** Commands about others. */
  lemma ModerCommandFine(s: State, r: RoomRef, i: nat, cmd: Command)
    requires WorldOk(s) && r in s.rooms && i < |s.rooms[r].members|
    requires !cmd.Nick? && !cmd.Gender? && !cmd.Color? && !cmd.Styled? && !cmd.PrivateTo? && !cmd.PrivateToId?
    ensures Fine(s, RunCommand(s, r, i, cmd))
  {
    hide Fine, WorldOk, KickMember, BanNickIn, EditSets;
    var room := s.rooms[r];
    var c := room.members[i].client;
    var reply := SystemPacket(room.name);
    if cmd.Kick? {
      match FindByNick(room.members, cmd.nick)
      case Some(h) => KickFine(s, r, h);
      case None => SendFine(s, c, reply);
    } else if cmd.BanNick? {
      BanNickFine(s, r, i, cmd.nick);
      ThenSendFine(s, BanNickIn(s, r, i, cmd.nick), c, reply);
    } else if cmd.Plain? || cmd.Unknown? || cmd.Listing? {
      SendFine(s, c, reply);
    } else {
      EditSetsFine(s, r, i, UidOf(s, c), cmd);
      ThenSendFine(s, PutRoom(s, r, EditSets(room, UidOf(s, c), cmd)), c, reply);
    }
  }

  lemma RunCommandFine(s: State, r: RoomRef, i: nat, cmd: Command)
    requires WorldOk(s) && r in s.rooms && i < |s.rooms[r].members|
    ensures Fine(s, RunCommand(s, r, i, cmd))
  {
    hide Fine, WorldOk, RunCommand;
    if cmd.Nick? || cmd.Gender? || cmd.Color? {
      OwnCommandFine(s, r, i, cmd);
    } else if cmd.Styled? || cmd.PrivateTo? || cmd.PrivateToId? {
      TalkCommandFine(s, r, i, cmd);
    } else {
      ModerCommandFine(s, r, i, cmd);
    }
  }

  lemma SayFine(s: State, r: RoomRef, i: nat, text: string, cmd: Command)
    requires WorldOk(s) && r in s.rooms && i < |s.rooms[r].members|
    ensures Fine(s, Say(s, r, i, text, cmd))
  {
    hide Fine, WorldOk, RunCommand, PublicMessage;
    SendFine(s, s.rooms[r].members[i].client, SystemPacket(s.rooms[r].name));
    PublicMessageFine(s, r, i, StyleMessage, text);
    RunCommandFine(s, r, i, cmd);
  }

  lemma PutClientRoom(s: State, t: State, c: ClientRef, q: RoomRef)
    requires c in s.client && c in t.client && t == s.(client := s.client[c := t.client[c]])
    requires t.client[c].rooms == s.client[c].rooms && t.client[c].connection == s.client[c].connection
    requires q in s.rooms && RoomOk(s, q, None) && HistoryOk(s, q)
    ensures RoomOk(t, q, None) && HistoryOk(t, q)
  {
    forall m | m in t.rooms[q].members ensures MemberLinked(t, q, m) {
      assert MemberLinked(s, q, m);
    }
  }

  /** Changing what a client is, but neither its links nor its connection, harms no room. */
  lemma PutClientFine(s: State, c: ClientRef, cl: Client)
    requires WorldOk(s) && c in s.client
    requires cl.rooms == s.client[c].rooms && cl.connection == s.client[c].connection
    ensures WorldOk(s.(client := s.client[c := cl]))
  {
    hide RoomOk, HistoryOk, ClientOk;
    var t := s.(client := s.client[c := cl]);
    forall q | q in t.rooms ensures RoomOk(t, q, None) && HistoryOk(t, q) {
      assert RoomOk(s, q, None) && HistoryOk(s, q);
      PutClientRoom(s, t, c, q);
    }
    forall d | d in t.client ensures ClientOk(t, d) {
      assert ClientOk(s, d);
      PutClientClient(s, t, c, d);
    }
  }

  lemma PutClientClient(s: State, t: State, c: ClientRef, d: ClientRef)
    requires c in s.client && c in t.client && t == s.(client := s.client[c := t.client[c]])
    requires t.client[c].rooms == s.client[c].rooms && t.client[c].connection == s.client[c].connection
    requires d in s.client && ClientOk(s, d)
    ensures ClientOk(t, d)
  {
  }

  lemma PutLimiterWorld(s: State, c: ClientRef, l: Limiter)
    requires WorldOk(s) && c in s.client
    ensures WorldOk(PutLimiter(s, c, l))
  {
    PutClientFine(s, c, s.client[c].(limiter := l));
  }

  /** The state after a chat message has gone through the sender's limiter. */
  function Limited(s: State, c: ClientRef, now: int, p: InPacket): State
    requires c in s.client
  {
    if p.MessageIn? && p.target != "" && p.text != "" then
      PutLimiter(s, c, AfterMessage(s.client[c].limiter, now, IsBlank(p.text)))
    else s
  }

  /** A room a client is linked to holds a member of the client. */
  lemma LinkedHasMember(s: State, c: ClientRef, r: RoomRef)
    requires WorldOk(s) && c in s.client && r in s.client[c].rooms
    ensures r in s.rooms && FindMember(s, r, c).Some?
  {
    assert ClientOk(s, c);
  }

  lemma OnMessageFine(s: State, c: ClientRef, now: int, target: string, text: string, cmd: Command)
    requires WorldOk(s) && c in s.client
    ensures Fine(Limited(s, c, now, MessageIn(target, text, cmd)), OnMessage(s, c, now, target, text, cmd))
  {
    hide Fine, WorldOk, SpeakIn, OpenWindow, IsBlank;
    if target == "" || text == "" {
      FineReflexive(s);
    } else {
      var l := OpenWindow(s.client[c].limiter, now);
      var s1 := PutLimiter(s, c, l);
      if Blocked(l) || IsBlank(text) {
        PutLimiterWorld(s, c, l);
        SendFine(s1, c, SystemPacket(target));
      } else {
        var s2 := PutLimiter(s1, c, CountMessage(l));
        assert s2 == PutLimiter(s, c, CountMessage(l));
        PutLimiterWorld(s, c, CountMessage(l));
        PassedFine(s2, c, target, text, cmd);
      }
    }
  }

  lemma FineWorld(s: State, t: State)
    requires Fine(s, t)
    ensures WorldOk(t)
  {
  }

  /** A message that passed the limiter. */
  lemma PassedFine(s: State, c: ClientRef, target: string, text: string, cmd: Command)
    requires WorldOk(s) && c in s.client
    ensures Fine(s, SpeakIn(s, c, target, text, cmd))
  {
    hide Fine, WorldOk, Say;
    match RoomByName(s, s.client[c].rooms, target)
    case None => SendFine(s, c, SystemPacket(""));
    case Some(r) =>
      LinkedHasMember(s, c, r);
      SayFine(s, r, FindMember(s, r, c).value, text, cmd);
  }

  lemma TypingFine(s: State, r: RoomRef, i: nat, status: Status)
    requires WorldOk(s) && r in s.rooms && i < |s.rooms[r].members|
    requires s.rooms[r].members[i].nick != "" && status in {Typing, StopTyping}
    ensures Fine(s, SendStatusToAll(s, r, StatusOf(s.rooms[r].name, s.rooms[r].members[i], status)))
  {
    Occupied(s, r, i);
    TypingStep(s, r, i, status);
    SeatedFine(s, SendStatusToAll(s, r, StatusOf(s.rooms[r].name, s.rooms[r].members[i], status)), r);
  }

  lemma OnStatusFine(s: State, c: ClientRef, target: string, status: Status)
    requires WorldOk(s) && c in s.client && s.client[c].connection.Some?
    ensures Fine(s, OnStatus(s, c, target, status))
  {
    if status == Away || status == Back {
      assert ClientOk(s, c);
      ChangeStatusRoomsStep(s, c, status, s.client[c].rooms);
      StillFine(s, OnStatus(s, c, target, status));
    } else if status == Typing || status == StopTyping {
      match RoomByName(s, s.client[c].rooms, target)
      case None =>
      case Some(r) =>
        LinkedHasMember(s, c, r);
        var i := FindMember(s, r, c).value;
        if s.rooms[r].members[i].nick != "" { TypingFine(s, r, i, status); }
    }
  }

  lemma LeaveFine(s: State, c: ClientRef, r: RoomRef, target: string)
    requires WorldOk(s) && c in s.client && r in s.client[c].rooms
    ensures Fine(s, SendPacket(LeaveRoom(s, c, r), c, LeavePacket(target)))
  {
    LeaveRoomWorld(s, c, r);
    StillFine(s, LeaveRoom(s, c, r));
    ThenSendFine(s, LeaveRoom(s, c, r), c, LeavePacket(target));
  }

  lemma OnlineListFine(s: State, c: ClientRef, r: RoomRef)
    requires WorldOk(s) && c in s.client && r in s.client[c].rooms && r in s.rooms
    ensures Fine(s, SendPacket(s, c, OnlineListPacket(s.rooms[r].name, OnlineList(s.rooms[r].name, s.rooms[r].members))))
  {
    LinkedHasMember(s, c, r);
    Occupied(s, r, FindMember(s, r, c).value);
    ListStep(s, c, r, None, OnlineList(s.rooms[r].name, s.rooms[r].members));
    SeatedFine(s, SendPacket(s, c, OnlineListPacket(s.rooms[r].name, OnlineList(s.rooms[r].name, s.rooms[r].members))), r);
  }

  lemma CreateRoomRegistry(s: State, name: string, owner: nat)
    requires RegistryOk(s) && RoomByName(s, s.registered, name).None?
    ensures RegistryOk(CreateRoom(s, name, owner))
  {
    var t := CreateRoom(s, name, owner);
    var n := s.nextRoom;
    assert forall q :: q in t.registered <==> q in s.registered || q == n;
    forall i | 0 <= i < |s.registered| ensures s.registered[i] != n {
      assert s.registered[i] in s.registered;
    }
  }

  lemma CreateRoomRooms(s: State, name: string, owner: nat, q: RoomRef)
    requires WorldOk(s)
    requires q in CreateRoom(s, name, owner).rooms
    ensures RoomOk(CreateRoom(s, name, owner), q, None) && HistoryOk(CreateRoom(s, name, owner), q)
  {
    var t := CreateRoom(s, name, owner);
    if q != s.nextRoom {
      assert RoomOk(s, q, None) && HistoryOk(s, q);
      forall m | m in t.rooms[q].members ensures MemberLinked(t, q, m) {
        assert MemberLinked(s, q, m);
      }
    }
  }

  lemma CreateRoomFine(s: State, name: string, owner: nat)
    requires WorldOk(s) && RoomByName(s, s.registered, name).None?
    ensures Fine(s, CreateRoom(s, name, owner))
  {
    hide RoomOk, HistoryOk, RegistryOk;
    var t := CreateRoom(s, name, owner);
    CreateRoomRegistry(s, name, owner);
    forall q | q in t.rooms ensures RoomOk(t, q, None) && HistoryOk(t, q) {
      CreateRoomRooms(s, name, owner, q);
    }
    forall d | d in t.client ensures ClientOk(t, d) {
      assert ClientOk(s, d);
      CreateRoomClient(s, name, owner, d);
    }
  }

  lemma CreateRoomClient(s: State, name: string, owner: nat, d: ClientRef)
    requires RegistryOk(s) && d in s.client && ClientOk(s, d)
    ensures ClientOk(CreateRoom(s, name, owner), d)
  {
  }

  lemma RemoveRoomFine(s: State, r: RoomRef)
    requires WorldOk(s) && r in s.rooms
    ensures Fine(s, RemoveRoom(s, r))
  {
    RemoveRoomWorld(s, r);
    var t := RemoveRoom(s, r);
    forall c | c in s.client ensures SameSession(s.client[c], t.client[c]) {
      assert SameButRooms(s.client[c], t.client[c]);
    }
  }

  // ---- joining ----

  ghost function ClientSet(ms: seq<Member>): set<ClientRef> {
    set m | m in ms :: m.client
  }

  lemma {:induction false} ClientSetSize(ms: seq<Member>)
    requires Distinct(ms)
    ensures |ClientSet(ms)| == |ms|
  {
    if ms == [] {
      assert ClientSet(ms) == {};
    } else {
      var rest := ms[1..];
      ClientSetSize(rest);
      assert ms == [ms[0]] + rest;
      forall m | m in rest ensures m.client != ms[0].client {
        var j :| 0 <= j < |rest| && rest[j] == m;
        assert ms[j + 1] == m;
      }
      assert ClientSet(ms) == ClientSet(rest) + {ms[0].client};
    }
  }

  ghost function RefSet(cs: seq<ClientRef>): set<ClientRef> {
    set c | c in cs
  }

  lemma {:induction false} RefSetSize(cs: seq<ClientRef>)
    ensures |RefSet(cs)| <= |cs|
  {
    if cs == [] {
      assert RefSet(cs) == {};
    } else {
      RefSetSize(cs[1..]);
      assert cs == [cs[0]] + cs[1..];
      assert RefSet(cs) == RefSet(cs[1..]) + {cs[0]};
    }
  }

  /** Pigeonhole: a room never has more members than there are clients. */
  lemma MembersAtMostClients(s: State, r: RoomRef)
    requires WorldOk(s) && r in s.rooms
    ensures |s.rooms[r].members| <= |s.mgr.clients|
  {
    var ms := s.rooms[r].members;
    assert RoomOk(s, r, None);
    ClientSetSize(ms);
    RefSetSize(s.mgr.clients);
    forall c | c in ClientSet(ms) ensures c in RefSet(s.mgr.clients) {
      var m :| m in ms && m.client == c;
      assert MemberLinked(s, r, m);
    }
    SubsetSize(ClientSet(ms), RefSet(s.mgr.clients));
  }

  lemma HistoryFine(s: State, c: ClientRef, target: string, h: seq<Message>)
    requires WorldOk(s)
    ensures Fine(s, SendHistory(s, c, target, h))
  {
    var t := SendHistory(s, c, target, h);
    SendMessagesQuiet(s.out, s.client, c, target, h);
    forall r | r in t.rooms ensures RoomOk(t, r, None) && HistoryOk(t, r) {
      assert RoomOk(s, r, None) && HistoryOk(s, r);
      SameViewsKeep(s, t, r, None);
    }
    forall d | d in t.client ensures ClientOk(t, d) {
      assert ClientOk(s, d);
    }
  }

  lemma AutoLoginFine(s: State, c: ClientRef, r: RoomRef, i: nat)
    requires WorldOk(s) && c in s.client && r in s.rooms && i < |s.rooms[r].members|
    requires s.rooms[r].members[i].nick == ""
    ensures var (t, nick) := AutoLogin(s, c, r, i);
      && Fine(s, t) && r in t.rooms && i < |t.rooms[r].members| && t.rooms[r].name == s.rooms[r].name
      && FindByNick(t.rooms[r].members, nick).None?
  {
    var room := s.rooms[r];
    var info := LoginInfo(room, s.client[c]);
    var m := room.members[i].(girl := info.girl, color := info.color);
    var s1 := PutMember(s, r, i, m);
    var (t, nick) := AutoLogin(s, c, r, i);
    Occupied(s, r, i);
    NicklessUnseen(room.members, i, m);
    ChangeUnseen(s, r, None, i, m);
    SeatedFine(s, s1, r);
    SystemTwice(s, s1, c);
    NickStillFree(room.members, i, m, nick);
  }

  lemma SystemTwice(s: State, s1: State, c: ClientRef)
    requires Fine(s, s1)
    ensures Fine(s, SendPacket(s1, c, SystemPacket("")))
    ensures Fine(s, SendPacket(SendPacket(s1, c, SystemPacket("")), c, SystemPacket("")))
  {
    ThenSendFine(s, s1, c, SystemPacket(""));
    ThenSendFine(s, SendPacket(s1, c, SystemPacket("")), c, SystemPacket(""));
  }

  lemma NickStillFree(ms: seq<Member>, i: nat, m: Member, nick: string)
    requires i < |ms| && m.nick == ms[i].nick && FindByNick(ms, nick).None?
    ensures FindByNick(ms[i := m], nick).None?
  {
  }

  lemma EnterFine(s: State, c: ClientRef, r: RoomRef, i: nat, autoLogin: bool)
    requires WorldOk(s) && c in s.client && r in s.rooms && i < |s.rooms[r].members|
    requires s.rooms[r].members[i].nick == ""
    ensures Fine(s, Enter(s, c, r, i, autoLogin))
  {
    hide Fine, WorldOk, AutoLogin, SetNick;
    var sys := SystemPacket(s.rooms[r].name);
    FineReflexive(s);
    AutoLoginFine(s, c, r, i);
    var (s1, nick) := if autoLogin then AutoLogin(s, c, r, i) else (s, "");
    var s2 := SendPacket(s1, c, sys);
    ThenSendFine(s, s1, c, sys);
    ThenSendFine(s, s2, c, sys);
    if nick != "" {
      FineWorld(s, s2);
      SetNickFine(s2, r, i, nick);
      FineTransitive(s, s2, SetNick(s2, r, i, nick));
    }
  }

  /** After a join and its online list the newcomer is an ordinary member without a nick. */
  lemma ArrivalFine(s: State, c: ClientRef, r: RoomRef)
    requires WorldOk(s) && c in s.client && c in s.mgr.clients && s.client[c].connection.Some?
    requires r in s.rooms && r in s.registered && r !in s.client[c].rooms && JoinRoom(s, c, r).1 == Joined
    ensures var s1 := JoinRoom(s, c, r).0;
      && |s1.rooms[r].members| == |s.rooms[r].members| + 1
      && s1.rooms[r].members[|s.rooms[r].members|].nick == ""
      && Fine(s, SendPacket(SendPacket(s1, c, JoinPacket(s1.rooms[r].name, s1.rooms[r].members[|s.rooms[r].members|].id, "")),
                            c, OnlineListPacket(s1.rooms[r].name, OnlineList(s1.rooms[r].name, s1.rooms[r].members))))
  {
    hide JoinRoom, OnlineList, RoomOk, MemberLinked, Wired;
    var i := |s.rooms[r].members|;
    assert ClientOk(s, c) && RoomOk(s, r, None);
    JoinStep(s, c, r);
    var s1 := JoinRoom(s, c, r).0;
    TouchWired(s, s1, r);
    var p := JoinPacket(s1.rooms[r].name, s1.rooms[r].members[i].id, "");
    var s2 := SendPacket(s1, c, p);
    QuietSend(s1, r, Some(c), c, p);
    TouchWired(s1, s2, r);
    ListSettles(s2, c, r, i);
    var s3 := SendPacket(s2, c, OnlineListPacket(s1.rooms[r].name, OnlineList(s1.rooms[r].name, s1.rooms[r].members)));
    TouchTransitive(s, s1, s2, r);
    TouchTransitive(s, s2, s3, r);
    forall d | d in s.client ensures LinkedTo(s3, d, r) && (d !in s.mgr.clients ==> r !in s3.client[d].rooms) {
      assert ClientOk(s, d);
      assert s3.client == s1.client && s3.rooms == s1.rooms;
      JoinLinks(s, s1, c, r, d);
    }
    TouchWorld(s, s3, r, None, [], []);
    TouchStill(s, s3, r);
    StillFine(s, s3);
  }

  lemma JoinLinks(s: State, s1: State, c: ClientRef, r: RoomRef, d: ClientRef)
    requires r in s.rooms && c in s.client && d in s.client && c in s.mgr.clients && ClientOk(s, d) && Touch(s, s1, r)
    requires NoDup(s1.client[c].rooms) && r in s.registered
    requires forall e :: e in s.client && e != c ==> s1.client[e] == s.client[e]
    requires forall e :: HasClient(s.rooms[r].members, e) || e == c ==> HasClient(s1.rooms[r].members, e)
    ensures LinkedTo(s1, d, r) && (d !in s.mgr.clients ==> r !in s1.client[d].rooms)
  {
  }

  lemma WelcomeFine(s: State, c: ClientRef, r: RoomRef, autoLogin: bool, loadHistory: bool)
    requires WorldOk(s) && c in s.client && c in s.mgr.clients && s.client[c].connection.Some?
    requires r in s.rooms && r in s.registered && r !in s.client[c].rooms && JoinRoom(s, c, r).1 == Joined
    ensures c in JoinRoom(s, c, r).0.client && r in JoinRoom(s, c, r).0.rooms
    ensures |s.rooms[r].members| < |JoinRoom(s, c, r).0.rooms[r].members|
    ensures Fine(s, Welcome(JoinRoom(s, c, r).0, c, r, |s.rooms[r].members|, autoLogin, loadHistory))
  {
    hide Fine, WorldOk, Enter, OnlineList;
    var i := |s.rooms[r].members|;
    var s1 := JoinRoom(s, c, r).0;
    ArrivalFine(s, c, r);
    var name := s1.rooms[r].name;
    var s2 := SendPacket(SendPacket(s1, c, JoinPacket(name, s1.rooms[r].members[i].id, "")),
                         c, OnlineListPacket(name, OnlineList(name, s1.rooms[r].members)));
    FineWorld(s, s2);
    HistoryFine(s2, c, name, s1.rooms[r].history);
    FineReflexive(s2);
    var s3 := if loadHistory then SendHistory(s2, c, name, s1.rooms[r].history) else s2;
    FineTransitive(s, s2, s3);
    FineWorld(s, s3);
    EnterFine(s3, c, r, i, autoLogin);
    FineTransitive(s, s3, Enter(s3, c, r, i, autoLogin));
  }

  lemma BannedFine(s: State, c: ClientRef, r: RoomRef, p: Packet)
    requires WorldOk(s) && c in s.client && r in s.rooms && r in s.registered && JoinRoom(s, c, r).1 == Banned
    requires !p.StatusPacket? && !p.OnlineListPacket?
    ensures Fine(s, SendPacket(JoinRoom(s, c, r).0, c, p))
  {
    var t := JoinRoom(s, c, r).0;
    assert RoomOk(s, r, None);
    BannedStep(s, c, r);
    SeatedFine(s, t, r);
    ThenSendFine(s, t, c, p);
  }

  lemma OnJoinFine(s: State, c: ClientRef, target: string, autoLogin: bool, loadHistory: bool)
    requires WorldOk(s) && c in s.client && c in s.mgr.clients && s.client[c].connection.Some?
    requires |s.mgr.clients| < U32 - 1
    ensures Fine(s, OnJoin(s, c, target, autoLogin, loadHistory))
  {
    hide Fine, WorldOk, Welcome;
    SendFine(s, c, ErrorPacket(AlreadyConnected, target));
    SendFine(s, c, ErrorPacket(NotFound, target));
    if RoomByName(s, s.client[c].rooms, target).None? {
      match RoomByName(s, s.registered, target)
      case None =>
      case Some(r) =>
        MembersAtMostClients(s, r);
        match JoinRoom(s, c, r).1
        case Joined => WelcomeFine(s, c, r, autoLogin, loadHistory);
        case Banned => BannedFine(s, c, r, ErrorPacket(UserBanned, target));
        case NoIdLeft => assert false;
    }
  }

  // ---- all packets but a revive ----

  lemma LoginFine(s: State, c: ClientRef, cl: Client, p: Packet)
    requires WorldOk(s) && c in s.client && SameSession(s.client[c], cl) && cl.rooms == s.client[c].rooms
    requires !p.StatusPacket? && !p.OnlineListPacket?
    ensures Fine(s, SendPacket(s.(client := s.client[c := cl]), c, p))
  {
    PutClientFine(s, c, cl);
    ThenSendFine(s, s.(client := s.client[c := cl]), c, p);
  }

  predicate Revives(s: State, c: ClientRef, p: InPacket) {
    p.Auth? && p.token != "" && p.token in s.mgr.tokenToClient && s.mgr.tokenToClient[p.token] != c
    && s.mgr.tokenToClient[p.token] in s.client
  }

  lemma OnAuthFine(s: State, c: ClientRef, now: int, p: InPacket)
    requires WorldOk(s) && c in s.client && p.Auth? && !Revives(s, c, p)
    ensures Fine(s, OnAuth(s, c, now, p.token, p.outcome))
  {
    hide Fine, WorldOk;
    var cl := s.client[c];
    match p.outcome
    case NoLogin => SendFine(s, c, AuthPacket(cl.uid, cl.name, cl.token));
    case LoginFailed(code) => SendFine(s, c, ErrorPacket(code, ""));
    case LoggedIn(uid, name, girl, color) =>
      LoginFine(s, c, cl.(uid := uid, name := name, girl := girl, color := color), AuthPacket(uid, name, cl.token));
  }

  lemma RoomPacketFine(s: State, c: ClientRef, now: int, p: InPacket)
    requires WorldOk(s) && c in s.client && (p.CreateRoomIn? || p.RemoveRoomIn?)
    ensures Fine(s, Process(s, c, now, p))
  {
    hide Fine, WorldOk, CreateRoom, RemoveRoom;
    var cl := s.client[c];
    forall code ensures Fine(s, SendPacket(s, c, ErrorPacket(code, p.target))) {
      SendFine(s, c, ErrorPacket(code, p.target));
    }
    match RoomByName(s, s.registered, p.target)
    case None =>
      CreateRoomFine(s, p.target, cl.uid);
      ThenSendFine(s, CreateRoom(s, p.target, cl.uid), c, CreateRoomPacket(p.target));
    case Some(r) =>
      RemoveRoomFine(s, r);
      ThenSendFine(s, RemoveRoom(s, r), c, RemoveRoomPacket(p.target));
  }

  lemma ProcessFine(s: State, c: ClientRef, now: int, p: InPacket)
    requires WorldOk(s) && c in s.client && c in s.mgr.clients && s.client[c].connection.Some?
    requires |s.mgr.clients| < U32 - 1 && !Revives(s, c, p)
    ensures Fine(Limited(s, c, now, p), Process(s, c, now, p))
  {
    hide Fine, WorldOk, OnAuth, OnStatus, OnJoin, OnMessage, LeaveRoom, OnlineList;
    FineReflexive(s);
    match p
    case Invalid | Idle =>
    case Auth(token, outcome) => OnAuthFine(s, c, now, p);
    case StatusIn(target, status) => OnStatusFine(s, c, target, status);
    case JoinIn(target, autoLogin, loadHistory) => OnJoinFine(s, c, target, autoLogin, loadHistory);
    case LeaveIn(target) =>
      SendFine(s, c, ErrorPacket(NotFound, target));
      var f := RoomByName(s, s.client[c].rooms, target);
      if f.Some? { LeaveFine(s, c, f.value, target); }
    case CreateRoomIn(_, _) => RoomPacketFine(s, c, now, p);
    case RemoveRoomIn(_) => RoomPacketFine(s, c, now, p);
    case OnlineListIn(target) =>
      SendFine(s, c, ErrorPacket(NotFound, target));
      var f := RoomByName(s, s.client[c].rooms, target);
      if f.Some? { OnlineListFine(s, c, f.value); }
    case MessageIn(target, text, cmd) => OnMessageFine(s, c, now, target, text, cmd);
  }
}
