/**
 * The chat server as a state machine. Every handler runs on one thread, so it is one step.
 * Client and room objects live in stores that are indexed by their address; containers are
 * sequences without duplicates in iteration order.
 */
module Chat {
  import opened Types
  import opened Members
  import opened MemberIds
  import opened Presence
  import opened RateLimit
  import opened History
  import opened Json
  import opened Persistence

  const ORPHAN_TIMEOUT := 300
  const CONNECT_TIMEOUT := 150
  const PING_TIMEOUT := 60

  datatype Config = Config(maxHistory: int, maxConnectionsFromIp: int, maxClientsFromIp: int)

  datatype Counter = Counter(connections: int, clients: int)

  datatype CounterField = Connections | Clients

  datatype Manager = Manager(
    clients: seq<ClientRef>,
    connectionToClient: map<Conn, ClientRef>,
    tokenToClient: map<string, ClientRef>,
    countersFromIp: map<string, Counter>)

  /** Situations the code logs as impossible or silently relies on never meeting. */
  datatype Alarm =
    | NullMember            // findMemberByClient returned null where it is dereferenced
    | CounterClamped        // a counter would have become negative
    | OrphanNotFound        // the client limit is reached and no orphan can be evicted
    | ReviveRefused         // the reviving client has no connection
    | ReviveSameConnection  // both clients of a revive have the same connection
    | RoomFull              // the member id generator has no id left

  datatype State = State(
    cfg: Config,
    mgr: Manager,
    client: map<ClientRef, Client>,
    rooms: map<RoomRef, Room>,
    registered: seq<RoomRef>,       // Server::rooms
    out: Outboxes,                  // everything ever sent, per connection ever opened
    log: map<RoomRef, seq<Message>>,  // every public message of a room
    nextClient: ClientRef,
    nextRoom: RoomRef,
    now: int,
    lastTick: int,
    alarms: set<Alarm>)

  function Init(cfg: Config, now: int): State {
    State(cfg, Manager([], map[], map[], map[]), map[], map[], [], map[], map[], 0, 0, now, now, {})
  }

  function Raise(s: State, a: Alarm): State {
    s.(alarms := s.alarms + {a})
  }

  // ---- sending ----

  function SendOne(out: Outboxes, client: map<ClientRef, Client>, c: ClientRef, p: Packet): Outboxes {
    if c in client && client[c].connection.Some? then
      var k := client[c].connection.value;
      out[k := (if k in out then out[k] else []) + [p]]
    else out
  }

  function SendPacket(s: State, c: ClientRef, p: Packet): State {
    s.(out := SendOne(s.out, s.client, c, p))
  }

  function Deliver(out: Outboxes, client: map<ClientRef, Client>, ms: seq<Member>, p: Packet): Outboxes
    decreases |ms|
  {
    if ms == [] then out else Deliver(SendOne(out, client, ms[0].client, p), client, ms[1..], p)
  }

  /** A packet that is not a message: the history stays as it is. */
  function SendStatusToAll(s: State, r: RoomRef, i: StatusInfo): State
    requires r in s.rooms
  {
    s.(out := Deliver(s.out, s.client, s.rooms[r].members, StatusPacket(i)))
  }

  function SendMessages(out: Outboxes, client: map<ClientRef, Client>, c: ClientRef, target: string, h: seq<Message>): Outboxes
    decreases |h|
  {
    if h == [] then out
    else SendMessages(SendOne(out, client, c, MessagePacket(target, h[0])), client, c, target, h[1..])
  }

  function SendHistory(s: State, c: ClientRef, target: string, h: seq<Message>): State {
    s.(out := SendMessages(s.out, s.client, c, target, h))
  }

  // ---- members and roles ----

  function PutMembers(s: State, r: RoomRef, ms: seq<Member>): State
    requires r in s.rooms
  {
    s.(rooms := s.rooms[r := s.rooms[r].(members := ms)])
  }

  function PutMember(s: State, r: RoomRef, i: nat, m: Member): State
    requires r in s.rooms && i < |s.rooms[r].members|
  {
    PutMembers(s, r, s.rooms[r].members[i := m])
  }

  function FindMember(s: State, r: RoomRef, c: ClientRef): (i: Option<nat>)
    ensures i.Some? ==> r in s.rooms && i.value < |s.rooms[r].members| && s.rooms[r].members[i.value].client == c
  {
    if r in s.rooms then FindByClient(s.rooms[r].members, c) else None
  }

  function RoomByName(s: State, refs: seq<RoomRef>, name: string): (r: Option<RoomRef>)
    ensures r.Some? ==> r.value in refs && r.value in s.rooms && s.rooms[r.value].name == name
    ensures r.None? ==> forall q :: q in refs && q in s.rooms ==> s.rooms[q].name != name
  {
    if refs == [] then None
    else if refs[0] in s.rooms && s.rooms[refs[0]].name == name then Some(refs[0])
    else assert refs == [refs[0]] + refs[1..]; RoomByName(s, refs[1..], name)
  }

  predicate IsAdmin(uid: nat) { uid == 1 || uid == 2 }
  predicate IsGuest(uid: nat) { uid == 0 }
  predicate IsOwner(room: Room, uid: nat) { IsAdmin(uid) || (uid != 0 && uid == room.ownerId) }
  predicate IsModer(room: Room, uid: nat) { IsOwner(room, uid) || (uid != 0 && uid in room.moderators) }

  function UidOf(s: State, c: ClientRef): nat {
    if c in s.client then s.client[c].uid else 0
  }

  // ---- rooms.cpp ----

  function SetNick(s: State, r: RoomRef, i: nat, nick: string): State
    requires r in s.rooms && i < |s.rooms[r].members|
  {
    var room := s.rooms[r];
    var m := room.members[i];
    if m.nick == nick then s
    else if !IsModer(room, UidOf(s, m.client)) && nick in room.bannedNicks then
      SendPacket(s, m.client, SystemPacket(room.name))
    else
      var m' := m.(nick := nick);
      var plain := StatusOf(room.name, m', m'.status);
      var info :=
        if m.nick == "" then plain
        else if nick == "" then plain.(status := Offline, name := m.nick)
        else plain.(status := NickChange);
      SendStatusToAll(PutMember(s, r, i, m'), r, info)
  }

  /** The member leaves on its own: others are told, its data is stored, it is erased. */
  function RemoveMember(s: State, r: RoomRef, c: ClientRef): State {
    match FindMember(s, r, c)
    case None => Raise(s, NullMember)
    case Some(i) =>
      var m := s.rooms[r].members[i];
      var s1 := if m.nick != "" then SendStatusToAll(s, r, StatusOf(s.rooms[r].name, m, Offline)) else s;
      var uid := UidOf(s, c);
      var room := s1.rooms[r];
      var infos := if IsGuest(uid) then room.membersInfo
                   else room.membersInfo[uid := MemberInfo(uid, m.nick, m.girl, m.color)];
      s1.(rooms := s1.rooms[r := room.(membersInfo := infos, members := RemoveAt(room.members, i))])
  }

  function ForgetRoom(s: State, c: ClientRef, r: RoomRef): State {
    if c in s.client then s.(client := s.client[c := s.client[c].(rooms := Erase(s.client[c].rooms, r))]) else s
  }

  function KickMember(s: State, r: RoomRef, i: nat): State
    requires r in s.rooms && i < |s.rooms[r].members|
  {
    var m := s.rooms[r].members[i];
    var name := s.rooms[r].name;
    var s1 := ForgetRoom(s, m.client, r);
    var s2 := if m.nick != "" then SendStatusToAll(s1, r, StatusOf(name, m, Offline)) else s1;
    var s3 := SendPacket(s2, m.client, LeavePacket(name));
    PutMembers(s3, r, RemoveAt(s3.rooms[r].members, i))
  }

  function LeaveRoom(s: State, c: ClientRef, r: RoomRef): State {
    if c in s.client && r in s.client[c].rooms then RemoveMember(ForgetRoom(s, c, r), r, c) else s
  }

  function LeaveAll(s: State, r: RoomRef, name: string, mems: seq<Member>): State
    decreases |mems|
  {
    if mems == [] then s
    else
      var c := mems[0].client;
      LeaveAll(SendPacket(LeaveRoom(s, c, r), c, LeavePacket(name)), r, name, mems[1..])
  }

  function RemoveRoom(s: State, r: RoomRef): State
    requires r in s.rooms
  {
    var s1 := s.(registered := Erase(s.registered, r));
    LeaveAll(s1, r, s.rooms[r].name, s.rooms[r].members)
  }

  function CreateRoom(s: State, name: string, owner: nat): State {
    var room := Room(name, owner, 0, [], map[], {}, {}, {}, {}, [], 0);
    s.(rooms := s.rooms[s.nextRoom := room], registered := s.registered + [s.nextRoom],
       log := s.log[s.nextRoom := []], nextRoom := s.nextRoom + 1)
  }

  predicate BannedFrom(room: Room, cl: Client) {
    !IsModer(room, cl.uid) && (cl.lastIp in room.bannedIps || cl.uid in room.bannedUids)
  }

  datatype JoinOutcome = Joined | Banned | NoIdLeft

  /** A room join that may fail; a failed join still uses up a member id. */
  function JoinRoom(s: State, c: ClientRef, r: RoomRef): (State, JoinOutcome)
    requires c in s.client && r in s.rooms
  {
    var room := s.rooms[r];
    var cl := s.client[c];
    if |room.members| >= U32 - 1 then (Raise(s, RoomFull), NoIdLeft)
    else
      var id := NextMemberId(room.members, room.nextMemberId);
      if BannedFrom(room, cl) then (s.(rooms := s.rooms[r := room.(nextMemberId := id)]), Banned)
      else
        var m := Member(id, c, "", Online, false, "gray");
        (s.(rooms := s.rooms[r := room.(nextMemberId := id, members := room.members + [m])],
            client := s.client[c := cl.(rooms := cl.rooms + [r])]), Joined)
  }

  /** A public message takes the next message id, enters the history and goes to all members. */
  function PublicMessage(s: State, r: RoomRef, i: nat, style: Style, text: string): State
    requires r in s.rooms && i < |s.rooms[r].members|
  {
    var room := s.rooms[r];
    var m := room.members[i];
    var msg := Message(room.nextMessageId, m.id, m.nick, 0, style, text);
    var room' := room.(nextMessageId := (room.nextMessageId + 1) % U32,
                       history := AddToHistory(room.history, msg, s.cfg.maxHistory));
    s.(rooms := s.rooms[r := room'],
       log := s.log[r := (if r in s.log then s.log[r] else []) + [msg]],
       out := Deliver(s.out, s.client, room.members, MessagePacket(room.name, msg)))
  }

  // ---- client.cpp ----

  function SetConnection(s: State, c: ClientRef, k: Option<Conn>): State
    requires c in s.client
  {
    var cl := s.client[c];
    s.(client := s.client[c := cl.(connection := k, lastIp := if k.Some? then k.value.ip else cl.lastIp)])
  }

  function OrphanIn(s: State, c: ClientRef, r: RoomRef): State {
    match FindMember(s, r, c)
    case None => Raise(s, NullMember)
    case Some(i) =>
      var m := s.rooms[r].members[i].(status := Orphan);
      var s1 := PutMember(s, r, i, m);
      if m.nick != "" then SendStatusToAll(s1, r, StatusOf(s.rooms[r].name, m, Orphan)) else s1
  }

  function OrphanRooms(s: State, c: ClientRef, todo: seq<RoomRef>): State
    decreases |todo|
  {
    if todo == [] then s else OrphanRooms(OrphanIn(s, c, todo[0]), c, todo[1..])
  }

  function OnDisconnect(s: State, c: ClientRef): State
    requires c in s.client
  {
    OrphanRooms(SetConnection(s, c, None), c, s.client[c].rooms)
  }

  function ReviveIn(s: State, c: ClientRef, r: RoomRef): State {
    match FindMember(s, r, c)
    case None => Raise(s, NullMember)
    case Some(i) =>
      var room := s.rooms[r];
      var m := room.members[i].(status := Online);
      var s1 := PutMember(s, r, i, m);
      var s2 := SendPacket(s1, c, JoinPacket(room.name, m.id, m.nick));
      var s3 := SendPacket(s2, c, OnlineListPacket(room.name, OnlineList(room.name, s1.rooms[r].members)));
      var s4 := SendHistory(s3, c, room.name, room.history);
      if m.nick != "" then SendStatusToAll(s4, r, StatusOf(room.name, m, Back)) else s4
  }

  function ReviveRooms(s: State, c: ClientRef, todo: seq<RoomRef>): State
    decreases |todo|
  {
    if todo == [] then s else ReviveRooms(ReviveIn(s, c, todo[0]), c, todo[1..])
  }

  function OnRevive(s: State, c: ClientRef, now: int): State
    requires c in s.client
  {
    var s1 := s.(client := s.client[c := s.client[c].(lastPacketTime := now)]);
    ReviveRooms(s1, c, s.client[c].rooms)
  }

  function RemoveRooms(s: State, c: ClientRef, todo: seq<RoomRef>): State
    decreases |todo|
  {
    if todo == [] then s else RemoveRooms(RemoveMember(s, todo[0], c), c, todo[1..])
  }

  function OnRemove(s: State, c: ClientRef): State
    requires c in s.client
  {
    var s1 := RemoveRooms(s, c, s.client[c].rooms);
    if c in s1.client then
      s1.(client := s1.client[c := s1.client[c].(rooms := [], connection := None)])
    else s1
  }

  // ---- clients_manager.hpp ----

  function CounterOf(g: Manager, ip: string): Counter {
    if ip in g.countersFromIp then g.countersFromIp[ip] else Counter(0, 0)
  }

  function Field(n: Counter, f: CounterField): int {
    match f case Connections => n.connections case Clients => n.clients
  }

  function WithField(n: Counter, f: CounterField, v: int): Counter {
    match f case Connections => n.(connections := v) case Clients => n.(clients := v)
  }

  function Decrement(counters: map<string, Counter>, ip: string, f: CounterField): map<string, Counter> {
    var n := if ip in counters then counters[ip] else Counter(0, 0);
    var v := Field(n, f) - 1;
    var n' := WithField(n, f, if v < 0 then 0 else v);
    if n'.connections <= 0 && n'.clients <= 0 then counters - {ip} else counters[ip := n']
  }

  function DecrementForIp(s: State, ip: string, f: CounterField): State {
    var s1 := s.(mgr := s.mgr.(countersFromIp := Decrement(s.mgr.countersFromIp, ip, f)));
    if Field(CounterOf(s.mgr, ip), f) - 1 < 0 then Raise(s1, CounterClamped) else s1
  }

  function DropConnection(s: State, k: Conn): State {
    s.(mgr := s.mgr.(connectionToClient := s.mgr.connectionToClient - {k}))
  }

  function RemoveFromClients(s: State, c: ClientRef): State
    requires c in s.client
  {
    if c in s.mgr.clients then
      s.(mgr := s.mgr.(clients := Erase(s.mgr.clients, c), tokenToClient := s.mgr.tokenToClient - {s.client[c].token}))
    else s
  }

  function Connect(s: State, k: Conn, token: string, now: int): State {
    var c := s.nextClient;
    var cl := Client(Some(k), [], "", 0, false, "gray", k.ip, token, now, Limiter(now, 0));
    var g := s.mgr;
    var n := CounterOf(g, k.ip);
    s.(client := s.client[c := cl], nextClient := c + 1,
       mgr := Manager(g.clients + [c], g.connectionToClient[k := c], g.tokenToClient[token := c],
                      g.countersFromIp[k.ip := Counter(n.connections + 1, n.clients + 1)]))
  }

  function MakeOrphan(s: State, c: ClientRef): State
    requires c in s.client
  {
    var cl := s.client[c];
    if cl.connection.Some? && cl.connection.value in s.mgr.connectionToClient then
      var s1 := DecrementForIp(DropConnection(s, cl.connection.value), cl.lastIp, Connections);
      OnDisconnect(s1, c)
    else s
  }

  function Remove(s: State, c: ClientRef): State
    requires c in s.client
  {
    OnRemove(Unlist(s, c), c)
  }

  /** The manager's part of a removal: both indexes, the list and the counters. */
  function Unlist(s: State, c: ClientRef): State
    requires c in s.client
  {
    var cl := s.client[c];
    var s1 :=
      if cl.connection.Some? && cl.connection.value in s.mgr.connectionToClient then
        DecrementForIp(DropConnection(s, cl.connection.value), cl.lastIp, Connections)
      else s;
    if c in s1.mgr.clients then DecrementForIp(RemoveFromClients(s1, c), cl.lastIp, Clients) else s1
  }

  /** The manager's part of a revive before the discarded client is taken apart. */
  function UnlistForRevive(s: State, c: ClientRef, t: ClientRef): State
    requires c in s.client && t in s.client
  {
    var tl := s.client[t];
    var s1 :=
      if tl.connection.Some? && tl.connection.value in s.mgr.connectionToClient then
        DecrementForIp(DropConnection(s, tl.connection.value), tl.lastIp, Connections)
      else s;
    RemoveFromClients(DecrementForIp(s1, tl.lastIp, Clients), c)
  }

  /** The target client t takes over the connection of the current client c. */
  function ReviveClient(s: State, c: ClientRef, t: ClientRef, now: int): State
    requires c in s.client && t in s.client
  {
    match s.client[c].connection
    case None => Raise(s, ReviveRefused)
    case Some(k) =>
      var s1 := OnRemove(UnlistForRevive(s, c, t), c);
      var s2 := s1.(mgr := s1.mgr.(connectionToClient := s1.mgr.connectionToClient[k := t]));
      if t in s2.client then
        var s3 := OnRevive(SetConnection(s2, t, Some(k)), t, now);
        if s.client[t].connection == Some(k) then Raise(s3, ReviveSameConnection) else s3
      else s2
  }

  // ---- incoming packets ----

  datatype Level = LevelAll | LevelUser | LevelAuth | LevelModer | LevelOwner | LevelAdmin

  /** A chat message after the command parser has matched it; arguments are taken as matched. */
  datatype Command =
    | Plain
    | Unknown
    | Listing(level: Level)              // help, userlist, banlist, ...: one system message to the sender
    | Nick(nick: string, legal: bool)
    | Gender(given: Option<bool>)
    | Color(color: Option<string>)
    | Styled(style: Style, text: string)
    | PrivateTo(nick: string, text: string)
    | PrivateToId(id: nat, text: string)
    | BanNick(nick: string)
    | BanUid(uid: Option<nat>)
    | BanIp(ip: Option<string>)
    | UnbanNick(nick: string)
    | UnbanUid(uid: Option<nat>)
    | UnbanIp(ip: Option<string>)
    | Kick(nick: string)
    | AddModer(uid: Option<nat>)
    | DelModer(uid: Option<nat>)

  /** What the database and the session store answer to a login. */
  datatype LoginOutcome = NoLogin | LoggedIn(uid: nat, name: string, girl: bool, color: string) | LoginFailed(code: ErrorCode)

  datatype InPacket =
    | Invalid
    | Idle                                // error, system, ping: nothing to do
    | Auth(token: string, outcome: LoginOutcome)
    | StatusIn(target: string, status: Status)
    | JoinIn(target: string, autoLogin: bool, loadHistory: bool)
    | LeaveIn(target: string)
    | CreateRoomIn(target: string, legalName: bool)
    | RemoveRoomIn(target: string)
    | OnlineListIn(target: string)
    | MessageIn(target: string, text: string, command: Command)

  predicate IsSpace(ch: char) {
    ch == ' ' || ch == '\t' || ch == '\n' || ch == '\r' || ch as int == 11 || ch as int == 12
  }

  predicate IsBlank(text: string) {
    forall i :: 0 <= i < |text| ==> IsSpace(text[i])
  }

  function LevelOf(cmd: Command): Level {
    match cmd
    case Listing(l) => l
    case AddModer(_) | DelModer(_) => LevelOwner
    case BanNick(_) | BanUid(_) | BanIp(_) | UnbanNick(_) | UnbanUid(_) | UnbanIp(_) | Kick(_) => LevelModer
    case Styled(_, _) | PrivateTo(_, _) | PrivateToId(_, _) => LevelUser
    case _ => LevelAll
  }

  predicate Allowed(room: Room, uid: nat, m: Member, l: Level) {
    match l
    case LevelAll => true
    case LevelUser => m.nick != ""
    case LevelAuth => uid > 0
    case LevelModer => IsModer(room, uid)
    case LevelOwner => IsOwner(room, uid)
    case LevelAdmin => IsAdmin(uid)
  }

  /** A change of the member's looks, told to all if it has a nick and to itself otherwise. */
  function ChangeLooks(s: State, r: RoomRef, i: nat, m: Member, status: Status): State
    requires r in s.rooms && i < |s.rooms[r].members|
  {
    var info := StatusOf(s.rooms[r].name, m, status);
    var s1 := PutMember(s, r, i, m);
    if m.nick != "" then SendStatusToAll(s1, r, info) else SendPacket(s1, m.client, StatusPacket(info))
  }

  function PutRoom(s: State, r: RoomRef, room: Room): State {
    s.(rooms := s.rooms[r := room])
  }

  function SendPrivate(s: State, r: RoomRef, i: nat, to: Option<nat>, text: string): State
    requires r in s.rooms && i < |s.rooms[r].members|
    requires to.Some? ==> to.value < |s.rooms[r].members|
  {
    var room := s.rooms[r];
    var m := room.members[i];
    if to.None? then SendPacket(s, m.client, SystemPacket(room.name))
    else
      var m2 := room.members[to.value];
      var p := MessagePacket(room.name, Message(0, m.id, m.nick, m2.id, StyleMessage, text));
      SendPacket(SendPacket(s, m.client, p), m2.client, p)
  }

  /** The room after a command that edits its ban or moderator sets; unchanged if refused. */
  function EditSets(room: Room, uid: nat, cmd: Command): Room {
    var limited := !IsAdmin(uid);
    match cmd
    case BanUid(u) =>
      if (limited && |room.bannedUids| > 100) || u.None? then room else room.(bannedUids := room.bannedUids + {u.value})
    case BanIp(ip) =>
      if (limited && |room.bannedIps| > 100) || ip.None? then room else room.(bannedIps := room.bannedIps + {ip.value})
    case UnbanNick(nick) =>
      if |nick| > 24 || nick == "" then room else room.(bannedNicks := room.bannedNicks - {nick})
    case UnbanUid(u) => if u.None? then room else room.(bannedUids := room.bannedUids - {u.value})
    case UnbanIp(ip) => if ip.None? then room else room.(bannedIps := room.bannedIps - {ip.value})
    case AddModer(u) =>
      if (limited && |room.moderators| > 10) || u.None? || u.value == 0 then room
      else room.(moderators := room.moderators + {u.value})
    case DelModer(u) => if u.None? then room else room.(moderators := room.moderators - {u.value})
    case _ => room
  }

  /** A nick that is newly banned also costs its holder the membership. */
  function BanNickIn(s: State, r: RoomRef, i: nat, nick: string): State
    requires r in s.rooms && i < |s.rooms[r].members|
  {
    var room := s.rooms[r];
    var limited := !IsAdmin(UidOf(s, room.members[i].client));
    if (limited && |room.bannedNicks| > 100) || |nick| > 24 || nick == "" || nick in room.bannedNicks then s
    else
      var s1 := PutRoom(s, r, room.(bannedNicks := room.bannedNicks + {nick}));
      match FindByNick(room.members, nick)
      case None => s1
      case Some(h) => KickMember(s1, r, h)
  }

  function RunCommand(s: State, r: RoomRef, i: nat, cmd: Command): State
    requires r in s.rooms && i < |s.rooms[r].members|
  {
    var room := s.rooms[r];
    var m := room.members[i];
    var reply := SystemPacket(room.name);
    match cmd
    case Nick(nick, legal) =>
      if (nick == "" || legal) && FindByNick(room.members, nick).None? then SetNick(s, r, i, nick)
      else SendPacket(s, m.client, reply)
    case Gender(given) =>
      ChangeLooks(s, r, i, m.(girl := if given.None? then !m.girl else given.value), GenderChange)
    case Color(color) =>
      if color.None? then SendPacket(s, m.client, reply)
      else ChangeLooks(s, r, i, m.(color := color.value), ColorChange)
    case Styled(style, text) =>
      if IsBlank(text) then SendPacket(s, m.client, reply) else PublicMessage(s, r, i, style, text)
    case PrivateTo(nick, text) =>
      if IsBlank(text) then SendPacket(s, m.client, reply)
      else SendPrivate(s, r, i, FindByNick(room.members, nick), text)
    case PrivateToId(id, text) =>
      if IsBlank(text) then SendPacket(s, m.client, reply)
      else
        var to := FindById(room.members, id);
        SendPrivate(s, r, i, if to.Some? && room.members[to.value].nick == "" then None else to, text)
    case Kick(nick) =>
      (match FindByNick(room.members, nick)
       case Some(h) => KickMember(s, r, h)
       case None => SendPacket(s, m.client, reply))
    case BanNick(nick) => SendPacket(BanNickIn(s, r, i, nick), m.client, reply)
    case BanUid(_) | BanIp(_) | UnbanNick(_) | UnbanUid(_) | UnbanIp(_) | AddModer(_) | DelModer(_) =>
      SendPacket(PutRoom(s, r, EditSets(room, UidOf(s, m.client), cmd)), m.client, reply)
    case Plain | Unknown | Listing(_) => SendPacket(s, m.client, reply)
  }

  function Say(s: State, r: RoomRef, i: nat, text: string, cmd: Command): State
    requires r in s.rooms && i < |s.rooms[r].members|
  {
    var room := s.rooms[r];
    var m := room.members[i];
    if cmd == Plain then
      if m.nick == "" then SendPacket(s, m.client, SystemPacket(room.name))
      else PublicMessage(s, r, i, StyleMessage, text)
    else if Allowed(room, UidOf(s, m.client), m, LevelOf(cmd)) then RunCommand(s, r, i, cmd)
    else SendPacket(s, m.client, SystemPacket(room.name))
  }

  function PutLimiter(s: State, c: ClientRef, l: Limiter): State
    requires c in s.client
  {
    s.(client := s.client[c := s.client[c].(limiter := l)])
  }

  /** A message that has passed the limiter goes to the room it names. */
  function SpeakIn(s: State, c: ClientRef, target: string, text: string, cmd: Command): State
    requires c in s.client
  {
    match RoomByName(s, s.client[c].rooms, target)
    case None => SendPacket(s, c, SystemPacket(""))
    case Some(r) =>
      match FindMember(s, r, c)
      case None => Raise(s, NullMember)
      case Some(i) => Say(s, r, i, text, cmd)
  }

  function OnMessage(s: State, c: ClientRef, now: int, target: string, text: string, cmd: Command): State
    requires c in s.client
  {
    if target == "" || text == "" then s
    else
      var l := OpenWindow(s.client[c].limiter, now);
      var s1 := PutLimiter(s, c, l);
      if Blocked(l) || IsBlank(text) then SendPacket(s1, c, SystemPacket(target))
      else
        SpeakIn(PutLimiter(s1, c, CountMessage(l)), c, target, text, cmd)
  }

  /** The looks and the nick an auto-login starts from: the stored ones, or the account's. */
  function LoginInfo(room: Room, cl: Client): MemberInfo {
    if cl.uid != 0 && cl.uid in room.membersInfo then room.membersInfo[cl.uid]
    else MemberInfo(cl.uid, cl.name, cl.girl, cl.color)
  }

  function AutoLogin(s: State, c: ClientRef, r: RoomRef, i: nat): (State, string)
    requires c in s.client && r in s.rooms && i < |s.rooms[r].members|
  {
    var room := s.rooms[r];
    var info := LoginInfo(room, s.client[c]);
    var s1 := PutMember(s, r, i, room.members[i].(girl := info.girl, color := info.color));
    var banned := !IsModer(room, s.client[c].uid) && info.nick in room.bannedNicks;
    var s2 := if banned then SendPacket(s1, c, SystemPacket("")) else s1;
    var nick := if banned then "" else info.nick;
    if FindByNick(room.members, nick).Some? then (SendPacket(s2, c, SystemPacket("")), "") else (s2, nick)
  }

  function Welcome(s: State, c: ClientRef, r: RoomRef, i: nat, autoLogin: bool, loadHistory: bool): State
    requires c in s.client && r in s.rooms && i < |s.rooms[r].members|
  {
    var room := s.rooms[r];
    var s1 := SendPacket(s, c, JoinPacket(room.name, room.members[i].id, room.members[i].nick));
    var s2 := SendPacket(s1, c, OnlineListPacket(room.name, OnlineList(room.name, room.members)));
    var s3 := if loadHistory then SendHistory(s2, c, room.name, room.history) else s2;
    Enter(s3, c, r, i, autoLogin)
  }

  function Enter(s: State, c: ClientRef, r: RoomRef, i: nat, autoLogin: bool): State
    requires c in s.client && r in s.rooms && i < |s.rooms[r].members|
  {
    var (s1, nick) := if autoLogin then AutoLogin(s, c, r, i) else (s, "");
    var s2 := SendPacket(s1, c, SystemPacket(s.rooms[r].name));
    if nick == "" then SendPacket(s2, c, SystemPacket(s.rooms[r].name)) else SetNick(s2, r, i, nick)
  }

  function OnJoin(s: State, c: ClientRef, target: string, autoLogin: bool, loadHistory: bool): State
    requires c in s.client
  {
    if RoomByName(s, s.client[c].rooms, target).Some? then SendPacket(s, c, ErrorPacket(AlreadyConnected, target))
    else
      match RoomByName(s, s.registered, target)
      case None => SendPacket(s, c, ErrorPacket(NotFound, target))
      case Some(r) =>
        var (s1, outcome) := JoinRoom(s, c, r);
        match outcome
        case Joined => Welcome(s1, c, r, |s.rooms[r].members|, autoLogin, loadHistory)
        case Banned => SendPacket(s1, c, ErrorPacket(UserBanned, target))
        case NoIdLeft => s1
  }

  function ChangeStatusIn(s: State, c: ClientRef, r: RoomRef, status: Status): State {
    match FindMember(s, r, c)
    case None => s
    case Some(i) =>
      var m := s.rooms[r].members[i];
      if m.nick == "" then s
      else
        var m' := m.(status := if status == Back then Online else Away);
        SendStatusToAll(PutMember(s, r, i, m'), r, StatusOf(s.rooms[r].name, m', status))
  }

  function ChangeStatusRooms(s: State, c: ClientRef, status: Status, todo: seq<RoomRef>): State
    decreases |todo|
  {
    if todo == [] then s else ChangeStatusRooms(ChangeStatusIn(s, c, todo[0], status), c, status, todo[1..])
  }

  function OnStatus(s: State, c: ClientRef, target: string, status: Status): State
    requires c in s.client
  {
    if status == Away || status == Back then ChangeStatusRooms(s, c, status, s.client[c].rooms)
    else if status == Typing || status == StopTyping then
      match RoomByName(s, s.client[c].rooms, target)
      case None => s
      case Some(r) =>
        match FindMember(s, r, c)
        case None => s
        case Some(i) =>
          var m := s.rooms[r].members[i];
          if m.nick == "" then s else SendStatusToAll(s, r, StatusOf(s.rooms[r].name, m, status))
    else s
  }

  function OnAuth(s: State, c: ClientRef, now: int, token: string, outcome: LoginOutcome): State
    requires c in s.client
  {
    var cl := s.client[c];
    if token != "" && token in s.mgr.tokenToClient && s.mgr.tokenToClient[token] != c && s.mgr.tokenToClient[token] in s.client then
      var t := s.mgr.tokenToClient[token];
      var tl := s.client[t];
      ReviveClient(SendPacket(s, c, AuthPacket(tl.uid, tl.name, tl.token)), c, t, now)
    else
      match outcome
      case NoLogin => SendPacket(s, c, AuthPacket(cl.uid, cl.name, cl.token))
      case LoginFailed(code) => SendPacket(s, c, ErrorPacket(code, ""))
      case LoggedIn(uid, name, girl, color) =>
        var s1 := s.(client := s.client[c := cl.(uid := uid, name := name, girl := girl, color := color)]);
        SendPacket(s1, c, AuthPacket(uid, name, cl.token))
  }

  function OnPacket(s: State, c: ClientRef, now: int, p: InPacket): State
    requires c in s.client
  {
    if p == Invalid then s
    else
      var cl := s.client[c];
      Process(s.(client := s.client[c := cl.(lastPacketTime := now)]), c, now, p)
  }

  function Process(s: State, c: ClientRef, now: int, p: InPacket): State
    requires c in s.client
  {
    var cl := s.client[c];
    match p
    case Invalid | Idle => s
    case Auth(token, outcome) => OnAuth(s, c, now, token, outcome)
    case StatusIn(target, status) => OnStatus(s, c, target, status)
    case JoinIn(target, autoLogin, loadHistory) => OnJoin(s, c, target, autoLogin, loadHistory)
    case LeaveIn(target) =>
      (match RoomByName(s, cl.rooms, target)
       case None => SendPacket(s, c, ErrorPacket(NotFound, target))
       case Some(r) => SendPacket(LeaveRoom(s, c, r), c, LeavePacket(target)))
    case CreateRoomIn(target, legalName) =>
      if IsGuest(cl.uid) then SendPacket(s, c, ErrorPacket(AccessDenied, target))
      else if !legalName then SendPacket(s, c, ErrorPacket(InvalidTarget, target))
      else if RoomByName(s, s.registered, target).Some? then SendPacket(s, c, ErrorPacket(AlreadyExists, target))
      else SendPacket(CreateRoom(s, target, cl.uid), c, CreateRoomPacket(target))
    case RemoveRoomIn(target) =>
      if IsGuest(cl.uid) then SendPacket(s, c, ErrorPacket(AccessDenied, target))
      else
        (match RoomByName(s, s.registered, target)
         case None => SendPacket(s, c, ErrorPacket(NotFound, target))
         case Some(r) =>
           if IsAdmin(cl.uid) || cl.uid == s.rooms[r].ownerId then
             SendPacket(RemoveRoom(s, r), c, RemoveRoomPacket(target))
           else SendPacket(s, c, ErrorPacket(AccessDenied, target)))
    case OnlineListIn(target) =>
      (match RoomByName(s, cl.rooms, target)
       case None => SendPacket(s, c, ErrorPacket(NotFound, target))
       case Some(r) => SendPacket(s, c, OnlineListPacket(target, OnlineList(target, s.rooms[r].members))))
    case MessageIn(target, text, cmd) => OnMessage(s, c, now, target, text, cmd)
  }

  // ---- server.cpp: event handlers ----

  /** The first client, in list order, that has no connection and whose last address is ip. */
  function FindOrphan(s: State, cs: seq<ClientRef>, ip: string): (r: Option<ClientRef>)
    ensures r.Some? ==> r.value in cs && r.value in s.client && s.client[r.value].connection.None? && s.client[r.value].lastIp == ip
    ensures r.None? ==> forall c :: c in cs && c in s.client && s.client[c].lastIp == ip ==> s.client[c].connection.Some?
  {
    if cs == [] then None
    else if cs[0] in s.client && s.client[cs[0]].connection.None? && s.client[cs[0]].lastIp == ip then Some(cs[0])
    else assert cs == [cs[0]] + cs[1..]; FindOrphan(s, cs[1..], ip)
  }

  /** Asking for a counter creates it, as the index operator of the map does. */
  function TouchCounter(s: State, ip: string): State {
    s.(mgr := s.mgr.(countersFromIp := s.mgr.countersFromIp[ip := CounterOf(s.mgr, ip)]))
  }

  function MakeSpace(s: State, ip: string): State {
    match FindOrphan(s, s.mgr.clients, ip)
    case Some(o) => Remove(s, o)
    case None => Raise(s, OrphanNotFound)
  }

  function OnOpen(s: State, k: Conn, token: string, now: int): State {
    var s0 := TouchCounter(s.(out := s.out[k := []]), k.ip);
    var n := CounterOf(s0.mgr, k.ip);
    if n.connections >= s.cfg.maxConnectionsFromIp then s0
    else
      var s1 := if n.clients >= s.cfg.maxClientsFromIp then MakeSpace(s0, k.ip) else s0;
      Connect(s1, k, token, now)
  }

  function OnClose(s: State, k: Conn, status: int): State {
    if k in s.mgr.connectionToClient && s.mgr.connectionToClient[k] in s.client then
      var c := s.mgr.connectionToClient[k];
      if status == 1000 || status == 1001 then Remove(s, c) else MakeOrphan(s, c)
    else s
  }

  function OnError(s: State, k: Conn): State {
    if k in s.mgr.connectionToClient && s.mgr.connectionToClient[k] in s.client
    then MakeOrphan(s, s.mgr.connectionToClient[k]) else s
  }

  function OnReceive(s: State, k: Conn, now: int, p: InPacket): State {
    if k in s.mgr.connectionToClient && s.mgr.connectionToClient[k] in s.client
    then OnPacket(s, s.mgr.connectionToClient[k], now, p) else s
  }

  function Silence(s: State, c: ClientRef, now: int): int {
    if c in s.client then now - s.client[c].lastPacketTime else 0
  }

  /** One client's turn in the sweep; a client to be kicked is only collected. */
  function SweepOne(s: State, c: ClientRef, now: int): State {
    var w := Silence(s, c, now);
    if c !in s.client || w > ORPHAN_TIMEOUT then s
    else if w > CONNECT_TIMEOUT then (if s.client[c].connection.Some? then MakeOrphan(s, c) else s)
    else if w > PING_TIMEOUT then SendPacket(s, c, PingPacket)
    else s
  }

  function Sweep(s: State, cs: seq<ClientRef>, now: int): State
    decreases |cs|
  {
    if cs == [] then s else Sweep(SweepOne(s, cs[0], now), cs[1..], now)
  }

  function Overdue(s: State, cs: seq<ClientRef>, now: int): (r: seq<ClientRef>)
    ensures forall c :: c in r <==> c in cs && c in s.client && Silence(s, c, now) > ORPHAN_TIMEOUT
  {
    if cs == [] then []
    else
      assert cs == [cs[0]] + cs[1..];
      (if cs[0] in s.client && Silence(s, cs[0], now) > ORPHAN_TIMEOUT then [cs[0]] else []) + Overdue(s, cs[1..], now)
  }

  function KickAll(s: State, cs: seq<ClientRef>): State
    decreases |cs|
  {
    if cs == [] then s
    else KickAll(if cs[0] in s.client then Remove(s, cs[0]) else s, cs[1..])
  }

  function OnTick(s: State, now: int): State {
    KickAll(Sweep(s, s.mgr.clients, now), Overdue(s, s.mgr.clients, now)).(lastTick := now)
  }

  // ---- save and restart ----

  /** saved is what serializing the server may produce. */
  ghost predicate IsSaved(s: State, saved: Json) {
    && saved.Obj? && saved.fields.Keys == {"rooms"}
    && saved.fields["rooms"] == (if s.registered == [] then Null else Arr(Items(saved.fields["rooms"])))
    && |Items(saved.fields["rooms"])| == |s.registered|
    && forall i :: 0 <= i < |s.registered| && s.registered[i] in s.rooms ==>
         IsSavedRoom(s.rooms[s.registered[i]], Items(saved.fields["rooms"])[i])
  }

  /** Objects placed at consecutive new addresses. */
  function PlaceAt<T>(n: RoomRef, xs: seq<T>): (m: map<RoomRef, T>)
    ensures forall r :: r in m <==> n <= r < n + |xs|
    ensures forall i :: 0 <= i < |xs| ==> m[n + i] == xs[i]
    decreases |xs|
  {
    if xs == [] then map[]
    else PlaceAt(n, xs[..|xs| - 1])[n + |xs| - 1 := xs[|xs| - 1]]
  }

  function Addresses(n: RoomRef, count: nat): (rs: seq<RoomRef>)
    ensures |rs| == count
    ensures forall i :: 0 <= i < count ==> rs[i] == n + i
  {
    seq(count, i => n + i)
  }

  function LoadRooms(items: seq<Json>): (rs: seq<Room>)
    ensures |rs| == |items|
    ensures forall i :: 0 <= i < |items| ==> rs[i] == LoadRoom(items[i])
  {
    if items == [] then [] else [LoadRoom(items[0])] + LoadRooms(items[1..])
  }

  function LogsOf(s: State, refs: seq<RoomRef>): (ls: seq<seq<Message>>)
    ensures |ls| == |refs|
    ensures forall i :: 0 <= i < |refs| && refs[i] in s.log ==> ls[i] == s.log[refs[i]]
  {
    if refs == [] then [] else [if refs[0] in s.log then s.log[refs[0]] else []] + LogsOf(s, refs[1..])
  }

  /** A new process that loads the saved rooms; they are new objects at new addresses. */
  function OnRestart(s: State, saved: Json): State {
    var loaded := LoadRooms(Items(Get(saved, "rooms")));
    s.(mgr := Manager([], map[], map[], map[]), client := map[],
       rooms := PlaceAt(s.nextRoom, loaded),
       registered := Addresses(s.nextRoom, |loaded|),
       log := PlaceAt(s.nextRoom, LogsOf(s, s.registered)),
       nextRoom := s.nextRoom + |loaded|, lastTick := s.now)
  }

  // ---- runs ----

  datatype Event =
    | Open(k: Conn, token: string)
    | Receive(k: Conn, p: InPacket)
    | Close(k: Conn, status: int)
    | Fail(k: Conn)
    | Tick
    | Restart(saved: Json)
    | SwapMembers(r: RoomRef, i: nat, j: nat)   // containers may change their iteration order between steps
    | SwapRooms(c: ClientRef, i: nat, j: nat)
    | SwapRegistered(i: nat, j: nat)

  datatype Timed = At(now: int, event: Event)

  /**
   * Assumptions on the environment: clocks do not run backwards, a connection is opened once,
   * a generated token is unused, and fewer than 2^32 - 1 clients are alive at once.
   */
  ghost predicate Valid(s: State, e: Timed) {
    && e.now >= s.now
    && match e.event
       case Open(k, token) => k !in s.out && token !in s.mgr.tokenToClient && |s.mgr.clients| < U32 - 2
       case Restart(saved) => IsSaved(s, saved)
       case SwapMembers(r, i, j) => r in s.rooms && i < |s.rooms[r].members| && j < |s.rooms[r].members|
       case SwapRooms(c, i, j) => c in s.client && i < |s.client[c].rooms| && j < |s.client[c].rooms|
       case SwapRegistered(i, j) => i < |s.registered| && j < |s.registered|
       case _ => true
  }

  function Step(s: State, e: Timed): State {
    var s1 := s.(now := e.now);
    match e.event
    case Open(k, token) => OnOpen(s1, k, token, e.now)
    case Receive(k, p) => OnReceive(s1, k, e.now, p)
    case Close(k, status) => OnClose(s1, k, status)
    case Fail(k) => OnError(s1, k)
    case Tick => OnTick(s1, e.now)
    case Restart(saved) => OnRestart(s1, saved)
    case SwapMembers(r, i, j) =>
      if r in s.rooms && i < |s.rooms[r].members| && j < |s.rooms[r].members|
      then PutMembers(s1, r, Swap(s.rooms[r].members, i, j)) else s1
    case SwapRooms(c, i, j) =>
      if c in s.client && i < |s.client[c].rooms| && j < |s.client[c].rooms|
      then s1.(client := s.client[c := s.client[c].(rooms := Swap(s.client[c].rooms, i, j))]) else s1
    case SwapRegistered(i, j) =>
      if i < |s.registered| && j < |s.registered| then s1.(registered := Swap(s.registered, i, j)) else s1
  }

  function Run(s: State, es: seq<Timed>): State
    decreases |es|
  {
    if es == [] then s else Run(Step(s, es[0]), es[1..])
  }

  ghost predicate ValidRun(s: State, es: seq<Timed>)
    decreases |es|
  {
    es == [] || (Valid(s, es[0]) && ValidRun(Step(s, es[0]), es[1..]))
  }
}
