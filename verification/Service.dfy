/**
 * The server as it runs: one object whose fields the handlers update step by step. Every method is
 * proved against the function of the state machine that says what it does.
 */
module Service {
  import opened Types
  import opened Members
  import opened MemberIds
  import opened RateLimit
  import opened Presence
  import opened History
  import opened Lookups
  import opened Json
  import opened Persistence
  import opened Storage
  import opened Chat
  import opened Registry
  import Sessions
  import opened WorldSteps
  import opened Invariant
  import opened Runs

  lemma Advance<T>(todo: seq<T>, i: nat)
    requires i < |todo|
    ensures todo[i..] == [todo[i]] + todo[i + 1..] && todo[i..][0] == todo[i] && todo[i..][1..] == todo[i + 1..]
  {
  }

  /** Erasing means cutting out the first occurrence. */
  lemma {:induction false} EraseFirst(cs: seq<ClientRef>, i: nat, c: ClientRef)
    requires i < |cs| && cs[i] == c && c !in cs[..i]
    ensures Erase(cs, c) == cs[..i] + cs[i + 1..]
  {
    if i > 0 {
      assert cs[0] in cs[..i];
      assert forall x :: x in cs[1..][..i - 1] ==> x in cs[..i];
      EraseFirst(cs[1..], i - 1, c);
    }
  }

  lemma RunSets(s: State, r: RoomRef, i: nat, cmd: Command)
    requires r in s.rooms && i < |s.rooms[r].members|
    requires cmd.BanUid? || cmd.BanIp? || cmd.UnbanNick? || cmd.UnbanUid? || cmd.UnbanIp? || cmd.AddModer? || cmd.DelModer?
    ensures var c := s.rooms[r].members[i].client;
      Chat.RunCommand(s, r, i, cmd) ==
        Chat.SendPacket(s.(rooms := s.rooms[r := EditSets(s.rooms[r], UidOf(s, c), cmd)]), c, SystemPacket(s.rooms[r].name))
  {
    hide Chat.SendPacket, EditSets;
  }

  lemma CounterTouched(s: State, ip: string)
    ensures CounterOf(TouchCounter(s, ip).mgr, ip) == CounterOf(s.mgr, ip)
    ensures TouchCounter(s, ip).cfg == s.cfg
  {
  }

  /** The same client objects, heard of at the same times. */
  ghost predicate SameSilence(s: State, t: State) {
    t.client.Keys == s.client.Keys && forall c :: c in s.client ==> t.client[c].lastPacketTime == s.client[c].lastPacketTime
  }

  lemma SilenceKept(s: State, t: State, u: State)
    requires SameSilence(s, t) && Sessions.Shrunk(t, u)
    ensures SameSilence(s, u)
  {
    ShrunkClients(t, u);
  }

  lemma AlwaysSame(s: State)
    ensures SameSilence(s, s)
  {
  }

  function Late(s: State, c: ClientRef, now: int): seq<ClientRef> {
    if c in s.client && Silence(s, c, now) > ORPHAN_TIMEOUT then [c] else []
  }

  lemma LateAlike(s: State, t: State, c: ClientRef, now: int)
    requires SameSilence(s, t)
    ensures Late(s, c, now) == Late(t, c, now)
  {
  }

  /** Overdue clients are found one at a time, and a sweep is made of its turns. */
  lemma Unrolled(start: State, s: State, list: seq<ClientRef>, i: nat, now: int)
    requires i < |list|
    ensures Sweep(s, list[i..], now) == Sweep(Chat.SweepOne(s, list[i], now), list[i + 1..], now)
    ensures Overdue(start, list[i..], now) == Late(start, list[i], now) + Overdue(start, list[i + 1..], now)
  {
    Advance(list, i);
    hide Chat.SweepOne;
  }

  /** One turn of the sweep, which started in start and has got to s. */
  lemma OneTurn(start: State, s: State, list: seq<ClientRef>, i: nat, now: int)
    requires i < |list| && Sessions.Sound(s) && s.mgr.clients == list && SameSilence(start, s)
    ensures var t := Chat.SweepOne(s, list[i], now);
      && Sessions.Sound(t) && t.mgr.clients == list && SameSilence(start, t)
      && Sweep(s, list[i..], now) == Sweep(t, list[i + 1..], now)
      && Overdue(start, list[i..], now) == Late(s, list[i], now) + Overdue(start, list[i + 1..], now)
  {
    hide Sessions.Sound, Sessions.Shrunk, Swept, Chat.SweepOne, Sweep, Overdue, SameSilence, Late;
    Unrolled(start, s, list, i, now);
    LateAlike(start, s, list[i], now);
    SweepOneStep(s, list[i], now);
    SilenceKept(start, s, Chat.SweepOne(s, list[i], now));
  }

  lemma NoTurn(start: State, s: State, list: seq<ClientRef>, now: int)
    ensures Sweep(s, list[|list|..], now) == s && Overdue(start, list[|list|..], now) == []
  {
  }

  lemma PlaceNone(n: RoomRef, xs: seq<Room>)
    ensures PlaceAt(n, xs[..0]) == map[] && Addresses(n, 0) == []
  {
  }

  lemma PlaceOneMore(n: RoomRef, xs: seq<Room>, i: nat)
    requires i < |xs|
    ensures PlaceAt(n, xs[..i + 1]) == PlaceAt(n, xs[..i])[n + i := xs[i]]
    ensures Addresses(n, i + 1) == Addresses(n, i) + [n + i]
  {
    assert xs[..i + 1][..i] == xs[..i];
  }

  lemma RestartIs(s: State, saved: Json)
    ensures var t := OnRestart(s, saved);
      t == s.(mgr := Manager([], map[], map[], map[]), client := map[], rooms := t.rooms, registered := t.registered,
              log := t.log, nextRoom := t.nextRoom, lastTick := s.now)
  {
  }

  lemma ConnectIs(s: State, k: Conn, token: string, now: int)
    ensures var t := Chat.Connect(s, k, token, now); var c := s.nextClient;
      && t == s.(client := t.client, nextClient := c + 1, mgr := t.mgr)
      && t.client == s.client[c := Client(Some(k), [], "", 0, false, "gray", k.ip, token, now, Limiter(now, 0))]
      && t.mgr == ConnectManager(s.mgr, c, k, token)
  {
  }

  class Server {
    const cfg: Config

    // the clients manager
    var clients: seq<ClientRef>
    var connectionToClient: map<Conn, ClientRef>
    var tokenToClient: map<string, ClientRef>
    var countersFromIp: map<string, Counter>

    // client and room objects by address, and the registered rooms
    var clientAt: map<ClientRef, Client>
    var roomAt: map<RoomRef, Room>
    var rooms: seq<RoomRef>
    var nextClient: ClientRef
    var nextRoom: RoomRef
    var now: int

    ghost var out: Outboxes
    ghost var log: map<RoomRef, seq<Message>>
    ghost var lastTick: int
    ghost var alarms: set<Alarm>

    function Mgr(): Manager
      reads this
    {
      Manager(clients, connectionToClient, tokenToClient, countersFromIp)
    }

    ghost function Contents(): State
      reads this
    {
      State(cfg, Mgr(), clientAt, roomAt, rooms, out, log, nextClient, nextRoom, now, lastTick, alarms)
    }

    constructor (cfg: Config, now: int)
      ensures Contents() == Init(cfg, now)
    {
      this.cfg := cfg;
      this.now := now;
      clients, connectionToClient, tokenToClient, countersFromIp := [], map[], map[], map[];
      clientAt, roomAt, rooms, nextClient, nextRoom := map[], map[], [], 0, 0;
      out, log, lastTick, alarms := map[], map[], now, {};
    }

    // ---- searches ----

    method GetRoomByName(refs: seq<RoomRef>, name: string) returns (r: Option<RoomRef>)
      ensures r == RoomByName(Contents(), refs, name)
    {
      for i := 0 to |refs|
        invariant RoomByName(Contents(), refs, name) == RoomByName(Contents(), refs[i..], name)
      {
        Advance(refs, i);
        if refs[i] in roomAt && roomAt[refs[i]].name == name { return Some(refs[i]); }
      }
      return None;
    }

    /** The first client, in list order, that has no connection and whose last address is ip. */
    method FindFirstOrphan(ip: string) returns (r: Option<ClientRef>)
      ensures r == FindOrphan(Contents(), clients, ip)
    {
      for i := 0 to |clients|
        invariant FindOrphan(Contents(), clients, ip) == FindOrphan(Contents(), clients[i..], ip)
      {
        Advance(clients, i);
        var c := clients[i];
        if c in clientAt && clientAt[c].connection.None? && clientAt[c].lastIp == ip { return Some(c); }
      }
      return None;
    }

    // ---- sending ----

    method SendPacket(c: ClientRef, p: Packet)
      modifies this`out
      ensures Contents() == Chat.SendPacket(old(Contents()), c, p)
    {
      if c in clientAt && clientAt[c].connection.Some? {
        ghost var k := clientAt[c].connection.value;
        out := out[k := (if k in out then out[k] else []) + [p]];
      }
    }

    method SendPacketToAll(r: RoomRef, p: Packet)
      requires r in roomAt
      modifies this`out
      ensures out == Deliver(old(out), clientAt, roomAt[r].members, p)
    {
      var members := roomAt[r].members;
      for i := 0 to |members|
        invariant Deliver(out, clientAt, members[i..], p) == Deliver(old(out), clientAt, members, p)
      {
        Advance(members, i);
        SendPacket(members[i].client, p);
      }
    }

    method SendHistory(c: ClientRef, target: string, history: seq<Message>)
      modifies this`out
      ensures Contents() == Chat.SendHistory(old(Contents()), c, target, history)
    {
      for i := 0 to |history|
        invariant SendMessages(out, clientAt, c, target, history[i..]) == SendMessages(old(out), clientAt, c, target, history)
      {
        Advance(history, i);
        SendPacket(c, MessagePacket(target, history[i]));
      }
    }

    // ---- rooms.cpp ----

    method SetNick(r: RoomRef, i: nat, nick: string)
      requires r in roomAt && i < |roomAt[r].members|
      modifies this`out, this`roomAt
      ensures Contents() == Chat.SetNick(old(Contents()), r, i, nick)
    {
      var room := roomAt[r];
      var m := room.members[i];
      if m.nick == nick { return; }
      var uid := if m.client in clientAt then clientAt[m.client].uid else 0;
      if !IsModer(room, uid) && nick in room.bannedNicks {
        SendPacket(m.client, SystemPacket(room.name));
        return;
      }
      var oldNick := m.nick;
      m := m.(nick := nick);
      roomAt := roomAt[r := room.(members := room.members[i := m])];
      var info := StatusOf(room.name, m, m.status);
      if oldNick != "" {
        if nick == "" {
          info := info.(status := Offline, name := oldNick);
        } else {
          info := info.(status := NickChange);
        }
      }
      SendPacketToAll(r, StatusPacket(info));
    }

    method FindMember(r: RoomRef, c: ClientRef) returns (i: Option<nat>)
      ensures i == Chat.FindMember(Contents(), r, c)
    {
      if r !in roomAt { return None; }
      i := FindMemberByClient(roomAt[r].members, c);
    }

    method RemoveMember(r: RoomRef, c: ClientRef)
      modifies this`out, this`roomAt, this`alarms
      ensures Contents() == Chat.RemoveMember(old(Contents()), r, c)
    {
      var found := FindMember(r, c);
      if found.None? {
        alarms := alarms + {NullMember};
        return;
      }
      var i := found.value;
      var m := roomAt[r].members[i];
      if m.nick != "" {
        SendPacketToAll(r, StatusPacket(StatusOf(roomAt[r].name, m, Offline)));
      }
      var uid := if c in clientAt then clientAt[c].uid else 0;
      var room := roomAt[r];
      if !IsGuest(uid) {
        room := room.(membersInfo := room.membersInfo[uid := MemberInfo(uid, m.nick, m.girl, m.color)]);
      }
      roomAt := roomAt[r := room.(members := RemoveAt(room.members, i))];
    }

    method OnKick(c: ClientRef, r: RoomRef)
      modifies this`clientAt
      ensures Contents() == ForgetRoom(old(Contents()), c, r)
    {
      if c in clientAt {
        clientAt := clientAt[c := clientAt[c].(rooms := Erase(clientAt[c].rooms, r))];
      }
    }

    method KickMember(r: RoomRef, i: nat)
      requires r in roomAt && i < |roomAt[r].members|
      modifies this`out, this`roomAt, this`clientAt
      ensures Contents() == Chat.KickMember(old(Contents()), r, i)
    {
      var m := roomAt[r].members[i];
      OnKick(m.client, r);
      if m.nick != "" {
        SendPacketToAll(r, StatusPacket(StatusOf(roomAt[r].name, m, Offline)));
      }
      SendPacket(m.client, LeavePacket(roomAt[r].name));
      roomAt := roomAt[r := roomAt[r].(members := RemoveAt(roomAt[r].members, i))];
    }

    /** Taking the next message id, appending to the history and sending to all members. */
    method PublicMessage(r: RoomRef, i: nat, style: Style, text: string)
      requires r in roomAt && i < |roomAt[r].members|
      modifies this`out, this`roomAt, this`log
      ensures Contents() == Chat.PublicMessage(old(Contents()), r, i, style, text)
    {
      var room := roomAt[r];
      var m := room.members[i];
      var id := room.nextMessageId;
      var msg := Message(id, m.id, m.nick, 0, style, text);
      var history := PushHistory(room.history, msg, cfg.maxHistory);
      roomAt := roomAt[r := room.(nextMessageId := (id + 1) % U32, history := history)];
      log := log[r := (if r in log then log[r] else []) + [msg]];
      SendPacketToAll(r, MessagePacket(room.name, msg));
    }

    // ---- client.cpp ----

    method SetConnection(c: ClientRef, k: Option<Conn>)
      requires c in clientAt
      modifies this`clientAt
      ensures Contents() == Chat.SetConnection(old(Contents()), c, k)
    {
      var cl := clientAt[c].(connection := k);
      if k.Some? {
        cl := cl.(lastIp := k.value.ip);
      }
      clientAt := clientAt[c := cl];
    }

    method LeaveRoom(c: ClientRef, r: RoomRef)
      modifies this`out, this`roomAt, this`clientAt, this`alarms
      ensures Contents() == Chat.LeaveRoom(old(Contents()), c, r)
    {
      if c in clientAt && r in clientAt[c].rooms {
        OnKick(c, r);
        RemoveMember(r, c);
      }
    }

    method OrphanIn(c: ClientRef, r: RoomRef)
      modifies this`out, this`roomAt, this`alarms
      ensures Contents() == Chat.OrphanIn(old(Contents()), c, r)
    {
      var found := FindMember(r, c);
      if found.None? {
        alarms := alarms + {NullMember};
        return;
      }
      var m := roomAt[r].members[found.value].(status := Orphan);
      roomAt := roomAt[r := roomAt[r].(members := roomAt[r].members[found.value := m])];
      if m.nick != "" {
        SendPacketToAll(r, StatusPacket(StatusOf(roomAt[r].name, m, Orphan)));
      }
    }

    method OnDisconnect(c: ClientRef)
      requires c in clientAt
      modifies this`out, this`roomAt, this`clientAt, this`alarms
      ensures Contents() == Chat.OnDisconnect(old(Contents()), c)
    {
      hide Chat.OrphanIn;
      var todo := clientAt[c].rooms;
      SetConnection(c, None);
      ghost var start := Contents();
      for i := 0 to |todo|
        invariant Contents() == start.(out := out, rooms := roomAt, alarms := alarms)
        invariant OrphanRooms(Contents(), c, todo[i..]) == OrphanRooms(start, c, todo)
      {
        Advance(todo, i);
        OrphanIn(c, todo[i]);
      }
    }

    method ReviveIn(c: ClientRef, r: RoomRef)
      modifies this`out, this`roomAt, this`alarms
      ensures Contents() == Chat.ReviveIn(old(Contents()), c, r)
    {
      var found := FindMember(r, c);
      if found.None? {
        alarms := alarms + {NullMember};
        return;
      }
      var room := roomAt[r];
      var m := room.members[found.value].(status := Online);
      roomAt := roomAt[r := room.(members := room.members[found.value := m])];
      SendPacket(c, JoinPacket(room.name, m.id, m.nick));
      SendPacket(c, OnlineListPacket(room.name, OnlineList(room.name, roomAt[r].members)));
      SendHistory(c, room.name, room.history);
      if m.nick != "" {
        SendPacketToAll(r, StatusPacket(StatusOf(room.name, m, Back)));
      }
    }

    method OnRevive(c: ClientRef)
      requires c in clientAt
      modifies this`out, this`roomAt, this`clientAt, this`alarms
      ensures Contents() == Chat.OnRevive(old(Contents()), c, now)
    {
      hide Chat.ReviveIn;
      clientAt := clientAt[c := clientAt[c].(lastPacketTime := now)];
      var todo := clientAt[c].rooms;
      ghost var start := Contents();
      for i := 0 to |todo|
        invariant Contents() == start.(out := out, rooms := roomAt, alarms := alarms)
        invariant ReviveRooms(Contents(), c, todo[i..]) == ReviveRooms(start, c, todo)
      {
        Advance(todo, i);
        ReviveIn(c, todo[i]);
      }
    }

    method OnRemove(c: ClientRef)
      requires c in clientAt
      modifies this`out, this`roomAt, this`clientAt, this`alarms
      ensures Contents() == Chat.OnRemove(old(Contents()), c)
    {
      hide Chat.RemoveMember;
      var todo := clientAt[c].rooms;
      ghost var start := Contents();
      for i := 0 to |todo|
        invariant Contents() == start.(out := out, rooms := roomAt, alarms := alarms)
        invariant RemoveRooms(Contents(), c, todo[i..]) == RemoveRooms(start, c, todo)
      {
        Advance(todo, i);
        RemoveMember(todo[i], c);
      }
      clientAt := clientAt[c := clientAt[c].(rooms := [], connection := None)];
    }

    // ---- clients_manager.hpp ----

    method GetCounterFromIp(ip: string) returns (n: Counter)
      modifies this`countersFromIp
      ensures Contents() == TouchCounter(old(Contents()), ip) && n == CounterOf(old(Mgr()), ip)
    {
      if ip !in countersFromIp {
        countersFromIp := countersFromIp[ip := Counter(0, 0)];
      } else {
        assert countersFromIp[ip := countersFromIp[ip]] == countersFromIp;
      }
      n := countersFromIp[ip];
    }

    method DecrementForIp(ip: string, f: CounterField)
      modifies this`countersFromIp, this`alarms
      ensures Contents() == Chat.DecrementForIp(old(Contents()), ip, f)
    {
      ghost var was := countersFromIp;
      if ip !in countersFromIp {
        countersFromIp := countersFromIp[ip := Counter(0, 0)];
      }
      var n := countersFromIp[ip];
      n := WithField(n, f, Field(n, f) - 1);
      if Field(n, f) < 0 {
        n := WithField(n, f, 0);
        alarms := alarms + {CounterClamped};
      }
      countersFromIp := countersFromIp[ip := n];
      if n.connections <= 0 && n.clients <= 0 {
        countersFromIp := countersFromIp - {ip};
        assert countersFromIp == was - {ip};
      } else {
        assert countersFromIp == was[ip := n];
      }
    }

    /** The search-and-erase loop over the client list. */
    method RemoveFromClients(c: ClientRef) returns (found: bool)
      requires c in clientAt
      modifies this`clients, this`tokenToClient
      ensures found == (c in old(clients)) && Contents() == Chat.RemoveFromClients(old(Contents()), c)
    {
      hide Erase;
      for i := 0 to |clients|
        invariant c !in clients[..i] && clients == old(clients) && tokenToClient == old(tokenToClient)
      {
        if clients[i] == c {
          EraseFirst(clients, i, c);
          assert c in clients;
          clients := clients[..i] + clients[i + 1..];
          tokenToClient := tokenToClient - {clientAt[c].token};
          return true;
        }
        assert clients[..i + 1] == clients[..i] + [clients[i]];
      }
      assert clients[..|clients|] == clients;
      return false;
    }

    method Connect(k: Conn, token: string)
      modifies this`clientAt, this`nextClient, this`clients, this`connectionToClient, this`tokenToClient, this`countersFromIp
      ensures Contents() == Chat.Connect(old(Contents()), k, token, now)
    {
      hide Chat.Connect, CounterOf;
      ConnectIs(Contents(), k, token, now);
      ghost var s := Contents();
      var c := nextClient;
      nextClient := nextClient + 1;
      clientAt := clientAt[c := Client(Some(k), [], "", 0, false, "gray", k.ip, token, now, Limiter(now, 0))];
      Enlist(c, k, token);
      assert Contents() == s.(client := clientAt, nextClient := c + 1, mgr := Mgr());
    }

    /** The list, the indexes and the counters take a new client in. */
    method Enlist(c: ClientRef, k: Conn, token: string)
      modifies this`clients, this`connectionToClient, this`tokenToClient, this`countersFromIp
      ensures Mgr() == ConnectManager(old(Mgr()), c, k, token)
    {
      clients := clients + [c];
      connectionToClient := connectionToClient[k := c];
      tokenToClient := tokenToClient[token := c];
      var n := if k.ip in countersFromIp then countersFromIp[k.ip] else Counter(0, 0);
      countersFromIp := countersFromIp[k.ip := Counter(n.connections + 1, n.clients + 1)];
    }

    method MakeOrphan(c: ClientRef)
      requires c in clientAt
      modifies this`out, this`roomAt, this`clientAt, this`alarms, this`connectionToClient, this`countersFromIp
      ensures Contents() == Chat.MakeOrphan(old(Contents()), c)
    {
      hide Chat.OnDisconnect, Decrement;
      var k := clientAt[c].connection;
      if k.Some? && k.value in connectionToClient {
        connectionToClient := connectionToClient - {k.value};
        DecrementForIp(clientAt[c].lastIp, Connections);
        OnDisconnect(c);
      }
    }

    method Remove(c: ClientRef)
      requires c in clientAt
      modifies this`out, this`roomAt, this`clientAt, this`alarms
      modifies this`clients, this`connectionToClient, this`tokenToClient, this`countersFromIp
      ensures Contents() == Chat.Remove(old(Contents()), c)
    {
      hide Chat.OnRemove, Decrement, Erase;
      var ip := clientAt[c].lastIp;
      var k := clientAt[c].connection;
      if k.Some? && k.value in connectionToClient {
        connectionToClient := connectionToClient - {k.value};
        DecrementForIp(ip, Connections);
      }
      var listed := RemoveFromClients(c);
      if listed {
        DecrementForIp(ip, Clients);
      }
      OnRemove(c);
    }

    /** The target's old connection and one client leave the counters, the current client the list. */
    method UnlistForRevive(c: ClientRef, t: ClientRef)
      requires c in clientAt && t in clientAt
      modifies this`alarms, this`clients, this`connectionToClient, this`tokenToClient, this`countersFromIp
      ensures Contents() == Chat.UnlistForRevive(old(Contents()), c, t)
    {
      hide Decrement, Erase;
      var k := clientAt[t].connection;
      var ip := clientAt[t].lastIp;
      if k.Some? && k.value in connectionToClient {
        connectionToClient := connectionToClient - {k.value};
        DecrementForIp(ip, Connections);
      }
      DecrementForIp(ip, Clients);
      var listed := RemoveFromClients(c);
    }

    method ReviveClient(c: ClientRef, t: ClientRef)
      requires c in clientAt && t in clientAt
      modifies this`out, this`roomAt, this`clientAt, this`alarms
      modifies this`clients, this`connectionToClient, this`tokenToClient, this`countersFromIp
      ensures Contents() == Chat.ReviveClient(old(Contents()), c, t, now)
    {
      hide Chat.OnRemove, Chat.OnRevive, Chat.UnlistForRevive;
      var k := clientAt[c].connection;
      var targetConnection := clientAt[t].connection;
      if k.None? {
        alarms := alarms + {ReviveRefused};
        return;
      }
      UnlistForRevive(c, t);
      OnRemove(c);
      connectionToClient := connectionToClient[k.value := t];
      if t in clientAt {
        SetConnection(t, k);
        OnRevive(t);
        if targetConnection == k {
          alarms := alarms + {ReviveSameConnection};
        }
      }
    }

    // ---- server.cpp: rooms ----

    method CreateRoom(name: string, owner: nat)
      modifies this`roomAt, this`rooms, this`nextRoom, this`log
      ensures Contents() == Chat.CreateRoom(old(Contents()), name, owner)
    {
      var r := nextRoom;
      nextRoom := nextRoom + 1;
      roomAt := roomAt[r := Room(name, owner, 0, [], map[], {}, {}, {}, {}, [], 0)];
      rooms := rooms + [r];
      log := log[r := []];
    }

    /** Taking a room off and sending everybody out of it; the loop runs over a copy of the members. */
    method RemoveRoom(r: RoomRef)
      requires r in roomAt
      modifies this`out, this`roomAt, this`clientAt, this`alarms, this`rooms
      ensures Contents() == Chat.RemoveRoom(old(Contents()), r)
    {
      hide Chat.LeaveRoom, Chat.SendPacket, Erase;
      var mems := roomAt[r].members;
      var name := roomAt[r].name;
      rooms := Erase(rooms, r);
      ghost var start := Contents();
      for i := 0 to |mems|
        invariant Contents() == start.(out := out, rooms := roomAt, client := clientAt, alarms := alarms)
        invariant LeaveAll(Contents(), r, name, mems[i..]) == LeaveAll(start, r, name, mems)
      {
        Advance(mems, i);
        LeaveRoom(mems[i].client, r);
        SendPacket(mems[i].client, LeavePacket(name));
      }
    }

    // ---- packets.cpp: join ----

    method JoinRoom(c: ClientRef, r: RoomRef) returns (outcome: JoinOutcome)
      requires c in clientAt && r in roomAt
      modifies this`roomAt, this`clientAt, this`alarms
      ensures Contents() == Chat.JoinRoom(old(Contents()), c, r).0 && outcome == Chat.JoinRoom(old(Contents()), c, r).1
    {
      hide NextMemberId;
      if |roomAt[r].members| >= U32 - 1 {
        alarms := alarms + {RoomFull};
        return NoIdLeft;
      }
      ghost var room := roomAt[r];
      var id := GenNextMemberId(roomAt[r].members, roomAt[r].nextMemberId);
      roomAt := roomAt[r := roomAt[r].(nextMemberId := id)];
      if BannedFrom(roomAt[r], clientAt[c]) {
        return Banned;
      }
      var m := Member(id, c, "", Online, false, "gray");
      roomAt := roomAt[r := roomAt[r].(members := roomAt[r].members + [m])];
      clientAt := clientAt[c := clientAt[c].(rooms := clientAt[c].rooms + [r])];
      return Joined;
    }

    method AutoLogin(c: ClientRef, r: RoomRef, i: nat) returns (nick: string)
      requires c in clientAt && r in roomAt && i < |roomAt[r].members|
      modifies this`out, this`roomAt
      ensures Contents() == Chat.AutoLogin(old(Contents()), c, r, i).0 && nick == Chat.AutoLogin(old(Contents()), c, r, i).1
      ensures r in roomAt && i < |roomAt[r].members|
    {
      var room := roomAt[r];
      var info := LoginInfo(room, clientAt[c]);
      nick := info.nick;
      roomAt := roomAt[r := room.(members := room.members[i := room.members[i].(girl := info.girl, color := info.color)])];
      if !IsModer(room, clientAt[c].uid) && nick in room.bannedNicks {
        SendPacket(c, SystemPacket(""));
        nick := "";
      }
      var holder := FindMemberByNick(room.members, nick);
      if holder.Some? {
        SendPacket(c, SystemPacket(""));
        nick := "";
      }
    }

    method Welcome(c: ClientRef, r: RoomRef, i: nat, autoLogin: bool, loadHistory: bool)
      requires c in clientAt && r in roomAt && i < |roomAt[r].members|
      modifies this`out, this`roomAt
      ensures Contents() == Chat.Welcome(old(Contents()), c, r, i, autoLogin, loadHistory)
    {
      hide Chat.AutoLogin, Chat.SendHistory, Chat.SetNick, Chat.SendPacket, OnlineList;
      var room := roomAt[r];
      SendPacket(c, JoinPacket(room.name, room.members[i].id, room.members[i].nick));
      SendPacket(c, OnlineListPacket(room.name, OnlineList(room.name, room.members)));
      if loadHistory {
        SendHistory(c, room.name, room.history);
      }
      var nick := "";
      if autoLogin {
        nick := AutoLogin(c, r, i);
      }
      SendPacket(c, SystemPacket(room.name));
      if nick == "" {
        SendPacket(c, SystemPacket(room.name));
      } else {
        SetNick(r, i, nick);
      }
    }

    method ProcessJoin(c: ClientRef, target: string, autoLogin: bool, loadHistory: bool)
      requires c in clientAt
      modifies this`out, this`roomAt, this`clientAt, this`alarms
      ensures Contents() == OnJoin(old(Contents()), c, target, autoLogin, loadHistory)
    {
      hide Chat.Welcome, NextMemberId, RoomByName, Chat.SendPacket;
      var joined := GetRoomByName(clientAt[c].rooms, target);
      if joined.Some? {
        SendPacket(c, ErrorPacket(AlreadyConnected, target));
        return;
      }
      var room := GetRoomByName(rooms, target);
      if room.None? {
        SendPacket(c, ErrorPacket(NotFound, target));
        return;
      }
      var i := |roomAt[room.value].members|;
      var outcome := JoinRoom(c, room.value);
      match outcome {
        case Joined => Welcome(c, room.value, i, autoLogin, loadHistory);
        case Banned => SendPacket(c, ErrorPacket(UserBanned, target));
        case NoIdLeft =>
      }
    }

    // ---- packets.cpp: status ----

    method ChangeStatusIn(c: ClientRef, r: RoomRef, status: Status)
      modifies this`out, this`roomAt
      ensures Contents() == Chat.ChangeStatusIn(old(Contents()), c, r, status)
    {
      var found := FindMember(r, c);
      if found.None? || roomAt[r].members[found.value].nick == "" { return; }
      var m := roomAt[r].members[found.value].(status := if status == Back then Online else Away);
      roomAt := roomAt[r := roomAt[r].(members := roomAt[r].members[found.value := m])];
      SendPacketToAll(r, StatusPacket(StatusOf(roomAt[r].name, m, status)));
    }

    method ProcessStatus(c: ClientRef, target: string, status: Status)
      requires c in clientAt
      modifies this`out, this`roomAt
      ensures Contents() == OnStatus(old(Contents()), c, target, status)
    {
      hide Chat.ChangeStatusIn, RoomByName, Chat.FindMember;
      if status == Away || status == Back {
        var todo := clientAt[c].rooms;
        ghost var start := Contents();
        for i := 0 to |todo|
          invariant Contents() == start.(out := out, rooms := roomAt)
          invariant ChangeStatusRooms(Contents(), c, status, todo[i..]) == ChangeStatusRooms(start, c, status, todo)
        {
          Advance(todo, i);
          ChangeStatusIn(c, todo[i], status);
        }
      } else if status == Typing || status == StopTyping {
        var room := GetRoomByName(clientAt[c].rooms, target);
        if room.Some? {
          var found := FindMember(room.value, c);
          if found.Some? && roomAt[room.value].members[found.value].nick != "" {
            SendPacketToAll(room.value, StatusPacket(StatusOf(roomAt[room.value].name, roomAt[room.value].members[found.value], status)));
          }
        }
      }
    }

    // ---- commands ----

    method ChangeLooks(r: RoomRef, i: nat, m: Member, status: Status)
      requires r in roomAt && i < |roomAt[r].members|
      modifies this`out, this`roomAt
      ensures Contents() == Chat.ChangeLooks(old(Contents()), r, i, m, status)
    {
      roomAt := roomAt[r := roomAt[r].(members := roomAt[r].members[i := m])];
      var info := StatusOf(roomAt[r].name, m, status);
      if m.nick != "" {
        SendPacketToAll(r, StatusPacket(info));
      } else {
        SendPacket(m.client, StatusPacket(info));
      }
    }

    method SendPrivate(r: RoomRef, i: nat, to: Option<nat>, text: string)
      requires r in roomAt && i < |roomAt[r].members| && (to.Some? ==> to.value < |roomAt[r].members|)
      modifies this`out
      ensures Contents() == Chat.SendPrivate(old(Contents()), r, i, to, text)
    {
      var room := roomAt[r];
      var m := room.members[i];
      if to.None? {
        SendPacket(m.client, SystemPacket(room.name));
        return;
      }
      var m2 := room.members[to.value];
      var p := MessagePacket(room.name, Message(0, m.id, m.nick, m2.id, StyleMessage, text));
      SendPacket(m.client, p);
      SendPacket(m2.client, p);
    }

    /** A nick is banned, and its holder kicked. */
    method BanNickIn(r: RoomRef, i: nat, nick: string)
      requires r in roomAt && i < |roomAt[r].members|
      modifies this`out, this`roomAt, this`clientAt
      ensures Contents() == Chat.BanNickIn(old(Contents()), r, i, nick)
    {
      hide Chat.KickMember;
      var room := roomAt[r];
      var c := room.members[i].client;
      var uid := if c in clientAt then clientAt[c].uid else 0;
      if !IsAdmin(uid) && |room.bannedNicks| > 100 { return; }
      if |nick| > 24 || nick == "" || nick in room.bannedNicks { return; }
      roomAt := roomAt[r := room.(bannedNicks := room.bannedNicks + {nick})];
      var holder := FindMemberByNick(room.members, nick);
      if holder.Some? {
        KickMember(r, holder.value);
      }
    }

    method CommandNick(r: RoomRef, i: nat, nick: string, legal: bool)
      requires r in roomAt && i < |roomAt[r].members|
      modifies this`out, this`roomAt
      ensures Contents() == Chat.RunCommand(old(Contents()), r, i, Nick(nick, legal))
    {
      hide Chat.SetNick, Chat.SendPacket, FindByNick;
      var holder := FindMemberByNick(roomAt[r].members, nick);
      if (nick == "" || legal) && holder.None? {
        SetNick(r, i, nick);
      } else {
        SendPacket(roomAt[r].members[i].client, SystemPacket(roomAt[r].name));
      }
    }

    method CommandGender(r: RoomRef, i: nat, given: Option<bool>)
      requires r in roomAt && i < |roomAt[r].members|
      modifies this`out, this`roomAt
      ensures Contents() == Chat.RunCommand(old(Contents()), r, i, Gender(given))
    {
      hide Chat.ChangeLooks;
      var m := roomAt[r].members[i];
      if given.None? {
        m := m.(girl := !m.girl);
      } else {
        m := m.(girl := given.value);
      }
      ChangeLooks(r, i, m, GenderChange);
    }

    method CommandColor(r: RoomRef, i: nat, color: Option<string>)
      requires r in roomAt && i < |roomAt[r].members|
      modifies this`out, this`roomAt
      ensures Contents() == Chat.RunCommand(old(Contents()), r, i, Color(color))
    {
      hide Chat.ChangeLooks, Chat.SendPacket;
      var m := roomAt[r].members[i];
      if color.None? {
        SendPacket(m.client, SystemPacket(roomAt[r].name));
      } else {
        ChangeLooks(r, i, m.(color := color.value), ColorChange);
      }
    }

    method CommandStyledMessage(r: RoomRef, i: nat, style: Style, text: string)
      requires r in roomAt && i < |roomAt[r].members|
      modifies this`out, this`roomAt, this`log
      ensures Contents() == Chat.RunCommand(old(Contents()), r, i, Styled(style, text))
    {
      hide Chat.PublicMessage, Chat.SendPacket, IsBlank;
      if IsBlank(text) {
        SendPacket(roomAt[r].members[i].client, SystemPacket(roomAt[r].name));
      } else {
        PublicMessage(r, i, style, text);
      }
    }

    method CommandPrivateMessage(r: RoomRef, i: nat, nick: string, text: string)
      requires r in roomAt && i < |roomAt[r].members|
      modifies this`out
      ensures Contents() == Chat.RunCommand(old(Contents()), r, i, PrivateTo(nick, text))
    {
      hide Chat.SendPrivate, Chat.SendPacket, IsBlank, FindByNick;
      if IsBlank(text) {
        SendPacket(roomAt[r].members[i].client, SystemPacket(roomAt[r].name));
      } else {
        var to := FindMemberByNick(roomAt[r].members, nick);
        SendPrivate(r, i, to, text);
      }
    }

    method CommandPrivateMessageById(r: RoomRef, i: nat, id: nat, text: string)
      requires r in roomAt && i < |roomAt[r].members|
      modifies this`out
      ensures Contents() == Chat.RunCommand(old(Contents()), r, i, PrivateToId(id, text))
    {
      hide Chat.SendPrivate, Chat.SendPacket, IsBlank, FindById;
      if IsBlank(text) {
        SendPacket(roomAt[r].members[i].client, SystemPacket(roomAt[r].name));
      } else {
        var to := FindMemberById(roomAt[r].members, id);
        if to.Some? && roomAt[r].members[to.value].nick == "" { to := None; }
        SendPrivate(r, i, to, text);
      }
    }

    method CommandKick(r: RoomRef, i: nat, nick: string)
      requires r in roomAt && i < |roomAt[r].members|
      modifies this`out, this`roomAt, this`clientAt
      ensures Contents() == Chat.RunCommand(old(Contents()), r, i, Kick(nick))
    {
      hide Chat.KickMember, Chat.SendPacket, FindByNick;
      var holder := FindMemberByNick(roomAt[r].members, nick);
      if holder.Some? {
        KickMember(r, holder.value);
      } else {
        SendPacket(roomAt[r].members[i].client, SystemPacket(roomAt[r].name));
      }
    }

    method CommandBanNick(r: RoomRef, i: nat, nick: string)
      requires r in roomAt && i < |roomAt[r].members|
      modifies this`out, this`roomAt, this`clientAt
      ensures Contents() == Chat.RunCommand(old(Contents()), r, i, BanNick(nick))
    {
      hide Chat.BanNickIn, Chat.SendPacket;
      var c, name := roomAt[r].members[i].client, roomAt[r].name;
      BanNickIn(r, i, nick);
      SendPacket(c, SystemPacket(name));
    }

    method CommandSets(r: RoomRef, i: nat, cmd: Command)
      requires r in roomAt && i < |roomAt[r].members|
      requires cmd.BanUid? || cmd.BanIp? || cmd.UnbanNick? || cmd.UnbanUid? || cmd.UnbanIp? || cmd.AddModer? || cmd.DelModer?
      modifies this`out, this`roomAt
      ensures Contents() == Chat.RunCommand(old(Contents()), r, i, cmd)
    {
      hide Chat.SendPacket, EditSets, Chat.RunCommand;
      RunSets(Contents(), r, i, cmd);
      var c, name := roomAt[r].members[i].client, roomAt[r].name;
      var uid := if c in clientAt then clientAt[c].uid else 0;
      roomAt := roomAt[r := EditSets(roomAt[r], uid, cmd)];
      SendPacket(c, SystemPacket(name));
    }

    method RunCommand(r: RoomRef, i: nat, cmd: Command)
      requires r in roomAt && i < |roomAt[r].members|
      modifies this`out, this`roomAt, this`clientAt, this`log
      ensures Contents() == Chat.RunCommand(old(Contents()), r, i, cmd)
    {
      match cmd {
        case Nick(nick, legal) => hide Chat.RunCommand; CommandNick(r, i, nick, legal);
        case Gender(given) => hide Chat.RunCommand; CommandGender(r, i, given);
        case Color(color) => hide Chat.RunCommand; CommandColor(r, i, color);
        case Styled(style, text) => hide Chat.RunCommand; CommandStyledMessage(r, i, style, text);
        case PrivateTo(nick, text) => hide Chat.RunCommand; CommandPrivateMessage(r, i, nick, text);
        case PrivateToId(id, text) => hide Chat.RunCommand; CommandPrivateMessageById(r, i, id, text);
        case Kick(nick) => hide Chat.RunCommand; CommandKick(r, i, nick);
        case BanNick(nick) => hide Chat.RunCommand; CommandBanNick(r, i, nick);
        case BanUid(_) | BanIp(_) | UnbanNick(_) | UnbanUid(_) | UnbanIp(_) | AddModer(_) | DelModer(_) =>
          hide Chat.RunCommand;
          CommandSets(r, i, cmd);
        case Plain | Unknown | Listing(_) =>
          SendPacket(roomAt[r].members[i].client, SystemPacket(roomAt[r].name));
      }
    }

    // ---- packets.cpp: messages ----

    method Say(r: RoomRef, i: nat, text: string, cmd: Command)
      requires r in roomAt && i < |roomAt[r].members|
      modifies this`out, this`roomAt, this`clientAt, this`log
      ensures Contents() == Chat.Say(old(Contents()), r, i, text, cmd)
    {
      hide Chat.RunCommand, Chat.PublicMessage, Chat.SendPacket, Allowed;
      var room := roomAt[r];
      var m := room.members[i];
      var uid := if m.client in clientAt then clientAt[m.client].uid else 0;
      if cmd != Plain {
        if Allowed(room, uid, m, LevelOf(cmd)) { RunCommand(r, i, cmd); } else { SendPacket(m.client, SystemPacket(room.name)); }
      } else if m.nick == "" {
        SendPacket(m.client, SystemPacket(room.name));
      } else {
        PublicMessage(r, i, StyleMessage, text);
      }
    }

    /** A message more than one second after the window opened opens a new one. */
    method TouchLimiter(c: ClientRef)
      requires c in clientAt
      modifies this`clientAt
      ensures Contents() == PutLimiter(old(Contents()), c, OpenWindow(old(clientAt)[c].limiter, now))
      ensures c in clientAt && clientAt[c].limiter == OpenWindow(old(clientAt)[c].limiter, now)
    {
      if now - clientAt[c].limiter.lastMessageTime > 1 {
        clientAt := clientAt[c := clientAt[c].(limiter := Limiter(now, 0))];
      } else {
        assert clientAt[c := clientAt[c].(limiter := clientAt[c].limiter)] == clientAt;
      }
    }

    method CountIn(c: ClientRef)
      requires c in clientAt
      modifies this`clientAt
      ensures Contents() == PutLimiter(old(Contents()), c, CountMessage(old(clientAt)[c].limiter))
      ensures c in clientAt
    {
      clientAt := clientAt[c := clientAt[c].(limiter := CountMessage(clientAt[c].limiter))];
    }

    method SpeakIn(c: ClientRef, target: string, text: string, cmd: Command)
      requires c in clientAt
      modifies this`out, this`roomAt, this`clientAt, this`log, this`alarms
      ensures Contents() == Chat.SpeakIn(old(Contents()), c, target, text, cmd)
    {
      hide Chat.Say, RoomByName, Chat.FindMember, Chat.SendPacket;
      var room := GetRoomByName(clientAt[c].rooms, target);
      if room.None? {
        SendPacket(c, SystemPacket(""));
        return;
      }
      var found := FindMember(room.value, c);
      if found.None? {
        alarms := alarms + {NullMember};
        return;
      }
      Say(room.value, found.value, text, cmd);
    }

    method ProcessMessage(c: ClientRef, target: string, text: string, cmd: Command)
      requires c in clientAt
      modifies this`out, this`roomAt, this`clientAt, this`log, this`alarms
      ensures Contents() == Chat.OnMessage(old(Contents()), c, now, target, text, cmd)
    {
      hide Chat.SpeakIn, Chat.SendPacket, IsBlank, OpenWindow, PutLimiter;
      if target == "" || text == "" { return; }
      TouchLimiter(c);
      if clientAt[c].limiter.messageCounter > 3 || IsBlank(text) {
        SendPacket(c, SystemPacket(target));
        return;
      }
      CountIn(c);
      SpeakIn(c, target, text, cmd);
    }

    // ---- packets.cpp: the other packets ----

    method ProcessLeave(c: ClientRef, target: string)
      requires c in clientAt
      modifies this`out, this`roomAt, this`clientAt, this`alarms
      ensures Contents() == Process(old(Contents()), c, now, LeaveIn(target))
    {
      hide Chat.LeaveRoom, Chat.SendPacket, RoomByName;
      var room := GetRoomByName(clientAt[c].rooms, target);
      if room.None? {
        SendPacket(c, ErrorPacket(NotFound, target));
        return;
      }
      LeaveRoom(c, room.value);
      SendPacket(c, LeavePacket(target));
    }

    method ProcessCreateRoom(c: ClientRef, target: string, legalName: bool)
      requires c in clientAt
      modifies this`out, this`roomAt, this`rooms, this`nextRoom, this`log
      ensures Contents() == Process(old(Contents()), c, now, CreateRoomIn(target, legalName))
    {
      hide Chat.CreateRoom, Chat.SendPacket, RoomByName;
      if IsGuest(clientAt[c].uid) {
        SendPacket(c, ErrorPacket(AccessDenied, target));
        return;
      }
      if !legalName {
        SendPacket(c, ErrorPacket(InvalidTarget, target));
        return;
      }
      var room := GetRoomByName(rooms, target);
      if room.Some? {
        SendPacket(c, ErrorPacket(AlreadyExists, target));
        return;
      }
      CreateRoom(target, clientAt[c].uid);
      SendPacket(c, CreateRoomPacket(target));
    }

    method ProcessRemoveRoom(c: ClientRef, target: string)
      requires c in clientAt
      modifies this`out, this`roomAt, this`clientAt, this`alarms, this`rooms
      ensures Contents() == Process(old(Contents()), c, now, RemoveRoomIn(target))
    {
      hide Chat.RemoveRoom, Chat.SendPacket, RoomByName;
      if IsGuest(clientAt[c].uid) {
        SendPacket(c, ErrorPacket(AccessDenied, target));
        return;
      }
      var room := GetRoomByName(rooms, target);
      if room.None? {
        SendPacket(c, ErrorPacket(NotFound, target));
        return;
      }
      if IsAdmin(clientAt[c].uid) || clientAt[c].uid == roomAt[room.value].ownerId {
        RemoveRoom(room.value);
        SendPacket(c, RemoveRoomPacket(target));
      } else {
        SendPacket(c, ErrorPacket(AccessDenied, target));
      }
    }

    method ProcessOnlineList(c: ClientRef, target: string)
      requires c in clientAt
      modifies this`out
      ensures Contents() == Process(old(Contents()), c, now, OnlineListIn(target))
    {
      hide Chat.SendPacket, RoomByName, OnlineList;
      var room := GetRoomByName(clientAt[c].rooms, target);
      if room.None? {
        SendPacket(c, ErrorPacket(NotFound, target));
        return;
      }
      SendPacket(c, OnlineListPacket(target, OnlineList(target, roomAt[room.value].members)));
    }

    method ProcessAuth(c: ClientRef, token: string, outcome: LoginOutcome)
      requires c in clientAt
      modifies this`out, this`roomAt, this`clientAt, this`alarms
      modifies this`clients, this`connectionToClient, this`tokenToClient, this`countersFromIp
      ensures Contents() == OnAuth(old(Contents()), c, now, token, outcome)
    {
      hide Chat.ReviveClient, Chat.SendPacket;
      if token != "" && token in tokenToClient && tokenToClient[token] != c && tokenToClient[token] in clientAt {
        var t := tokenToClient[token];
        SendPacket(c, AuthPacket(clientAt[t].uid, clientAt[t].name, clientAt[t].token));
        ReviveClient(c, t);
        return;
      }
      match outcome {
        case NoLogin => SendPacket(c, AuthPacket(clientAt[c].uid, clientAt[c].name, clientAt[c].token));
        case LoginFailed(code) => SendPacket(c, ErrorPacket(code, ""));
        case LoggedIn(uid, name, girl, color) =>
          clientAt := clientAt[c := clientAt[c].(uid := uid, name := name, girl := girl, color := color)];
          SendPacket(c, AuthPacket(uid, name, clientAt[c].token));
      }
    }

    method OnPacket(c: ClientRef, p: InPacket)
      requires c in clientAt
      modifies this
      ensures Contents() == Chat.OnPacket(old(Contents()), c, now, p) && now == old(now)
    {
      hide OnAuth, OnStatus, OnJoin, OnMessage, Process;
      if p == Invalid { return; }
      clientAt := clientAt[c := clientAt[c].(lastPacketTime := now)];
      ProcessPacket(c, p);
    }

    method ProcessPacket(c: ClientRef, p: InPacket)
      requires c in clientAt
      modifies this
      ensures Contents() == Process(old(Contents()), c, now, p) && now == old(now)
    {
      hide OnAuth, OnStatus, OnJoin, OnMessage;
      match p {
        case Invalid | Idle =>
        case Auth(token, outcome) => ProcessAuth(c, token, outcome);
        case StatusIn(target, status) => ProcessStatus(c, target, status);
        case JoinIn(target, autoLogin, loadHistory) => ProcessJoin(c, target, autoLogin, loadHistory);
        case LeaveIn(target) => hide Process; ProcessLeave(c, target);
        case CreateRoomIn(target, legalName) => hide Process; ProcessCreateRoom(c, target, legalName);
        case RemoveRoomIn(target) => hide Process; ProcessRemoveRoom(c, target);
        case OnlineListIn(target) => hide Process; ProcessOnlineList(c, target);
        case MessageIn(target, text, command) => ProcessMessage(c, target, text, command);
      }
    }

    // ---- server.cpp: events ----

    method MakeSpace(ip: string)
      modifies this
      ensures Contents() == Chat.MakeSpace(old(Contents()), ip) && now == old(now)
    {
      hide Chat.Remove, FindOrphan;
      var orphan := FindFirstOrphan(ip);
      if orphan.Some? {
        Remove(orphan.value);
      } else {
        alarms := alarms + {OrphanNotFound};
      }
    }

    method OnOpen(k: Conn, token: string)
      modifies this
      ensures Contents() == Chat.OnOpen(old(Contents()), k, token, now) && now == old(now)
    {
      hide Chat.MakeSpace, Chat.Connect, TouchCounter;
      out := out[k := []];
      var counter := GetCounterFromIp(k.ip);
      CounterTouched(old(Contents()).(out := out), k.ip);
      if counter.connections >= cfg.maxConnectionsFromIp { return; }
      if counter.clients >= cfg.maxClientsFromIp {
        MakeSpace(k.ip);
      }
      Connect(k, token);
    }

    method OnClose(k: Conn, status: int)
      modifies this
      ensures Contents() == Chat.OnClose(old(Contents()), k, status) && now == old(now)
    {
      hide Chat.Remove, Chat.MakeOrphan;
      if k in connectionToClient && connectionToClient[k] in clientAt {
        if status == 1000 || status == 1001 {
          Remove(connectionToClient[k]);
        } else {
          MakeOrphan(connectionToClient[k]);
        }
      }
    }

    method OnError(k: Conn)
      modifies this
      ensures Contents() == Chat.OnError(old(Contents()), k) && now == old(now)
    {
      hide Chat.MakeOrphan;
      if k in connectionToClient && connectionToClient[k] in clientAt {
        MakeOrphan(connectionToClient[k]);
      }
    }

    method OnReceive(k: Conn, p: InPacket)
      modifies this
      ensures Contents() == Chat.OnReceive(old(Contents()), k, now, p) && now == old(now)
    {
      hide Chat.OnPacket;
      if k in connectionToClient && connectionToClient[k] in clientAt {
        OnPacket(connectionToClient[k], p);
      }
    }

    /** One client's turn in the sweep. */
    method SweepOne(c: ClientRef)
      modifies this
      ensures Contents() == Chat.SweepOne(old(Contents()), c, now) && now == old(now)
    {
      hide Chat.MakeOrphan, Chat.SendPacket;
      if c !in clientAt { return; }
      var wasted := now - clientAt[c].lastPacketTime;
      if wasted > ORPHAN_TIMEOUT { return; }
      if wasted > CONNECT_TIMEOUT {
        if clientAt[c].connection.Some? {
          MakeOrphan(c);
        }
      } else if wasted > PING_TIMEOUT {
        SendPacket(c, PingPacket);
      }
    }

    /**
     * The loop over all clients: those to be kicked are collected, others orphaned or pinged. Nobody's
     * silence changes on the way, so this finds the same clients as collecting first would.
     */
    method SweepAll() returns (toKick: seq<ClientRef>)
      requires Sessions.Sound(Contents())
      modifies this
      ensures Contents() == Sweep(old(Contents()), old(clients), now) && now == old(now)
      ensures toKick == Overdue(old(Contents()), old(clients), now)
    {
      hide Sessions.Sound, Chat.SweepOne, Sweep, Overdue, SameSilence;
      ghost var start := Contents();
      var list := clients;
      toKick := [];
      assert list[0..] == list;
      AlwaysSame(start);
      for i := 0 to |list|
        invariant now == start.now && clients == list && Sessions.Sound(Contents()) && SameSilence(start, Contents())
        invariant Sweep(Contents(), list[i..], now) == Sweep(start, list, now)
        invariant toKick + Overdue(start, list[i..], now) == Overdue(start, list, now)
      {
        OneTurn(start, Contents(), list, i, now);
        if list[i] in clientAt && now - clientAt[list[i]].lastPacketTime > ORPHAN_TIMEOUT {
          toKick := toKick + [list[i]];
        }
        SweepOne(list[i]);
      }
      NoTurn(start, Contents(), list, now);
    }

    method KickOverdue(toKick: seq<ClientRef>)
      modifies this
      ensures Contents() == KickAll(old(Contents()), toKick) && now == old(now)
    {
      hide Chat.Remove;
      ghost var swept := Contents();
      for i := 0 to |toKick|
        invariant now == old(now) && KickAll(Contents(), toKick[i..]) == KickAll(swept, toKick)
      {
        Advance(toKick, i);
        if toKick[i] in clientAt {
          Remove(toKick[i]);
        }
      }
    }

    method OnTick()
      requires Inv(Contents())
      modifies this
      ensures Contents() == Chat.OnTick(old(Contents()), now) && now == old(now)
    {
      hide Inv, Sweep, KickAll, Overdue, Sessions.Sound;
      InvSound(Contents());
      var toKick := SweepAll();
      KickOverdue(toKick);
      lastTick := now;
    }

    // ---- server.cpp: save and load ----

    /** No array is written when there is no room to append. */
    method Serialize() returns (saved: Json)
      requires forall r :: r in rooms ==> r in roomAt
      ensures IsSaved(Contents(), saved)
    {
      hide IsSavedRoom;
      var items: seq<Json> := [];
      for i := 0 to |rooms|
        invariant |items| == i && forall j :: 0 <= j < i ==> rooms[j] in roomAt && IsSavedRoom(roomAt[rooms[j]], items[j])
      {
        var v := SerializeRoom(roomAt[rooms[i]]);
        items := items + [v];
      }
      saved := Obj(map["rooms" := if rooms == [] then Null else Arr(items)]);
    }

    /** Every saved room becomes a new object. */
    method Deserialize(items: seq<Json>)
      requires roomAt == map[] && rooms == []
      modifies this`roomAt, this`rooms, this`nextRoom
      ensures roomAt == PlaceAt(old(nextRoom), LoadRooms(items)) && rooms == Addresses(old(nextRoom), |items|)
      ensures nextRoom == old(nextRoom) + |items|
    {
      hide LoadRoom, PlaceAt, Addresses, LoadRooms;
      ghost var loaded := LoadRooms(items);
      ghost var base := nextRoom;
      PlaceNone(base, loaded);
      for i := 0 to |items|
        invariant roomAt == PlaceAt(base, loaded[..i]) && rooms == Addresses(base, i) && nextRoom == base + i
      {
        var room := DeserializeRoom(items[i]);
        PlaceOneMore(base, loaded, i);
        roomAt := roomAt[nextRoom := room];
        rooms := rooms + [nextRoom];
        nextRoom := nextRoom + 1;
      }
      assert loaded[..|items|] == loaded;
    }

    method DeserializeAfter(ghost s: State, saved: Json)
      requires roomAt == map[] && rooms == [] && nextRoom == s.nextRoom
      modifies this`roomAt, this`rooms, this`nextRoom
      ensures var t := OnRestart(s, saved); roomAt == t.rooms && rooms == t.registered && nextRoom == t.nextRoom
    {
      hide LogsOf, PlaceAt, Addresses, LoadRooms;
      Deserialize(Items(Get(saved, "rooms")));
    }

    method Forget()
      modifies this`clients, this`connectionToClient, this`tokenToClient, this`countersFromIp, this`clientAt, this`roomAt, this`rooms
      ensures Mgr() == Manager([], map[], map[], map[]) && clientAt == map[] && roomAt == map[] && rooms == []
    {
      clients, connectionToClient, tokenToClient, countersFromIp := [], map[], map[], map[];
      clientAt, roomAt, rooms := map[], map[], [];
    }

    /** A new process starts with the saved rooms and no clients. */
    method Restart(saved: Json)
      modifies this
      ensures Contents() == OnRestart(old(Contents()), saved) && now == old(now)
    {
      hide OnRestart;
      ghost var s := Contents();
      RestartIs(s, saved);
      Forget();
      DeserializeAfter(s, saved);
      log := OnRestart(s, saved).log;
      lastTick := now;
    }

    // ---- the loop that runs it all ----

    predicate Callable(e: Event) {
      !e.SwapMembers? && !e.SwapRooms? && !e.SwapRegistered?
    }

    /** One event, handled to its end: the step of the state machine, from reachable state to reachable state. */
    method Handle(e: Timed)
      requires Reachable(Contents()) && Valid(Contents(), e) && Callable(e.event)
      modifies this
      ensures Contents() == Step(old(Contents()), e) && Reachable(Contents())
    {
      hide Reachable, Valid, Inv, Chat.OnOpen, Chat.OnReceive, Chat.OnClose, Chat.OnError, Chat.OnTick, OnRestart;
      ReachableStep(Contents(), e);
      ReachableInv(Contents());
      TimeMoves(Contents(), e);
      TimePasses(Contents(), e.now);
      now := e.now;
      match e.event {
        case Open(k, token) => OnOpen(k, token);
        case Receive(k, p) => OnReceive(k, p);
        case Close(k, status) => OnClose(k, status);
        case Fail(k) => OnError(k);
        case Tick => OnTick();
        case Restart(saved) => Restart(saved);
      }
    }
  }
}
