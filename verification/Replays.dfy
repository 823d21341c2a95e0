/** What a revived session is told: for each of its rooms who it is there, who else, and what was said. */
module Replays {
  import opened Types
  import opened Members
  import opened Presence
  import opened Delivery
  import opened History
  import opened Chat
  import opened World
  import opened WorldSteps
  import opened Registry
  import opened Sessions
  import opened Revive
  import opened Transfers
  import opened Invariant
  import opened Runs
  import opened Theorems
  import opened Talking
  import opened Reviving
  import opened Effects
  import opened Commands
  import opened Packets
  import opened Notices
  import opened Outcomes

  /** The messages of a history, in order. */
  function Replay(name: string, history: seq<Message>): seq<Packet> {
    seq(|history|, j requires 0 <= j < |history| => MessagePacket(name, history[j]))
  }

  lemma {:induction false} MessagesSent(out: Outboxes, client: Clients, c: ClientRef, name: string, h: seq<Message>)
    requires Wired(out, client)
    ensures SendMessages(out, client, c, name, h).Keys == out.Keys
    ensures forall k :: k in out ==>
      SendMessages(out, client, c, name, h)[k] == out[k] + if ConnectedVia(client, c, k) then Replay(name, h) else []
    decreases |h|
  {
    if h == [] {
      forall k | k in out ensures out[k] == out[k] + if ConnectedVia(client, c, k) then Replay(name, h) else [] {
        assert Replay(name, h) == [];
      }
    } else {
      var p := MessagePacket(name, h[0]);
      var out1 := SendOne(out, client, c, p);
      assert Replay(name, h) == [p] + Replay(name, h[1..]);
      MessagesSent(out1, client, c, name, h[1..]);
      hide Replay;
      forall k | k in out
        ensures SendMessages(out, client, c, name, h)[k] == out[k] + if ConnectedVia(client, c, k) then Replay(name, h) else []
      {
        assert (out[k] + [p]) + Replay(name, h[1..]) == out[k] + ([p] + Replay(name, h[1..]));
      }
    }
  }

  /** What client c gets, and nobody else, when it is back in a room as member m. */
  ghost function News(client: Clients, c: ClientRef, room: Room, m: Member, k: Conn): seq<Packet> {
    if ConnectedVia(client, c, k)
    then [JoinPacket(room.name, m.id, m.nick), OnlineListPacket(room.name, OnlineList(room.name, room.members))]
         + Replay(room.name, room.history)
    else []
  }

  /**
   * What k gets when client c is back in a room: if it is c's line, the join packet, the online list
   * and the whole history; then, if c has a nick there and k listens, that it is back.
   */
  ghost function Block(client: Clients, room: Room, c: ClientRef, k: Conn): seq<Packet> {
    match FindByClient(room.members, c)
    case None => []
    case Some(i) =>
      var m := room.members[i];
      News(client, c, room, m, k)
      + (if m.nick == "" then []
         else Told(client, room.members, k, StatusPacket(StatusInfo(room.name, Back, m.id, m.nick, m.girl, m.color))))
  }

  ghost function Blocks(client: Clients, rooms: Rooms, todo: seq<RoomRef>, c: ClientRef, k: Conn): seq<Packet> {
    if todo == [] then []
    else (if todo[0] in rooms then Block(client, rooms[todo[0]], c, k) else []) + Blocks(client, rooms, todo[1..], c, k)
  }

  lemma ReviveInTold(s: State, c: ClientRef, r: RoomRef)
    requires r in s.rooms && Distinct(s.rooms[r].members) && Wired(s.out, s.client)
    ensures var t := ReviveIn(s, c, r);
      && t.client == s.client && t.out.Keys == s.out.Keys && r in t.rooms
      && (forall q :: q in s.rooms && q != r ==> q in t.rooms && t.rooms[q] == s.rooms[q])
      && forall k :: k in s.out ==> t.out[k] == s.out[k] + Block(s.client, t.rooms[r], c, k)
  {
    hide Wired, Distinct, Hears, FindByClient, Replay, OnlineList, SendMessages, Deliver;
    ReviveInRooms(s, c, r);
    var room := s.rooms[r];
    match FindByClient(room.members, c) {
      case None =>
        forall k | k in s.out ensures s.out[k] + [] == s.out[k] {
        }
      case Some(i) => OneBack(s, c, r, i);
    }
  }

  lemma OneBack(s: State, c: ClientRef, r: RoomRef, i: nat)
    requires r in s.rooms && Distinct(s.rooms[r].members) && Wired(s.out, s.client)
    requires FindByClient(s.rooms[r].members, c) == Some(i)
    ensures var t := ReviveIn(s, c, r);
      t.out.Keys == s.out.Keys && r in t.rooms && forall k :: k in s.out ==> t.out[k] == s.out[k] + Block(s.client, t.rooms[r], c, k)
  {
    hide Distinct, Hears, FindByClient, Replay, OnlineList, SendOne, SendMessages, Deliver, Wired, ConnectedVia, Told;
    var room := s.rooms[r];
    var m := room.members[i].(status := Online);
    var ms := room.members[i := m];
    StillFound(room.members, i, m, c);
    var out3 := Caught(s.out, s.client, c, room.(members := ms), m);
    CaughtUp(s.out, s.client, c, room.(members := ms), m);
    var p := StatusPacket(StatusInfo(room.name, Back, m.id, m.nick, m.girl, m.color));
    DistinctStill(room.members, ms, i, m);
    WiredStill(s.out, out3, s.client);
    DeliveredTold(out3, s.client, ms, p);
    var t := ReviveIn(s, c, r);
    OneBackIs(s, c, r, i);
    hide ReviveIn, Caught;
    forall k | k in s.out ensures t.out[k] == s.out[k] + Block(s.client, t.rooms[r], c, k) {
      Grouped(s.out[k], News(s.client, c, t.rooms[r], m, k), if m.nick == "" then [] else Told(s.client, ms, k, p));
    }
  }

  /** The outboxes once c has been sent the join packet, the online list and the history. */
  ghost function Caught(out: Outboxes, client: Clients, c: ClientRef, room: Room, m: Member): Outboxes {
    var out1 := SendOne(out, client, c, JoinPacket(room.name, m.id, m.nick));
    var out2 := SendOne(out1, client, c, OnlineListPacket(room.name, OnlineList(room.name, room.members)));
    SendMessages(out2, client, c, room.name, room.history)
  }

  lemma CaughtUp(out: Outboxes, client: Clients, c: ClientRef, room: Room, m: Member)
    requires Wired(out, client)
    ensures Caught(out, client, c, room, m).Keys == out.Keys
    ensures forall k :: k in out ==> Caught(out, client, c, room, m)[k] == out[k] + News(client, c, room, m, k)
  {
    hide Replay, OnlineList, SendMessages;
    var p := JoinPacket(room.name, m.id, m.nick);
    var q := OnlineListPacket(room.name, OnlineList(room.name, room.members));
    var out2 := SendOne(SendOne(out, client, c, p), client, c, q);
    assert forall k :: k in out ==> out2[k] == if ConnectedVia(client, c, k) then (out[k] + [p]) + [q] else out[k];
    MessagesSent(out2, client, c, room.name, room.history);
    var h := Replay(room.name, room.history);
    hide SendOne;
    forall k | k in out ensures Caught(out, client, c, room, m)[k] == out[k] + News(client, c, room, m, k) {
      assert ((out[k] + [p]) + [q]) + h == out[k] + ([p, q] + h);
      assert out[k] + [] == out[k];
    }
  }

  lemma WiredStill(out: Outboxes, out': Outboxes, client: Clients)
    requires Wired(out, client) && out'.Keys == out.Keys
    ensures Wired(out', client)
  {
  }

  lemma OneBackIs(s: State, c: ClientRef, r: RoomRef, i: nat)
    requires r in s.rooms && FindByClient(s.rooms[r].members, c) == Some(i)
    ensures var t := ReviveIn(s, c, r); var room := s.rooms[r]; var m := room.members[i].(status := Online);
      var room' := room.(members := room.members[i := m]); var out3 := Caught(s.out, s.client, c, room', m);
      && r in t.rooms && t.rooms[r] == room'
      && t.out == if m.nick == "" then out3
                  else Deliver(out3, s.client, room'.members, StatusPacket(StatusInfo(room.name, Back, m.id, m.nick, m.girl, m.color)))
  {
    hide FindByClient, SendOne, SendMessages, Deliver, OnlineList;
  }

  lemma Grouped(a: seq<Packet>, b: seq<Packet>, c: seq<Packet>)
    ensures (a + b) + c == a + (b + c) && a + b + [] == a + b && b + [] == b
  {
  }

  lemma DistinctStill(ms: seq<Member>, ms': seq<Member>, i: nat, m: Member)
    requires Distinct(ms) && i < |ms| && ms' == ms[i := m] && m == ms[i].(status := m.status)
    ensures Distinct(ms')
  {
  }

  lemma {:induction false} StillFound(ms: seq<Member>, i: nat, m: Member, c: ClientRef)
    requires FindByClient(ms, c) == Some(i) && m.client == c
    ensures FindByClient(ms[i := m], c) == Some(i)
  {
    if i > 0 {
      assert ms[i := m][1..] == ms[1..][i - 1 := m];
      StillFound(ms[1..], i - 1, m, c);
    }
  }

  lemma {:induction false} ReviveBlocks(s: State, c: ClientRef, todo: seq<RoomRef>)
    requires Visitable(s, todo)
    ensures var t := ReviveRooms(s, c, todo);
      t.out.Keys == s.out.Keys && forall k :: k in s.out ==> t.out[k] == s.out[k] + Blocks(s.client, t.rooms, todo, c, k)
    decreases |todo|
  {
    hide ReviveIn, Block, Wired, Distinct;
    var t := ReviveRooms(s, c, todo);
    if todo == [] {
      forall k | k in s.out ensures s.out[k] + [] == s.out[k] {
      }
    } else {
      assert todo[0] in todo;
      ReviveInTold(s, c, todo[0]);
      var u := ReviveIn(s, c, todo[0]);
      VisitableRest(s, u, todo);
      ReviveBlocks(u, c, todo[1..]);
      VisitedOnce(u, todo[1..]);
      ReviveRoomsRooms(u, c, todo[1..]);
      assert t.rooms[todo[0]] == u.rooms[todo[0]];
      forall k | k in s.out ensures t.out[k] == s.out[k] + Blocks(s.client, t.rooms, todo, c, k) {
        var b := Block(s.client, t.rooms[todo[0]], c, k);
        assert (s.out[k] + b) + Blocks(s.client, t.rooms, todo[1..], c, k) == s.out[k] + (b + Blocks(s.client, t.rooms, todo[1..], c, k));
      }
    }
  }

  // ---- the revive as an event ----

  lemma DiscardTells(b: State, c: ClientRef, t: ClientRef, k: Conn)
    requires Revivable(b, c, t, k) && Visitable(b, b.client[c].rooms)
    ensures Toured(b, Discarded(b, c, t), b.client[c].rooms, c, Offline)
  {
    hide Sound, Visitable, UnlistForRevive, OnRemove, RemoveRooms, Tour, ReviveManager;
    UnlistForReviveIs(b, c, t, k);
    var u := UnlistForRevive(b, c, t);
    VisitAlso(b, u, b.client[c].rooms);
    RemoveTour(u, c, b.client[c].rooms);
    RemoveOut(u, c);
  }

  lemma ReviveTells(b: State, c: ClientRef, t: ClientRef, k: Conn, now: int)
    requires Revivable(b, c, t, k) && Visitable(b, b.client[c].rooms) && WorldOk(b)
    ensures var y := ReviveClient(b, c, t, now);
      && y.out.Keys == b.out.Keys
      && forall q :: q in b.out ==>
           y.out[q] == b.out[q] + Tour(b.client, b.rooms, b.client[c].rooms, c, Offline, q)
                                + Blocks(y.client, y.rooms, b.client[t].rooms, t, q)
  {
    hide WorldOk, Unsettled, ManagerOk, OnRemove, UnlistForRevive, ReviveRooms, ReviveClient, ReviveManager,
         Reconnected, Discarded, HasClient, Visitable, Tour, Blocks, CountersShrunk;
    var v := Discarded(b, c, t);
    DiscardStep(b, c, t, k);
    TargetStays(b, c, t, k);
    ReviveIs(b, c, t, k, now);
    DiscardTells(b, c, t, k);
    var x := Reconnected(v, t, k, now);
    ReconnectedFields(b, v, c, t, k, now);
    ReconnectStep(b, v, c, t, k, now);
    ReconnectedOut(v, t, k, now);
    UnsettledVisit(x, t, b.client[t].rooms);
    ReviveBlocks(x, t, b.client[t].rooms);
    UnsettledOnce(x, t, b.client[t].rooms);
    ReviveRoomsRooms(x, t, b.client[t].rooms);
  }

  lemma ReconnectedOut(v: State, t: ClientRef, k: Conn, now: int)
    requires t in v.client
    ensures Reconnected(v, t, k, now).out == v.out
  {
  }

  lemma UnsettledVisit(x: State, t: ClientRef, todo: seq<RoomRef>)
    requires Unsettled(x, t, todo)
    ensures Visitable(x, todo)
  {
    assert forall r :: r in todo ==> r in x.rooms;
    forall r | r in todo ensures Distinct(x.rooms[r].members) {
      assert RoomOk(x, r, Exempt(Some(t), todo, r));
    }
  }

  lemma UnsettledOnce(x: State, t: ClientRef, todo: seq<RoomRef>)
    requires Unsettled(x, t, todo)
    ensures NoDup(todo) && forall r :: r in todo ==> r in x.rooms
  {
  }

  lemma ReviveOutboxes(s: State, e: Timed, c: ClientRef, t: ClientRef)
    requires Reachable(s) && Valid(s, e) && AsksForRevive(s, e)
    requires c == s.mgr.connectionToClient[e.event.k] && t == s.mgr.tokenToClient[e.event.p.token] && c in s.client && t in s.client
    ensures var k := e.event.k; var y := Step(s, e);
      && k in s.out && y.out.Keys == s.out.Keys
      && forall q :: q in s.out ==>
           y.out[q] == s.out[q] + (if q == k then [AuthPacket(s.client[t].uid, s.client[t].name, s.client[t].token)] else [])
                                + Tour(Awake(s, c, e.now).client, s.rooms, s.client[c].rooms, c, Offline, q)
                                + Blocks(y.client, y.rooms, s.client[t].rooms, t, q)
  {
    hide Inv, ManagerOk, WorldOk, Reachable, Valid, Step, ReviveClient, Accepted, Visitable, Tour, Blocks, Sound, Awake;
    ReachableInv(s);
    ReviveParties(s, e);
    TimeMoves(s, e);
    TimePasses(s, e.now);
    var s1 := s.(now := e.now);
    var b := Accepted(s1, c, t);
    AcceptedFields(s1, c, t);
    AcceptedSound(s1, c, t);
    ReviveStepIs(s, e, c, t);
    MayVisit(s, c);
    Behind(s, e.event.k);
    AcceptedOut(s1, c, t, e.event.k);
    SoundWorld(b);
    AcceptedVisit(s, b, s.client[c].rooms);
    ReviveTells(b, c, t, e.event.k, e.now);
    AcceptedIsAwake(s, c, t, e.now);
    assert forall q :: q in s.out ==>
      b.out[q] == s.out[q] + if q == e.event.k then [AuthPacket(s.client[t].uid, s.client[t].name, s.client[t].token)] else [];
  }

  lemma RevivedHistories(s: State, y: State, c: ClientRef, t: ClientRef)
    requires Reachable(s) && t in s.client && RoomsMoved(s, y, c, t)
    ensures forall r :: r in s.client[t].rooms ==>
      r in y.rooms && r in s.rooms && r in s.log && y.rooms[r].name == s.rooms[r].name
      && y.rooms[r].history == LastOf(s.log[r], s.cfg.maxHistory)
  {
    hide Reachable, Survivors, Stored, LastOf;
    TargetHistories(s, t);
  }

  /**
   * After a revive the connection has got, behind the reply, for every room of the target in turn the
   * join packet, the online list and the whole history; everybody in the rooms has heard the discarded
   * client go and the target come back; and nobody has got anything else.
   */
  lemma ReviveReplays(s: State, e: Timed)
    requires Reachable(s) && Valid(s, e) && AsksForRevive(s, e)
    ensures var k := e.event.k; var c := s.mgr.connectionToClient[k]; var t := s.mgr.tokenToClient[e.event.p.token];
      var y := Step(s, e);
      && c in s.client && t in s.client && k in s.out && y.out.Keys == s.out.Keys
      && (forall q :: q in s.out ==>
            y.out[q] == s.out[q] + (if q == k then [AuthPacket(s.client[t].uid, s.client[t].name, s.client[t].token)] else [])
                                 + Tour(Awake(s, c, e.now).client, s.rooms, s.client[c].rooms, c, Offline, q)
                                 + Blocks(y.client, y.rooms, s.client[t].rooms, t, q))
      && forall r :: r in s.client[t].rooms ==>
           r in y.rooms && r in s.rooms && r in s.log && y.rooms[r].name == s.rooms[r].name
           && y.rooms[r].history == LastOf(s.log[r], s.cfg.maxHistory)
  {
    hide Reachable, Valid, Step, SessionMoved, RoomsMoved, Tour, Blocks, LastOf;
    ReviveTransfer(s, e);
    var c := s.mgr.connectionToClient[e.event.k];
    var t := s.mgr.tokenToClient[e.event.p.token];
    ReviveOutboxes(s, e, c, t);
    RevivedHistories(s, Step(s, e), c, t);
  }

  lemma AcceptedIsAwake(s: State, c: ClientRef, t: ClientRef, now: int)
    requires c in s.client && t in s.client
    ensures Accepted(s.(now := now), c, t).client == Awake(s, c, now).client
  {
  }

  lemma AcceptedOut(s: State, c: ClientRef, t: ClientRef, k: Conn)
    requires c in s.client && t in s.client && s.client[c].connection == Some(k) && k in s.out
    ensures Accepted(s, c, t).out == s.out[k := s.out[k] + [AuthPacket(s.client[t].uid, s.client[t].name, s.client[t].token)]]
  {
  }

  lemma AcceptedVisit(s: State, b: State, todo: seq<RoomRef>)
    requires Visitable(s, todo) && b.rooms == s.rooms && b.out.Keys == s.out.Keys && SameLines(s.client, b.client)
    ensures Visitable(b, todo)
  {
    hide Distinct, NoDup;
  }

  lemma TargetHistories(s: State, t: ClientRef)
    requires Reachable(s) && t in s.client
    ensures forall r :: r in s.client[t].rooms ==>
      r in s.rooms && r in s.log && s.rooms[r].history == LastOf(s.log[r], s.cfg.maxHistory)
  {
    ReachableWorld(s);
    RoomsOfClient(s, t);
    forall r | r in s.client[t].rooms ensures r in s.rooms && r in s.log && s.rooms[r].history == LastOf(s.log[r], s.cfg.maxHistory) {
      InShape(s, r);
    }
  }
}
