/** A chat message from its packet to the outboxes. */
module Talking {
  import opened Types
  import opened Members
  import opened RateLimit
  import opened Delivery
  import opened History
  import opened Chat
  import opened World
  import opened WorldSteps
  import opened PacketSteps
  import opened Sessions
  import opened Invariant
  import opened Runs
  import opened Rates
  import opened Theorems

  /** The event is a chat message (not a command) of client c. */
  predicate Talks(s: State, e: Timed, c: ClientRef) {
    && e.event.Receive? && e.event.p.MessageIn? && e.event.p.command == Plain
    && e.event.p.target != "" && e.event.p.text != ""
    && e.event.k in s.mgr.connectionToClient && s.mgr.connectionToClient[e.event.k] == c
  }

  /** A room is found by its name. */
  lemma FoundByName(s: State, refs: seq<RoomRef>, r: RoomRef)
    requires r in refs && r in s.rooms
    requires forall q :: q in refs && q in s.rooms && s.rooms[q].name == s.rooms[r].name ==> q == r
    ensures RoomByName(s, refs, s.rooms[r].name) == Some(r)
  {
    hide RoomByName;
    var f := RoomByName(s, refs, s.rooms[r].name);
    assert f.Some?;
  }

  /** The sender's session when its message has passed the limiter. */
  function Heeded(s: State, c: ClientRef, now: int): State
    requires c in s.client
  {
    var cl := s.client[c];
    s.(now := now, client := s.client[c := cl.(lastPacketTime := now, limiter := CountMessage(OpenWindow(cl.limiter, now)))])
  }

  lemma HeededFields(s: State, c: ClientRef, now: int)
    requires c in s.client
    ensures var h := Heeded(s, c, now);
      && h.rooms == s.rooms && h.out == s.out && h.log == s.log && h.cfg == s.cfg && h.registered == s.registered
      && h.client.Keys == s.client.Keys && h.client[c].rooms == s.client[c].rooms
      && forall d :: d in s.client ==> h.client[d].connection == s.client[d].connection
  {
  }

  lemma TalkIs(s: State, e: Timed, c: ClientRef, r: RoomRef, i: nat)
    requires Talks(s, e, c) && c in s.client && LetThrough(s, e, c)
    requires r in s.rooms && i < |s.rooms[r].members| && s.rooms[r].members[i].nick != ""
    requires RoomByName(Heeded(s, c, e.now), s.client[c].rooms, e.event.p.target) == Some(r) && FindMember(s, r, c) == Some(i)
    ensures Step(s, e) == PublicMessage(Heeded(s, c, e.now), r, i, StyleMessage, e.event.p.text)
  {
    hide PublicMessage, RoomByName, FindByClient;
    var cl := s.client[c];
    var l := OpenWindow(cl.limiter, e.now);
    var heard := s.(now := e.now, client := s.client[c := cl.(lastPacketTime := e.now)]);
    assert PutLimiter(PutLimiter(heard, c, l), c, CountMessage(l)) == Heeded(s, c, e.now) by {
      assert heard.client[c := heard.client[c].(limiter := l)][c := cl.(lastPacketTime := e.now, limiter := CountMessage(l))]
          == s.client[c := cl.(lastPacketTime := e.now, limiter := CountMessage(l))];
    }
    assert Step(s, e) == OnMessage(heard, c, e.now, e.event.p.target, e.event.p.text, Plain);
  }

  /** What a public message of member i of room r leaves behind. */
  ghost predicate Published(s: State, t: State, r: RoomRef, i: nat, text: string)
    requires r in s.rooms && i < |s.rooms[r].members|
  {
    var room := s.rooms[r];
    var msg := Spoken(room, i, text);
    && r in s.log && t.log == s.log[r := s.log[r] + [msg]]
    && t.rooms == s.rooms[r := room.(nextMessageId := (room.nextMessageId + 1) % U32,
                                     history := LastOf(s.log[r] + [msg], s.cfg.maxHistory))]
    && t.out.Keys == s.out.Keys
    && forall k :: k in s.out ==>
         t.out[k] == if Listens(s, r, k) then s.out[k] + [MessagePacket(room.name, msg)] else s.out[k]
  }

  function Spoken(room: Room, i: nat, text: string): Message
    requires i < |room.members|
  {
    Message(room.nextMessageId, room.members[i].id, room.members[i].nick, 0, StyleMessage, text)
  }

  lemma PublicFields(s: State, h: State, r: RoomRef, i: nat, text: string)
    requires r in s.rooms && i < |s.rooms[r].members| && HistoryOk(s, r)
    requires h.rooms == s.rooms && h.out == s.out && h.log == s.log && h.cfg == s.cfg
    ensures var t := PublicMessage(h, r, i, StyleMessage, text); var room := s.rooms[r]; var msg := Spoken(room, i, text);
      && t.log == s.log[r := s.log[r] + [msg]]
      && t.rooms == s.rooms[r := room.(nextMessageId := (room.nextMessageId + 1) % U32,
                                       history := LastOf(s.log[r] + [msg], s.cfg.maxHistory))]
      && t.out == Deliver(s.out, h.client, room.members, MessagePacket(room.name, msg))
  {
    LastOfAppend(s.log[r], Spoken(s.rooms[r], i, text), s.cfg.maxHistory);
    hide LastOf, AddToHistory, Deliver;
  }

  lemma Logged(s: State, r: RoomRef)
    requires Reachable(s) && r in s.rooms
    ensures HistoryOk(s, r) && r in s.log
  {
    ReachableWorld(s);
    InShape(s, r);
  }

  lemma PublishedBy(s: State, h: State, r: RoomRef, i: nat, text: string)
    requires Reachable(s) && r in s.rooms && i < |s.rooms[r].members|
    requires h.rooms == s.rooms && h.out == s.out && h.log == s.log && h.cfg == s.cfg && h.client.Keys == s.client.Keys
    requires forall d :: d in s.client ==> h.client[d].connection == s.client[d].connection
    ensures Published(s, PublicMessage(h, r, i, StyleMessage, text), r, i, text)
  {
    hide Reachable, Listens, LastOf, PublicMessage, HistoryOk, Deliver;
    Logged(s, r);
    PublicFields(s, h, r, i, text);
    var p := MessagePacket(s.rooms[r].name, Spoken(s.rooms[r], i, text));
    SameWires(s.out, s.client, h.client, s.rooms[r].members, p);
    ExactlyOnce(s, r, p);
  }

  /** Only the clients' connections matter for a delivery. */
  lemma {:induction false} SameWires(out: Outboxes, client: map<ClientRef, Client>, client': map<ClientRef, Client>, ms: seq<Member>, p: Packet)
    requires client'.Keys == client.Keys && forall d :: d in client ==> client'[d].connection == client[d].connection
    ensures Deliver(out, client', ms, p) == Deliver(out, client, ms, p)
    decreases |ms|
  {
    if ms != [] {
      SameWires(SendOne(out, client, ms[0].client, p), client, client', ms[1..], p);
    }
  }

  lemma HomeRoom(s: State, c: ClientRef, r: RoomRef, i: nat)
    requires Reachable(s) && c in s.client && r in s.client[c].rooms
    requires r in s.rooms && i < |s.rooms[r].members| && s.rooms[r].members[i].client == c
    ensures FindMember(s, r, c) == Some(i)
    ensures forall q :: q in s.client[c].rooms && q in s.rooms && s.rooms[q].name == s.rooms[r].name ==> q == r
  {
    hide Reachable, FindByClient;
    MemberIsFound(s, c, r);
    NamesAmong(s, c, r);
    RoomDistinct(s, r);
    hide Distinct;
    SameIdSameMember(s.rooms[r].members, s.rooms[r].members[i], s.rooms[r].members[FindMember(s, r, c).value]);
  }

  lemma RoomDistinct(s: State, r: RoomRef)
    requires Reachable(s) && r in s.rooms
    ensures Distinct(s.rooms[r].members)
  {
    ReachableWorld(s);
    InShape(s, r);
  }

  lemma NamesAmong(s: State, c: ClientRef, r: RoomRef)
    requires Reachable(s) && c in s.client && r in s.client[c].rooms && r in s.rooms
    ensures forall q :: q in s.client[c].rooms && q in s.rooms && s.rooms[q].name == s.rooms[r].name ==> q == r
  {
    ReachableWorld(s);
    assert ClientOk(s, c);
    hide Reachable, Inv, Sound, RoomOk, HistoryOk, Wired;
  }

  /**
   * A message that passes the limiter, from a member with a nick: every connected member's outbox gets
   * it exactly once and no other outbox anything; the log grows by it and the history stays its tail.
   */
  lemma MessageDelivered(s: State, e: Timed, c: ClientRef, r: RoomRef, i: nat)
    requires Reachable(s) && Valid(s, e) && Talks(s, e, c) && c in s.client && LetThrough(s, e, c)
    requires r in s.client[c].rooms && r in s.rooms && s.rooms[r].name == e.event.p.target
    requires i < |s.rooms[r].members| && s.rooms[r].members[i].client == c && s.rooms[r].members[i].nick != ""
    ensures Published(s, Step(s, e), r, i, e.event.p.text)
  {
    hide Reachable, Valid, Step, PublicMessage, Published, FindMember;
    var h := Heeded(s, c, e.now);
    HeededFields(s, c, e.now);
    HomeRoom(s, c, r, i);
    FoundByName(h, s.client[c].rooms, r);
    TalkIs(s, e, c, r, i);
    PublishedBy(s, h, r, i, e.event.p.text);
  }

  /** A message that the limiter stops reaches no room: its sender gets one system packet. */
  lemma MessageStopped(s: State, e: Timed, c: ClientRef)
    requires Talks(s, e, c) && c in s.client && s.client[c].connection == Some(e.event.k) && e.event.k in s.out
    requires !LetThrough(s, e, c)
    ensures var t := Step(s, e);
      && t.rooms == s.rooms && t.log == s.log && t.mgr == s.mgr
      && t.out == s.out[e.event.k := s.out[e.event.k] + [SystemPacket(e.event.p.target)]]
  {
    hide RoomByName, FindByClient;
  }

  // ---- private messages ----

  function Private(room: Room, i: nat, j: nat, text: string): Packet
    requires i < |room.members| && j < |room.members|
  {
    MessagePacket(room.name, Message(0, room.members[i].id, room.members[i].nick, room.members[j].id, StyleMessage, text))
  }

  /** What one sending to client c appends to the outbox of k. */
  function Copy(s: State, c: ClientRef, k: Conn, p: Packet): seq<Packet> {
    if c in s.client && s.client[c].connection == Some(k) then [p] else []
  }

  lemma SentOne(s: State, c: ClientRef, p: Packet)
    requires Wired(s.out, s.client)
    ensures var t := SendPacket(s, c, p);
      && t == s.(out := t.out) && t.out.Keys == s.out.Keys
      && forall k :: k in s.out ==> t.out[k] == s.out[k] + Copy(s, c, k, p)
  {
    forall k | k in s.out ensures SendPacket(s, c, p).out[k] == s.out[k] + Copy(s, c, k, p) {
      assert s.out[k] + [] == s.out[k];
    }
  }

  /**
   * A private message goes to its sender and its addressee, once each, and to nobody else; its addressee
   * is named by a non-zero id, so no history takes it.
   */
  lemma PrivateStaysPrivate(s: State, r: RoomRef, i: nat, j: nat, text: string)
    requires Reachable(s) && r in s.rooms && i < |s.rooms[r].members| && j < |s.rooms[r].members|
    ensures var t := SendPrivate(s, r, i, Some(j), text); var ms := s.rooms[r].members; var p := Private(s.rooms[r], i, j, text);
      && t == s.(out := t.out) && t.out.Keys == s.out.Keys
      && (forall k :: k in s.out ==> t.out[k] == s.out[k] + Copy(s, ms[i].client, k, p) + Copy(s, ms[j].client, k, p))
      && p.message.toId != 0
      && forall h, maxHistory :: AddToHistory(h, p.message, maxHistory) == h
  {
    hide Reachable, SendOne, LastOf;
    WiredHere(s);
    ShapeHere(s, r, j);
    var p := Private(s.rooms[r], i, j, text);
    var u := SendPacket(s, s.rooms[r].members[i].client, p);
    SentOne(s, s.rooms[r].members[i].client, p);
    SentOne(u, s.rooms[r].members[j].client, p);
  }

  lemma WiredHere(s: State)
    requires Reachable(s)
    ensures Wired(s.out, s.client)
  {
    ReachableWorld(s);
  }

  lemma ShapeHere(s: State, r: RoomRef, j: nat)
    requires Reachable(s) && r in s.rooms && j < |s.rooms[r].members|
    ensures s.rooms[r].members[j].id != 0
  {
    ReachableWorld(s);
    InShape(s, r);
    assert s.rooms[r].members[j] in s.rooms[r].members;
  }
}
