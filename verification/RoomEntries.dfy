/** Entering a room, coming back to it, and what does not concern its roster. */
module RoomEntries {
  import opened Types
  import opened Members
  import opened MemberIds
  import opened Presence
  import opened Delivery
  import opened Persistence
  import opened History
  import opened Chat
  import opened World
  import opened RoomSteps

  // ---- online lists ----

  /** An online list sent to one client replaces that client's view and no other. */
  lemma ListRead(s: State, c: ClientRef, name: string, list: seq<StatusInfo>)
    requires Wired(s.out, s.client)
    ensures var t := SendPacket(s, c, OnlineListPacket(name, list));
      && t.out.Keys == s.out.Keys
      && forall k, n :: k in s.out ==>
           View(t.out[k], n) == if ConnectedVia(s.client, c, k) && n == name then Some(FromList(list)) else View(s.out[k], n)
  {
    var t := SendPacket(s, c, OnlineListPacket(name, list));
    forall k, n | k in s.out
      ensures View(t.out[k], n) == if ConnectedVia(s.client, c, k) && n == name then Some(FromList(list)) else View(s.out[k], n)
    {
      ViewAppend(s.out[k], OnlineListPacket(name, list), n);
    }
  }

  lemma ListStep(s: State, c: ClientRef, r: RoomRef, x: Option<ClientRef>, list: seq<StatusInfo>)
    requires r in s.rooms && Wired(s.out, s.client) && RoomOk(s, r, x)
    requires x == Some(c) || list == OnlineList(s.rooms[r].name, s.rooms[r].members)
    ensures var t := SendPacket(s, c, OnlineListPacket(s.rooms[r].name, list));
      && Touch(s, t, r) && RoomOk(t, r, x)
      && forall k :: k in s.out && ConnectedVia(s.client, c, k) ==> View(t.out[k], s.rooms[r].name) == Some(FromList(list))
  {
    var t := SendPacket(s, c, OnlineListPacket(s.rooms[r].name, list));
    ListRead(s, c, s.rooms[r].name, list);
    FromListIsRoster(s.rooms[r].name, s.rooms[r].members);
    forall n | n in t.rooms[r].members && x != Some(n.client) ensures MemberLinked(t, r, n) {
      assert MemberLinked(s, r, n);
    }
  }

  /** The member of c, linked but for what c's connection knows about the room. */
  ghost predicate Arriving(s: State, c: ClientRef, r: RoomRef, i: nat)
    requires c in s.client && r in s.rooms && i < |s.rooms[r].members|
  {
    && s.rooms[r].members[i].client == c && s.rooms[r].members[i].status == Online
    && c in s.mgr.clients && r in s.client[c].rooms && s.client[c].connection.Some?
  }

  /** The online list settles the newcomer. */
  lemma ListSettles(s: State, c: ClientRef, r: RoomRef, i: nat)
    requires r in s.rooms && Wired(s.out, s.client) && RoomOk(s, r, Some(c))
    requires c in s.client && i < |s.rooms[r].members| && Arriving(s, c, r, i)
    ensures var t := SendPacket(s, c, OnlineListPacket(s.rooms[r].name, OnlineList(s.rooms[r].name, s.rooms[r].members)));
      Touch(s, t, r) && RoomOk(t, r, None)
  {
    var list := OnlineList(s.rooms[r].name, s.rooms[r].members);
    var t := SendPacket(s, c, OnlineListPacket(s.rooms[r].name, list));
    ListStep(s, c, r, Some(c), list);
    FromListIsRoster(s.rooms[r].name, s.rooms[r].members);
    assert ConnectedVia(s.client, c, s.client[c].connection.value);
    Settled(t, r, c, s.rooms[r].members[i]);
  }

  lemma HistoryStep(s: State, r: RoomRef, x: Option<ClientRef>, c: ClientRef, h: seq<Message>)
    requires r in s.rooms && Wired(s.out, s.client) && RoomOk(s, r, x)
    ensures var t := SendHistory(s, c, s.rooms[r].name, h); Touch(s, t, r) && RoomOk(t, r, x)
    ensures SameViews(s.out, SendHistory(s, c, s.rooms[r].name, h).out)
  {
    SendMessagesQuiet(s.out, s.client, c, s.rooms[r].name, h);
    SameViewsKeep(s, SendHistory(s, c, s.rooms[r].name, h), r, x);
  }

  // ---- coming back ----

  /** What a revived client is sent about one room, before the others hear of it. */
  function ReviveSends(s: State, c: ClientRef, r: RoomRef, m: Member, list: seq<StatusInfo>): State
    requires r in s.rooms
  {
    var room := s.rooms[r];
    var s2 := SendPacket(s, c, JoinPacket(room.name, m.id, m.nick));
    var s3 := SendPacket(s2, c, OnlineListPacket(room.name, list));
    SendHistory(s3, c, room.name, room.history)
  }

  lemma ReviveSendsStep(s: State, c: ClientRef, r: RoomRef, m: Member, list: seq<StatusInfo>)
    requires r in s.rooms && Wired(s.out, s.client) && RoomOk(s, r, Some(c))
    ensures var t := ReviveSends(s, c, r, m, list);
      && Touch(s, t, r) && RoomOk(t, r, Some(c)) && t == s.(out := t.out)
      && forall k :: k in s.out && ConnectedVia(s.client, c, k) ==> View(t.out[k], s.rooms[r].name) == Some(FromList(list))
  {
    var room := s.rooms[r];
    var s2 := SendPacket(s, c, JoinPacket(room.name, m.id, m.nick));
    QuietSend(s, r, Some(c), c, JoinPacket(room.name, m.id, m.nick));
    TouchWired(s, s2, r);
    var s3 := SendPacket(s2, c, OnlineListPacket(room.name, list));
    ListStep(s2, c, r, Some(c), list);
    TouchWired(s2, s3, r);
    HistoryStep(s3, r, Some(c), c, room.history);
    TouchTransitive(s, s2, s3, r);
    TouchTransitive(s, s3, ReviveSends(s, c, r, m, list), r);
  }

  lemma ReviveIsSendsAndChange(s: State, c: ClientRef, r: RoomRef)
    requires r in s.rooms && HasClient(s.rooms[r].members, c)
    ensures var i := FindMember(s, r, c).value;
      var m := s.rooms[r].members[i].(status := Online);
      var a := ReviveSends(s, c, r, m, OnlineList(s.rooms[r].name, s.rooms[r].members[i := m]));
      && a.rooms == s.rooms
      && ReviveIn(s, c, r) == (if m.nick != "" then SendStatusToAll(PutMember(a, r, i, m), r, StatusOf(s.rooms[r].name, m, Back))
                               else PutMember(a, r, i, m))
  {
  }

  lemma ReviveStep(s: State, c: ClientRef, r: RoomRef)
    requires r in s.rooms && Wired(s.out, s.client) && RoomOk(s, r, Some(c))
    requires c in s.client && s.client[c].connection.Some? && c in s.mgr.clients && r in s.client[c].rooms
    requires HasClient(s.rooms[r].members, c)
    ensures var t := ReviveIn(s, c, r);
      && Touch(s, t, r) && RoomOk(t, r, None) && t.client == s.client
      && SameSeats(s.rooms[r].members, t.rooms[r].members)
  {
    var name := s.rooms[r].name;
    var ms := s.rooms[r].members;
    var i := FindMember(s, r, c).value;
    var m := ms[i].(status := Online);
    var ms' := ms[i := m];
    var list := OnlineList(name, ms');
    var a := ReviveSends(s, c, r, m, list);
    var t := ReviveIn(s, c, r);
    StatusInOrder(s, r, Some(c), i);
    UpdateKeepsDistinct(ms, i, m);
    ReviveIsSendsAndChange(s, c, r);
    ReviveSendsStep(s, c, r, m, list);
    TouchWired(s, a, r);
    FromListIsRoster(name, ms');
    assert ConnectedVia(s.client, c, s.client[c].connection.value);
    if m.nick != "" {
      ReplaceAnnounced(name, ms, i, m, Back);
      ChangeAndTell(a, r, Some(c), i, m, StatusOf(name, m, Back));
      BackHeard(a, c, r, i, m);
    } else {
      NicklessUnseen(ms, i, m);
      ChangeUnseen(a, r, Some(c), i, m);
    }
    TouchTransitive(s, a, t, r);
    Settled(t, r, c, m);
  }

  /** The revived client hears its own return over an online list that already has it online. */
  lemma BackHeard(a: State, c: ClientRef, r: RoomRef, i: nat, m: Member)
    requires r in a.rooms && Wired(a.out, a.client) && RoomOk(a, r, Some(c)) && i < |a.rooms[r].members|
    requires c in a.client && a.client[c].connection.Some?
    requires m == a.rooms[r].members[i].(status := Online) && m.client == c && m.nick != ""
    requires View(a.out[a.client[c].connection.value], a.rooms[r].name).Some?
    requires IsRoster(View(a.out[a.client[c].connection.value], a.rooms[r].name).value, a.rooms[r].members[i := m])
    ensures KnowsRoster(SendStatusToAll(PutMember(a, r, i, m), r, StatusOf(a.rooms[r].name, m, Back)), r, a.client[c].connection.value)
  {
    var ms := a.rooms[r].members;
    var u := PutMember(a, r, i, m);
    var p := StatusOf(a.rooms[r].name, m, Back);
    UpdateKeepsDistinct(ms, i, m);
    BackAgain(a.rooms[r].name, ms[i := m], i, m);
    hide RoomOk, ApplyStatus, IsRoster, Distinct, Wired, View;
    RostersHeard(u, r, c, i, p);
  }

  lemma BackAgain(name: string, ms: seq<Member>, i: nat, m: Member)
    requires Distinct(ms) && i < |ms| && ms[i] == m && m.nick != "" && m.status == Online
    ensures Announces(StatusOf(name, m, Back), ms, ms)
  {
    ReplaceAnnounced(name, ms, i, m, Back);
    assert ms[i := m] == ms;
  }

  /** A member that already has the exact view keeps it through a packet that tells nothing new. */
  lemma RostersHeard(u: State, r: RoomRef, c: ClientRef, i: nat, p: StatusInfo)
    requires r in u.rooms && Wired(u.out, u.client) && Distinct(u.rooms[r].members) && i < |u.rooms[r].members|
    requires c in u.client && u.client[c].connection.Some? && u.rooms[r].members[i].client == c
    requires p.target == u.rooms[r].name && Announces(p, u.rooms[r].members, u.rooms[r].members)
    requires KnowsRoster(u, r, u.client[c].connection.value)
    ensures KnowsRoster(SendStatusToAll(u, r, p), r, u.client[c].connection.value)
  {
    TellAll(u, r, p);
    assert u.rooms[r].members[i] in u.rooms[r].members;
    HearsVia(u, r, u.rooms[r].members[i], u.client[c].connection.value);
  }

  // ---- joining ----

  lemma BannedStep(s: State, c: ClientRef, r: RoomRef)
    requires r in s.rooms && RoomOk(s, r, None) && c in s.client
    requires JoinRoom(s, c, r).1 == Banned
    ensures var t := JoinRoom(s, c, r).0;
      && Touch(s, t, r) && RoomOk(t, r, None) && t.out == s.out && t.client == s.client
      && t.rooms[r].members == s.rooms[r].members
  {
    var t := JoinRoom(s, c, r).0;
    forall n | n in t.rooms[r].members ensures MemberLinked(t, r, n) {
      assert MemberLinked(s, r, n);
    }
  }

  /** The member list after a join: one more member, with a fresh id and no nick. */
  lemma JoinedMembers(s: State, c: ClientRef, r: RoomRef)
    requires r in s.rooms && RoomShape(s.rooms[r]) && c in s.client
    requires !HasClient(s.rooms[r].members, c)
    requires JoinRoom(s, c, r).1 == Joined
    ensures var t := JoinRoom(s, c, r).0;
      && RoomShape(t.rooms[r])
      && Unseen(s.rooms[r].members, t.rooms[r].members)
      && (exists m :: t.rooms[r].members == s.rooms[r].members + [m] && m.client == c && m.nick == "" && m.status == Online)
  {
    var room := s.rooms[r];
    var t := JoinRoom(s, c, r).0;
    var m := t.rooms[r].members[|room.members|];
    AddKeepsDistinct(room.members, m);
    NewcomerUnseen(room.members, m);
    assert t.rooms[r].members == room.members + [m];
  }

  lemma JoinedIs(s: State, c: ClientRef, r: RoomRef)
    requires r in s.rooms && c in s.client && JoinRoom(s, c, r).1 == Joined
    ensures var t := JoinRoom(s, c, r).0; var room := s.rooms[r];
      r in t.rooms && t.rooms[r].name == room.name && t.rooms[r].history == room.history
      && t.rooms[r].nextMessageId == room.nextMessageId
      && t == s.(rooms := s.rooms[r := t.rooms[r]], client := s.client[c := s.client[c].(rooms := s.client[c].rooms + [r])])
  {
  }

  lemma JoinedTouch(s: State, c: ClientRef, r: RoomRef)
    requires r in s.rooms && c in s.client && NoDup(s.client[c].rooms) && r !in s.client[c].rooms
    requires JoinRoom(s, c, r).1 == Joined
    ensures var t := JoinRoom(s, c, r).0;
      && Touch(s, t, r) && t.out == s.out
      && NoDup(t.client[c].rooms) && r in t.client[c].rooms
      && (forall d :: d in s.client && d != c ==> t.client[d] == s.client[d])
  {
    JoinedIs(s, c, r);
    hide JoinRoom;
    var rs := s.client[c].rooms;
    assert forall q :: q in rs + [r] <==> q in rs || q == r;
  }

  lemma JoinStep(s: State, c: ClientRef, r: RoomRef)
    requires r in s.rooms && RoomOk(s, r, None) && c in s.client && NoDup(s.client[c].rooms)
    requires c in s.mgr.clients && s.client[c].connection.Some?
    requires r !in s.client[c].rooms
    requires JoinRoom(s, c, r).1 == Joined
    ensures var t := JoinRoom(s, c, r).0;
      && Touch(s, t, r) && t.out == s.out
      && |t.rooms[r].members| == |s.rooms[r].members| + 1
      && RoomOk(t, r, Some(c)) && Arriving(t, c, r, |s.rooms[r].members|)
      && t.rooms[r].members[|s.rooms[r].members|].nick == ""
      && NoDup(t.client[c].rooms)
      && (forall d :: d in s.client && d != c ==> t.client[d] == s.client[d])
      && (forall d :: HasClient(s.rooms[r].members, d) || d == c ==> HasClient(t.rooms[r].members, d))
  {
    var ms := s.rooms[r].members;
    var t := JoinRoom(s, c, r).0;
    forall n | n in ms ensures n.client != c {
      assert MemberLinked(s, r, n);
    }
    JoinedMembers(s, c, r);
    JoinedTouch(s, c, r);
    var m :| t.rooms[r].members == ms + [m] && m.client == c && m.nick == "" && m.status == Online;
    forall n | n in t.rooms[r].members && Some(c) != Some(n.client) ensures n.client in t.client && MemberLinked(t, r, n) {
      assert n in ms && MemberLinked(s, r, n);
    }
    forall d | HasClient(ms, d) || d == c ensures HasClient(t.rooms[r].members, d) {
      var n :| (n in ms && n.client == d) || (n == m && d == c);
      assert n in t.rooms[r].members;
    }
  }

  // ---- what does not concern the roster ----

  /** Everything about a room that its roster, its links and its shape do not depend on. */
  lemma PutRoomStep(s: State, r: RoomRef, room: Room)
    requires r in s.rooms && RoomOk(s, r, None)
    requires room.name == s.rooms[r].name && room.members == s.rooms[r].members
    requires room.history == s.rooms[r].history && room.nextMessageId == s.rooms[r].nextMessageId
    requires room.membersInfo == s.rooms[r].membersInfo && room.nextMemberId == s.rooms[r].nextMemberId
    ensures Touch(s, PutRoom(s, r, room), r) && RoomOk(PutRoom(s, r, room), r, None)
  {
    var t := PutRoom(s, r, room);
    forall n | n in t.rooms[r].members ensures MemberLinked(t, r, n) {
      assert MemberLinked(s, r, n);
    }
  }

  lemma PublicMessageStep(s: State, r: RoomRef, i: nat, style: Style, text: string)
    requires r in s.rooms && Wired(s.out, s.client) && RoomOk(s, r, None) && i < |s.rooms[r].members|
    ensures var t := PublicMessage(s, r, i, style, text);
      && Touch(s, t, r) && RoomOk(t, r, None) && t.client == s.client
      && t.rooms[r].members == s.rooms[r].members
  {
    var room := s.rooms[r];
    var m := room.members[i];
    var t := PublicMessage(s, r, i, style, text);
    BroadcastQuiet(s.out, s.client, room.members,
                   MessagePacket(room.name, Message(room.nextMessageId, m.id, m.nick, 0, style, text)));
    if HistoryOk(s, r) {
      LastOfAppend(s.log[r], Message(room.nextMessageId, m.id, m.nick, 0, style, text), s.cfg.maxHistory);
      NumberedAppend(s.log[r], Message(room.nextMessageId, m.id, m.nick, 0, style, text));
    }
    forall n | n in t.rooms[r].members ensures MemberLinked(t, r, n) {
      assert MemberLinked(s, r, n);
    }
  }
}
