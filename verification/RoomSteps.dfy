/** Each operation on a single room touches only that room and leaves it in order. */
module RoomSteps {
  import opened Types
  import opened Members
  import opened MemberIds
  import opened Presence
  import opened Delivery
  import opened Persistence
  import opened Chat
  import opened World

  /** Members keep their places, ids and clients. */
  ghost predicate SameSeats(ms: seq<Member>, ms': seq<Member>) {
    |ms| == |ms'| && forall j :: 0 <= j < |ms| ==> ms[j].id == ms'[j].id && ms[j].client == ms'[j].client
  }

  lemma SeatsSameClients(ms: seq<Member>, ms': seq<Member>, c: ClientRef)
    requires SameSeats(ms, ms') && HasClient(ms, c)
    ensures HasClient(ms', c)
  {
    var m :| m in ms && m.client == c;
    var j :| 0 <= j < |ms| && ms[j] == m;
    assert ms'[j] in ms';
  }

  /** What everybody connected knows after a status packet went to all members of r. */
  lemma TellAll(s: State, r: RoomRef, i: StatusInfo)
    requires r in s.rooms && Wired(s.out, s.client) && Distinct(s.rooms[r].members)
    requires i.target == s.rooms[r].name
    ensures Touch(s, SendStatusToAll(s, r, i), r)
    ensures forall k :: k in s.out && Hears(s.client, s.rooms[r].members, k) ==>
      View(SendStatusToAll(s, r, i).out[k], i.target) == See(View(s.out[k], i.target), StatusPacket(i), i.target)
  {
    BroadcastRead(s.out, s.client, s.rooms[r].members, StatusPacket(i));
  }

  lemma HearsVia(s: State, r: RoomRef, m: Member, k: Conn)
    requires r in s.rooms && m in s.rooms[r].members && ConnectedVia(s.client, m.client, k)
    ensures Hears(s.client, s.rooms[r].members, k)
  {
  }

  /** The members of r change as announced and the packet goes to all of the new members. */
  lemma ChangeAndTell(s: State, r: RoomRef, x: Option<ClientRef>, i: nat, m: Member, p: StatusInfo)
    requires r in s.rooms && Wired(s.out, s.client) && RoomOk(s, r, x)
    requires Replaces(s.rooms[r].members, i, m) && m.status in {Online, Away, Orphan}
    requires p.target == s.rooms[r].name && Announces(p, s.rooms[r].members, s.rooms[r].members[i := m])
    requires x == Some(m.client) || (m.status == Orphan <==> s.rooms[r].members[i].status == Orphan)
    ensures var t := SendStatusToAll(PutMember(s, r, i, m), r, p);
      && Touch(s, t, r) && RoomOk(t, r, x) && t.client == s.client
      && SameSeats(s.rooms[r].members, t.rooms[r].members)
  {
    var ms := s.rooms[r].members;
    var u := PutMember(s, r, i, m);
    var t := SendStatusToAll(u, r, p);
    UpdateKeepsDistinct(ms, i, m);
    TellAll(u, r, p);
    assert Touch(s, u, r);
    TouchTransitive(s, u, t, r);
    forall n | n in t.rooms[r].members && x != Some(n.client) ensures n.client in t.client && MemberLinked(t, r, n) {
      ChangedLinked(s, r, x, i, m, p, n);
    }
  }

  lemma ChangedLinked(s: State, r: RoomRef, x: Option<ClientRef>, i: nat, m: Member, p: StatusInfo, n: Member)
    requires r in s.rooms && Wired(s.out, s.client) && RoomOk(s, r, x)
    requires Replaces(s.rooms[r].members, i, m)
    requires p.target == s.rooms[r].name && Announces(p, s.rooms[r].members, s.rooms[r].members[i := m])
    requires x == Some(m.client) || (m.status == Orphan <==> s.rooms[r].members[i].status == Orphan)
    requires n in s.rooms[r].members[i := m] && x != Some(n.client)
    ensures n.client in s.client
    ensures MemberLinked(SendStatusToAll(PutMember(s, r, i, m), r, p), r, n)
  {
    var ms := s.rooms[r].members;
    var u := PutMember(s, r, i, m);
    UpdateKeepsDistinct(ms, i, m);
    TellAll(u, r, p);
    var o := if n == m then ms[i] else n;
    assert o in ms && MemberLinked(s, r, o);
    hide RoomOk, Distinct, Replaces, IsRoster;
    if s.client[n.client].connection.Some? {
      HearsVia(u, r, n, s.client[n.client].connection.value);
    }
  }

  /** A change that needs no packet. */
  lemma ChangeUnseen(s: State, r: RoomRef, x: Option<ClientRef>, i: nat, m: Member)
    requires r in s.rooms && RoomOk(s, r, x)
    requires Replaces(s.rooms[r].members, i, m) && m.status in {Online, Away, Orphan}
    requires Unseen(s.rooms[r].members, s.rooms[r].members[i := m])
    requires x == Some(m.client) || (m.status == Orphan <==> s.rooms[r].members[i].status == Orphan)
    ensures Touch(s, PutMember(s, r, i, m), r) && RoomOk(PutMember(s, r, i, m), r, x)
    ensures SameSeats(s.rooms[r].members, PutMember(s, r, i, m).rooms[r].members)
  {
    var ms := s.rooms[r].members;
    var t := PutMember(s, r, i, m);
    UpdateKeepsDistinct(ms, i, m);
    forall n | n in t.rooms[r].members && x != Some(n.client) ensures MemberLinked(t, r, n) {
      var o := if n == m then ms[i] else n;
      assert o in ms && MemberLinked(s, r, o);
    }
  }

  lemma QuietSend(s: State, r: RoomRef, x: Option<ClientRef>, c: ClientRef, p: Packet)
    requires r in s.rooms && Wired(s.out, s.client) && RoomOk(s, r, x)
    requires !p.StatusPacket? && !p.OnlineListPacket?
    ensures Touch(s, SendPacket(s, c, p), r) && RoomOk(SendPacket(s, c, p), r, x)
    ensures SameSeats(s.rooms[r].members, SendPacket(s, c, p).rooms[r].members)
  {
    SendQuiet(s.out, s.client, c, p);
    SameViewsKeep(s, SendPacket(s, c, p), r, x);
  }

  /** Nothing but the outboxes changed, and no view did. */
  lemma SameViewsKeep(s: State, t: State, r: RoomRef, x: Option<ClientRef>)
    requires r in s.rooms && RoomOk(s, r, x)
    requires t == s.(out := t.out) && SameViews(s.out, t.out)
    ensures Touch(s, t, r) && RoomOk(t, r, x)
    ensures SameSeats(s.rooms[r].members, t.rooms[r].members)
  {
    forall n | n in t.rooms[r].members && x != Some(n.client) ensures MemberLinked(t, r, n) {
      assert MemberLinked(s, r, n);
    }
  }

  function NickInfo(room: string, m: Member, nick: string): StatusInfo {
    var plain := StatusOf(room, m.(nick := nick), m.status);
    if m.nick == "" then plain
    else if nick == "" then plain.(status := Offline, name := m.nick)
    else plain.(status := NickChange)
  }

  lemma NickAnnounced(room: string, ms: seq<Member>, i: nat, nick: string)
    requires Distinct(ms) && i < |ms| && ms[i].nick != nick && FindByNick(ms, nick).None?
    requires ms[i].status in {Online, Away, Orphan}
    ensures Replaces(ms, i, ms[i].(nick := nick))
    ensures Announces(NickInfo(room, ms[i], nick), ms, ms[i := ms[i].(nick := nick)])
  {
    var m' := ms[i].(nick := nick);
    if ms[i].nick == "" {
      ReplaceAnnounced(room, ms, i, m', m'.status);
    } else if nick == "" {
      NickDropAnnounced(NickInfo(room, ms[i], nick), ms, i, m');
    } else {
      ReplaceAnnounced(room, ms, i, m', NickChange);
    }
  }

  lemma SetNickStep(s: State, r: RoomRef, i: nat, nick: string)
    requires r in s.rooms && Wired(s.out, s.client) && RoomOk(s, r, None)
    requires i < |s.rooms[r].members| && FindByNick(s.rooms[r].members, nick).None?
    ensures var t := SetNick(s, r, i, nick);
      && Touch(s, t, r) && RoomOk(t, r, None) && t.client == s.client
      && SameSeats(s.rooms[r].members, t.rooms[r].members)
  {
    var room := s.rooms[r];
    var m := room.members[i];
    if m.nick == nick {
      SameViewsKeep(s, s, r, None);
    } else if !IsModer(room, UidOf(s, m.client)) && nick in room.bannedNicks {
      QuietSend(s, r, None, m.client, SystemPacket(room.name));
    } else {
      StatusInOrder(s, r, None, i);
      NickAnnounced(room.name, room.members, i, nick);
      ChangeAndTell(s, r, None, i, m.(nick := nick), NickInfo(room.name, m, nick));
    }
  }

  lemma StatusInOrder(s: State, r: RoomRef, x: Option<ClientRef>, i: nat)
    requires r in s.rooms && RoomOk(s, r, x) && i < |s.rooms[r].members|
    ensures Distinct(s.rooms[r].members)
    ensures s.rooms[r].members[i] in s.rooms[r].members
    ensures s.rooms[r].members[i].status in {Online, Away, Orphan}
    ensures s.rooms[r].members[i].client in s.client
    ensures x != Some(s.rooms[r].members[i].client) ==> MemberLinked(s, r, s.rooms[r].members[i])
  {
    assert s.rooms[r].members[i] in s.rooms[r].members;
  }

  lemma ChangeLooksStep(s: State, r: RoomRef, i: nat, m: Member, status: Status)
    requires r in s.rooms && Wired(s.out, s.client) && RoomOk(s, r, None)
    requires i < |s.rooms[r].members| && status in {GenderChange, ColorChange}
    requires m == s.rooms[r].members[i].(girl := m.girl, color := m.color)
    ensures var t := ChangeLooks(s, r, i, m, status);
      && Touch(s, t, r) && RoomOk(t, r, None) && t.client == s.client
      && SameSeats(s.rooms[r].members, t.rooms[r].members)
  {
    var ms := s.rooms[r].members;
    var info := StatusOf(s.rooms[r].name, m, status);
    assert ms[i] in ms;
    if m.nick != "" {
      ReplaceAnnounced(s.rooms[r].name, ms, i, m, status);
      ChangeAndTell(s, r, None, i, m, info);
    } else {
      NicklessUnseen(ms, i, m);
      ChangeUnseen(s, r, None, i, m);
      var u := PutMember(s, r, i, m);
      TellOneself(u, r, i, info);
      TouchTransitive(s, u, SendPacket(u, m.client, StatusPacket(info)), r);
    }
  }

  /** A member without a nick is told about itself; its id is not on anybody's roster. */
  lemma TellOneself(s: State, r: RoomRef, i: nat, p: StatusInfo)
    requires r in s.rooms && Wired(s.out, s.client) && RoomOk(s, r, None)
    requires i < |s.rooms[r].members| && s.rooms[r].members[i].nick == ""
    requires p.target == s.rooms[r].name && TellsChange(p.status) && p.id == s.rooms[r].members[i].id
    ensures var t := SendPacket(s, s.rooms[r].members[i].client, StatusPacket(p));
      Touch(s, t, r) && RoomOk(t, r, None)
  {
    var ms := s.rooms[r].members;
    var c := ms[i].client;
    var t := SendPacket(s, c, StatusPacket(p));
    StatusInOrder(s, r, None, i);
    if s.client[c].connection.Some? {
      var k := s.client[c].connection.value;
      forall n ensures View(t.out[k], n) == View(s.out[k], n) {
        ViewAppend(s.out[k], StatusPacket(p), n);
        NicklessNotListed(View(s.out[k], p.target).value, ms, i);
      }
    }
    hide MemberLinked, View, IsRoster, Distinct, Wired, RoomOk;
    SameViewsKeep(s, t, r, None);
  }

  lemma TypingStep(s: State, r: RoomRef, i: nat, status: Status)
    requires r in s.rooms && Wired(s.out, s.client) && RoomOk(s, r, None)
    requires i < |s.rooms[r].members| && s.rooms[r].members[i].nick != "" && status in {Typing, StopTyping}
    ensures var t := SendStatusToAll(s, r, StatusOf(s.rooms[r].name, s.rooms[r].members[i], status));
      Touch(s, t, r) && RoomOk(t, r, None)
  {
    var ms := s.rooms[r].members;
    assert ms[i] in ms && ms[i := ms[i]] == ms;
    assert PutMember(s, r, i, ms[i]) == s by {
      assert s.rooms[r := s.rooms[r]] == s.rooms;
    }
    ReplaceAnnounced(s.rooms[r].name, ms, i, ms[i], status);
    ChangeAndTell(s, r, None, i, ms[i], StatusOf(s.rooms[r].name, ms[i], status));
  }

  lemma ChangeStatusStep(s: State, c: ClientRef, r: RoomRef, status: Status)
    requires r in s.rooms && Wired(s.out, s.client) && RoomOk(s, r, None)
    requires status == Away || status == Back
    requires c in s.client && s.client[c].connection.Some?
    ensures var t := ChangeStatusIn(s, c, r, status);
      && Touch(s, t, r) && RoomOk(t, r, None) && t.client == s.client
      && SameSeats(s.rooms[r].members, t.rooms[r].members)
  {
    var f := FindMember(s, r, c);
    if f.None? {
      SameViewsKeep(s, s, r, None);
    } else {
      var i := f.value;
      var ms := s.rooms[r].members;
      StatusInOrder(s, r, None, i);
      if ms[i].nick == "" {
        SameViewsKeep(s, s, r, None);
      } else {
        var m := ms[i].(status := if status == Back then Online else Away);
        ReplaceAnnounced(s.rooms[r].name, ms, i, m, status);
        ChangeAndTell(s, r, None, i, m, StatusOf(s.rooms[r].name, m, status));
      }
    }
  }

  /** The member of a client that has just lost its connection becomes an orphan. */
  lemma OrphanStep(s: State, c: ClientRef, r: RoomRef)
    requires r in s.rooms && Wired(s.out, s.client) && RoomOk(s, r, Some(c))
    requires c in s.client && s.client[c].connection.None? && c in s.mgr.clients && r in s.client[c].rooms
    requires HasClient(s.rooms[r].members, c)
    ensures var t := OrphanIn(s, c, r);
      && Touch(s, t, r) && RoomOk(t, r, None) && t.client == s.client
      && SameSeats(s.rooms[r].members, t.rooms[r].members)
  {
    var ms := s.rooms[r].members;
    var i := FindMember(s, r, c).value;
    var m := ms[i].(status := Orphan);
    assert ms[i] in ms;
    var t := OrphanIn(s, c, r);
    UpdateKeepsDistinct(ms, i, m);
    if m.nick != "" {
      ReplaceAnnounced(s.rooms[r].name, ms, i, m, Orphan);
      ChangeAndTell(s, r, Some(c), i, m, StatusOf(s.rooms[r].name, m, Orphan));
    } else {
      NicklessUnseen(ms, i, m);
      ChangeUnseen(s, r, Some(c), i, m);
    }
    Settled(t, r, c, m);
  }

  /** The last exemption goes once the exempt client's member is linked. */
  lemma Settled(t: State, r: RoomRef, c: ClientRef, m: Member)
    requires r in t.rooms && RoomOk(t, r, Some(c)) && m in t.rooms[r].members && m.client == c
    requires MemberLinked(t, r, m)
    ensures RoomOk(t, r, None)
  {
    forall n | n in t.rooms[r].members ensures MemberLinked(t, r, n) {
      if n.client == c { SameIdSameMember(t.rooms[r].members, n, m); }
    }
  }

  // ---- leaving ----

  /** Member i has gone and everybody else stays. */
  ghost predicate Gone(ms: seq<Member>, ms': seq<Member>, c: ClientRef) {
    && !HasClient(ms', c)
    && forall d :: d != c && HasClient(ms, d) ==> HasClient(ms', d)
  }

  lemma RemoveGone(ms: seq<Member>, i: nat)
    requires Distinct(ms) && i < |ms|
    ensures Gone(ms, RemoveAt(ms, i), ms[i].client)
  {
    RemoveKeepsDistinct(ms, i);
    forall d | d != ms[i].client && HasClient(ms, d) ensures HasClient(RemoveAt(ms, i), d) {
      var m :| m in ms && m.client == d;
      assert m in RemoveAt(ms, i);
    }
  }

  function TellOffline(s: State, r: RoomRef, i: nat): Outboxes
    requires r in s.rooms && i < |s.rooms[r].members|
  {
    var m := s.rooms[r].members[i];
    if m.nick != "" then Deliver(s.out, s.client, s.rooms[r].members, StatusPacket(StatusOf(s.rooms[r].name, m, Offline)))
    else s.out
  }

  /** Everybody who stays reads the departure, if there is anything to read. */
  lemma DepartureRead(s: State, r: RoomRef, y: Option<ClientRef>, i: nat, n: Member)
    requires r in s.rooms && Wired(s.out, s.client) && RoomOk(s, r, y) && i < |s.rooms[r].members|
    requires n in s.rooms[r].members && y != Some(n.client) && s.client[n.client].connection.Some?
    ensures s.client[n.client].connection.value in TellOffline(s, r, i)
    ensures var ps := TellOffline(s, r, i)[s.client[n.client].connection.value];
      && View(ps, s.rooms[r].name).Some?
      && IsRoster(View(ps, s.rooms[r].name).value, RemoveAt(s.rooms[r].members, i))
  {
    var room := s.rooms[r];
    var m := room.members[i];
    var k := s.client[n.client].connection.value;
    TellOfflineTouch(s, r, i);
    assert MemberLinked(s, r, n);
    if m.nick != "" {
      var p := StatusOf(room.name, m, Offline);
      TellAll(s, r, p);
      HearsVia(s, r, n, k);
      RemovalAnnounced(p, room.members, i);
    } else {
      NicklessRemovalUnseen(room.members, i);
    }
  }

  lemma TellOfflineTouch(s: State, r: RoomRef, i: nat)
    requires r in s.rooms && Wired(s.out, s.client) && Distinct(s.rooms[r].members) && i < |s.rooms[r].members|
    ensures Touch(s, s.(out := TellOffline(s, r, i)), r)
  {
    var m := s.rooms[r].members[i];
    if m.nick != "" {
      TellAll(s, r, StatusOf(s.rooms[r].name, m, Offline));
    }
  }

  lemma DepartureStep(s: State, t: State, r: RoomRef, y: Option<ClientRef>, i: nat)
    requires r in s.rooms && Wired(s.out, s.client) && RoomOk(s, r, y) && i < |s.rooms[r].members|
    requires y == None || y == Some(s.rooms[r].members[i].client)
    requires r in t.rooms && SameViews(TellOffline(s, r, i), t.out) && InfosFiled(t.rooms[r].membersInfo)
    requires t == s.(out := t.out, rooms := s.rooms[r := s.rooms[r].(members := RemoveAt(s.rooms[r].members, i),
                                                                   membersInfo := t.rooms[r].membersInfo)])
    ensures Touch(s, t, r) && RoomOk(t, r, None)
    ensures Gone(s.rooms[r].members, t.rooms[r].members, s.rooms[r].members[i].client)
  {
    var ms := s.rooms[r].members;
    RemoveKeepsDistinct(ms, i);
    RemoveGone(ms, i);
    TellOfflineTouch(s, r, i);
    forall n | n in t.rooms[r].members ensures n.client in t.client && MemberLinked(t, r, n) {
      assert n in ms && MemberLinked(s, r, n);
      if s.client[n.client].connection.Some? {
        DepartureRead(s, r, y, i, n);
      }
    }
  }

  lemma RemoveMemberStep(s: State, r: RoomRef, c: ClientRef, y: Option<ClientRef>)
    requires r in s.rooms && Wired(s.out, s.client) && RoomOk(s, r, y) && HasClient(s.rooms[r].members, c)
    requires y == None || y == Some(c)
    ensures var t := RemoveMember(s, r, c);
      && Touch(s, t, r) && RoomOk(t, r, None) && t.client == s.client
      && Gone(s.rooms[r].members, t.rooms[r].members, c)
  {
    var i := FindMember(s, r, c).value;
    var t := RemoveMember(s, r, c);
    DepartureStep(s, t, r, y, i);
  }

  lemma ForgetRoomStep(s: State, c: ClientRef, r: RoomRef)
    requires r in s.rooms && c in s.client && NoDup(s.client[c].rooms) && RoomOk(s, r, None)
    ensures var t := ForgetRoom(s, c, r);
      && Touch(s, t, r) && RoomOk(t, r, Some(c)) && t.out == s.out && t.rooms == s.rooms
      && NoDup(t.client[c].rooms) && r !in t.client[c].rooms
      && forall d :: d in s.client && d != c ==> t.client[d] == s.client[d]
  {
    EraseNoDup(s.client[c].rooms, r);
    var t := ForgetRoom(s, c, r);
    forall n | n in t.rooms[r].members && Some(c) != Some(n.client) ensures MemberLinked(t, r, n) {
      assert MemberLinked(s, r, n);
    }
  }

  /** What a departure leaves of the client's links. */
  ghost predicate Unlinked(s: State, t: State, c: ClientRef, r: RoomRef)
    requires c in s.client && r in s.rooms
  {
    && c in t.client && r in t.rooms && t.client.Keys == s.client.Keys
    && NoDup(t.client[c].rooms) && r !in t.client[c].rooms
    && (forall d :: d in s.client && d != c ==> t.client[d] == s.client[d])
    && Gone(s.rooms[r].members, t.rooms[r].members, c)
  }

  lemma LeaveRoomStep(s: State, c: ClientRef, r: RoomRef)
    requires r in s.rooms && Wired(s.out, s.client) && RoomOk(s, r, None)
    requires c in s.client && NoDup(s.client[c].rooms) && r in s.client[c].rooms && HasClient(s.rooms[r].members, c)
    ensures var t := LeaveRoom(s, c, r); Touch(s, t, r) && RoomOk(t, r, None) && Unlinked(s, t, c, r)
  {
    var u := ForgetRoom(s, c, r);
    ForgetRoomStep(s, c, r);
    TouchWired(s, u, r);
    RemoveMemberStep(u, r, c, Some(c));
    TouchTransitive(s, u, LeaveRoom(s, c, r), r);
  }

  lemma KickMemberStep(s: State, r: RoomRef, i: nat)
    requires r in s.rooms && Wired(s.out, s.client) && RoomOk(s, r, None) && i < |s.rooms[r].members|
    requires s.rooms[r].members[i].client in s.client && NoDup(s.client[s.rooms[r].members[i].client].rooms)
    ensures var t := KickMember(s, r, i);
      Touch(s, t, r) && RoomOk(t, r, None) && Unlinked(s, t, s.rooms[r].members[i].client, r)
  {
    var c := s.rooms[r].members[i].client;
    var u := ForgetRoom(s, c, r);
    var t := KickMember(s, r, i);
    ForgetRoomStep(s, c, r);
    TouchWired(s, u, r);
    TellOfflineTouch(u, r, i);
    TouchWired(u, u.(out := TellOffline(u, r, i)), r);
    SendQuiet(TellOffline(u, r, i), u.client, c, LeavePacket(s.rooms[r].name));
    DepartureStep(u, t, r, Some(c), i);
    TouchTransitive(s, u, t, r);
  }
}
