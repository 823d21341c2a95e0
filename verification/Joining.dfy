/** A join as an event: who is let in, as what, and what everybody is told. */
module Joining {
  import opened Types
  import opened Members
  import opened MemberIds
  import opened Presence
  import opened Delivery
  import opened History
  import opened Chat
  import opened Rights
  import opened World
  import opened WorldSteps
  import opened PacketSteps
  import opened Sessions
  import opened Invariant
  import opened Runs
  import opened Theorems
  import opened Talking
  import opened Rejoining
  import opened Effects
  import opened Commands
  import opened Packets
  import opened Notices
  import opened Outcomes
  import opened Replays

  /** Client c asks to join the registered room r, in whose name it is in no room yet. */
  ghost predicate Asks(s: State, e: Timed, c: ClientRef, r: RoomRef, autoLogin: bool, loadHistory: bool) {
    && Reachable(s) && Valid(s, e) && Sends(s, e, c)
    && r in s.registered && r in s.rooms && e.event.p == JoinIn(s.rooms[r].name, autoLogin, loadHistory)
    && Outside(s, c, s.rooms[r].name)
  }

  // ---- refusals ----

  lemma JoinRefused(s: State, e: Timed, c: ClientRef, target: string, autoLogin: bool, loadHistory: bool)
    requires Reachable(s) && Sends(s, e, c) && e.event.p == JoinIn(target, autoLogin, loadHistory)
    requires !Outside(s, c, target) || NoRoom(s, target)
    ensures OnlyAnswered(s, Step(s, e), c, e.event.k, e.now,
              [ErrorPacket(if Outside(s, c, target) then NotFound else AlreadyConnected, target)])
  {
    hide Reachable, Step, RoomByName, SendPacket, JoinRoom;
    Processed(s, e, c);
    AwakeFields(s, c, e.now);
    Replied(s, e, c, ErrorPacket(if Outside(s, c, target) then NotFound else AlreadyConnected, target));
  }

  lemma AskedFor(s: State, e: Timed, c: ClientRef, r: RoomRef, autoLogin: bool, loadHistory: bool)
    requires Asks(s, e, c, r, autoLogin, loadHistory)
    ensures var h := Awake(s, c, e.now); var (s1, outcome) := JoinRoom(h, c, r);
      && outcome != NoIdLeft
      && (outcome == Joined ==> c in s1.client && r in s1.rooms && |s.rooms[r].members| < |s1.rooms[r].members|)
      && Step(s, e) ==
           if outcome == Joined then Welcome(s1, c, r, |s.rooms[r].members|, autoLogin, loadHistory)
           else SendPacket(s1, c, ErrorPacket(UserBanned, s.rooms[r].name))
  {
    hide Reachable, Valid, Step, RoomByName, SendPacket, Welcome, NextMemberId, BannedFrom;
    Processed(s, e, c);
    AwakeFields(s, c, e.now);
    RoomHasSpace(s, r);
    FoundRegistered(s, Awake(s, c, e.now), r);
  }

  /** Banned by address or by account, and not a moderator: no member, one error, only a member id used up. */
  lemma JoinBanned(s: State, e: Timed, c: ClientRef, r: RoomRef, autoLogin: bool, loadHistory: bool)
    requires Asks(s, e, c, r, autoLogin, loadHistory)
    requires var room, uid := s.rooms[r], s.client[c].uid;
      && (s.client[c].lastIp in room.bannedIps || uid in room.bannedUids)
      && !(uid in {1, 2} || (uid != 0 && (uid == room.ownerId || uid in room.moderators)))
    ensures var t := Step(s, e); var k := e.event.k;
      && OnlyHeard(s, t, c, e.now) && t.log == s.log
      && (exists id :: t.rooms == s.rooms[r := s.rooms[r].(nextMemberId := id)])
      && k in s.out && t.out == s.out[k := s.out[k] + [ErrorPacket(UserBanned, s.rooms[r].name)]]
  {
    hide Reachable, Valid, Step, Welcome, NextMemberId, BannedFrom, Wired;
    AskedFor(s, e, c, r, autoLogin, loadHistory);
    LineOf(s, e, c);
    AwakeFields(s, c, e.now);
    RoomHasSpace(s, r);
    BansAre(s.rooms[r], Awake(s, c, e.now).client[c]);
    var id := NextMemberId(s.rooms[r].members, s.rooms[r].nextMemberId);
    assert Step(s, e).rooms == s.rooms[r := s.rooms[r].(nextMemberId := id)];
  }

  // ---- what a newcomer becomes ----

  /** The stored looks and nick of a known user, or those of its account. */
  function Offered(room: Room, cl: Client): MemberInfo {
    if cl.uid != 0 && cl.uid in room.membersInfo then room.membersInfo[cl.uid] else MemberInfo(cl.uid, cl.name, cl.girl, cl.color)
  }

  predicate NickBarred(room: Room, cl: Client) {
    Offered(room, cl).nick in room.bannedNicks && !Moderates(room, cl.uid)
  }

  predicate NickTaken(room: Room, nick: string) {
    nick != "" && exists j :: 0 <= j < |room.members| && room.members[j].nick == nick
  }

  /** The nick an auto-login ends with: none if it is banned or taken. */
  function NickGot(room: Room, cl: Client): string {
    var nick := Offered(room, cl).nick;
    if NickBarred(room, cl) || NickTaken(room, nick) then "" else nick
  }

  /** The member a client becomes. */
  function Newcomer(room: Room, cl: Client, c: ClientRef, id: nat, autoLogin: bool): Member {
    if autoLogin then Member(id, c, NickGot(room, cl), Online, Offered(room, cl).girl, Offered(room, cl).color)
    else Member(id, c, "", Online, false, "gray")
  }

  /** The notes behind the history: about a banned or a taken nick, about help, and about a missing nick. */
  function Notes(room: Room, cl: Client, nick: string, autoLogin: bool): seq<Packet> {
    (if autoLogin && (NickBarred(room, cl) || NickTaken(room, Offered(room, cl).nick)) then [SystemPacket("")] else [])
    + [SystemPacket(room.name)] + (if nick == "" then [SystemPacket(room.name)] else [])
  }

  // ---- from the inside ----

  /** All that goes to one client's own line before its nick is set. */
  ghost predicate ToLine(s: State, t: State, k: Conn, ps: seq<Packet>) {
    k in s.out && t.out == s.out[k := s.out[k] + ps]
  }

  lemma ToLineMore(s: State, t: State, u: State, c: ClientRef, k: Conn, ps: seq<Packet>, p: Packet)
    requires ToLine(s, t, k, ps) && c in t.client && t.client[c].connection == Some(k) && u.out == SendOne(t.out, t.client, c, p)
    ensures ToLine(s, u, k, ps + [p])
  {
    assert (s.out[k] + ps) + [p] == s.out[k] + (ps + [p]);
  }

  lemma ToLineHistory(s: State, t: State, c: ClientRef, k: Conn, ps: seq<Packet>, name: string, h: seq<Message>)
    requires ToLine(s, t, k, ps) && c in t.client && t.client[c].connection == Some(k) && Wired(t.out, t.client)
    ensures ToLine(s, SendHistory(t, c, name, h), k, ps + Replay(name, h))
  {
    hide Replay;
    MessagesSent(t.out, t.client, c, name, h);
    var u := SendHistory(t, c, name, h);
    forall q | q in s.out ensures u.out[q] == s.out[k := s.out[k] + (ps + Replay(name, h))][q] {
      assert (s.out[k] + ps) + Replay(name, h) == s.out[k] + (ps + Replay(name, h));
      assert t.out[q] + [] == t.out[q];
    }
  }

  lemma LoginIs(s: State, c: ClientRef, r: RoomRef, i: nat, room: Room, cl: Client)
    requires c in s.client && r in s.rooms && i < |s.rooms[r].members| && s.rooms[r].members[i].nick == ""
    requires s.rooms[r] == room.(nextMemberId := s.rooms[r].nextMemberId, members := room.members + [s.rooms[r].members[i]])
    requires s.client[c].uid == cl.uid && s.client[c].name == cl.name && s.client[c].girl == cl.girl && s.client[c].color == cl.color
    ensures var (t, nick) := AutoLogin(s, c, r, i); var info := Offered(room, cl);
      && nick == NickGot(room, cl)
      && t.rooms == PutMember(s, r, i, s.rooms[r].members[i].(girl := info.girl, color := info.color)).rooms
      && t == s.(rooms := t.rooms, out := t.out)
      && t.out == if NickBarred(room, cl) || NickTaken(room, info.nick) then SendOne(s.out, s.client, c, SystemPacket("")) else s.out
  {
    hide SendOne, FindByNick;
    var info := Offered(room, cl);
    assert LoginInfo(s.rooms[r], s.client[c]) == info;
    RightsAre(s.rooms[r], cl.uid);
    TakenIs(room, s.rooms[r], s.rooms[r].members[i], info.nick);
    NoEmptyNick(s.rooms[r].members);
    assert Moderates(s.rooms[r], cl.uid) == Moderates(room, cl.uid);
    hide IsModer, LoginInfo, Moderates;
  }

  lemma NoEmptyNick(ms: seq<Member>)
    ensures FindByNick(ms, "").None?
  {
  }

  lemma TakenIs(room: Room, room': Room, m: Member, nick: string)
    requires room'.members == room.members + [m] && m.nick == ""
    ensures FindByNick(room'.members, nick).Some? <==> NickTaken(room, nick)
  {
    if j :| 0 <= j < |room.members| && room.members[j].nick == nick {
      assert room'.members[j] in room'.members;
    }
  }

  /** Setting the first nick of the newcomer, which is free and allowed. */
  lemma FirstNick(s: State, r: RoomRef, i: nat, nick: string)
    requires r in s.rooms && i < |s.rooms[r].members| && s.rooms[r].members[i].nick == "" && nick != ""
    requires nick !in s.rooms[r].bannedNicks || Moderates(s.rooms[r], UidOf(s, s.rooms[r].members[i].client))
    ensures var room := s.rooms[r]; var m := room.members[i].(nick := nick); var t := SetNick(s, r, i, nick);
      && t == s.(rooms := s.rooms[r := room.(members := room.members[i := m])], out := t.out)
      && t.out == Deliver(s.out, s.client, room.members[i := m], StatusPacket(StatusInfo(room.name, m.status, m.id, nick, m.girl, m.color)))
  {
    RightsAre(s.rooms[r], UidOf(s, s.rooms[r].members[i].client));
    hide Deliver, IsModer, Moderates;
  }

  /** The packets to the newcomer's line: who it is, who is there, what was said, and the notes. */
  function Greeting(room: Room, cl: Client, id: nat, nick: string, autoLogin: bool, loadHistory: bool): seq<Packet> {
    [JoinPacket(room.name, id, ""), OnlineListPacket(room.name, OnlineList(room.name, room.members))]
    + (if loadHistory then Replay(room.name, room.history) else [])
    + Notes(room, cl, nick, autoLogin)
  }

  lemma {:induction false} ListSkipsNickless(name: string, ms: seq<Member>, m: Member)
    requires m.nick == ""
    ensures OnlineList(name, ms + [m]) == OnlineList(name, ms)
  {
    if ms == [] {
      assert [m][1..] == [] && ms + [m] == [m];
    } else {
      assert (ms + [m])[0] == ms[0] && (ms + [m])[1..] == ms[1..] + [m];
      ListSkipsNickless(name, ms[1..], m);
    }
  }

  /** The room with the newcomer in the last place. */
  ghost predicate LastIs(s: State, r: RoomRef, room: Room, m: Member) {
    r in s.rooms && s.rooms[r] == room.(nextMemberId := s.rooms[r].nextMemberId, members := room.members + [m])
  }

  ghost predicate SameAccount(s: State, c: ClientRef, cl: Client) {
    && c in s.client && s.client[c].uid == cl.uid && s.client[c].name == cl.name && s.client[c].girl == cl.girl
    && s.client[c].color == cl.color
  }

  /** The newcomer is named: notes to its line, and its nick, if it has one, to everybody. */
  ghost predicate Entered(s: State, t: State, c: ClientRef, r: RoomRef, room: Room, cl: Client, k: Conn, id: nat, autoLogin: bool) {
    var m := Newcomer(room, cl, c, id, autoLogin);
    && r in s.rooms && k in s.out && t == s.(rooms := t.rooms, out := t.out)
    && t.rooms == s.rooms[r := s.rooms[r].(members := room.members + [m])]
    && var mid := s.out[k := s.out[k] + Notes(room, cl, m.nick, autoLogin)];
       t.out == if m.nick == "" then mid
                else Deliver(mid, s.client, room.members + [m],
                             StatusPacket(StatusInfo(room.name, Online, id, m.nick, m.girl, m.color)))
  }

  lemma EnterPlain(s: State, c: ClientRef, r: RoomRef, room: Room, cl: Client, k: Conn, id: nat)
    requires LastIs(s, r, room, Member(id, c, "", Online, false, "gray"))
    requires c in s.client && s.client[c].connection == Some(k) && k in s.out
    ensures Entered(s, Enter(s, c, r, |room.members|, false), c, r, room, cl, k, id, false)
  {
    var p := SystemPacket(room.name);
    assert (s.out[k] + [p]) + [p] == s.out[k] + ([] + [p] + [p]);
    assert s.rooms[r := s.rooms[r].(members := room.members + [Member(id, c, "", Online, false, "gray")])] == s.rooms;
  }

  lemma EnterNamed(s: State, c: ClientRef, r: RoomRef, room: Room, cl: Client, k: Conn, id: nat)
    requires LastIs(s, r, room, Member(id, c, "", Online, false, "gray")) && SameAccount(s, c, cl)
    requires s.client[c].connection == Some(k) && k in s.out
    ensures Entered(s, Enter(s, c, r, |room.members|, true), c, r, room, cl, k, id, true)
  {
    hide AutoLogin, SetNick, Deliver, NickBarred, NickTaken, Offered;
    var i := |room.members|;
    var info := Offered(room, cl);
    LoginIs(s, c, r, i, room, cl);
    var (sA, nick) := AutoLogin(s, c, r, i);
    var m1 := Member(id, c, "", Online, info.girl, info.color);
    assert s.rooms[r].members[i := m1] == room.members + [m1];
    var p := SystemPacket(room.name);
    var s2 := SendPacket(sA, c, p);
    var noted := NickBarred(room, cl) || NickTaken(room, info.nick);
    NotedLine(s, sA, s2, c, k, room, cl, noted, p);
    assert s2.rooms[r].members == room.members + [m1];
    if nick == "" {
      LastNote(s, s2, SendPacket(s2, c, p), c, k, room, cl);
    } else {
      MayHave(s, c, room, cl, s2.rooms[r], UidOf(s2, c));
      FirstNick(s2, r, i, nick);
      var m := m1.(nick := nick);
      assert (room.members + [m1])[i := m] == room.members + [m];
      NickNotes(room, cl);
    }
  }

  lemma NickNotes(room: Room, cl: Client)
    requires NickGot(room, cl) != ""
    ensures Notes(room, cl, NickGot(room, cl), true) == [SystemPacket(room.name)]
  {
    hide NickBarred, NickTaken, Offered;
  }

  /** After the note about the nick, if there is one, and the note about help. */
  lemma NotedLine(s: State, sA: State, s2: State, c: ClientRef, k: Conn, room: Room, cl: Client, noted: bool, p: Packet)
    requires k in s.out && c in s.client && s.client[c].connection == Some(k) && sA.client == s.client
    requires sA.out == if noted then SendOne(s.out, s.client, c, SystemPacket("")) else s.out
    requires s2 == SendPacket(sA, c, p)
    ensures s2.out == s.out[k := s.out[k] + ((if noted then [SystemPacket("")] else []) + [p])]
  {
    assert (s.out[k] + [SystemPacket("")]) + [p] == s.out[k] + ([SystemPacket("")] + [p]);
    assert [] + [p] == [p];
  }

  lemma LastNote(s: State, s2: State, t: State, c: ClientRef, k: Conn, room: Room, cl: Client)
    requires k in s.out && c in s2.client && s2.client[c].connection == Some(k) && NickGot(room, cl) == ""
    requires var noted := NickBarred(room, cl) || NickTaken(room, Offered(room, cl).nick);
      s2.out == s.out[k := s.out[k] + ((if noted then [SystemPacket("")] else []) + [SystemPacket(room.name)])]
    requires t == SendPacket(s2, c, SystemPacket(room.name))
    ensures t.out == s.out[k := s.out[k] + Notes(room, cl, "", true)]
  {
    hide NickBarred, NickTaken, Offered;
    var noted := NickBarred(room, cl) || NickTaken(room, Offered(room, cl).nick);
    var a := (if noted then [SystemPacket("")] else []) + [SystemPacket(room.name)];
    assert (s.out[k] + a) + [SystemPacket(room.name)] == s.out[k] + (a + [SystemPacket(room.name)]);
  }

  lemma MayHave(s: State, c: ClientRef, room: Room, cl: Client, room': Room, uid: nat)
    requires NickGot(room, cl) != "" && uid == cl.uid
    requires room'.bannedNicks == room.bannedNicks && room'.ownerId == room.ownerId && room'.moderators == room.moderators
    ensures NickGot(room, cl) !in room'.bannedNicks || Moderates(room', uid)
  {
  }

  /** The welcome as a whole. */
  ghost predicate Welcomed(s: State, t: State, c: ClientRef, r: RoomRef, room: Room, cl: Client, k: Conn, id: nat,
                           autoLogin: bool, loadHistory: bool) {
    var m := Newcomer(room, cl, c, id, autoLogin);
    && r in s.rooms && k in s.out && t == s.(rooms := t.rooms, out := t.out)
    && t.rooms == s.rooms[r := s.rooms[r].(members := room.members + [m])]
    && var mid := s.out[k := s.out[k] + Greeting(room, cl, id, m.nick, autoLogin, loadHistory)];
       t.out == if m.nick == "" then mid
                else Deliver(mid, s.client, room.members + [m],
                             StatusPacket(StatusInfo(room.name, Online, id, m.nick, m.girl, m.color)))
  }

  lemma WelcomeTo(s: State, c: ClientRef, r: RoomRef, room: Room, cl: Client, k: Conn, id: nat, autoLogin: bool, loadHistory: bool)
    requires LastIs(s, r, room, Member(id, c, "", Online, false, "gray")) && SameAccount(s, c, cl) && Wired(s.out, s.client)
    requires s.client[c].connection == Some(k) && k in s.out
    ensures Welcomed(s, Welcome(s, c, r, |room.members|, autoLogin, loadHistory), c, r, room, cl, k, id, autoLogin, loadHistory)
  {
    hide Enter, OnlineList, Deliver, Replay, Notes, Newcomer, SendMessages;
    var m0 := Member(id, c, "", Online, false, "gray");
    ListSkipsNickless(room.name, room.members, m0);
    var p1 := JoinPacket(room.name, id, "");
    var p2 := OnlineListPacket(room.name, OnlineList(room.name, room.members));
    var s1 := SendPacket(s, c, p1);
    var s2 := SendPacket(s1, c, p2);
    assert s.out[k] + [] == s.out[k];
    ToLineMore(s, s, s1, c, k, [], p1);
    ToLineMore(s, s1, s2, c, k, [] + [p1], p2);
    WiredSent(s, s1, c, p1);
    WiredSent(s1, s2, c, p2);
    ToLineHistory(s, s2, c, k, [] + [p1] + [p2], room.name, room.history);
    var s3 := if loadHistory then SendHistory(s2, c, room.name, room.history) else s2;
    var ps := [p1, p2] + if loadHistory then Replay(room.name, room.history) else [];
    assert [] + [p1] + [p2] == [p1, p2] && [p1, p2] + [] == [p1, p2];
    if loadHistory {
      assert ToLine(s, s3, k, [p1, p2] + Replay(room.name, room.history));
    } else {
      assert ToLine(s, s3, k, [p1, p2]);
    }
    if autoLogin { EnterNamed(s3, c, r, room, cl, k, id); } else { EnterPlain(s3, c, r, room, cl, k, id); }
    assert Welcome(s, c, r, |room.members|, autoLogin, loadHistory) == Enter(s3, c, r, |room.members|, autoLogin);
    EnteredIsWelcomed(s, s3, Enter(s3, c, r, |room.members|, autoLogin), c, r, room, cl, k, id, autoLogin, loadHistory, ps);
  }

  lemma EnteredIsWelcomed(s: State, s3: State, t: State, c: ClientRef, r: RoomRef, room: Room, cl: Client, k: Conn, id: nat,
                          autoLogin: bool, loadHistory: bool, ps: seq<Packet>)
    requires s3 == s.(out := s3.out) && ToLine(s, s3, k, ps)
    requires ps == [JoinPacket(room.name, id, ""), OnlineListPacket(room.name, OnlineList(room.name, room.members))]
                   + if loadHistory then Replay(room.name, room.history) else []
    requires Entered(s3, t, c, r, room, cl, k, id, autoLogin)
    ensures Welcomed(s, t, c, r, room, cl, k, id, autoLogin, loadHistory)
  {
    hide OnlineList, Deliver, Replay, Notes, Newcomer;
    var notes := Notes(room, cl, Newcomer(room, cl, c, id, autoLogin).nick, autoLogin);
    assert (s.out[k] + ps) + notes == s.out[k] + (ps + notes);
    assert s3.out[k := s3.out[k] + notes] == s.out[k := s.out[k] + (ps + notes)];
  }

  lemma WiredSent(s: State, t: State, c: ClientRef, p: Packet)
    requires Wired(s.out, s.client) && t == SendPacket(s, c, p)
    ensures Wired(t.out, t.client)
  {
  }

  // ---- the join as an event ----

  lemma EarsWithNewcomer(s: State, s1: State, c: ClientRef, r: RoomRef, m: Member, k: Conn, q: Conn)
    requires r in s.rooms && c in s.client && m.client == c && s.client[c].connection == Some(k) && SameLines(s.client, s1.client)
    ensures Hears(s1.client, s.rooms[r].members + [m], q) <==> Listens(s, r, q) || q == k
  {
    var ms := s.rooms[r].members;
    HearsListens(s, r, q);
    if x :| x in ms + [m] && ConnectedVia(s1.client, x.client, q) {
      assert x in ms || x == m;
      assert ConnectedVia(s.client, x.client, q);
    }
    if Hears(s.client, ms, q) {
      var x :| x in ms && ConnectedVia(s.client, x.client, q);
      assert x in ms + [m] && ConnectedVia(s1.client, x.client, q);
    }
    if q == k { assert m in ms + [m] && ConnectedVia(s1.client, c, q); }
  }

  /** A client that is let in: its member, its session, and what everybody is told. */
  ghost predicate LetInAs(s: State, t: State, c: ClientRef, r: RoomRef, k: Conn, now: int, id: nat, autoLogin: bool, loadHistory: bool)
    requires c in s.client && r in s.rooms
  {
    var room, cl := s.rooms[r], s.client[c];
    var m := Newcomer(room, cl, c, id, autoLogin);
    var p := StatusPacket(StatusInfo(room.name, Online, id, m.nick, m.girl, m.color));
    && t.rooms == s.rooms[r := room.(nextMemberId := id, members := room.members + [m])]
    && t.client == s.client[c := cl.(rooms := cl.rooms + [r], lastPacketTime := now)]
    && t.log == s.log && t.mgr == s.mgr && t.registered == s.registered && k in s.out && t.out.Keys == s.out.Keys
    && forall q :: q in s.out ==>
         t.out[q] == s.out[q] + (if q == k then Greeting(room, cl, id, m.nick, autoLogin, loadHistory) else [])
                              + (if m.nick != "" && (q == k || Listens(s, r, q)) then [p] else [])
  }

  lemma WelcomedIsLetIn(s: State, s1: State, t: State, c: ClientRef, r: RoomRef, k: Conn, now: int, id: nat, autoLogin: bool, loadHistory: bool)
    requires c in s.client && r in s.rooms && s.client[c].connection == Some(k) && k in s.out && Wired(s1.out, s1.client)
    requires SameLines(s.client, s1.client) && s1.out == s.out && s1.log == s.log && s1.mgr == s.mgr && s1.registered == s.registered
    requires s1.client == s.client[c := s.client[c].(rooms := s.client[c].rooms + [r], lastPacketTime := now)]
    requires s1.rooms == s.rooms[r := s.rooms[r].(nextMemberId := id,
                                                  members := s.rooms[r].members + [Member(id, c, "", Online, false, "gray")])]
    requires Welcomed(s1, t, c, r, s.rooms[r], s.client[c], k, id, autoLogin, loadHistory)
    requires forall i, j :: 0 <= i < j < |s.rooms[r].members| ==> s.rooms[r].members[i].client != s.rooms[r].members[j].client
    requires forall i :: 0 <= i < |s.rooms[r].members| ==> s.rooms[r].members[i].client != c
    ensures LetInAs(s, t, c, r, k, now, id, autoLogin, loadHistory)
  {
    hide Greeting, Newcomer, Deliver, Listens, Wired, Hears;
    var room, cl := s.rooms[r], s.client[c];
    var m := Newcomer(room, cl, c, id, autoLogin);
    NewcomerClient(room, cl, c, id, autoLogin);
    var p := StatusPacket(StatusInfo(room.name, Online, id, m.nick, m.girl, m.color));
    var mid := s1.out[k := s1.out[k] + Greeting(room, cl, id, m.nick, autoLogin, loadHistory)];
    WiredMore(s1.out, mid, s1.client);
    BroadcastExactlyOnce(mid, s1.client, room.members + [m], p);
    assert s1.rooms[r := s1.rooms[r].(members := room.members + [m])]
        == s.rooms[r := room.(nextMemberId := id, members := room.members + [m])];
    forall q | q in s.out
      ensures t.out[q] == s.out[q] + (if q == k then Greeting(room, cl, id, m.nick, autoLogin, loadHistory) else [])
                                   + (if m.nick != "" && (q == k || Listens(s, r, q)) then [p] else [])
    {
      EarsWithNewcomer(s, s1, c, r, m, k, q);
      assert s.out[q] + [] == s.out[q] && mid[q] + [] == mid[q];
    }
  }

  lemma WiredMore(out: Outboxes, mid: Outboxes, client: Clients)
    requires Wired(out, client) && mid.Keys == out.Keys
    ensures Wired(mid, client)
  {
  }

  lemma NewcomerClient(room: Room, cl: Client, c: ClientRef, id: nat, autoLogin: bool)
    ensures Newcomer(room, cl, c, id, autoLogin).client == c
  {
  }

  lemma OutsideMembers(s: State, c: ClientRef, r: RoomRef)
    requires Reachable(s) && c in s.client && r in s.rooms && r !in s.client[c].rooms
    ensures forall i, j :: 0 <= i < j < |s.rooms[r].members| ==> s.rooms[r].members[i].client != s.rooms[r].members[j].client
    ensures forall i :: 0 <= i < |s.rooms[r].members| ==> s.rooms[r].members[i].client != c
  {
    ReachableWorld(s);
    InShape(s, r);
    NoLinkNoMember(s, c, r);
    forall i | 0 <= i < |s.rooms[r].members| ensures s.rooms[r].members[i].client != c {
      assert s.rooms[r].members[i] in s.rooms[r].members;
    }
  }

  /**
   * A join that is not refused: the client is the last member of the room, under an unused non-zero id,
   * with the nick and the looks it is offered; its line gets the join packet, the online list, exactly the
   * kept tail of the log if it asked for it, and the notes; those who listen hear of its nick.
   */
  lemma JoinDone(s: State, e: Timed, c: ClientRef, r: RoomRef, autoLogin: bool, loadHistory: bool) returns (id: nat)
    requires Asks(s, e, c, r, autoLogin, loadHistory)
    requires var room, uid := s.rooms[r], s.client[c].uid;
      uid in {1, 2} || (uid != 0 && (uid == room.ownerId || uid in room.moderators))
      || (s.client[c].lastIp !in room.bannedIps && uid !in room.bannedUids)
    ensures 0 < id < U32 && forall m :: m in s.rooms[r].members ==> m.id != id
    ensures LetInAs(s, Step(s, e), c, r, e.event.k, e.now, id, autoLogin, loadHistory)
    ensures r in s.log && s.rooms[r].history == LastOf(s.log[r], s.cfg.maxHistory)
  {
    hide Reachable, Valid, Step, Welcome, NextMemberId, Wired, Welcomed, LetInAs, RoomByName, LastOf, JoinRoom;
    AskedFor(s, e, c, r, autoLogin, loadHistory);
    LineOf(s, e, c);
    RoomHasSpace(s, r);
    id := NextMemberId(s.rooms[r].members, s.rooms[r].nextMemberId);
    SeatGiven(s, c, e.now, r, id);
    var s1 := JoinRoom(Awake(s, c, e.now), c, r).0;
    hide Awake, SameLines;
    WiredAlso(s, s1);
    OutsideMembers(s, c, r);
    WelcomeTo(s1, c, r, s.rooms[r], s.client[c], e.event.k, id, autoLogin, loadHistory);
    WelcomedIsLetIn(s, s1, Step(s, e), c, r, e.event.k, e.now, id, autoLogin, loadHistory);
    KeptTail(s, r);
  }

  lemma SeatGiven(s: State, c: ClientRef, now: int, r: RoomRef, id: nat)
    requires c in s.client && r in s.rooms && |s.rooms[r].members| < U32 - 1
    requires id == NextMemberId(s.rooms[r].members, s.rooms[r].nextMemberId) && !Barred(s.rooms[r], s.client[c].uid, s.client[c].lastIp)
    ensures var (s1, outcome) := JoinRoom(Awake(s, c, now), c, r); var m := Member(id, c, "", Online, false, "gray");
      && outcome == Joined && SameLines(s.client, s1.client) && SameAccount(s1, c, s.client[c])
      && s1.client[c].connection == s.client[c].connection
      && s1.out == s.out && s1.log == s.log && s1.mgr == s.mgr && s1.registered == s.registered
      && s1.client == s.client[c := s.client[c].(rooms := s.client[c].rooms + [r], lastPacketTime := now)]
      && s1.rooms == s.rooms[r := s.rooms[r].(nextMemberId := id, members := s.rooms[r].members + [m])]
      && LastIs(s1, r, s.rooms[r], m)
  {
    hide NextMemberId, Barred, BannedFrom;
    BansAre(s.rooms[r], Awake(s, c, now).client[c]);
  }

  lemma KeptTail(s: State, r: RoomRef)
    requires Reachable(s) && r in s.rooms
    ensures r in s.log && s.rooms[r].history == LastOf(s.log[r], s.cfg.maxHistory)
  {
    HistoryRefinesLog(s, r);
  }

  lemma WiredAlso(s: State, s1: State)
    requires Wired(s.out, s.client) && s1.out == s.out && SameLines(s.client, s1.client)
    ensures Wired(s1.out, s1.client)
  {
  }
}
