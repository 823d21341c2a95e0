/** Every chat message and every command, as an event: exactly what it changes and whom it reaches. */
module Commands {
  import opened Types
  import opened Members
  import opened Presence
  import opened RateLimit
  import opened Delivery
  import opened History
  import opened Chat
  import opened Rights
  import opened World
  import opened WorldSteps
  import opened PacketSteps
  import opened Sessions
  import opened Invariant
  import opened Runs
  import opened Rates
  import opened Theorems
  import opened Talking
  import opened Effects

  /** Client c brings a message for a room; command says how the parser read it. */
  predicate Brings(s: State, e: Timed, c: ClientRef) {
    && e.event.Receive? && e.event.p.MessageIn? && e.event.p.target != "" && e.event.p.text != ""
    && e.event.k in s.mgr.connectionToClient && s.mgr.connectionToClient[e.event.k] == c
  }

  /** The message passes the limiter, and its sender is member i of the room it names. */
  ghost predicate Ordered(s: State, e: Timed, c: ClientRef, r: RoomRef, i: nat) {
    && Reachable(s) && Valid(s, e) && Brings(s, e, c) && c in s.client && LetThrough(s, e, c)
    && r in s.client[c].rooms && r in s.rooms && s.rooms[r].name == e.event.p.target
    && i < |s.rooms[r].members| && s.rooms[r].members[i].client == c
  }

  /** What it means to pass the limiter, over fields. */
  lemma PassingMeans(s: State, e: Timed, c: ClientRef)
    requires Brings(s, e, c) && c in s.client
    ensures LetThrough(s, e, c) <==>
      !Blank(e.event.p.text) && (e.now - s.client[c].limiter.lastMessageTime > 1 || s.client[c].limiter.messageCounter <= 3)
  {
    BlankIs(e.event.p.text);
  }

  // ---- getting to the command ----

  lemma SpeaksIn(s: State, e: Timed, c: ClientRef)
    requires Brings(s, e, c) && c in s.client && LetThrough(s, e, c)
    ensures Step(s, e) == SpeakIn(Heeded(s, c, e.now), c, e.event.p.target, e.event.p.text, e.event.p.command)
  {
    hide SpeakIn, IsBlank;
    var cl := s.client[c];
    var l := OpenWindow(cl.limiter, e.now);
    var heard := s.(now := e.now, client := s.client[c := cl.(lastPacketTime := e.now)]);
    assert PutLimiter(PutLimiter(heard, c, l), c, CountMessage(l)) == Heeded(s, c, e.now) by {
      assert heard.client[c := heard.client[c].(limiter := l)][c := cl.(lastPacketTime := e.now, limiter := CountMessage(l))]
          == s.client[c := cl.(lastPacketTime := e.now, limiter := CountMessage(l))];
    }
    assert Step(s, e) == OnMessage(heard, c, e.now, e.event.p.target, e.event.p.text, e.event.p.command);
  }

  lemma SaysIn(s: State, e: Timed, c: ClientRef, r: RoomRef, i: nat)
    requires Ordered(s, e, c, r, i)
    ensures Step(s, e) == Say(Heeded(s, c, e.now), r, i, e.event.p.text, e.event.p.command)
  {
    hide Reachable, Valid, Step, LetThrough, Say, RoomByName, FindByClient;
    SpeaksIn(s, e, c);
    var h := Heeded(s, c, e.now);
    HeededFields(s, c, e.now);
    HomeRoom(s, c, r, i);
    FoundByName(h, s.client[c].rooms, r);
  }

  /** A command is carried out if its sender is entitled to it, and answered otherwise. */
  lemma Obeyed(s: State, e: Timed, c: ClientRef, r: RoomRef, i: nat)
    requires Ordered(s, e, c, r, i) && e.event.p.command != Plain
    ensures var room := s.rooms[r]; var h := Heeded(s, c, e.now);
      Step(s, e) ==
        if Entitled(room, s.client[c].uid, room.members[i].nick, e.event.p.command) then RunCommand(h, r, i, e.event.p.command)
        else SendPacket(h, c, SystemPacket(room.name))
  {
    hide Reachable, Valid, Step, LetThrough, RunCommand, SendPacket, Allowed, Entitled, LevelOf;
    SaysIn(s, e, c, r, i);
    HeededFields(s, c, e.now);
    EntitledIs(s.rooms[r], s.client[c].uid, s.rooms[r].members[i], e.event.p.command);
  }

  lemma Sender(s: State, e: Timed, c: ClientRef)
    requires Reachable(s) && Brings(s, e, c) && c in s.client
    ensures s.client[c].connection == Some(e.event.k) && e.event.k in s.out && Wired(s.out, s.client)
    ensures SameLines(s.client, Heeded(s, c, e.now).client)
  {
    Behind(s, e.event.k);
    WiredHere(s);
    HeededFields(s, c, e.now);
    hide Reachable;
  }

  /** An answer to the sender. */
  lemma Answered(s: State, e: Timed, c: ClientRef, p: Packet)
    requires Reachable(s) && Brings(s, e, c) && c in s.client
    ensures OnlyAnswered(s, SendPacket(Heeded(s, c, e.now), c, p), c, e.event.k, e.now, [p])
  {
    Sender(s, e, c);
    hide Reachable, Wired;
  }

  // ---- refusals ----

  /** A command its sender is not entitled to changes no room and no log; it is answered. */
  lemma CommandRefused(s: State, e: Timed, c: ClientRef, r: RoomRef, i: nat)
    requires Ordered(s, e, c, r, i) && e.event.p.command != Plain
    requires !Entitled(s.rooms[r], s.client[c].uid, s.rooms[r].members[i].nick, e.event.p.command)
    ensures OnlyAnswered(s, Step(s, e), c, e.event.k, e.now, [SystemPacket(s.rooms[r].name)])
  {
    hide Reachable, Valid, Step, LetThrough, Entitled, RunCommand, SendPacket;
    Obeyed(s, e, c, r, i);
    Answered(s, e, c, SystemPacket(s.rooms[r].name));
  }

  /** A moderator's command from anybody who is not an administrator, the owner or a moderator. */
  lemma ModerationRefused(s: State, e: Timed, c: ClientRef, r: RoomRef, i: nat)
    requires Ordered(s, e, c, r, i)
    requires var cmd := e.event.p.command;
      cmd.Kick? || cmd.BanNick? || cmd.BanUid? || cmd.BanIp? || cmd.UnbanNick? || cmd.UnbanUid? || cmd.UnbanIp?
    requires var room, uid := s.rooms[r], s.client[c].uid;
      uid !in {1, 2} && (uid == 0 || (uid != room.ownerId && uid !in room.moderators))
    ensures OnlyAnswered(s, Step(s, e), c, e.event.k, e.now, [SystemPacket(s.rooms[r].name)])
  {
    hide Reachable, Valid, Step, LetThrough;
    CommandRefused(s, e, c, r, i);
  }

  /** An owner's command from anybody who is neither an administrator nor the owner. */
  lemma OwnershipRefused(s: State, e: Timed, c: ClientRef, r: RoomRef, i: nat)
    requires Ordered(s, e, c, r, i) && (e.event.p.command.AddModer? || e.event.p.command.DelModer?)
    requires var room, uid := s.rooms[r], s.client[c].uid; uid !in {1, 2} && (uid == 0 || uid != room.ownerId)
    ensures OnlyAnswered(s, Step(s, e), c, e.event.k, e.now, [SystemPacket(s.rooms[r].name)])
  {
    hide Reachable, Valid, Step, LetThrough;
    CommandRefused(s, e, c, r, i);
  }

  /** Help and lists only answer, and so does a command nobody knows. */
  lemma ListingAnswers(s: State, e: Timed, c: ClientRef, r: RoomRef, i: nat)
    requires Ordered(s, e, c, r, i) && (e.event.p.command.Listing? || e.event.p.command == Unknown)
    ensures OnlyAnswered(s, Step(s, e), c, e.event.k, e.now, [SystemPacket(s.rooms[r].name)])
  {
    hide Reachable, Valid, Step, LetThrough, Entitled, SendOne;
    Obeyed(s, e, c, r, i);
    Answered(s, e, c, SystemPacket(s.rooms[r].name));
    HeededFields(s, c, e.now);
  }

  // ---- bans and moderators ----

  /** Room r has become room', nothing else has changed, and the sender has been answered. */
  ghost predicate Edited(s: State, t: State, e: Timed, c: ClientRef, r: RoomRef, room': Room) {
    && e.event.Receive? && r in s.rooms && OnlyHeard(s, t, c, e.now) && t.log == s.log && t.rooms == s.rooms[r := room']
    && e.event.k in s.out && t.out == s.out[e.event.k := s.out[e.event.k] + [SystemPacket(s.rooms[r].name)]]
  }

  /** The command is one of an entitled sender that edits the sets of the room. */
  ghost predicate Edits(s: State, e: Timed, c: ClientRef, r: RoomRef, i: nat, cmd: Command) {
    && Ordered(s, e, c, r, i) && e.event.p.command == cmd
    && Entitled(s.rooms[r], s.client[c].uid, s.rooms[r].members[i].nick, cmd)
  }

  lemma EditedIs(s: State, e: Timed, c: ClientRef, r: RoomRef, i: nat, cmd: Command)
    requires Edits(s, e, c, r, i, cmd)
    requires cmd.BanUid? || cmd.BanIp? || cmd.UnbanNick? || cmd.UnbanUid? || cmd.UnbanIp? || cmd.AddModer? || cmd.DelModer?
    ensures Edited(s, Step(s, e), e, c, r, EditSets(s.rooms[r], s.client[c].uid, cmd))
  {
    hide Reachable, Valid, Step, LetThrough, Entitled, EditSets, SendOne;
    Obeyed(s, e, c, r, i);
    Sender(s, e, c);
    HeededFields(s, c, e.now);
    var h := Heeded(s, c, e.now);
    EditRuns(h, r, i, cmd);
    EditAnswered(s, e, c, r, EditSets(s.rooms[r], s.client[c].uid, cmd));
  }

  lemma EditRuns(h: State, r: RoomRef, i: nat, cmd: Command)
    requires r in h.rooms && i < |h.rooms[r].members|
    requires cmd.BanUid? || cmd.BanIp? || cmd.UnbanNick? || cmd.UnbanUid? || cmd.UnbanIp? || cmd.AddModer? || cmd.DelModer?
    ensures var c := h.rooms[r].members[i].client;
      RunCommand(h, r, i, cmd) == SendPacket(PutRoom(h, r, EditSets(h.rooms[r], UidOf(h, c), cmd)), c, SystemPacket(h.rooms[r].name))
  {
    hide SendPacket, EditSets;
  }

  lemma EditAnswered(s: State, e: Timed, c: ClientRef, r: RoomRef, room': Room)
    requires Reachable(s) && Brings(s, e, c) && c in s.client && r in s.rooms
    ensures Edited(s, SendPacket(PutRoom(Heeded(s, c, e.now), r, room'), c, SystemPacket(s.rooms[r].name)), e, c, r, room')
  {
    Sender(s, e, c);
    hide Reachable, Wired;
  }

  /** /banuid: at most 101 accounts by anybody but an administrator; without a number nothing changes. */
  lemma BanUidDone(s: State, e: Timed, c: ClientRef, r: RoomRef, i: nat, u: Option<nat>)
    requires Ordered(s, e, c, r, i) && e.event.p.command == BanUid(u)
    requires var room, uid := s.rooms[r], s.client[c].uid; uid in {1, 2} || (uid != 0 && (uid == room.ownerId || uid in room.moderators))
    ensures var room, uid := s.rooms[r], s.client[c].uid;
      Edited(s, Step(s, e), e, c, r,
        if (uid !in {1, 2} && |room.bannedUids| > 100) || u.None? then room else room.(bannedUids := room.bannedUids + {u.value}))
  {
    EditedIs(s, e, c, r, i, BanUid(u));
    hide Reachable, Valid, Step, LetThrough, OnlyHeard;
  }

  /** /banip: at most 101 addresses by anybody but an administrator; without an address nothing changes. */
  lemma BanIpDone(s: State, e: Timed, c: ClientRef, r: RoomRef, i: nat, ip: Option<string>)
    requires Ordered(s, e, c, r, i) && e.event.p.command == BanIp(ip)
    requires var room, uid := s.rooms[r], s.client[c].uid; uid in {1, 2} || (uid != 0 && (uid == room.ownerId || uid in room.moderators))
    ensures var room, uid := s.rooms[r], s.client[c].uid;
      Edited(s, Step(s, e), e, c, r,
        if (uid !in {1, 2} && |room.bannedIps| > 100) || ip.None? then room else room.(bannedIps := room.bannedIps + {ip.value}))
  {
    EditedIs(s, e, c, r, i, BanIp(ip));
    hide Reachable, Valid, Step, LetThrough, OnlyHeard;
  }

  /** /unbannick: an empty nick and one of more than 24 bytes are refused. */
  lemma UnbanNickDone(s: State, e: Timed, c: ClientRef, r: RoomRef, i: nat, nick: string)
    requires Ordered(s, e, c, r, i) && e.event.p.command == UnbanNick(nick)
    requires var room, uid := s.rooms[r], s.client[c].uid; uid in {1, 2} || (uid != 0 && (uid == room.ownerId || uid in room.moderators))
    ensures var room, uid := s.rooms[r], s.client[c].uid;
      Edited(s, Step(s, e), e, c, r,
        if nick == "" || |nick| > 24 then room else room.(bannedNicks := room.bannedNicks - {nick}))
  {
    EditedIs(s, e, c, r, i, UnbanNick(nick));
    hide Reachable, Valid, Step, LetThrough, OnlyHeard;
  }

  /** /unbanuid: without a number nothing changes. */
  lemma UnbanUidDone(s: State, e: Timed, c: ClientRef, r: RoomRef, i: nat, u: Option<nat>)
    requires Ordered(s, e, c, r, i) && e.event.p.command == UnbanUid(u)
    requires var room, uid := s.rooms[r], s.client[c].uid; uid in {1, 2} || (uid != 0 && (uid == room.ownerId || uid in room.moderators))
    ensures var room, uid := s.rooms[r], s.client[c].uid;
      Edited(s, Step(s, e), e, c, r,
        if u.None? then room else room.(bannedUids := room.bannedUids - {u.value}))
  {
    EditedIs(s, e, c, r, i, UnbanUid(u));
    hide Reachable, Valid, Step, LetThrough, OnlyHeard;
  }

  /** /unbanip: without an address nothing changes. */
  lemma UnbanIpDone(s: State, e: Timed, c: ClientRef, r: RoomRef, i: nat, ip: Option<string>)
    requires Ordered(s, e, c, r, i) && e.event.p.command == UnbanIp(ip)
    requires var room, uid := s.rooms[r], s.client[c].uid; uid in {1, 2} || (uid != 0 && (uid == room.ownerId || uid in room.moderators))
    ensures var room, uid := s.rooms[r], s.client[c].uid;
      Edited(s, Step(s, e), e, c, r,
        if ip.None? then room else room.(bannedIps := room.bannedIps - {ip.value}))
  {
    EditedIs(s, e, c, r, i, UnbanIp(ip));
    hide Reachable, Valid, Step, LetThrough, OnlyHeard;
  }

  /** /addmoder: at most 11 moderators by anybody but an administrator; a guest is no moderator. */
  lemma AddModerDone(s: State, e: Timed, c: ClientRef, r: RoomRef, i: nat, u: Option<nat>)
    requires Ordered(s, e, c, r, i) && e.event.p.command == AddModer(u)
    requires var room, uid := s.rooms[r], s.client[c].uid; uid in {1, 2} || (uid != 0 && uid == room.ownerId)
    ensures var room, uid := s.rooms[r], s.client[c].uid;
      Edited(s, Step(s, e), e, c, r,
        if (uid !in {1, 2} && |room.moderators| > 10) || u.None? || u.value == 0 then room
        else room.(moderators := room.moderators + {u.value}))
  {
    EditedIs(s, e, c, r, i, AddModer(u));
    hide Reachable, Valid, Step, LetThrough, OnlyHeard;
  }

  /** /delmoder: without a number nothing changes. */
  lemma DelModerDone(s: State, e: Timed, c: ClientRef, r: RoomRef, i: nat, u: Option<nat>)
    requires Ordered(s, e, c, r, i) && e.event.p.command == DelModer(u)
    requires var room, uid := s.rooms[r], s.client[c].uid; uid in {1, 2} || (uid != 0 && uid == room.ownerId)
    ensures var room, uid := s.rooms[r], s.client[c].uid;
      Edited(s, Step(s, e), e, c, r,
        if u.None? then room else room.(moderators := room.moderators - {u.value}))
  {
    EditedIs(s, e, c, r, i, DelModer(u));
    hide Reachable, Valid, Step, LetThrough, OnlyHeard;
  }

  // ---- kicks ----

  function GoneNotice(room: Room, j: nat): Packet
    requires j < |room.members|
  {
    var m := room.members[j];
    StatusPacket(StatusInfo(room.name, Offline, m.id, m.nick, m.girl, m.color))
  }

  /** The links after member j was kicked from room r: its client has lost the room, nothing else. */
  ghost predicate Unlinks(s: State, t: State, c: ClientRef, now: int, r: RoomRef, d: ClientRef) {
    && t.mgr == s.mgr && t.registered == s.registered && t.client.Keys == s.client.Keys
    && (forall x :: x in s.client ==>
          t.client[x] == s.client[x].(rooms := t.client[x].rooms,
                                      lastPacketTime := if x == c then now else s.client[x].lastPacketTime,
                                      limiter := if x == c then t.client[x].limiter else s.client[x].limiter))
    && forall x, q :: x in s.client ==> (q in t.client[x].rooms <==> q in s.client[x].rooms && !(x == d && q == r))
  }

  /** What the outbox of q gets when member j is kicked: the notice, while it is still in, and its leave packet. */
  ghost function KickWords(s: State, r: RoomRef, j: nat, q: Conn): seq<Packet>
    requires r in s.rooms && j < |s.rooms[r].members|
  {
    var room := s.rooms[r];
    Tell(s, r, q, GoneNotice(room, j)) + Copy(s, room.members[j].client, q, LeavePacket(room.name))
  }

  lemma RoomsOnce(s: State, d: ClientRef, r: RoomRef)
    requires Reachable(s) && d in s.client
    ensures forall q :: q in Erase(s.client[d].rooms, r) <==> q in s.client[d].rooms && q != r
  {
    ReachableWorld(s);
    assert ClientOk(s, d);
    EraseNoDup(s.client[d].rooms, r);
  }

  /** The kick itself, in a state h that differs from s in the sender's session and in the room's sets. */
  lemma KickOutboxes(s: State, h: State, r: RoomRef, j: nat)
    requires Reachable(s) && r in s.rooms && r in h.rooms && j < |s.rooms[r].members| && s.rooms[r].members[j].nick != ""
    requires h.out == s.out && SameLines(s.client, h.client)
    requires h.rooms[r].members == s.rooms[r].members && h.rooms[r].name == s.rooms[r].name
    ensures var t := KickMember(h, r, j);
      t.out.Keys == s.out.Keys && forall q :: q in s.out ==> t.out[q] == s.out[q] + KickWords(s, r, j, q)
  {
    hide Reachable, Listens, Deliver, SendOne, Wired, Erase, Tell, Copy;
    WiredHere(s);
    var room := h.rooms[r];
    var m := room.members[j];
    var h1 := ForgetRoom(h, m.client, r);
    LinesForgotten(s, h, m.client, r);
    hide ForgetRoom, KickMember, SameLines;
    var out1 := Deliver(s.out, h1.client, room.members, GoneNotice(s.rooms[r], j));
    SpokenTo(s, h1.client, r, GoneNotice(s.rooms[r], j));
    SentTo(s, out1, h1.client, m.client, LeavePacket(room.name));
    KickOut(h, r, j);
    forall q | q in s.out ensures KickMember(h, r, j).out[q] == s.out[q] + KickWords(s, r, j, q) {
      Joined3(s.out[q], Tell(s, r, q, GoneNotice(s.rooms[r], j)), Copy(s, m.client, q, LeavePacket(room.name)));
    }
  }

  lemma Joined3(a: seq<Packet>, b: seq<Packet>, c: seq<Packet>)
    ensures (a + b) + c == a + (b + c)
  {
  }

  lemma KickOut(h: State, r: RoomRef, j: nat)
    requires r in h.rooms && j < |h.rooms[r].members| && h.rooms[r].members[j].nick != ""
    ensures var room := h.rooms[r]; var m := room.members[j]; var h1 := ForgetRoom(h, m.client, r);
      KickMember(h, r, j).out == SendOne(Deliver(h.out, h1.client, room.members, GoneNotice(room, j)), h1.client, m.client, LeavePacket(room.name))
  {
    hide Deliver, SendOne, Erase;
  }

  lemma LinesForgotten(s: State, h: State, d: ClientRef, r: RoomRef)
    requires SameLines(s.client, h.client)
    ensures SameLines(s.client, ForgetRoom(h, d, r).client)
  {
    hide Erase;
  }

  lemma KickRest(h: State, r: RoomRef, j: nat)
    requires r in h.rooms && j < |h.rooms[r].members|
    ensures var t := KickMember(h, r, j); var d := h.rooms[r].members[j].client; var ms := h.rooms[r].members;
      && t.rooms == h.rooms[r := h.rooms[r].(members := ms[..j] + ms[j + 1..])]
      && t.log == h.log && t.mgr == h.mgr && t.registered == h.registered
      && t.client == if d in h.client then h.client[d := h.client[d].(rooms := Erase(h.client[d].rooms, r))] else h.client
  {
    hide Deliver, SendOne, Erase;
  }

  lemma KickLinks(s: State, h: State, t: State, c: ClientRef, now: int, r: RoomRef, d: ClientRef)
    requires Reachable(s) && d in s.client && OnlyHeard(s, h, c, now)
    requires t.client == h.client[d := h.client[d].(rooms := Erase(h.client[d].rooms, r))]
    requires t.mgr == h.mgr && t.registered == h.registered
    ensures Unlinks(s, t, c, now, r, d)
  {
    hide Reachable;
    RoomsOnce(s, d, r);
  }

  /** Member j is out of the room, and everybody who should know does; the room's sets may have changed. */
  ghost predicate Kicked(s: State, t: State, e: Timed, c: ClientRef, r: RoomRef, j: nat, nicks: set<string>) {
    && r in s.rooms && j < |s.rooms[r].members| && t.log == s.log
    && t.rooms == s.rooms[r := s.rooms[r].(bannedNicks := nicks, members := s.rooms[r].members[..j] + s.rooms[r].members[j + 1..])]
    && Unlinks(s, t, c, e.now, r, s.rooms[r].members[j].client) && t.out.Keys == s.out.Keys
  }

  lemma MemberClient(s: State, r: RoomRef, j: nat)
    requires Reachable(s) && r in s.rooms && j < |s.rooms[r].members|
    ensures s.rooms[r].members[j].client in s.client
  {
    ReachableWorld(s);
    assert s.rooms[r].members[j] in s.rooms[r].members;
    Seated(s, r, s.rooms[r].members[j]);
  }

  lemma HeededHeard(s: State, c: ClientRef, now: int)
    requires c in s.client
    ensures OnlyHeard(s, Heeded(s, c, now), c, now)
  {
  }

  /** In a room at most one member holds a set nick. */
  lemma Holder(s: State, r: RoomRef, j: nat, nick: string)
    requires Reachable(s) && r in s.rooms && j < |s.rooms[r].members| && s.rooms[r].members[j].nick == nick != ""
    ensures FindByNick(s.rooms[r].members, nick) == Some(j)
  {
    hide Reachable, FindByNick;
    var ms := s.rooms[r].members;
    var h := FindByNick(ms, nick);
    assert ms[j] in ms;
    if h.Some? && h.value < j { MembersDistinct(s, r, h.value, j); }
    if h.Some? && j < h.value { MembersDistinct(s, r, j, h.value); }
  }

  /** /kick by somebody with the right: exactly the holder of the nick goes. */
  lemma KickDone(s: State, e: Timed, c: ClientRef, r: RoomRef, i: nat, nick: string, j: nat)
    requires Ordered(s, e, c, r, i) && e.event.p.command == Kick(nick)
    requires var room, uid := s.rooms[r], s.client[c].uid;
      uid in {1, 2} || (uid != 0 && (uid == room.ownerId || uid in room.moderators))
    requires j < |s.rooms[r].members| && s.rooms[r].members[j].nick == nick != ""
    ensures var t := Step(s, e);
      && Kicked(s, t, e, c, r, j, s.rooms[r].bannedNicks)
      && forall q :: q in s.out ==> t.out[q] == s.out[q] + KickWords(s, r, j, q)
  {
    hide Reachable, Valid, Step, LetThrough, Erase, KickMember, KickWords, FindByNick, Unlinks;
    Obeyed(s, e, c, r, i);
    Sender(s, e, c);
    HeededFields(s, c, e.now);
    HeededHeard(s, c, e.now);
    var h := Heeded(s, c, e.now);
    Holder(s, r, j, nick);
    KickRuns(h, r, i, nick, j);
    MemberClient(s, r, j);
    KickOutboxes(s, h, r, j);
    KickRest(h, r, j);
    KickLinks(s, h, KickMember(h, r, j), c, e.now, r, s.rooms[r].members[j].client);
  }

  lemma KickRuns(h: State, r: RoomRef, i: nat, nick: string, j: nat)
    requires r in h.rooms && i < |h.rooms[r].members| && FindByNick(h.rooms[r].members, nick) == Some(j)
    ensures RunCommand(h, r, i, Kick(nick)) == KickMember(h, r, j)
  {
    hide KickMember, FindByNick;
  }

  /** /kick of a nick nobody holds. */
  lemma KickMisses(s: State, e: Timed, c: ClientRef, r: RoomRef, i: nat, nick: string)
    requires Ordered(s, e, c, r, i) && e.event.p.command == Kick(nick)
    requires nick == "" || forall j :: 0 <= j < |s.rooms[r].members| ==> s.rooms[r].members[j].nick != nick
    ensures OnlyAnswered(s, Step(s, e), c, e.event.k, e.now, [SystemPacket(s.rooms[r].name)])
  {
    hide Reachable, Valid, Step, LetThrough, Entitled, SendOne;
    Obeyed(s, e, c, r, i);
    Answered(s, e, c, SystemPacket(s.rooms[r].name));
    HeededFields(s, c, e.now);
    assert FindByNick(s.rooms[r].members, nick).None?;
  }

  // ---- /bannick ----

  /** The ban is refused: too many, malformed, or banned already. */
  predicate NickBanRefused(room: Room, uid: nat, nick: string) {
    (uid !in {1, 2} && |room.bannedNicks| > 100) || |nick| > 24 || nick == "" || nick in room.bannedNicks
  }

  lemma BanRuns(h: State, r: RoomRef, i: nat, nick: string)
    requires r in h.rooms && i < |h.rooms[r].members|
    ensures var c := h.rooms[r].members[i].client; var room := h.rooms[r];
      var h' := PutRoom(h, r, room.(bannedNicks := room.bannedNicks + {nick}));
      RunCommand(h, r, i, BanNick(nick)) ==
        SendPacket(if NickBanRefused(room, UidOf(h, c), nick) then h
                   else if FindByNick(room.members, nick).Some? then KickMember(h', r, FindByNick(room.members, nick).value) else h',
                   c, SystemPacket(room.name))
  {
    hide KickMember, FindByNick, SendPacket;
  }

  /** /bannick by somebody with the right, of a nick nobody holds or that may not be banned. */
  lemma BanNickAlone(s: State, e: Timed, c: ClientRef, r: RoomRef, i: nat, nick: string)
    requires Ordered(s, e, c, r, i) && e.event.p.command == BanNick(nick)
    requires var room, uid := s.rooms[r], s.client[c].uid;
      uid in {1, 2} || (uid != 0 && (uid == room.ownerId || uid in room.moderators))
    requires NickBanRefused(s.rooms[r], s.client[c].uid, nick)
      || forall j :: 0 <= j < |s.rooms[r].members| ==> s.rooms[r].members[j].nick != nick
    ensures var room, uid := s.rooms[r], s.client[c].uid;
      Edited(s, Step(s, e), e, c, r,
        if (uid !in {1, 2} && |room.bannedNicks| > 100) || |nick| > 24 || nick == "" || nick in room.bannedNicks then room
        else room.(bannedNicks := room.bannedNicks + {nick}))
  {
    hide Reachable, Valid, Step, LetThrough, Entitled, SendPacket, KickMember, FindByNick;
    Entitlement(s, e, c, r, i);
    Obeyed(s, e, c, r, i);
    HeededFields(s, c, e.now);
    var h := Heeded(s, c, e.now);
    var room := s.rooms[r];
    BanRuns(h, r, i, nick);
    EditAnswered(s, e, c, r, room);
    EditAnswered(s, e, c, r, room.(bannedNicks := room.bannedNicks + {nick}));
    PutSame(h, r);
    assert (forall j :: 0 <= j < |room.members| ==> room.members[j].nick != nick) ==> FindByNick(room.members, nick).None?;
  }

  lemma PutSame(h: State, r: RoomRef)
    requires r in h.rooms
    ensures PutRoom(h, r, h.rooms[r]) == h
  {
    assert h.rooms[r := h.rooms[r]] == h.rooms;
  }

  /** /bannick by somebody with the right, of a nick that member j holds: banned and kicked. */
  lemma BanNickKicks(s: State, e: Timed, c: ClientRef, r: RoomRef, i: nat, nick: string, j: nat)
    requires Ordered(s, e, c, r, i) && e.event.p.command == BanNick(nick)
    requires var room, uid := s.rooms[r], s.client[c].uid;
      uid in {1, 2} || (uid != 0 && (uid == room.ownerId || uid in room.moderators))
    requires var room, uid := s.rooms[r], s.client[c].uid;
      (uid in {1, 2} || |room.bannedNicks| <= 100) && |nick| <= 24 && nick !in room.bannedNicks
    requires j < |s.rooms[r].members| && s.rooms[r].members[j].nick == nick != ""
    ensures var t := Step(s, e);
      && Kicked(s, t, e, c, r, j, s.rooms[r].bannedNicks + {nick})
      && forall q :: q in s.out ==>
           t.out[q] == s.out[q] + KickWords(s, r, j, q) + (if q == e.event.k then [SystemPacket(s.rooms[r].name)] else [])
  {
    hide Reachable, Valid, Step, LetThrough, Erase, KickMember, KickWords, FindByNick, Unlinks, SendOne, Entitled, Wired;
    Entitlement(s, e, c, r, i);
    Obeyed(s, e, c, r, i);
    Sender(s, e, c);
    HeededFields(s, c, e.now);
    HeededHeard(s, c, e.now);
    var h := Heeded(s, c, e.now);
    var room := s.rooms[r];
    var h' := PutRoom(h, r, room.(bannedNicks := room.bannedNicks + {nick}));
    Holder(s, r, j, nick);
    BanRuns(h, r, i, nick);
    MemberClient(s, r, j);
    KickOutboxes(s, h', r, j);
    KickRest(h', r, j);
    var u := KickMember(h', r, j);
    KickLinks(s, h', u, c, e.now, r, room.members[j].client);
    LinesAfterKick(s, h', u, r, j);
    KickThenAnswer(s, u, e, c, r, j, room.bannedNicks + {nick});
  }

  /** The kick is done and the sender is answered. */
  lemma KickThenAnswer(s: State, u: State, e: Timed, c: ClientRef, r: RoomRef, j: nat, nicks: set<string>)
    requires Brings(s, e, c) && Kicked(s, u, e, c, r, j, nicks) && SameLines(s.client, u.client) && Wired(s.out, s.client)
    requires c in s.client && s.client[c].connection == Some(e.event.k)
    requires forall q :: q in s.out ==> u.out[q] == s.out[q] + KickWords(s, r, j, q)
    ensures var t := SendPacket(u, c, SystemPacket(s.rooms[r].name));
      && Kicked(s, t, e, c, r, j, nicks)
      && forall q :: q in s.out ==>
           t.out[q] == s.out[q] + KickWords(s, r, j, q) + (if q == e.event.k then [SystemPacket(s.rooms[r].name)] else [])
  {
    hide KickWords, Unlinks, SendOne, Wired;
    var t := SendPacket(u, c, SystemPacket(s.rooms[r].name));
    SentTo(s, u.out, u.client, c, SystemPacket(s.rooms[r].name));
    CopyToSelf(s, c, e.event.k, SystemPacket(s.rooms[r].name));
    UnlinksSent(s, u, t, c, e.now, r, s.rooms[r].members[j].client);
  }

  lemma Entitlement(s: State, e: Timed, c: ClientRef, r: RoomRef, i: nat)
    requires Ordered(s, e, c, r, i) && (e.event.p.command.BanNick? || e.event.p.command.Kick?)
    requires var room, uid := s.rooms[r], s.client[c].uid;
      uid in {1, 2} || (uid != 0 && (uid == room.ownerId || uid in room.moderators))
    ensures Entitled(s.rooms[r], s.client[c].uid, s.rooms[r].members[i].nick, e.event.p.command)
  {
    hide Reachable, Valid, Step, LetThrough;
  }

  lemma LinesAfterKick(s: State, h: State, u: State, r: RoomRef, j: nat)
    requires SameLines(s.client, h.client) && r in h.rooms && j < |h.rooms[r].members| && u == KickMember(h, r, j)
    ensures SameLines(s.client, u.client)
  {
    KickRest(h, r, j);
    hide KickMember, Erase;
  }

  lemma UnlinksSent(s: State, u: State, t: State, c: ClientRef, now: int, r: RoomRef, d: ClientRef)
    requires Unlinks(s, u, c, now, r, d) && t == u.(out := t.out)
    ensures Unlinks(s, t, c, now, r, d)
  {
  }

  // ---- /nick ----

  /** What is told about a nick that has been set. */
  function NickNotice(room: Room, m: Member, nick: string): Packet {
    StatusPacket(
      if m.nick == "" then StatusInfo(room.name, m.status, m.id, nick, m.girl, m.color)
      else if nick == "" then StatusInfo(room.name, Offline, m.id, m.nick, m.girl, m.color)
      else StatusInfo(room.name, NickChange, m.id, nick, m.girl, m.color))
  }

  /** Member i has become m, everybody in the room has been told p, and nothing else has changed. */
  ghost predicate MemberTold(s: State, t: State, c: ClientRef, now: int, r: RoomRef, i: nat, m: Member, p: Packet) {
    && r in s.rooms && i < |s.rooms[r].members|
    && OnlyRoom(s, t, c, now, r, s.rooms[r].(members := s.rooms[r].members[i := m]))
    && forall q :: q in s.out ==> t.out[q] == s.out[q] + Tell(s, r, q, p)
  }

  lemma ToldIs(s: State, e: Timed, c: ClientRef, r: RoomRef, i: nat, m: Member, p: StatusInfo)
    requires Reachable(s) && Brings(s, e, c) && c in s.client && r in s.rooms && i < |s.rooms[r].members|
    requires m.client == s.rooms[r].members[i].client
    ensures var h := Heeded(s, c, e.now);
      MemberTold(s, SendStatusToAll(PutMember(h, r, i, m), r, p), c, e.now, r, i, m, StatusPacket(p))
  {
    hide Reachable, Listens, Deliver, Wired;
    Sender(s, e, c);
    HeededFields(s, c, e.now);
    HeededHeard(s, c, e.now);
    var h := Heeded(s, c, e.now);
    SpokenTo(s, h.client, r, StatusPacket(p));
    SameEars(s.out, h.client, s.rooms[r].members, s.rooms[r].members[i := m], StatusPacket(p));
  }

  /** A delivery depends on the clients of the members only. */
  lemma {:induction false} SameEars(out: Outboxes, client: map<ClientRef, Client>, ms: seq<Member>, ms': seq<Member>, p: Packet)
    requires |ms'| == |ms| && forall j :: 0 <= j < |ms| ==> ms'[j].client == ms[j].client
    ensures Deliver(out, client, ms', p) == Deliver(out, client, ms, p)
    decreases |ms|
  {
    if ms != [] {
      SameEars(SendOne(out, client, ms[0].client, p), client, ms[1..], ms'[1..], p);
    }
  }

  lemma NickRuns(h: State, r: RoomRef, i: nat, nick: string, legal: bool)
    requires r in h.rooms && i < |h.rooms[r].members|
    ensures var room := h.rooms[r]; var m := room.members[i]; var uid := UidOf(h, m.client);
      RunCommand(h, r, i, Nick(nick, legal)) ==
        if (nick != "" && !legal) || FindByNick(room.members, nick).Some? || (m.nick != nick && !Moderates(room, uid) && nick in room.bannedNicks)
        then SendPacket(h, m.client, SystemPacket(room.name))
        else if m.nick == nick then h
        else SendStatusToAll(PutMember(h, r, i, m.(nick := nick)), r, NickNotice(room, m, nick).info)
  {
    RightsAre(h.rooms[r], UidOf(h, h.rooms[r].members[i].client));
    hide FindByNick, SendOne, Deliver, IsModer, Moderates;
    assert FindByNick(h.rooms[r].members, nick).Some? ==> h.rooms[r].members[FindByNick(h.rooms[r].members, nick).value].nick == nick;
  }

  /** A nick that is refused: malformed, taken, or banned for somebody without a moderator's right. */
  lemma NickRefused(s: State, e: Timed, c: ClientRef, r: RoomRef, i: nat, nick: string, legal: bool)
    requires Ordered(s, e, c, r, i) && e.event.p.command == Nick(nick, legal) && nick != ""
    requires var room, uid := s.rooms[r], s.client[c].uid;
      || !legal
      || (exists j :: 0 <= j < |room.members| && room.members[j].nick == nick)
      || (nick in room.bannedNicks && !(uid in {1, 2} || (uid != 0 && (uid == room.ownerId || uid in room.moderators))))
    ensures OnlyAnswered(s, Step(s, e), c, e.event.k, e.now, [SystemPacket(s.rooms[r].name)])
  {
    hide Reachable, Valid, Step, LetThrough, SendOne, FindByNick, RunCommand;
    Obeyed(s, e, c, r, i);
    Answered(s, e, c, SystemPacket(s.rooms[r].name));
    HeededFields(s, c, e.now);
    NickRuns(Heeded(s, c, e.now), r, i, nick, legal);
    var ms := s.rooms[r].members;
    if j :| 0 <= j < |ms| && ms[j].nick == nick { Holder(s, r, j, nick); }
  }

  /** A nick that is set, changed or dropped: the member has it and the room is told what happened. */
  lemma NickDone(s: State, e: Timed, c: ClientRef, r: RoomRef, i: nat, nick: string, legal: bool)
    requires Ordered(s, e, c, r, i) && e.event.p.command == Nick(nick, legal) && (nick == "" || legal)
    requires var room, uid := s.rooms[r], s.client[c].uid;
      && (nick == "" || forall j :: 0 <= j < |room.members| ==> room.members[j].nick != nick)
      && (nick !in room.bannedNicks || uid in {1, 2} || (uid != 0 && (uid == room.ownerId || uid in room.moderators)))
    requires s.rooms[r].members[i].nick != nick
    ensures var m := s.rooms[r].members[i];
      MemberTold(s, Step(s, e), c, e.now, r, i, m.(nick := nick), NickNotice(s.rooms[r], m, nick))
  {
    hide Reachable, Valid, Step, LetThrough, SendOne, Deliver, FindByNick, RunCommand, MemberTold;
    Obeyed(s, e, c, r, i);
    HeededFields(s, c, e.now);
    NickRuns(Heeded(s, c, e.now), r, i, nick, legal);
    var m := s.rooms[r].members[i];
    assert FindByNick(s.rooms[r].members, nick).None?;
    ToldIs(s, e, c, r, i, m.(nick := nick), NickNotice(s.rooms[r], m, nick).info);
  }

  /** Dropping a nick one does not have does nothing at all. */
  lemma NickIdle(s: State, e: Timed, c: ClientRef, r: RoomRef, i: nat, legal: bool)
    requires Ordered(s, e, c, r, i) && e.event.p.command == Nick("", legal) && s.rooms[r].members[i].nick == ""
    ensures OnlyAnswered(s, Step(s, e), c, e.event.k, e.now, [])
  {
    hide Reachable, Valid, Step, LetThrough, SendOne, Deliver, FindByNick, RunCommand, Wired;
    Obeyed(s, e, c, r, i);
    Sender(s, e, c);
    HeededFields(s, c, e.now);
    HeededHeard(s, c, e.now);
    NickRuns(Heeded(s, c, e.now), r, i, "", legal);
    assert s.out[e.event.k] + [] == s.out[e.event.k];
    assert s.out[e.event.k := s.out[e.event.k]] == s.out;
  }

  // ---- /gender, /color ----

  /** Member i has become m; all are told if it has a nick, and only its own client otherwise. */
  ghost predicate LooksTold(s: State, t: State, c: ClientRef, k: Conn, now: int, r: RoomRef, i: nat, m: Member, status: Status) {
    && r in s.rooms && i < |s.rooms[r].members|
    && OnlyRoom(s, t, c, now, r, s.rooms[r].(members := s.rooms[r].members[i := m]))
    && var p := StatusPacket(StatusInfo(s.rooms[r].name, status, m.id, m.nick, m.girl, m.color));
       forall q :: q in s.out ==>
         t.out[q] == s.out[q] + if m.nick != "" then Tell(s, r, q, p) else if q == k then [p] else []
  }

  lemma LooksAre(s: State, e: Timed, c: ClientRef, r: RoomRef, i: nat, m: Member, status: Status)
    requires Reachable(s) && Brings(s, e, c) && c in s.client && r in s.rooms && i < |s.rooms[r].members|
    requires s.rooms[r].members[i].client == c == m.client
    ensures LooksTold(s, ChangeLooks(Heeded(s, c, e.now), r, i, m, status), c, e.event.k, e.now, r, i, m, status)
  {
    hide Reachable, Listens, Deliver, Wired, SendOne;
    Sender(s, e, c);
    HeededFields(s, c, e.now);
    HeededHeard(s, c, e.now);
    var h := Heeded(s, c, e.now);
    var p := StatusOf(s.rooms[r].name, m, status);
    ToldIs(s, e, c, r, i, m, p);
    SentTo(s, s.out, h.client, c, StatusPacket(p));
    CopyToSelf(s, c, e.event.k, StatusPacket(p));
  }

  /** /gender: the given one, or the other one. */
  lemma GenderDone(s: State, e: Timed, c: ClientRef, r: RoomRef, i: nat, given: Option<bool>)
    requires Ordered(s, e, c, r, i) && e.event.p.command == Gender(given)
    ensures var m := s.rooms[r].members[i];
      LooksTold(s, Step(s, e), c, e.event.k, e.now, r, i,
                m.(girl := match given case Some(g) => g case None => !m.girl), GenderChange)
  {
    hide Reachable, Valid, Step, LetThrough, ChangeLooks, LooksTold;
    Obeyed(s, e, c, r, i);
    HeededFields(s, c, e.now);
    var m := s.rooms[r].members[i];
    LooksAre(s, e, c, r, i, m.(girl := match given case Some(g) => g case None => !m.girl), GenderChange);
  }

  /** /color: the given one. */
  lemma ColorDone(s: State, e: Timed, c: ClientRef, r: RoomRef, i: nat, color: string)
    requires Ordered(s, e, c, r, i) && e.event.p.command == Color(Some(color))
    ensures LooksTold(s, Step(s, e), c, e.event.k, e.now, r, i, s.rooms[r].members[i].(color := color), ColorChange)
  {
    hide Reachable, Valid, Step, LetThrough, ChangeLooks, LooksTold;
    Obeyed(s, e, c, r, i);
    HeededFields(s, c, e.now);
    LooksAre(s, e, c, r, i, s.rooms[r].members[i].(color := color), ColorChange);
  }

  lemma ColorRefused(s: State, e: Timed, c: ClientRef, r: RoomRef, i: nat)
    requires Ordered(s, e, c, r, i) && e.event.p.command == Color(None)
    ensures OnlyAnswered(s, Step(s, e), c, e.event.k, e.now, [SystemPacket(s.rooms[r].name)])
  {
    hide Reachable, Valid, Step, LetThrough, SendOne;
    Obeyed(s, e, c, r, i);
    Answered(s, e, c, SystemPacket(s.rooms[r].name));
    HeededFields(s, c, e.now);
  }

  // ---- public messages ----

  /** A public message with its style: logged, kept, numbered, and in every listening outbox once. */
  ghost predicate Spread(s: State, t: State, c: ClientRef, now: int, r: RoomRef, i: nat, style: Style, text: string) {
    && r in s.rooms && i < |s.rooms[r].members| && r in s.log && OnlyHeard(s, t, c, now)
    && var room := s.rooms[r];
       var msg := Message(room.nextMessageId, room.members[i].id, room.members[i].nick, 0, style, text);
       && t.log == s.log[r := s.log[r] + [msg]]
       && t.rooms == s.rooms[r := room.(nextMessageId := (room.nextMessageId + 1) % 0x1_0000_0000,
                                        history := LastOf(s.log[r] + [msg], s.cfg.maxHistory))]
       && t.out.Keys == s.out.Keys
       && forall q :: q in s.out ==> t.out[q] == s.out[q] + Tell(s, r, q, MessagePacket(room.name, msg))
  }

  lemma SpreadIs(s: State, e: Timed, c: ClientRef, r: RoomRef, i: nat, style: Style, text: string)
    requires Reachable(s) && Brings(s, e, c) && c in s.client && r in s.rooms && i < |s.rooms[r].members|
    ensures Spread(s, PublicMessage(Heeded(s, c, e.now), r, i, style, text), c, e.now, r, i, style, text)
  {
    hide Reachable, Listens, Deliver, Wired, LastOf, AddToHistory, HistoryOk;
    Sender(s, e, c);
    HeededFields(s, c, e.now);
    HeededHeard(s, c, e.now);
    Logged(s, r);
    var h := Heeded(s, c, e.now);
    var room := s.rooms[r];
    var msg := Message(room.nextMessageId, room.members[i].id, room.members[i].nick, 0, style, text);
    KeptAs(s, r, msg);
    SpokenTo(s, h.client, r, MessagePacket(room.name, msg));
  }

  lemma KeptAs(s: State, r: RoomRef, msg: Message)
    requires r in s.rooms && HistoryOk(s, r) && msg.toId == 0
    ensures r in s.log && AddToHistory(s.rooms[r].history, msg, s.cfg.maxHistory) == LastOf(s.log[r] + [msg], s.cfg.maxHistory)
  {
    LastOfAppend(s.log[r], msg, s.cfg.maxHistory);
    hide LastOf, AddToHistory;
  }

  /** A plain text of a member with a nick is spread to the room. */
  lemma PlainSpreads(s: State, e: Timed, c: ClientRef, r: RoomRef, i: nat)
    requires Ordered(s, e, c, r, i) && e.event.p.command == Plain && s.rooms[r].members[i].nick != ""
    ensures Spread(s, Step(s, e), c, e.now, r, i, StyleMessage, e.event.p.text)
  {
    hide Reachable, Valid, Step, LetThrough, PublicMessage, Spread;
    SaysIn(s, e, c, r, i);
    HeededFields(s, c, e.now);
    SpreadIs(s, e, c, r, i, StyleMessage, e.event.p.text);
  }

  /** A plain text of a member without a nick goes nowhere. */
  lemma PlainNeedsNick(s: State, e: Timed, c: ClientRef, r: RoomRef, i: nat)
    requires Ordered(s, e, c, r, i) && e.event.p.command == Plain && s.rooms[r].members[i].nick == ""
    ensures OnlyAnswered(s, Step(s, e), c, e.event.k, e.now, [SystemPacket(s.rooms[r].name)])
  {
    hide Reachable, Valid, Step, LetThrough, SendOne;
    SaysIn(s, e, c, r, i);
    HeededFields(s, c, e.now);
    Answered(s, e, c, SystemPacket(s.rooms[r].name));
  }

  /** A styled text of a member with a nick is spread with its style, unless it is blank. */
  lemma StyledSpreads(s: State, e: Timed, c: ClientRef, r: RoomRef, i: nat, style: Style, text: string)
    requires Ordered(s, e, c, r, i) && e.event.p.command == Styled(style, text) && s.rooms[r].members[i].nick != ""
    ensures if Blank(text) then OnlyAnswered(s, Step(s, e), c, e.event.k, e.now, [SystemPacket(s.rooms[r].name)])
            else Spread(s, Step(s, e), c, e.now, r, i, style, text)
  {
    hide Reachable, Valid, Step, LetThrough, PublicMessage, Spread, SendOne, IsBlank, Blank;
    Obeyed(s, e, c, r, i);
    HeededFields(s, c, e.now);
    BlankIs(text);
    Answered(s, e, c, SystemPacket(s.rooms[r].name));
    SpreadIs(s, e, c, r, i, style, text);
  }

  // ---- private messages ----

  /** Sender and addressee each get the message once, nobody else anything, and no room and no log changes. */
  ghost predicate Whispered(s: State, t: State, c: ClientRef, now: int, r: RoomRef, i: nat, j: nat, text: string) {
    && r in s.rooms && i < |s.rooms[r].members| && j < |s.rooms[r].members|
    && OnlyHeard(s, t, c, now) && t.rooms == s.rooms && t.log == s.log && t.out.Keys == s.out.Keys
    && var ms := s.rooms[r].members;
       var p := MessagePacket(s.rooms[r].name, Message(0, ms[i].id, ms[i].nick, ms[j].id, StyleMessage, text));
       forall q :: q in s.out ==> t.out[q] == s.out[q] + Copy(s, ms[i].client, q, p) + Copy(s, ms[j].client, q, p)
  }

  lemma WhisperIs(s: State, e: Timed, c: ClientRef, r: RoomRef, i: nat, j: nat, text: string)
    requires Reachable(s) && Brings(s, e, c) && c in s.client && r in s.rooms
    requires i < |s.rooms[r].members| && j < |s.rooms[r].members|
    ensures Whispered(s, SendPrivate(Heeded(s, c, e.now), r, i, Some(j), text), c, e.now, r, i, j, text)
  {
    hide Reachable, Wired, SendOne;
    Sender(s, e, c);
    HeededFields(s, c, e.now);
    HeededHeard(s, c, e.now);
    var h := Heeded(s, c, e.now);
    var ms := s.rooms[r].members;
    var p := MessagePacket(s.rooms[r].name, Message(0, ms[i].id, ms[i].nick, ms[j].id, StyleMessage, text));
    SentTo(s, s.out, h.client, ms[i].client, p);
    SentTo(s, SendOne(s.out, h.client, ms[i].client, p), h.client, ms[j].client, p);
  }

  /** /msg: the addressee is the member that holds the nick. */
  lemma PrivateDone(s: State, e: Timed, c: ClientRef, r: RoomRef, i: nat, nick: string, text: string, j: nat)
    requires Ordered(s, e, c, r, i) && e.event.p.command == PrivateTo(nick, text) && s.rooms[r].members[i].nick != ""
    requires !Blank(text) && j < |s.rooms[r].members| && s.rooms[r].members[j].nick == nick != ""
    ensures Whispered(s, Step(s, e), c, e.now, r, i, j, text)
  {
    hide Reachable, Valid, Step, LetThrough, SendPrivate, Whispered, IsBlank, Blank, FindByNick;
    Obeyed(s, e, c, r, i);
    HeededFields(s, c, e.now);
    BlankIs(text);
    Holder(s, r, j, nick);
    WhisperIs(s, e, c, r, i, j, text);
  }

  /** /msg: nothing to say, or nobody of that nick. */
  lemma PrivateRefused(s: State, e: Timed, c: ClientRef, r: RoomRef, i: nat, nick: string, text: string)
    requires Ordered(s, e, c, r, i) && e.event.p.command == PrivateTo(nick, text) && s.rooms[r].members[i].nick != ""
    requires Blank(text) || nick == "" || forall j :: 0 <= j < |s.rooms[r].members| ==> s.rooms[r].members[j].nick != nick
    ensures OnlyAnswered(s, Step(s, e), c, e.event.k, e.now, [SystemPacket(s.rooms[r].name)])
  {
    hide Reachable, Valid, Step, LetThrough, SendOne, IsBlank, Blank;
    Obeyed(s, e, c, r, i);
    HeededFields(s, c, e.now);
    BlankIs(text);
    Answered(s, e, c, SystemPacket(s.rooms[r].name));
    assert !Blank(text) ==> FindByNick(s.rooms[r].members, nick).None?;
  }

  lemma WithId(s: State, r: RoomRef, j: nat, id: nat)
    requires Reachable(s) && r in s.rooms && j < |s.rooms[r].members| && s.rooms[r].members[j].id == id
    ensures FindById(s.rooms[r].members, id) == Some(j)
  {
    hide Reachable, FindById;
    var ms := s.rooms[r].members;
    var h := FindById(ms, id);
    assert ms[j] in ms;
    if h.Some? && h.value < j { MembersDistinct(s, r, h.value, j); }
    if h.Some? && j < h.value { MembersDistinct(s, r, j, h.value); }
  }

  /** /umsg: the addressee is the member with the id, if it has a nick. */
  lemma PrivateByIdDone(s: State, e: Timed, c: ClientRef, r: RoomRef, i: nat, id: nat, text: string, j: nat)
    requires Ordered(s, e, c, r, i) && e.event.p.command == PrivateToId(id, text) && s.rooms[r].members[i].nick != ""
    requires !Blank(text) && j < |s.rooms[r].members| && s.rooms[r].members[j].id == id && s.rooms[r].members[j].nick != ""
    ensures Whispered(s, Step(s, e), c, e.now, r, i, j, text)
  {
    hide Reachable, Valid, Step, LetThrough, SendPrivate, Whispered, IsBlank, Blank, FindById;
    Obeyed(s, e, c, r, i);
    HeededFields(s, c, e.now);
    BlankIs(text);
    WithId(s, r, j, id);
    WhisperIs(s, e, c, r, i, j, text);
  }

  /** /umsg: nothing to say, or nobody with that id and a nick. */
  lemma PrivateByIdRefused(s: State, e: Timed, c: ClientRef, r: RoomRef, i: nat, id: nat, text: string)
    requires Ordered(s, e, c, r, i) && e.event.p.command == PrivateToId(id, text) && s.rooms[r].members[i].nick != ""
    requires Blank(text)
      || forall j :: 0 <= j < |s.rooms[r].members| ==> s.rooms[r].members[j].id != id || s.rooms[r].members[j].nick == ""
    ensures OnlyAnswered(s, Step(s, e), c, e.event.k, e.now, [SystemPacket(s.rooms[r].name)])
  {
    hide Reachable, Valid, Step, LetThrough, SendOne, IsBlank, Blank, FindById;
    Obeyed(s, e, c, r, i);
    HeededFields(s, c, e.now);
    BlankIs(text);
    Answered(s, e, c, SystemPacket(s.rooms[r].name));
  }

  // ---- messages that reach no room ----

  /** A message without a target or a text only counts as a sign of life. */
  lemma EmptyIsIgnored(s: State, e: Timed, c: ClientRef)
    requires e.event.Receive? && e.event.p.MessageIn? && (e.event.p.target == "" || e.event.p.text == "")
    requires e.event.k in s.mgr.connectionToClient && s.mgr.connectionToClient[e.event.k] == c && c in s.client
    ensures Step(s, e) == s.(now := e.now, client := s.client[c := s.client[c].(lastPacketTime := e.now)])
  {
  }

  /** A message to a room its sender is not in. */
  lemma NotInRoom(s: State, e: Timed, c: ClientRef)
    requires Reachable(s) && Brings(s, e, c) && c in s.client && LetThrough(s, e, c)
    requires forall r :: r in s.client[c].rooms && r in s.rooms ==> s.rooms[r].name != e.event.p.target
    ensures OnlyAnswered(s, Step(s, e), c, e.event.k, e.now, [SystemPacket("")])
  {
    hide Reachable, Step, LetThrough, SendOne, RoomByName;
    SpeaksIn(s, e, c);
    HeededFields(s, c, e.now);
    Answered(s, e, c, SystemPacket(""));
  }
}
