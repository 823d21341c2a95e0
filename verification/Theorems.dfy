/** What holds in every state the server can reach. */
module Theorems {
  import opened Types
  import opened Members
  import opened Presence
  import opened Delivery
  import opened History
  import opened Chat
  import opened World
  import opened WorldSteps
  import opened PacketSteps
  import opened Registry
  import opened Sessions
  import opened Invariant
  import opened Runs

  lemma ReachableWorld(s: State)
    requires Reachable(s)
    ensures Inv(s) && Sound(s) && WorldOk(s)
  {
    ReachableInv(s);
  }

  // ---- rooms and members ----

  /** The room of a member, taken apart. */
  lemma Seated(s: State, r: RoomRef, m: Member)
    requires WorldOk(s) && r in s.rooms && m in s.rooms[r].members
    ensures m.client in s.client && MemberLinked(s, r, m) && RoomShape(s.rooms[r])
  {
    assert RoomOk(s, r, None);
  }

  lemma InShape(s: State, r: RoomRef)
    requires WorldOk(s) && r in s.rooms
    ensures RoomShape(s.rooms[r]) && HistoryOk(s, r)
  {
    assert RoomOk(s, r, None);
  }

  /**
   * Roster replication: folding what was sent on a member's connection gives exactly the list a new
   * snapshot of the room would give, and that is the room's true roster.
   */
  lemma RosterReplicated(s: State, r: RoomRef, m: Member)
    requires Reachable(s) && r in s.rooms && m in s.rooms[r].members
    requires m.client in s.client && s.client[m.client].connection.Some?
    ensures var k := s.client[m.client].connection.value;
      && k in s.out
      && View(s.out[k], s.rooms[r].name) == Some(FromList(OnlineList(s.rooms[r].name, s.rooms[r].members)))
      && IsRoster(View(s.out[k], s.rooms[r].name).value, s.rooms[r].members)
  {
    ReachableWorld(s);
    Seated(s, r, m);
    hide WorldOk, Reachable, Inv, Sound, View, FromList, OnlineList, IsRoster;
    var k := s.client[m.client].connection.value;
    assert KnowsRoster(s, r, k);
    FromListIsRoster(s.rooms[r].name, s.rooms[r].members);
    RosterUnique(View(s.out[k], s.rooms[r].name).value,
                 FromList(OnlineList(s.rooms[r].name, s.rooms[r].members)), s.rooms[r].members);
  }

  /** Member ids are non-zero 32-bit numbers, and ids, clients and set nicks are pairwise distinct. */
  lemma MembersDistinct(s: State, r: RoomRef, i: nat, j: nat)
    requires Reachable(s) && r in s.rooms && i < j < |s.rooms[r].members|
    ensures var m, n := s.rooms[r].members[i], s.rooms[r].members[j];
      && m.id != n.id && 0 < m.id < U32 && 0 < n.id < U32
      && m.client != n.client
      && (m.nick == n.nick ==> m.nick == "")
  {
    ReachableWorld(s);
    InShape(s, r);
    assert s.rooms[r].members[i] in s.rooms[r].members && s.rooms[r].members[j] in s.rooms[r].members;
  }

  /** A member is online, away or orphan, and it is orphan exactly if its client has no connection. */
  lemma StatusTracksConnection(s: State, r: RoomRef, m: Member)
    requires Reachable(s) && r in s.rooms && m in s.rooms[r].members
    ensures m.client in s.client && m.status in {Online, Away, Orphan}
    ensures m.status == Orphan <==> s.client[m.client].connection.None?
  {
    ReachableWorld(s);
    Seated(s, r, m);
  }

  /** How many members of a list belong to a client. */
  function Seats(ms: seq<Member>, c: ClientRef): nat {
    if ms == [] then 0 else (if ms[0].client == c then 1 else 0) + Seats(ms[1..], c)
  }

  lemma {:induction false} SeatsCounted(ms: seq<Member>, c: ClientRef)
    requires forall i, j :: 0 <= i < j < |ms| ==> ms[i].client != ms[j].client
    ensures Seats(ms, c) == if HasClient(ms, c) then 1 else 0
  {
    if ms != [] {
      var rest := ms[1..];
      SeatsCounted(rest, c);
      assert ms == [ms[0]] + rest;
      if ms[0].client == c {
        assert ms[0] in ms;
        forall m | m in rest ensures m.client != c {
          var j :| 0 <= j < |rest| && rest[j] == m;
          assert ms[j + 1] == m;
        }
      } else {
        assert HasClient(ms, c) <==> HasClient(rest, c);
      }
    }
  }

  /** Clients and rooms agree: a client lists a room once if it has one member there, and else neither. */
  lemma MembershipAgrees(s: State, c: ClientRef, r: RoomRef)
    requires Reachable(s) && c in s.client && r in s.rooms
    ensures NoDup(s.client[c].rooms)
    ensures Seats(s.rooms[r].members, c) == if r in s.client[c].rooms then 1 else 0
    ensures r in s.client[c].rooms ==> c in s.mgr.clients && r in s.registered
  {
    ReachableWorld(s);
    InShape(s, r);
    assert ClientOk(s, c);
    SeatsCounted(s.rooms[r].members, c);
    if r !in s.client[c].rooms { LinkedMember(s, r, c); }
  }

  /** Looking up the member of a client in one of its rooms never fails. */
  lemma MemberIsFound(s: State, c: ClientRef, r: RoomRef)
    requires Reachable(s) && c in s.client && r in s.client[c].rooms
    ensures r in s.rooms && FindMember(s, r, c).Some?
  {
    ReachableWorld(s);
    LinkedHasMember(s, c, r);
  }

  /** Every member's client is alive and lists the room; a removed room is referenced by nobody. */
  lemma NothingDangles(s: State, r: RoomRef)
    requires Reachable(s) && r in s.rooms
    ensures forall m :: m in s.rooms[r].members ==> m.client in s.mgr.clients && m.client in s.client && r in s.client[m.client].rooms
    ensures r !in s.registered ==> s.rooms[r].members == [] && forall c :: c in s.client ==> r !in s.client[c].rooms
  {
    ReachableWorld(s);
    forall m | m in s.rooms[r].members ensures m.client in s.mgr.clients && m.client in s.client && r in s.client[m.client].rooms {
      Seated(s, r, m);
    }
    forall c | c in s.client && r !in s.registered ensures r !in s.client[c].rooms {
      assert ClientOk(s, c);
    }
  }

  lemma NamesUnique(s: State, q: RoomRef, r: RoomRef)
    requires Reachable(s) && q in s.registered && r in s.registered && q in s.rooms && r in s.rooms
    requires s.rooms[q].name == s.rooms[r].name
    ensures q == r
  {
    ReachableWorld(s);
  }

  // ---- history ----

  /** A room's history is the tail of its unbounded log; ids count up modulo 2^32; nothing private is kept. */
  lemma HistoryRefinesLog(s: State, r: RoomRef)
    requires Reachable(s) && r in s.rooms
    ensures r in s.log && s.rooms[r].history == LastOf(s.log[r], s.cfg.maxHistory)
    ensures var h := s.rooms[r].history;
      && (forall i :: 0 <= i < |h| ==> h[i].toId == 0)
      && (forall i :: 0 <= i < |h| - 1 ==> h[i + 1].id == (h[i].id + 1) % U32)
      && (h != [] ==> (h[|h| - 1].id + 1) % U32 == s.rooms[r].nextMessageId)
  {
    hide Reachable, Inv, Sound, WorldOk, RoomShape, LastOf, Numbered;
    ReachableWorld(s);
    InShape(s, r);
    TailOfLog(s.log[r], s.cfg.maxHistory);
  }

  lemma TailOfLog(log: seq<Message>, maxHistory: int)
    requires Numbered(log)
    ensures var h := LastOf(log, maxHistory);
      && (forall i :: 0 <= i < |h| ==> h[i].toId == 0)
      && (forall i :: 0 <= i < |h| - 1 ==> h[i + 1].id == (h[i].id + 1) % U32)
      && (h != [] ==> (h[|h| - 1].id + 1) % U32 == |log| % U32)
  {
    var h := LastOf(log, maxHistory);
    forall i | 0 <= i < |h| ensures h[i].toId == 0 {
      LastOfAt(log, maxHistory, i);
    }
    forall i | 0 <= i < |h| - 1 ensures h[i + 1].id == (h[i].id + 1) % U32 {
      HistoryConsecutive(log, maxHistory, i);
    }
    if h != [] { HistoryEnd(log, maxHistory); }
  }

  /** The kept history, over fields: its length, and that it is the end of the log. */
  lemma HistoryIsTail(s: State, r: RoomRef)
    requires Reachable(s) && r in s.rooms
    ensures r in s.log
    ensures var h, log, limit := s.rooms[r].history, s.log[r], s.cfg.maxHistory;
      && |h| == (if 0 <= limit < |log| then limit else |log|)
      && h == log[|log| - |h|..]
  {
    hide Inv, Sound, WorldOk, RoomShape, Reachable, Numbered;
    ReachableWorld(s);
    InShape(s, r);
  }

  // ---- sessions ----

  /** Nothing the code considers impossible has happened: no null member, no clamped counter, no full room. */
  lemma NoAlarm(s: State)
    requires Reachable(s)
    ensures s.alarms == {}
  {
    ReachableInv(s);
  }

  /** No address ever has more connections or clients than it may. */
  lemma CapsHold(s: State, ip: string)
    requires Reachable(s)
    ensures |Connected(s.mgr, s.client, ip)| <= s.cfg.maxConnectionsFromIp
    ensures |Living(s.mgr, s.client, ip)| <= s.cfg.maxClientsFromIp
  {
    ReachableWorld(s);
    assert CounterOf(s.mgr, ip) == Counter(|Connected(s.mgr, s.client, ip)|, |Living(s.mgr, s.client, ip)|);
  }

  /** The counters count, and exactly the addresses with a live client have one. */
  lemma CountersExact(s: State, ip: string)
    requires Reachable(s)
    ensures ip in s.mgr.countersFromIp <==> Living(s.mgr, s.client, ip) != {}
    ensures ip in s.mgr.countersFromIp ==>
      s.mgr.countersFromIp[ip] == Counter(|Connected(s.mgr, s.client, ip)|, |Living(s.mgr, s.client, ip)|)
  {
    ReachableWorld(s);
    assert CounterOf(s.mgr, ip) == Counter(|Connected(s.mgr, s.client, ip)|, |Living(s.mgr, s.client, ip)|);
  }

  /** The list is in order of creation, and both indexes are bijections with it. */
  lemma IndexesAgree(s: State)
    requires Reachable(s)
    ensures Ascending(s.mgr.clients)
    ensures forall c :: c in s.mgr.clients ==> c in s.client && c < s.nextClient
    ensures forall k, c :: (k in s.mgr.connectionToClient && s.mgr.connectionToClient[k] == c) <==>
      (c in s.mgr.clients && c in s.client && s.client[c].connection == Some(k))
    ensures forall t, c :: (t in s.mgr.tokenToClient && s.mgr.tokenToClient[t] == c) <==>
      (c in s.mgr.clients && c in s.client && s.client[c].token == t)
  {
    ReachableWorld(s);
    hide WorldOk, CountersOk;
  }

  /** A client off the list has no connection and no rooms. */
  lemma DiscardedIsBare(s: State, c: ClientRef)
    requires Reachable(s) && c in s.client && c !in s.mgr.clients
    ensures s.client[c].rooms == [] && s.client[c].connection == None
  {
    ReachableWorld(s);
    assert ClientOk(s, c);
  }

  // ---- broadcasts ----

  /** A connected member of the room listens on k. */
  ghost predicate Listens(s: State, r: RoomRef, k: Conn)
    requires r in s.rooms
  {
    exists i :: 0 <= i < |s.rooms[r].members| && s.rooms[r].members[i].client in s.client
                && s.client[s.rooms[r].members[i].client].connection == Some(k)
  }

  lemma HearsListens(s: State, r: RoomRef, k: Conn)
    requires r in s.rooms
    ensures Hears(s.client, s.rooms[r].members, k) <==> Listens(s, r, k)
  {
    var ms := s.rooms[r].members;
    if Hears(s.client, ms, k) {
      var m :| m in ms && ConnectedVia(s.client, m.client, k);
      var i :| 0 <= i < |ms| && ms[i] == m;
      assert Listens(s, r, k);
    }
    forall i | 0 <= i < |ms| && ms[i].client in s.client && s.client[ms[i].client].connection == Some(k)
      ensures Hears(s.client, ms, k)
    {
      assert ms[i] in ms;
    }
  }

  /** A broadcast to a room reaches every connected member exactly once, and nobody else. */
  lemma ExactlyOnce(s: State, r: RoomRef, p: Packet)
    requires Reachable(s) && r in s.rooms
    ensures var out' := Deliver(s.out, s.client, s.rooms[r].members, p);
      out'.Keys == s.out.Keys && forall k :: k in s.out ==> out'[k] == if Listens(s, r, k) then s.out[k] + [p] else s.out[k]
  {
    ReachableWorld(s);
    InShape(s, r);
    BroadcastExactlyOnce(s.out, s.client, s.rooms[r].members, p);
    hide Reachable, Inv, Sound, WorldOk, Deliver, Hears, Listens;
    var out' := Deliver(s.out, s.client, s.rooms[r].members, p);
    forall k | k in s.out ensures out'[k] == if Listens(s, r, k) then s.out[k] + [p] else s.out[k] {
      HearsListens(s, r, k);
      assert s.out[k] + [] == s.out[k];
    }
  }

  // ---- banning a nick ----

  /** A nick that is newly banned is held by nobody afterwards, and only its holder is gone. */
  lemma BannedNickIsGone(s: State, r: RoomRef, i: nat, nick: string)
    requires Reachable(s) && r in s.rooms && i < |s.rooms[r].members|
    ensures var t := BanNickIn(s, r, i, nick);
      && r in t.rooms
      && (nick !in s.rooms[r].bannedNicks && nick in t.rooms[r].bannedNicks ==>
            forall n :: n in t.rooms[r].members <==> n in s.rooms[r].members && n.nick != nick)
      && (nick in s.rooms[r].bannedNicks || nick !in t.rooms[r].bannedNicks ==> t == s)
  {
    hide Reachable, WorldOk, Inv, Sound, HistoryOk;
    ReachableWorld(s);
    InShape(s, r);
    var ms := s.rooms[r].members;
    var h := FindByNick(ms, nick);
    if h.Some? { RemoveKeepsDistinct(ms, h.value); }
    hide RoomShape, SendPacket, SendStatusToAll, ForgetRoom, IsAdmin;
    forall n | n in ms && n.nick == nick && nick != "" ensures h.Some? && n == ms[h.value] {
      if h.Some? { SameIdSameMember(ms, n, ms[h.value]); }
    }
  }
}
