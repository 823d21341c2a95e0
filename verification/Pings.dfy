/** Whom a sweep pings: exactly the connected clients silent for over a minute, once each. */
module Pings {
  import opened Types
  import opened Members
  import opened Presence
  import opened Delivery
  import opened Chat
  import opened World
  import opened WorldSteps
  import opened Registry
  import opened Sessions
  import opened Transfers
  import opened Invariant
  import opened Runs
  import opened Theorems
  import opened Lifecycle
  import opened Effects
  import opened Notices
  import opened Outcomes

  /** How many pings are among these packets. */
  function Count(ps: seq<Packet>): nat {
    if ps == [] then 0 else (if ps[0] == PingPacket then 1 else 0) + Count(ps[1..])
  }

  lemma {:induction false} CountAppend(a: seq<Packet>, b: seq<Packet>)
    ensures Count(a + b) == Count(a) + Count(b)
  {
    if a == [] {
      assert a + b == b;
    } else {
      CountAppend(a[1..], b);
      assert (a + b)[0] == a[0] && (a + b)[1..] == a[1..] + b;
    }
  }

  lemma {:induction false} ToursHaveNone(client: Clients, rooms: Rooms, todo: seq<RoomRef>, c: ClientRef, status: Status, k: Conn)
    ensures Count(Tour(client, rooms, todo, c, status, k)) == 0
  {
    if todo != [] {
      var first := if todo[0] in rooms then Notice(client, rooms[todo[0]], c, status, k) else [];
      NoticeHasNone(client, rooms, todo[0], c, status, k);
      CountAppend(first, Tour(client, rooms, todo[1..], c, status, k));
      ToursHaveNone(client, rooms, todo[1..], c, status, k);
    }
  }

  lemma NoticeHasNone(client: Clients, rooms: Rooms, r: RoomRef, c: ClientRef, status: Status, k: Conn)
    ensures Count(if r in rooms then Notice(client, rooms[r], c, status, k) else []) == 0
  {
    hide Hears, FindByClient;
  }

  /** From s to t the outbox of k got n pings. */
  ghost predicate Pinged(s: State, t: State, k: Conn, n: nat) {
    k in s.out && k in t.out && Count(t.out[k]) == Count(s.out[k]) + n
  }

  /** Client c, connected by k, is to be pinged now. */
  predicate Due(s: State, c: ClientRef, k: Conn, now: int) {
    c in s.client && s.client[c].connection == Some(k) && 60 < now - s.client[c].lastPacketTime <= 150
  }

  function DueAmong(s: State, cs: seq<ClientRef>, k: Conn, now: int): nat {
    if cs == [] then 0 else (if Due(s, cs[0], k, now) then 1 else 0) + DueAmong(s, cs[1..], k, now)
  }

  lemma {:induction false} DueAlike(s: State, u: State, cs: seq<ClientRef>, k: Conn, now: int)
    requires forall c :: c in cs ==> (c in u.client <==> c in s.client) && (c in s.client ==> u.client[c] == s.client[c])
    ensures DueAmong(u, cs, k, now) == DueAmong(s, cs, k, now)
  {
    if cs != [] {
      assert cs == [cs[0]] + cs[1..];
      DueAlike(s, u, cs[1..], k, now);
    }
  }

  lemma SoundVisit(s: State, c: ClientRef)
    requires Sound(s) && c in s.client
    ensures Visitable(s, s.client[c].rooms)
  {
    assert ClientOk(s, c);
    forall r | r in s.client[c].rooms ensures r in s.rooms && Distinct(s.rooms[r].members) {
      assert RoomOk(s, r, None);
    }
  }

  lemma TouredNone(s: State, t: State, client: Clients, todo: seq<RoomRef>, c: ClientRef, status: Status, k: Conn)
    requires k in s.out && k in t.out && t.out[k] == s.out[k] + Tour(client, s.rooms, todo, c, status, k)
    ensures Pinged(s, t, k, 0)
  {
    ToursHaveNone(client, s.rooms, todo, c, status, k);
    CountAppend(s.out[k], Tour(client, s.rooms, todo, c, status, k));
  }

  lemma SweepOnePings(s: State, c: ClientRef, now: int, k: Conn)
    requires Sound(s) && c in s.mgr.clients && k in s.out
    ensures Pinged(s, SweepOne(s, c, now), k, if Due(s, c, k, now) then 1 else 0)
  {
    hide Sound, MakeOrphan, Visitable, Tour, OrphanedIn, Count;
    ListedClient(s, c);
    SoundVisit(s, c);
    var w := Silence(s, c, now);
    if 150 < w <= 300 && s.client[c].connection.Some? {
      MakeOrphanTells(s, c, s.client[c].connection.value);
      TouredNone(s, MakeOrphan(s, c), s.client[c := s.client[c].(connection := None)], s.client[c].rooms, c, Orphan, k);
    } else {
      CountAppend(s.out[k], [PingPacket]);
      OnePing();
    }
  }

  lemma OnePing()
    ensures Count([PingPacket]) == 1
  {
  }

  lemma {:induction false} SweepPings(s: State, cs: seq<ClientRef>, now: int, k: Conn)
    requires Sound(s) && Ascending(cs) && (forall c :: c in cs ==> c in s.mgr.clients) && k in s.out
    ensures Pinged(s, Sweep(s, cs, now), k, DueAmong(s, cs, k, now))
    decreases |cs|
  {
    hide Sound, SweepOne, Ascending, Cutting, Shrunk, Swept, Pinged, Due;
    if cs == [] {
      NotPinged(s, k);
    } else {
      assert cs == [cs[0]] + cs[1..];
      var u := SweepOne(s, cs[0], now);
      AscendingTail(cs);
      SweepOneStep(s, cs[0], now);
      SweepOneCuts(s, cs[0], now);
      SweepOnePings(s, cs[0], now, k);
      CutOthers(s, u, cs[0], cs[1..], now);
      DueAlike(s, u, cs[1..], k, now);
      StillOpen(s, u, k);
      SweepPings(u, cs[1..], now, k);
      PingedMore(s, u, Sweep(u, cs[1..], now), k, if Due(s, cs[0], k, now) then 1 else 0, DueAmong(u, cs[1..], k, now));
    }
  }

  lemma NotPinged(s: State, k: Conn)
    requires k in s.out
    ensures Pinged(s, s, k, 0)
  {
  }

  lemma StillOpen(s: State, u: State, k: Conn)
    requires Shrunk(s, u) && k in s.out
    ensures k in u.out
  {
  }

  lemma PingedMore(s: State, u: State, t: State, k: Conn, a: nat, b: nat)
    requires Pinged(s, u, k, a) && Pinged(u, t, k, b)
    ensures Pinged(s, t, k, a + b)
  {
  }

  lemma CutOthers(s: State, u: State, c: ClientRef, cs: seq<ClientRef>, now: int)
    requires Cutting(s, u, [c], now) && forall d :: d in cs ==> d != c
    ensures forall d :: d in cs ==> (d in u.client <==> d in s.client) && (d in s.client ==> u.client[d] == s.client[d])
  {
  }

  lemma RemovePings(s: State, c: ClientRef, k: Conn)
    requires Sound(s) && c in s.mgr.clients && c in s.client && k in s.out
    ensures Pinged(s, Remove(s, c), k, 0)
  {
    hide Sound, Remove, Visitable, Tour, LeftBy, Count;
    SoundVisit(s, c);
    RemoveTells(s, c);
    TouredNone(s, Remove(s, c), s.client, s.client[c].rooms, c, Offline, k);
  }

  lemma {:induction false} KickAllPings(s: State, cs: seq<ClientRef>, k: Conn)
    requires Sound(s) && Ascending(cs) && (forall c :: c in cs ==> c in s.mgr.clients) && k in s.out
    ensures Pinged(s, KickAll(s, cs), k, 0)
    decreases |cs|
  {
    if cs != [] {
      hide Sound, Remove, Shrunk, RemovedManager, Kicking, Ascending, Count, HasClient;
      RemoveStep(s, cs[0]);
      RemoveKicks(s, cs[0]);
      RemovePings(s, cs[0], k);
      AscendingTail(cs);
      KickedFrom(s, Remove(s, cs[0]), cs[0]);
      KickAllPings(Remove(s, cs[0]), cs[1..], k);
    }
  }

  /** At most one client is connected by k. */
  lemma {:induction false} DueOnce(s: State, cs: seq<ClientRef>, k: Conn, now: int)
    requires Wired(s.out, s.client) && Ascending(cs)
    ensures DueAmong(s, cs, k, now) == if exists c :: c in cs && Due(s, c, k, now) then 1 else 0
  {
    if cs != [] {
      assert cs == [cs[0]] + cs[1..];
      AscendingTail(cs);
      DueOnce(s, cs[1..], k, now);
      if Due(s, cs[0], k, now) {
        assert cs[0] in cs;
        forall c | c in cs[1..] ensures !Due(s, c, k, now) {
        }
      }
    }
  }

  /** A sweep pings exactly those who are connected and silent for 61 to 150 seconds, and notes its time. */
  lemma SweepPingsExactly(s: State, e: Timed, k: Conn)
    requires Reachable(s) && Valid(s, e) && e.event == Tick && k in s.out
    ensures Step(s, e).lastTick == e.now && k in Step(s, e).out
    ensures Count(Step(s, e).out[k]) == Count(s.out[k]) +
      if exists c :: c in s.mgr.clients && c in s.client && s.client[c].connection == Some(k)
                     && 60 < e.now - s.client[c].lastPacketTime <= 150
      then 1 else 0
  {
    hide Reachable, Valid, Inv, Sound, Sweep, Overdue, KickAll, Ascending, Count, Shrunk, Swept, Wired;
    ReachableInv(s);
    TimeMoves(s, e);
    TimePasses(s, e.now);
    var s1 := s.(now := e.now);
    InvSound(s1);
    SoundList(s1);
    SoundWired(s1);
    var u := Sweep(s1, s1.mgr.clients, e.now);
    SweepPings(s1, s1.mgr.clients, e.now, k);
    SweepStep(s1, s1.mgr.clients, e.now);
    OverdueAscending(s1, s1.mgr.clients, e.now);
    KickAllPings(u, Overdue(s1, s1.mgr.clients, e.now), k);
    DueOnce(s1, s1.mgr.clients, k, e.now);
    DueMeans(s, s1, k, e.now);
  }

  lemma SoundWired(s: State)
    requires Sound(s)
    ensures Wired(s.out, s.client)
  {
  }

  lemma DueMeans(s: State, s1: State, k: Conn, now: int)
    requires s1 == s.(now := s1.now)
    ensures (exists c :: c in s1.mgr.clients && Due(s1, c, k, now)) <==>
      (exists c :: c in s.mgr.clients && c in s.client && s.client[c].connection == Some(k) && 60 < now - s.client[c].lastPacketTime <= 150)
  {
    if c :| c in s1.mgr.clients && Due(s1, c, k, now) {
      assert c in s.mgr.clients && c in s.client && s.client[c].connection == Some(k);
    }
    if c :| c in s.mgr.clients && c in s.client && s.client[c].connection == Some(k) && 60 < now - s.client[c].lastPacketTime <= 150 {
      assert Due(s1, c, k, now);
    }
  }
}
