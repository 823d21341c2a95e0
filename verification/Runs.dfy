/** Every event keeps the invariant, hence every state of every run satisfies it. */
module Runs {
  import opened Types
  import opened Members
  import opened Presence
  import opened Delivery
  import opened Persistence
  import opened History
  import opened Json
  import opened Chat
  import opened World
  import opened RoomSteps
  import opened WorldSteps
  import opened PacketSteps
  import opened Registry
  import opened Sessions
  import opened Invariant

  // ---- the timer ----

  /** After its turn a connected client has been silent for at most 150 seconds, or is to be kicked. */
  ghost predicate Swept(s: State, t: State, c: ClientRef, now: int) {
    c in s.client && c in t.client
    && (t.client[c].connection.Some? ==> Silence(s, c, now) <= CONNECT_TIMEOUT || Silence(s, c, now) > ORPHAN_TIMEOUT)
  }

  lemma SweepOneStep(s: State, c: ClientRef, now: int)
    requires Sound(s) && c in s.mgr.clients
    ensures var t := SweepOne(s, c, now);
      Sound(t) && Shrunk(s, t) && t.mgr.clients == s.mgr.clients && Swept(s, t, c, now)
  {
    ListedClient(s, c);
    SoundWorld(s);
    ShrunkSame(s);
    hide Sound, Shrunk, MakeOrphan, WorldOk, Fine, SendPacket;
    var w := Silence(s, c, now);
    if CONNECT_TIMEOUT < w <= ORPHAN_TIMEOUT && s.client[c].connection.Some? {
      MakeOrphanStep(s, c);
      ShrunkClients(s, MakeOrphan(s, c));
    } else if PING_TIMEOUT < w <= CONNECT_TIMEOUT {
      SendFine(s, c, PingPacket);
      FineShrunk(s, SendPacket(s, c, PingPacket));
      ShrunkClients(s, SendPacket(s, c, PingPacket));
    }
  }

  lemma ListedClient(s: State, c: ClientRef)
    requires Sound(s) && c in s.mgr.clients
    ensures c in s.client
  {
  }

  lemma ShrunkClients(s: State, t: State)
    requires Shrunk(s, t)
    ensures t.client.Keys == s.client.Keys
    ensures forall c :: c in s.client ==> t.client[c].lastPacketTime == s.client[c].lastPacketTime
    ensures forall c :: c in s.client && t.client[c].connection.Some? ==> t.client[c].connection == s.client[c].connection
  {
    forall c | c in s.client && t.client[c].connection.Some? ensures t.client[c].connection == s.client[c].connection {
      assert t.client[c].connection in {None, s.client[c].connection};
    }
  }

  lemma {:induction false} SweepStep(s: State, cs: seq<ClientRef>, now: int)
    requires Sound(s) && forall c :: c in cs ==> c in s.mgr.clients
    ensures var t := Sweep(s, cs, now);
      && Sound(t) && Shrunk(s, t) && t.mgr.clients == s.mgr.clients
      && forall c :: c in cs ==> Swept(s, t, c, now)
    decreases |cs|
  {
    hide Sound, Shrunk, SweepOne;
    if cs == [] {
      ShrunkSame(s);
    } else {
      var u := SweepOne(s, cs[0], now);
      var t := Sweep(s, cs, now);
      assert cs == [cs[0]] + cs[1..];
      SweepOneStep(s, cs[0], now);
      SweepStep(u, cs[1..], now);
      ShrunkTransitive(s, u, t);
      ShrunkClients(s, u);
      ShrunkClients(u, t);
    }
  }

  lemma {:induction false} OverdueAscending(s: State, cs: seq<ClientRef>, now: int)
    requires Ascending(cs)
    ensures Ascending(Overdue(s, cs, now))
    ensures forall c :: c in Overdue(s, cs, now) ==> c in cs
  {
    if cs != [] {
      OverdueAscending(s, cs[1..], now);
      assert cs == [cs[0]] + cs[1..];
      var o := Overdue(s, cs[1..], now);
      forall j | 0 <= j < |o| ensures cs[0] < o[j] {
        assert o[j] in o;
        assert o[j] in cs[1..];
      }
    }
  }

  lemma {:induction false} KickAllStep(s: State, cs: seq<ClientRef>)
    requires Sound(s) && Ascending(cs) && forall c :: c in cs ==> c in s.mgr.clients
    ensures var t := KickAll(s, cs);
      && Sound(t) && Shrunk(s, t) && forall c :: c in cs ==> c !in t.mgr.clients
    decreases |cs|
  {
    hide Sound, Shrunk, Remove;
    if cs == [] {
      ShrunkSame(s);
    } else {
      assert cs == [cs[0]] + cs[1..];
      RemoveStep(s, cs[0]);
      var u := Remove(s, cs[0]);
      var t := KickAll(s, cs);
      forall c | c in cs[1..] ensures c in u.mgr.clients {
        var j :| 0 <= j < |cs[1..]| && cs[1..][j] == c;
        assert cs[j + 1] == c && cs[0] < cs[j + 1];
      }
      KickAllStep(u, cs[1..]);
      ShrunkTransitive(s, u, t);
      ShrunkListed(u, t);
    }
  }

  lemma ShrunkListed(s: State, t: State)
    requires Shrunk(s, t)
    ensures forall c :: c in t.mgr.clients ==> c in s.mgr.clients
  {
  }

  /** A client that is still listed after the kicks was heard of recently enough. */
  lemma TickClient(s: State, t: State, v: State, c: ClientRef)
    requires Shrunk(s, t) && Shrunk(t, v) && c in v.mgr.clients && c in s.client
    requires Swept(s, t, c, s.now) && Silence(s, c, s.now) <= ORPHAN_TIMEOUT
    ensures c in v.client && Silence(v, c, s.now) <= ORPHAN_TIMEOUT
    ensures v.client[c].connection.Some? ==> Silence(v, c, s.now) <= CONNECT_TIMEOUT
  {
    hide Shrunk;
    ShrunkClients(s, t);
    ShrunkClients(t, v);
  }

  ghost predicate Fresh(v: State, c: ClientRef, now: int) {
    c in v.client && Silence(v, c, now) <= ORPHAN_TIMEOUT
    && (v.client[c].connection.Some? ==> Silence(v, c, now) <= CONNECT_TIMEOUT)
  }

  lemma SoundList(s: State)
    requires Sound(s)
    ensures Ascending(s.mgr.clients) && forall c :: c in s.mgr.clients ==> c in s.client
  {
  }

  lemma TickStep(s: State)
    requires Sound(s)
    ensures var v := KickAll(Sweep(s, s.mgr.clients, s.now), Overdue(s, s.mgr.clients, s.now));
      && Sound(v) && Shrunk(s, v) && forall c :: c in v.mgr.clients ==> Fresh(v, c, s.now)
  {
    hide Sound, Shrunk, Ascending, KickAll, Sweep, Overdue, Swept, Fresh;
    var t := Sweep(s, s.mgr.clients, s.now);
    var o := Overdue(s, s.mgr.clients, s.now);
    var v := KickAll(t, o);
    SoundList(s);
    SweepStep(s, s.mgr.clients, s.now);
    OverdueAscending(s, s.mgr.clients, s.now);
    KickAllStep(t, o);
    ShrunkTransitive(s, t, v);
    ShrunkListed(s, v);
    forall c | c in v.mgr.clients ensures Fresh(v, c, s.now) {
      assert c in s.mgr.clients && c !in o;
      TickClient(s, t, v, c);
      IsFresh(v, c, s.now);
    }
  }

  lemma IsFresh(v: State, c: ClientRef, now: int)
    requires c in v.client && Silence(v, c, now) <= ORPHAN_TIMEOUT
    requires v.client[c].connection.Some? ==> Silence(v, c, now) <= CONNECT_TIMEOUT
    ensures Fresh(v, c, now)
  {
  }

  lemma TickInv(s: State)
    requires Inv(s)
    ensures Next(s, OnTick(s, s.now))
  {
    hide Sound, KickAll, Sweep, Overdue, Shrunk, ClocksOk, CapsOk, Onward, LimitersKept, Fresh;
    var v := KickAll(Sweep(s, s.mgr.clients, s.now), Overdue(s, s.mgr.clients, s.now));
    InvSound(s);
    TickStep(s);
    ShrunkInv(s, v);
    SameMoment(s, v);
    TickSound(v, s.now);
    TickClocks(v);
    CapsKept(v, v.(lastTick := s.now));
    OnwardTicked(s, v);
  }

  lemma SameMoment(s: State, v: State)
    requires Onward(s, v)
    ensures v.now == s.now
  {
  }

  lemma OnwardTicked(s: State, v: State)
    requires Onward(s, v) && LimitersKept(s, v)
    ensures Onward(s, v.(lastTick := s.now)) && LimitersKept(s, v.(lastTick := s.now))
  {
  }

  lemma CapsKept(s: State, t: State)
    requires CapsOk(s) && t.mgr == s.mgr && t.cfg == s.cfg
    ensures CapsOk(t)
  {
  }

  lemma TickClocks(v: State)
    requires ClocksOk(v) && forall c :: c in v.mgr.clients ==> Fresh(v, c, v.now)
    ensures ClocksOk(v.(lastTick := v.now))
  {
    var t := v.(lastTick := v.now);
    forall c | c in t.mgr.clients && c in t.client ensures ClockOk(t, c) {
      assert ClockOk(v, c) && Fresh(v, c, v.now);
    }
  }

  lemma TickSound(v: State, now: int)
    requires Sound(v)
    ensures Sound(v.(lastTick := now))
  {
    hide ManagerOk, WorldOk;
    TimeWorld(v, v.(lastTick := now));
  }

  // ---- restart ----

  lemma SavedAt(s: State, saved: Json, i: nat)
    requires IsSaved(s, saved) && i < |s.registered| && s.registered[i] in s.rooms
    ensures |Items(Get(saved, "rooms"))| == |s.registered|
    ensures IsSavedRoom(s.rooms[s.registered[i]], Items(Get(saved, "rooms"))[i])
  {
    hide IsSavedRoom;
  }

  lemma LoadedAt(s: State, saved: Json, i: nat)
    requires i < |s.registered| == |Items(Get(saved, "rooms"))| && s.registered[i] in s.log
    ensures var t := OnRestart(s, saved); var q := s.nextRoom + i;
      && i < |t.registered| && t.registered[i] == q
      && q in t.rooms && t.rooms[q] == LoadRoom(Items(Get(saved, "rooms"))[i])
      && q in t.log && t.log[q] == s.log[s.registered[i]]
  {
    hide LoadRoom, LoadRooms, PlaceAt, LogsOf, Addresses;
  }

  ghost predicate Restored(s: State, t: State, i: nat)
    requires i < |s.registered|
  {
    var r := s.registered[i];
    var q := s.nextRoom + i;
    && r in s.rooms && q in t.rooms && i < |t.registered| && t.registered[i] == q
    && t.rooms[q] == s.rooms[r].(members := [], nextMemberId := 0)
    && q in t.log && r in s.log && t.log[q] == s.log[r]
  }

  lemma RegisteredRoom(s: State, i: nat)
    requires WorldOk(s) && i < |s.registered|
    ensures s.registered[i] in s.registered && s.registered[i] in s.rooms
    ensures InfosFiled(s.rooms[s.registered[i]].membersInfo) && HistoryOk(s, s.registered[i])
  {
    var r := s.registered[i];
    assert r in s.registered;
    assert RoomOk(s, r, None) && HistoryOk(s, r);
  }

  /** The i-th loaded room is the i-th saved room, empty. */
  lemma RestartedRoom(s: State, saved: Json, i: nat)
    requires WorldOk(s) && IsSaved(s, saved) && i < |s.registered|
    ensures Restored(s, OnRestart(s, saved), i)
  {
    hide OnRestart, IsSaved, LoadRoom, IsSavedRoom, WorldOk, InfosFiled;
    var r := s.registered[i];
    RegisteredRoom(s, i);
    SavedAt(s, saved, i);
    LoadedAt(s, saved, i);
    RoomRoundTrip(s.rooms[r], Items(Get(saved, "rooms"))[i]);
  }

  lemma RestartedAddress(s: State, saved: Json)
    requires IsSaved(s, saved)
    ensures var t := OnRestart(s, saved);
      && (forall q :: q in t.rooms <==> q in t.registered)
      && NoDup(t.registered) && |t.registered| == |s.registered| && t.nextRoom == s.nextRoom + |s.registered|
      && forall q :: q in t.registered ==> s.nextRoom <= q < s.nextRoom + |s.registered|
  {
    hide IsSavedRoom, LoadRoom, LoadRooms, PlaceAt, LogsOf, Addresses;
    var t := OnRestart(s, saved);
    forall q | q in t.rooms ensures q in t.registered {
      assert t.registered[q - s.nextRoom] == q;
    }
  }

  lemma RestartNames(s: State, saved: Json)
    requires WorldOk(s) && IsSaved(s, saved)
    ensures NamesDistinct(OnRestart(s, saved))
  {
    hide WorldOk, OnRestart, IsSaved;
    var t := OnRestart(s, saved);
    RestartedAddress(s, saved);
    forall q, r | q in t.registered && r in t.registered && q in t.rooms && r in t.rooms && t.rooms[q].name == t.rooms[r].name
      ensures q == r
    {
      RestartedRoom(s, saved, q - s.nextRoom);
      RestartedRoom(s, saved, r - s.nextRoom);
      RegisteredOnce(s, q - s.nextRoom, r - s.nextRoom);
    }
  }

  lemma RegisteredOnce(s: State, i: nat, j: nat)
    requires WorldOk(s) && i < |s.registered| && j < |s.registered|
    requires s.registered[i] in s.rooms && s.registered[j] in s.rooms
    requires s.rooms[s.registered[i]].name == s.rooms[s.registered[j]].name
    ensures i == j
  {
    assert s.registered[i] in s.registered && s.registered[j] in s.registered;
    assert s.registered[i] == s.registered[j];
  }

  lemma RestoredOk(s: State, t: State, i: nat)
    requires WorldOk(s) && i < |s.registered| && Restored(s, t, i) && t.cfg == s.cfg
    ensures var q := s.nextRoom + i; RoomOk(t, q, None) && HistoryOk(t, q) && t.rooms[q].members == []
  {
    RegisteredRoom(s, i);
  }

  lemma RestartedOk(s: State, saved: Json, i: nat)
    requires WorldOk(s) && IsSaved(s, saved) && i < |s.registered|
    ensures var t := OnRestart(s, saved); var q := s.nextRoom + i;
      q in t.rooms && RoomOk(t, q, None) && HistoryOk(t, q) && t.rooms[q].members == []
  {
    RestartedRoom(s, saved, i);
    RestartFields(s, saved);
    hide WorldOk, OnRestart, IsSaved, RoomOk, HistoryOk;
    RestoredOk(s, OnRestart(s, saved), i);
  }

  lemma RestartWorld(s: State, saved: Json)
    requires WorldOk(s) && IsSaved(s, saved)
    ensures WorldOk(OnRestart(s, saved))
  {
    hide OnRestart, IsSaved, RoomOk, HistoryOk, NamesDistinct, NoDup;
    var t := OnRestart(s, saved);
    RestartNames(s, saved);
    RestartFields(s, saved);
    RestartedAddress(s, saved);
    forall q | q in t.rooms ensures RoomOk(t, q, None) && HistoryOk(t, q) && t.rooms[q].members == [] {
      assert q in t.registered;
      RestartedOk(s, saved, q - s.nextRoom);
    }
  }

  lemma RestartFields(s: State, saved: Json)
    ensures var t := OnRestart(s, saved);
      && t.client == map[] && t.mgr == Manager([], map[], map[], map[]) && t.out == s.out && t.cfg == s.cfg
      && t.alarms == s.alarms && t.now == s.now && t.lastTick == s.now
  {
  }

  lemma EmptyManagerOk(next: ClientRef)
    ensures ManagerOk(Manager([], map[], map[], map[]), map[], next)
  {
    var g := Manager([], map[], map[], map[]);
    forall ip ensures Living(g, map[], ip) == {} && Connected(g, map[], ip) == {} {
    }
  }

  lemma RestartInv(s: State, saved: Json)
    requires Inv(s) && IsSaved(s, saved)
    ensures Next(s, OnRestart(s, saved))
  {
    RestartWorld(s, saved);
    RestartFields(s, saved);
    EmptyManagerOk(s.nextClient);
    RestartSound(s, saved);
    hide WorldOk, ManagerOk, OnRestart, IsSaved;
    var t := OnRestart(s, saved);
    forall ip ensures CounterOf(t.mgr, ip) == Counter(0, 0) {
    }
  }

  lemma RestartSound(s: State, saved: Json)
    ensures OnRestart(s, saved).nextClient == s.nextClient
  {
  }

  // ---- containers that change their order ----

  lemma SwapMembersInv(s: State, r: RoomRef, i: nat, j: nat)
    requires Inv(s) && r in s.rooms && i < |s.rooms[r].members| && j < |s.rooms[r].members|
    ensures Next(s, PutMembers(s, r, Swap(s.rooms[r].members, i, j)))
  {
    SwapMembersFine(s, r, i, j);
    hide Inv, Sound, Fine, Shrunk;
    var t := PutMembers(s, r, Swap(s.rooms[r].members, i, j));
    InvSound(s);
    FineShrunk(s, t);
    ShrunkInv(s, t);
  }

  lemma SwapMembersFine(s: State, r: RoomRef, i: nat, j: nat)
    requires WorldOk(s) && r in s.rooms && i < |s.rooms[r].members| && j < |s.rooms[r].members|
    ensures Fine(s, PutMembers(s, r, Swap(s.rooms[r].members, i, j)))
  {
    var t := PutMembers(s, r, Swap(s.rooms[r].members, i, j));
    Occupied(s, r, i);
    SwappedRoom(s, t, r, i, j);
    forall c | c in s.client ensures LinkedTo(t, c, r) && (c !in s.mgr.clients ==> r !in t.client[c].rooms) {
      assert ClientOk(s, c);
      if r in s.client[c].rooms {
        var m :| m in s.rooms[r].members && m.client == c;
        assert m in t.rooms[r].members;
      }
    }
    hide RoomOk, HistoryOk, ClientOk, LinkedTo;
    TouchWorld(s, t, r, None, [], []);
    TouchStill(s, t, r);
    StillFine(s, t);
  }

  lemma SwappedRoom(s: State, t: State, r: RoomRef, i: nat, j: nat)
    requires r in s.rooms && RoomOk(s, r, None) && i < |s.rooms[r].members| && j < |s.rooms[r].members|
    requires t == PutMembers(s, r, Swap(s.rooms[r].members, i, j))
    ensures Touch(s, t, r) && RoomOk(t, r, None)
  {
    SwapKeepsDistinct(s.rooms[r].members, i, j);
    forall m | m in t.rooms[r].members ensures MemberLinked(t, r, m) {
      assert MemberLinked(s, r, m);
    }
  }

  lemma SwapRoomsInv(s: State, c: ClientRef, i: nat, j: nat)
    requires Inv(s) && c in s.client && i < |s.client[c].rooms| && j < |s.client[c].rooms|
    ensures Next(s, s.(client := s.client[c := s.client[c].(rooms := Swap(s.client[c].rooms, i, j))]))
  {
    var t := s.(client := s.client[c := s.client[c].(rooms := Swap(s.client[c].rooms, i, j))]);
    SwapRoomsWorld(s, c, i, j);
    hide Inv, Sound, Shrunk, WorldOk;
    InvSound(s);
    FineShrunk(s, t);
    ShrunkInv(s, t);
  }

  lemma SwapRoomsWorld(s: State, c: ClientRef, i: nat, j: nat)
    requires WorldOk(s) && c in s.client && i < |s.client[c].rooms| && j < |s.client[c].rooms|
    ensures Fine(s, s.(client := s.client[c := s.client[c].(rooms := Swap(s.client[c].rooms, i, j))]))
  {
    hide RoomOk, HistoryOk, ClientOk, Swap;
    var t := s.(client := s.client[c := s.client[c].(rooms := Swap(s.client[c].rooms, i, j))]);
    forall r | r in t.rooms ensures RoomOk(t, r, None) && HistoryOk(t, r) {
      assert RoomOk(s, r, None) && HistoryOk(s, r);
      SwapRoomsRoom(s, c, i, j, r);
    }
    forall d | d in t.client ensures ClientOk(t, d) {
      assert ClientOk(s, d);
      SwapRoomsClient(s, c, i, j, d);
    }
  }

  lemma SwapRoomsRoom(s: State, c: ClientRef, i: nat, j: nat, r: RoomRef)
    requires c in s.client && i < |s.client[c].rooms| && j < |s.client[c].rooms|
    requires r in s.rooms && RoomOk(s, r, None) && HistoryOk(s, r)
    ensures var t := s.(client := s.client[c := s.client[c].(rooms := Swap(s.client[c].rooms, i, j))]);
      RoomOk(t, r, None) && HistoryOk(t, r)
  {
    hide Swap;
    var t := s.(client := s.client[c := s.client[c].(rooms := Swap(s.client[c].rooms, i, j))]);
    forall m | m in t.rooms[r].members ensures MemberLinked(t, r, m) {
      assert MemberLinked(s, r, m);
    }
  }

  lemma SwapRoomsClient(s: State, c: ClientRef, i: nat, j: nat, d: ClientRef)
    requires c in s.client && i < |s.client[c].rooms| && j < |s.client[c].rooms|
    requires d in s.client && ClientOk(s, d)
    ensures ClientOk(s.(client := s.client[c := s.client[c].(rooms := Swap(s.client[c].rooms, i, j))]), d)
  {
  }

  lemma SwapRegisteredInv(s: State, i: nat, j: nat)
    requires Inv(s) && i < |s.registered| && j < |s.registered|
    ensures Next(s, s.(registered := Swap(s.registered, i, j)))
  {
    var t := s.(registered := Swap(s.registered, i, j));
    SwapRegisteredWorld(s, i, j);
    hide Inv, Sound, Shrunk, WorldOk;
    InvSound(s);
    FineShrunk(s, t);
    ShrunkInv(s, t);
  }

  lemma SwapRegisteredWorld(s: State, i: nat, j: nat)
    requires WorldOk(s) && i < |s.registered| && j < |s.registered|
    ensures Fine(s, s.(registered := Swap(s.registered, i, j)))
  {
    var t := s.(registered := Swap(s.registered, i, j));
    forall r | r in t.rooms ensures RoomOk(t, r, None) && HistoryOk(t, r) {
      assert RoomOk(s, r, None) && HistoryOk(s, r);
      forall m | m in t.rooms[r].members ensures MemberLinked(t, r, m) {
        assert MemberLinked(s, r, m);
      }
    }
    forall d | d in t.client ensures ClientOk(t, d) {
      assert ClientOk(s, d);
    }
  }

  // ---- every event, every run ----

  lemma InitInv(cfg: Config, now: int)
    requires GoodConfig(cfg)
    ensures Inv(Init(cfg, now))
  {
    EmptyManagerOk(0);
  }

  /** What one event may do between the states before and after it. */
  ghost predicate Evolves(s: State, t: State, now: int) {
    && t.now == now && t.cfg == s.cfg && (t.lastTick == s.lastTick || t.lastTick == now)
    && s.out.Keys <= t.out.Keys
    && forall k :: k in s.out && k in t.mgr.connectionToClient ==> k in s.mgr.connectionToClient
  }

  /** The state as the event finds it: time has passed, and a message has met its sender's limiter. */
  function Arrival(s: State, e: Timed): State {
    var s1 := s.(now := e.now);
    if e.event.Receive? then Heard(s1, e.event.k, e.event.p) else s1
  }

  lemma OnwardEvolves(s: State, t: State, now: int)
    requires Onward(s.(now := now), t)
    ensures Evolves(s, t, now)
  {
  }

  lemma TimeMoves(s: State, e: Timed)
    requires Valid(s, e)
    ensures e.now >= s.now
  {
  }

  /** One event from a good state leads to a good state. */
  lemma StepInv(s: State, e: Timed)
    requires Inv(s) && Valid(s, e)
    ensures Inv(Step(s, e)) && Evolves(s, Step(s, e), e.now)
    ensures LimitersKept(Arrival(s, e), Step(s, e))
  {
    hide Inv, Onward, Evolves, LimitersKept, Heard, OnOpen, OnReceive, OnClose, OnError, OnTick, OnRestart;
    var s1 := s.(now := e.now);
    TimePasses(s, e.now);
    match e.event {
      case Open(k, token) => OpenInv(s1, k, token);
      case Receive(k, p) => ReceiveInv(s1, k, p);
      case Close(k, status) => CloseInv(s1, k, status);
      case Fail(k) => CloseInv(s1, k, 0);
      case Tick => TickInv(s1);
      case Restart(saved) => SavedLater(s, saved, e.now); RestartInv(s1, saved);
      case SwapMembers(r, i, j) => SwapMembersInv(s1, r, i, j);
      case SwapRooms(c, i, j) => SwapRoomsInv(s1, c, i, j);
      case SwapRegistered(i, j) => SwapRegisteredInv(s1, i, j);
    }
    OnwardEvolves(s, Step(s, e), e.now);
  }

  lemma SavedLater(s: State, saved: Json, now: int)
    requires IsSaved(s, saved)
    ensures IsSaved(s.(now := now), saved)
  {
  }

  /** Every run from a good state ends in a good state. */
  lemma {:induction false} RunInv(s: State, es: seq<Timed>)
    requires Inv(s) && ValidRun(s, es)
    ensures Inv(Run(s, es))
    decreases |es|
  {
    if es != [] {
      StepInv(s, es[0]);
      RunInv(Step(s, es[0]), es[1..]);
    }
  }

  /** s is the state after some run of a server that started empty. */
  ghost predicate Reachable(s: State) {
    exists cfg, start, es :: GoodConfig(cfg) && ValidRun(Init(cfg, start), es) && s == Run(Init(cfg, start), es)
  }

  lemma ReachableInv(s: State)
    requires Reachable(s)
    ensures Inv(s)
  {
    var cfg, start, es :| GoodConfig(cfg) && ValidRun(Init(cfg, start), es) && s == Run(Init(cfg, start), es);
    InitInv(cfg, start);
    RunInv(Init(cfg, start), es);
  }

  lemma {:induction false} RunOneMore(s: State, es: seq<Timed>, e: Timed)
    requires ValidRun(s, es) && Valid(Run(s, es), e)
    ensures ValidRun(s, es + [e]) && Run(s, es + [e]) == Step(Run(s, es), e)
    decreases |es|
  {
    hide Step, Valid;
    if es == [] {
      assert [e][1..] == [];
      assert es + [e] == [e];
      assert Run(Step(s, e), []) == Step(s, e) && ValidRun(Step(s, e), []);
    } else {
      assert (es + [e])[1..] == es[1..] + [e];
      RunOneMore(Step(s, es[0]), es[1..], e);
    }
  }

  lemma ReachableStep(s: State, e: Timed)
    requires Reachable(s) && Valid(s, e)
    ensures Reachable(Step(s, e))
  {
    hide Step, Valid, Run, ValidRun;
    var cfg, start, es :| GoodConfig(cfg) && ValidRun(Init(cfg, start), es) && s == Run(Init(cfg, start), es);
    RunOneMore(Init(cfg, start), es, e);
  }
}
