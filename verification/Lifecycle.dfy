/** Whole lives of connections and sessions: stale connections, time-outs, coming back. */
module Lifecycle {
  import opened Types
  import opened Members
  import opened Json
  import opened Persistence
  import opened Chat
  import opened World
  import opened PacketSteps
  import opened Registry
  import opened Sessions
  import opened Transfers
  import opened Invariant
  import opened Runs
  import opened Opening
  import opened Reviving

  // ---- stale connections ----

  /** The connection was opened once and is not in the index any more. */
  ghost predicate Stale(s: State, k: Conn) {
    k in s.out && k !in s.mgr.connectionToClient
  }

  lemma {:induction false} StaleForever(s: State, es: seq<Timed>, k: Conn)
    requires Inv(s) && ValidRun(s, es) && Stale(s, k)
    ensures Stale(Run(s, es), k)
    decreases |es|
  {
    if es != [] {
      StepInv(s, es[0]);
      hide Inv, Step;
      StaleForever(Step(s, es[0]), es[1..], k);
    }
  }

  predicate ComesFrom(e: Event, k: Conn) {
    (e.Receive? || e.Close? || e.Fail?) && e.k == k
  }

  /**
   * Once a connection has left the index, no message, close or error on it changes anything but the
   * clock, however the run goes on.
   */
  lemma StaleIsHarmless(s: State, es: seq<Timed>, k: Conn, e: Timed)
    requires Reachable(s) && ValidRun(s, es) && Stale(s, k) && ComesFrom(e.event, k)
    ensures Step(Run(s, es), e) == Run(s, es).(now := e.now)
  {
    ReachableInv(s);
    hide Inv, Run;
    StaleForever(s, es, k);
  }

  /** A connection becomes stale as soon as no live client has it: after an orphaning, a removal or a revive. */
  lemma LosingMakesStale(s: State, e: Timed, k: Conn)
    requires Reachable(s) && Valid(s, e) && k in s.out
    requires forall d :: d in Step(s, e).mgr.clients && d in Step(s, e).client ==> Step(s, e).client[d].connection != Some(k)
    ensures Stale(Step(s, e), k)
  {
    ReachableInv(s);
    StepInv(s, e);
    InvSound(Step(s, e));
    hide Inv, Step, Sound, Reachable, Valid;
    if k in Step(s, e).mgr.connectionToClient {
      Indexed(Step(s, e), k);
    }
  }

  // ---- time-outs ----

  /**
   * If the sweeps come at most period seconds apart, then at every moment a live client has been
   * silent for at most 300 seconds more than that, and a connected one for at most 150 more.
   */
  lemma SilenceBound(s: State, c: ClientRef, period: nat, moment: int)
    requires Reachable(s) && c in s.mgr.clients
    requires s.now <= moment <= s.lastTick + period
    ensures c in s.client
    ensures Silence(s, c, moment) <= 300 + period
    ensures s.client[c].connection.Some? ==> Silence(s, c, moment) <= 150 + period
  {
    ReachableInv(s);
    assert ClockOk(s, c);
  }

  /** Of a sweep: whom it removes, whom it orphans, and that it does nothing else to a session. */
  ghost predicate SweptExactly(s: State, t: State, now: int) {
    && (forall c :: c in t.mgr.clients <==> c in s.mgr.clients && Silence(s, c, now) <= 300)
    && t.client.Keys == s.client.Keys
    && forall c :: c in t.mgr.clients && c in s.client ==>
         t.client[c] == if Silence(s, c, now) > 150 then s.client[c].(connection := None) else s.client[c]
  }

  /** The part of a sweep that only orphans. */
  ghost predicate Cutting(s: State, t: State, cs: seq<ClientRef>, now: int) {
    && t.mgr.clients == s.mgr.clients && t.client.Keys == s.client.Keys
    && forall c :: c in s.client ==>
         t.client[c] == if c in cs && 150 < Silence(s, c, now) <= 300 then s.client[c].(connection := None) else s.client[c]
  }

  lemma SweepOneCuts(s: State, c: ClientRef, now: int)
    requires Sound(s) && c in s.mgr.clients
    ensures Cutting(s, SweepOne(s, c, now), [c], now)
  {
    hide Sound, MakeOrphan, Shrunk, Cutting, SendOne;
    ListedClient(s, c);
    var w := Silence(s, c, now);
    if 150 < w <= 300 && s.client[c].connection.Some? {
      MakeOrphanStep(s, c);
    } else if 150 < w <= 300 {
      assert s.client[c := s.client[c].(connection := None)] == s.client;
    }
    CutOne(s, SweepOne(s, c, now), c, now);
  }

  lemma CutOne(s: State, t: State, c: ClientRef, now: int)
    requires c in s.client && t.mgr.clients == s.mgr.clients
    requires t.client == if 150 < Silence(s, c, now) <= 300 then s.client[c := s.client[c].(connection := None)] else s.client
    ensures Cutting(s, t, [c], now)
  {
  }

  lemma CutTwice(s: State, u: State, t: State, cs: seq<ClientRef>, now: int)
    requires cs != [] && Cutting(s, u, [cs[0]], now) && Cutting(u, t, cs[1..], now)
    ensures Cutting(s, t, cs, now)
  {
    assert cs == [cs[0]] + cs[1..];
    forall c | c in s.client ensures Silence(u, c, now) == Silence(s, c, now) {
    }
  }

  lemma {:induction false} SweepCuts(s: State, cs: seq<ClientRef>, now: int)
    requires Sound(s) && forall c :: c in cs ==> c in s.mgr.clients
    ensures Cutting(s, Sweep(s, cs, now), cs, now)
    decreases |cs|
  {
    hide Sound, SweepOne, Cutting, Shrunk, Swept;
    if cs == [] {
      NothingCut(s, now);
    } else {
      var u := SweepOne(s, cs[0], now);
      SweepOneStep(s, cs[0], now);
      SweepOneCuts(s, cs[0], now);
      SweepCuts(u, cs[1..], now);
      CutTwice(s, u, Sweep(s, cs, now), cs, now);
    }
  }

  lemma NothingCut(s: State, now: int)
    ensures Cutting(s, s, [], now)
  {
  }

  /** The part of a sweep that removes. */
  ghost predicate Kicking(s: State, t: State, cs: seq<ClientRef>) {
    && (forall c :: c in t.mgr.clients <==> c in s.mgr.clients && c !in cs)
    && t.client.Keys == s.client.Keys
    && forall c :: c in s.client && c !in cs ==> t.client[c] == s.client[c]
  }

  lemma RemoveKicks(s: State, c: ClientRef)
    requires Sound(s) && c in s.mgr.clients
    ensures c in s.client && Kicking(s, Remove(s, c), [c])
  {
    hide Sound, Remove, Shrunk, RemovedManager, HasClient, Erase;
    RemoveStep(s, c);
    ErasedFrom(s, c);
  }

  lemma ErasedFrom(s: State, c: ClientRef)
    requires Sound(s)
    ensures forall d :: d in Erase(s.mgr.clients, c) <==> d in s.mgr.clients && d != c
  {
    EraseAscending(s.mgr.clients, c);
  }

  lemma KickTwice(s: State, u: State, t: State, cs: seq<ClientRef>)
    requires cs != [] && Kicking(s, u, [cs[0]]) && Kicking(u, t, cs[1..])
    ensures Kicking(s, t, cs)
  {
    assert cs == [cs[0]] + cs[1..];
  }

  lemma {:induction false} KickAllKicks(s: State, cs: seq<ClientRef>)
    requires Sound(s) && Ascending(cs) && forall c :: c in cs ==> c in s.mgr.clients
    ensures Kicking(s, KickAll(s, cs), cs)
    decreases |cs|
  {
    hide Sound, Remove, Shrunk, RemovedManager, Kicking, Ascending, Erase;
    if cs == [] {
      NobodyKicked(s);
    } else {
      RemoveStep(s, cs[0]);
      RemoveKicks(s, cs[0]);
      AscendingTail(cs);
      var u := Remove(s, cs[0]);
      KickedFrom(s, u, cs[0]);
      KickAllKicks(u, cs[1..]);
      KickTwice(s, u, KickAll(s, cs), cs);
    }
  }

  lemma NobodyKicked(s: State)
    ensures Kicking(s, s, [])
  {
  }

  lemma KickedFrom(s: State, u: State, c: ClientRef)
    requires Kicking(s, u, [c])
    ensures forall d :: d in s.mgr.clients && d != c ==> d in u.mgr.clients
  {
  }

  lemma AscendingTail(cs: seq<ClientRef>)
    requires cs != [] && Ascending(cs)
    ensures Ascending(cs[1..]) && forall c :: c in cs[1..] ==> c != cs[0] && c in cs
  {
    forall c | c in cs[1..] ensures c != cs[0] && c in cs {
      var j :| 0 <= j < |cs[1..]| && cs[1..][j] == c;
      assert cs[j + 1] == c && cs[0] < cs[j + 1];
    }
  }

  lemma SweptBoth(s: State, t: State, v: State, cs: seq<ClientRef>, now: int)
    requires Cutting(s, t, s.mgr.clients, now) && Kicking(t, v, cs)
    requires forall c :: c in s.mgr.clients ==> c in s.client
    requires forall c :: c in cs <==> c in s.mgr.clients && c in s.client && Silence(s, c, now) > 300
    ensures SweptExactly(s, v.(lastTick := now), now)
  {
  }

  /** A tick removes exactly the clients silent for over 300 seconds and orphans exactly those over 150. */
  lemma SweepExact(s: State, e: Timed)
    requires Reachable(s) && Valid(s, e) && e.event == Tick
    ensures SweptExactly(s, Step(s, e), e.now)
  {
    ReachableInv(s);
    TimePasses(s, e.now);
    var s1 := s.(now := e.now);
    InvSound(s1);
    SoundList(s1);
    hide Reachable, Inv, Sound, Sweep, Overdue, KickAll, Cutting, Kicking, SweptExactly, Ascending, Silence;
    SweepCuts(s1, s1.mgr.clients, e.now);
    SweepStep(s1, s1.mgr.clients, e.now);
    OverdueAscending(s1, s1.mgr.clients, e.now);
    var o := Overdue(s1, s1.mgr.clients, e.now);
    KickAllKicks(Sweep(s1, s1.mgr.clients, e.now), o);
    SweptBoth(s1, Sweep(s1, s1.mgr.clients, e.now), KickAll(Sweep(s1, s1.mgr.clients, e.now), o), o, e.now);
    SweptLater(s, s1, Step(s, e));
  }

  lemma SweptLater(s: State, s1: State, t: State)
    requires s1 == s.(now := s1.now) && SweptExactly(s1, t, s1.now)
    ensures SweptExactly(s, t, s1.now)
  {
    forall c ensures Silence(s1, c, s1.now) == Silence(s, c, s1.now) {
    }
  }

  // ---- coming back ----

  /** An error on a live connection makes an orphan of its client and changes nothing else of the session. */
  lemma FailOutcome(s: State, e: Timed)
    requires Reachable(s) && Valid(s, e) && e.event.Fail? && e.event.k in s.mgr.connectionToClient
    ensures var c := s.mgr.connectionToClient[e.event.k]; var t := Step(s, e);
      && c in s.client && c in s.mgr.clients
      && t.client == s.client[c := s.client[c].(connection := None)] && t.mgr.clients == s.mgr.clients
      && OrphanedIn(s, t, c)
  {
    hide Reachable, Inv, Sound, MakeOrphan, OrphanedIn, Shrunk;
    ReachableInv(s);
    TimePasses(s, e.now);
    var s1 := s.(now := e.now);
    InvSound(s1);
    Indexed(s1, e.event.k);
    var c := s1.mgr.connectionToClient[e.event.k];
    MakeOrphanStep(s1, c);
    OrphanLeaves(s1, c, e.event.k);
    OrphanedLater(s, s1, Step(s, e), c);
  }

  lemma OrphanedLater(s: State, s1: State, t: State, c: ClientRef)
    requires s1 == s.(now := s1.now) && OrphanedIn(s1, t, c)
    ensures OrphanedIn(s, t, c)
  {
    hide TurnedOnly;
  }

  /** Every room is as it was, except that the member of client c is online now. */
  ghost predicate BackInRooms(s: State, t: State, c: ClientRef) {
    && t.rooms.Keys == s.rooms.Keys && t.log == s.log
    && forall r :: r in s.rooms ==>
         && t.rooms[r] == s.rooms[r].(members := t.rooms[r].members)
         && forall m :: m in t.rooms[r].members <==> exists n :: n in s.rooms[r].members && m == Turned(n, c, Online)
  }

  lemma OrphanedThenBack(s: State, s1: State, s3: State, n: ClientRef, c: ClientRef)
    requires OrphanedIn(s, s1, c) && RoomsMoved(s1, s3, n, c) && n != c
    requires forall r, m :: r in s1.rooms && m in s1.rooms[r].members ==> m.client != n
    ensures BackInRooms(s, s3, c)
  {
    forall r | r in s.rooms
      ensures s3.rooms[r] == s.rooms[r].(members := s3.rooms[r].members)
      ensures forall m :: m in s3.rooms[r].members <==> exists o :: o in s.rooms[r].members && m == Turned(o, c, Online)
    {
      assert !HasClient(s1.rooms[r].members, n);
      TurnedTwice(s.rooms[r].members, s1.rooms[r].members, s3.rooms[r].members, n, c);
    }
  }

  lemma TurnedTwice(ms: seq<Member>, mid: seq<Member>, ms': seq<Member>, n: ClientRef, c: ClientRef)
    requires TurnedOnly(ms, mid, c, Orphan) && Survivors(mid, ms', n, c) && forall m :: m in mid ==> m.client != n
    ensures forall m :: m in ms' <==> exists o :: o in ms && m == Turned(o, c, Online)
  {
    forall m ensures m in ms' <==> exists o :: o in ms && m == Turned(o, c, Online) {
      if m in ms' {
        var o :| o in mid && o.client != n && m == Turned(o, c, Online);
        var i :| 0 <= i < |mid| && mid[i] == o;
        assert ms[i] in ms && m == Turned(ms[i], c, Online);
      }
      forall o | o in ms && m == Turned(o, c, Online) ensures m in ms' {
        var i :| 0 <= i < |ms| && ms[i] == o;
        assert mid[i] in mid && m == Turned(mid[i], c, Online);
      }
    }
  }

  /** The three events of a client whose connection breaks and that comes back with its token. */
  function Broken(s: State, at: int, k: Conn): State { Step(s, At(at, Fail(k))) }
  function Reopened(s: State, at: int, k: Conn, token: string): State { Step(s, At(at, Open(k, token))) }
  function Returned(s: State, at: int, k: Conn, token: string, outcome: LoginOutcome): State {
    Step(s, At(at, Receive(k, Auth(token, outcome))))
  }

  /** A newcomer has no member anywhere, and the token leads to the orphan. */
  lemma BeforeReturn(s: State, k: Conn, n: ClientRef, c: ClientRef)
    requires Inv(s) && n in s.mgr.clients && n in s.client && s.client[n].connection == Some(k) && s.client[n].rooms == []
    requires c in s.mgr.clients && c in s.client && c != n
    ensures k in s.mgr.connectionToClient && s.mgr.connectionToClient[k] == n
    ensures s.client[c].token in s.mgr.tokenToClient && s.mgr.tokenToClient[s.client[c].token] == c
    ensures forall r, m :: r in s.rooms && m in s.rooms[r].members ==> m.client != n
  {
    forall r, m | r in s.rooms && m in s.rooms[r].members ensures m.client != n {
      NoLinkNoMember(s, n, r);
    }
  }

  /** The new connection can be opened and finds a free place at its address. */
  ghost predicate MayReopen(s1: State, e: Timed) {
    && e.event.Open? && Valid(s1, e)
    && CounterOf(s1.mgr, e.event.k.ip).connections < s1.cfg.maxConnectionsFromIp
    && CounterOf(s1.mgr, e.event.k.ip).clients < s1.cfg.maxClientsFromIp
  }

  /** An orphan and a newcomer, just before the newcomer shows the orphan's token. */
  ghost predicate Waiting(s: State, s1: State, s2: State, c: ClientRef, e: Timed)
    requires e.event.Open?
  {
    var n := s1.nextClient;
    && c in s.client && c in s.mgr.clients && n !in s1.mgr.clients && n !in s1.client
    && s1.client == s.client[c := s.client[c].(connection := None)] && s1.mgr.clients == s.mgr.clients
    && OrphanedIn(s, s1, c) && Admitted(s1, s2, e.event.k, e.event.token, e.now) && Reachable(s2) && s2.now == e.now
  }

  lemma BreakAndReopen(s: State, k: Conn, at1: int, e: Timed)
    requires Reachable(s) && at1 >= s.now && k in s.mgr.connectionToClient && MayReopen(Broken(s, at1, k), e)
    ensures Waiting(s, Broken(s, at1, k), Step(Broken(s, at1, k), e), s.mgr.connectionToClient[k], e)
  {
    var e1 := At(at1, Fail(k));
    var s1 := Broken(s, at1, k);
    hide Reachable, Step, OrphanedIn, Admitted, AdmittedFor, Inv, Valid;
    ValidFail(s, e1);
    FailOutcome(s, e1);
    StepKeeps(s, e1);
    OpenOutcome(s1, e);
    StepKeeps(s1, e);
    ReachableInv(s1);
    ListedBelow(s1);
  }

  /**
   * Reconnecting restores the session: after a broken connection, a new connection and the old token,
   * the client has its rooms, name, looks and token again, and every room is as before with its
   * member online. The new connection must find a free place at its address.
   */
  lemma ReconnectRestores(s: State, k: Conn, at1: int, k2: Conn, newToken: string, at2: int, at3: int, outcome: LoginOutcome)
    requires Reachable(s) && at1 >= s.now && k in s.mgr.connectionToClient
    requires s.mgr.connectionToClient[k] in s.client && s.client[s.mgr.connectionToClient[k]].token != ""
    requires MayReopen(Broken(s, at1, k), At(at2, Open(k2, newToken))) && at3 >= at2
    ensures var c := s.mgr.connectionToClient[k];
      var s3 := Returned(Reopened(Broken(s, at1, k), at2, k2, newToken), at3, k2, s.client[c].token, outcome);
      && c in s3.client
      && s3.client[c] == s.client[c].(connection := Some(k2), lastIp := k2.ip, lastPacketTime := at3)
      && (forall d :: d in s.client && d != c ==> d in s3.client && s3.client[d] == s.client[d])
      && (forall d :: d in s3.mgr.clients <==> d in s.mgr.clients)
      && BackInRooms(s, s3, c)
  {
    hide Reachable, Step, OrphanedIn, RoomsMoved, BackInRooms, Admitted, SessionMoved, Inv, Valid, MayReopen;
    var c := s.mgr.connectionToClient[k];
    var e3 := At(at3, Receive(k2, Auth(s.client[c].token, outcome)));
    var s1 := Broken(s, at1, k);
    var s2 := Reopened(s1, at2, k2, newToken);
    var s3 := Step(s2, e3);
    var n := s1.nextClient;
    BreakAndReopen(s, k, at1, At(at2, Open(k2, newToken)));
    ReachableInv(s2);
    AdmittedFields(s1, s2, k2, newToken, at2);
    BeforeReturn(s2, k2, n, c);
    ValidReceive(s2, e3);
    ReviveTransfer(s2, e3);
    MovedFrom(s1, s2, s3, n, c);
    OrphanedThenBack(s, s1, s3, n, c);
    ReturnFields(s, s1, s2, s3, n, c, k2, newToken, at2, at3);
  }

  lemma ValidFail(s: State, e: Timed)
    requires e.now >= s.now && e.event.Fail?
    ensures Valid(s, e)
  {
  }

  lemma ValidReceive(s: State, e: Timed)
    requires e.now >= s.now && e.event.Receive?
    ensures Valid(s, e)
  {
  }

  lemma AdmittedFields(s: State, t: State, k: Conn, token: string, now: int)
    requires Admitted(s, t, k, token, now) && s.nextClient !in s.client
    ensures var n := s.nextClient;
      && n in t.mgr.clients && n in t.client && t.client[n].connection == Some(k) && t.client[n].rooms == []
      && (forall c :: c in s.mgr.clients ==> c in t.mgr.clients)
      && (forall c :: c in s.client ==> c in t.client && t.client[c] == s.client[c])
      && t.rooms == s.rooms && t.log == s.log
  {
  }

  /** The sessions after a return are those before the break, but for the new connection. */
  lemma ReturnFields(s: State, s1: State, s2: State, s3: State, n: ClientRef, c: ClientRef, k2: Conn, token: string, at2: int, at3: int)
    requires c in s.client && s1.client == s.client[c := s.client[c].(connection := None)] && s1.mgr.clients == s.mgr.clients
    requires n == s1.nextClient && n !in s1.mgr.clients && n !in s1.client && Admitted(s1, s2, k2, token, at2)
    requires n in s2.client && c in s2.client && SessionMoved(s2, s3, n, c, k2, at3)
    ensures c in s3.client && s3.client[c] == s.client[c].(connection := Some(k2), lastIp := k2.ip, lastPacketTime := at3)
    ensures forall d :: d in s.client && d != c ==> d in s3.client && s3.client[d] == s.client[d]
    ensures forall d :: d in s3.mgr.clients <==> d in s.mgr.clients
  {
    ErasedLast(s1.mgr.clients, n);
  }

  lemma StepKeeps(s: State, e: Timed)
    requires Reachable(s) && Valid(s, e)
    ensures Reachable(Step(s, e)) && Step(s, e).cfg == s.cfg && Step(s, e).now == e.now
  {
    ReachableInv(s);
    StepInv(s, e);
    ReachableStep(s, e);
  }

  lemma ListedBelow(s: State)
    requires Inv(s)
    ensures s.nextClient !in s.mgr.clients && s.nextClient !in s.client && forall c :: c in s.mgr.clients ==> c in s.client
  {
  }

  lemma ErasedLast(cs: seq<ClientRef>, n: ClientRef)
    requires n !in cs
    ensures forall c :: c in Erase(cs + [n], n) <==> c in cs
  {
    ErasedLastIs(cs, n);
  }

  lemma {:induction false} ErasedLastIs(cs: seq<ClientRef>, n: ClientRef)
    requires n !in cs
    ensures Erase(cs + [n], n) == cs
  {
    if cs == [] {
      assert [n][1..] == [];
      assert cs + [n] == [n];
    } else {
      ErasedLastIs(cs[1..], n);
      assert (cs + [n])[0] == cs[0] && (cs + [n])[1..] == cs[1..] + [n];
      assert cs[0] in cs && cs == [cs[0]] + cs[1..];
    }
  }

  lemma MovedFrom(s1: State, s2: State, s3: State, n: ClientRef, c: ClientRef)
    requires s2.rooms == s1.rooms && s2.log == s1.log && RoomsMoved(s2, s3, n, c)
    requires forall r, m :: r in s2.rooms && m in s2.rooms[r].members ==> m.client != n
    ensures RoomsMoved(s1, s3, n, c)
  {
    hide Survivors;
    forall r | r in s1.rooms ensures Stored(s1.rooms[r], s3.rooms[r].membersInfo, n, UidOf(s1, n)) {
      assert !HasClient(s2.rooms[r].members, n);
    }
  }

  // ---- a restart ----

  /** Every registered room is back, in its place, with everything but its members. */
  ghost predicate AllRestored(s: State, t: State) {
    && |t.registered| == |s.registered| && NoDup(t.registered) && NamesDistinct(t)
    && (forall q :: q in t.rooms <==> q in t.registered)
    && forall i :: 0 <= i < |s.registered| ==>
         var r, q := s.registered[i], t.registered[i];
         && r in s.rooms && q in t.rooms && q !in s.rooms
         && t.rooms[q] == s.rooms[r].(members := [], nextMemberId := 0)
         && r in s.log && q in t.log && t.log[q] == s.log[r]
  }

  /**
   * Saving and restarting, whatever order the containers were iterated in: the same rooms with the
   * same owner, name, message counter, history, stored infos, bans and moderators; nobody is connected.
   */
  lemma RestartRestores(s: State, e: Timed)
    requires Reachable(s) && Valid(s, e) && e.event.Restart?
    ensures AllRestored(s, Step(s, e)) && Step(s, e).client == map[]
  {
    hide Reachable, Inv, Sound, WorldOk, OnRestart, IsSaved, NoDup, NamesDistinct, AllRestored, Restored;
    ReachableInv(s);
    TimePasses(s, e.now);
    var s1 := s.(now := e.now);
    SavedLater(s, e.event.saved, e.now);
    InvSound(s1);
    SoundWorld(s1);
    RestartFields(s1, e.event.saved);
    RestartedAddress(s1, e.event.saved);
    RestartNames(s1, e.event.saved);
    NewAddresses(s1);
    forall i | 0 <= i < |s1.registered| ensures Restored(s1, Step(s, e), i) {
      RestartedRoom(s1, e.event.saved, i);
    }
    RestoredTogether(s, s1, Step(s, e));
  }

  lemma RestoredTogether(s: State, s1: State, t: State)
    requires s1 == s.(now := s1.now)
    requires |t.registered| == |s.registered| && NoDup(t.registered) && NamesDistinct(t)
    requires forall q :: q in t.rooms <==> q in t.registered
    requires forall r :: r in s.rooms ==> r < s.nextRoom
    requires forall i :: 0 <= i < |s1.registered| ==> Restored(s1, t, i)
    ensures AllRestored(s, t)
  {
    hide NoDup, NamesDistinct;
    forall i | 0 <= i < |s.registered|
      ensures var r, q := s.registered[i], t.registered[i];
        && r in s.rooms && q in t.rooms && q !in s.rooms
        && t.rooms[q] == s.rooms[r].(members := [], nextMemberId := 0)
        && r in s.log && q in t.log && t.log[q] == s.log[r]
    {
      assert Restored(s1, t, i);
    }
  }

  lemma NewAddresses(s: State)
    requires Inv(s)
    ensures forall r :: r in s.rooms ==> r < s.nextRoom
  {
  }
}
