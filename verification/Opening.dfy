/** Admission: who gets in, who is evicted, and when the code finds nobody to evict. */
module Opening {
  import opened Types
  import opened Members
  import opened RateLimit
  import opened Chat
  import opened World
  import opened PacketSteps
  import opened Registry
  import opened Sessions
  import opened Transfers
  import opened Invariant
  import opened Runs

  /** o is the earliest created client of the address that has no connection. */
  ghost predicate EarliestOrphan(s: State, ip: string, o: ClientRef) {
    && o in s.mgr.clients && o in s.client && s.client[o].connection.None? && s.client[o].lastIp == ip
    && forall c :: c in s.mgr.clients && c in s.client && s.client[c].connection.None? && s.client[c].lastIp == ip ==> o <= c
  }

  /** The search finds the first match, and the list is in order of creation. */
  lemma {:induction false} FindOrphanEarliest(s: State, cs: seq<ClientRef>, ip: string)
    requires Ascending(cs) && FindOrphan(s, cs, ip).Some?
    ensures forall c :: c in cs && c in s.client && s.client[c].connection.None? && s.client[c].lastIp == ip ==>
      FindOrphan(s, cs, ip).value <= c
  {
    assert cs == [cs[0]] + cs[1..];
    forall c | c in cs[1..] ensures cs[0] < c {
      var j :| 0 <= j < |cs[1..]| && cs[1..][j] == c;
      assert cs[j + 1] == c;
    }
    if FindOrphan(s, cs, ip) != Some(cs[0]) {
      FindOrphanEarliest(s, cs[1..], ip);
    }
  }

  function NewClient(k: Conn, token: string, now: int): Client {
    Client(Some(k), [], "", 0, false, "gray", k.ip, token, now, Limiter(now, 0))
  }

  function Bare(cl: Client): Client {
    cl.(rooms := [], connection := None)
  }

  /** The new client is the last of the list; nobody else changed. */
  ghost predicate Admitted(s: State, t: State, k: Conn, token: string, now: int) {
    var n := s.nextClient;
    && t.mgr.clients == s.mgr.clients + [n] && t.client == s.client[n := NewClient(k, token, now)]
    && t.rooms == s.rooms && t.log == s.log
  }

  /** As Admitted, after the earliest orphan of the address has been removed. */
  ghost predicate AdmittedFor(s: State, t: State, k: Conn, token: string, now: int, o: ClientRef) {
    var n := s.nextClient;
    && EarliestOrphan(s, k.ip, o)
    && t.mgr.clients == Erase(s.mgr.clients, o) + [n]
    && t.client == s.client[o := Bare(s.client[o])][n := NewClient(k, token, now)]
    && LeftBy(s, t, o)
  }

  lemma MakeSpaceIs(s: State, ip: string)
    requires Inv(s) && CounterOf(s.mgr, ip).connections < CounterOf(s.mgr, ip).clients
    ensures var o := FindOrphan(s, s.mgr.clients, ip);
      && o.Some? && EarliestOrphan(s, ip, o.value)
      && var t := MakeSpace(s, ip);
      && t.mgr.clients == Erase(s.mgr.clients, o.value) && t.client == s.client[o.value := Bare(s.client[o.value])]
      && t.nextClient == s.nextClient && LeftBy(s, t, o.value)
  {
    OrphanExists(s, ip);
    FindOrphanEarliest(s, s.mgr.clients, ip);
    var o := FindOrphan(s, s.mgr.clients, ip).value;
    RemoveStep(s, o);
    RemovedLeaves(s, o);
    hide Inv, Sound, Remove, FindOrphan, RemovedManager, HasClient, LeftBy;
  }

  lemma ConnectIs(s: State, k: Conn, token: string, now: int)
    ensures Admitted(s, Connect(s, k, token, now), k, token, now)
  {
  }

  /** The admission policy: refused at the connection limit, evicting at the client limit, else plainly let in. */
  lemma OpenOutcome(s: State, e: Timed)
    requires Reachable(s) && Valid(s, e) && e.event.Open?
    ensures var k := e.event.k; var n := CounterOf(s.mgr, k.ip); var t := Step(s, e);
      && (n.connections >= s.cfg.maxConnectionsFromIp ==> t.mgr == s.mgr && t.client == s.client && t.rooms == s.rooms)
      && (n.connections < s.cfg.maxConnectionsFromIp && n.clients < s.cfg.maxClientsFromIp ==>
            Admitted(s, t, k, e.event.token, e.now))
      && (n.connections < s.cfg.maxConnectionsFromIp && n.clients >= s.cfg.maxClientsFromIp ==>
            exists o :: AdmittedFor(s, t, k, e.event.token, e.now, o))
  {
    ReachableInv(s);
    TimePasses(s, e.now);
    var s1 := s.(now := e.now);
    InvConfig(s1);
    OpenedInv(s1, e.event.k);
    hide Reachable, Inv, OnOpen, MakeSpace, Connect, Admitted, AdmittedFor, EarliestOrphan, FindOrphan;
    OpenStepOutcome(s1, e.event.k, e.event.token);
    OutcomeLater(s, s1, Step(s, e), e.event.k, e.event.token);
  }

  lemma OutcomeLater(s: State, s1: State, t: State, k: Conn, token: string)
    requires s1 == s.(now := s1.now)
    ensures Admitted(s1, t, k, token, s1.now) ==> Admitted(s, t, k, token, s1.now)
    ensures forall o :: AdmittedFor(s1, t, k, token, s1.now, o) ==> AdmittedFor(s, t, k, token, s1.now, o)
  {
  }

  lemma OpenStepOutcome(s: State, k: Conn, token: string)
    requires GoodConfig(s.cfg)
    requires Inv(s.(out := s.out[k := []]))
    ensures var n := CounterOf(s.mgr, k.ip); var t := OnOpen(s, k, token, s.now);
      && (n.connections >= s.cfg.maxConnectionsFromIp ==> t.mgr == s.mgr && t.client == s.client && t.rooms == s.rooms)
      && (n.connections < s.cfg.maxConnectionsFromIp && n.clients < s.cfg.maxClientsFromIp ==>
            Admitted(s, t, k, token, s.now))
      && (n.connections < s.cfg.maxConnectionsFromIp && n.clients >= s.cfg.maxClientsFromIp ==>
            exists o :: AdmittedFor(s, t, k, token, s.now, o))
  {
    OpenIs(s, k, token);
    var s0 := s.(out := s.out[k := []]);
    var n := CounterOf(s.mgr, k.ip);
    hide Inv, OnOpen, MakeSpace, Connect, FindOrphan, LeftBy, EarliestOrphan, Admitted, AdmittedFor;
    if n.connections < s.cfg.maxConnectionsFromIp {
      if n.clients < s.cfg.maxClientsFromIp {
        ConnectIs(s0, k, token, s.now);
        AdmittedLater(s, s0, OnOpen(s, k, token, s.now), k, token);
      } else {
        MakeSpaceIs(s0, k.ip);
        var o := FindOrphan(s0, s0.mgr.clients, k.ip).value;
        ConnectIs(MakeSpace(s0, k.ip), k, token, s.now);
        EvictedFirst(s, s0, MakeSpace(s0, k.ip), OnOpen(s, k, token, s.now), k, token, o);
      }
    }
  }

  lemma AdmittedLater(s: State, s0: State, t: State, k: Conn, token: string)
    requires s0 == s.(out := s0.out) && Admitted(s0, t, k, token, s.now)
    ensures Admitted(s, t, k, token, s.now)
  {
  }

  lemma EvictedFirst(s: State, s0: State, m: State, t: State, k: Conn, token: string, o: ClientRef)
    requires s0 == s.(out := s0.out) && EarliestOrphan(s0, k.ip, o) && LeftBy(s0, m, o)
    requires m.mgr.clients == Erase(s.mgr.clients, o) && m.nextClient == s.nextClient
    requires o in s.client && m.client == s.client[o := Bare(s.client[o])] && Admitted(m, t, k, token, s.now)
    ensures AdmittedFor(s, t, k, token, s.now, o)
  {
    hide Without, Stored;
    assert UidOf(s0, o) == UidOf(s, o);
  }
}
