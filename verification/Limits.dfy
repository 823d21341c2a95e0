/** Exactly which limits make the eviction of an orphan always possible. */
module Limits {
  import opened Types
  import opened RateLimit
  import opened Chat
  import opened Registry
  import opened Sessions
  import opened Invariant
  import opened Runs

  /** With these limits no run ever looks for an orphan to evict in vain. */
  ghost predicate NeverStuck(cfg: Config) {
    forall start, es :: ValidRun(Init(cfg, start), es) ==> OrphanNotFound !in Run(Init(cfg, start), es).alarms
  }

  // ---- too few clients allowed: a run that gets stuck ----

  function Token(i: nat): string {
    seq(i, _ => 'a')
  }

  function Visit(i: nat): Timed {
    At(0, Open(Conn(i, ""), Token(i)))
  }

  /** Visits number i to n. */
  function Crowd(i: nat, n: nat): seq<Timed>
    decreases n + 1 - i
  {
    if i > n then [] else [Visit(i)] + Crowd(i + 1, n)
  }

  /** i clients came from one address and are all still connected. */
  ghost predicate Crowded(s: State, cfg: Config, i: nat) {
    && s.cfg == cfg && s.now == 0
    && |s.mgr.clients| == i && (forall c :: c in s.mgr.clients ==> c in s.client && s.client[c].connection.Some?)
    && CounterOf(s.mgr, "") == Counter(i, i)
    && (forall k :: k in s.out ==> k.id < i)
    && (forall t :: t in s.mgr.tokenToClient ==> |t| < i)
  }

  lemma CrowdGrows(s: State, cfg: Config, i: nat)
    requires Crowded(s, cfg, i) && i < cfg.maxConnectionsFromIp && i < cfg.maxClientsFromIp && i < U32 - 2
    ensures Valid(s, Visit(i)) && Crowded(Step(s, Visit(i)), cfg, i + 1)
  {
  }

  lemma CrowdStuck(s: State, cfg: Config, i: nat)
    requires Crowded(s, cfg, i) && cfg.maxClientsFromIp <= i < cfg.maxConnectionsFromIp && i < U32 - 2
    ensures Valid(s, Visit(i)) && OrphanNotFound in Step(s, Visit(i)).alarms
  {
    var s1 := s.(now := 0);
    var s0 := TouchCounter(s1.(out := s1.out[Conn(i, "") := []]), "");
    assert CounterOf(s0.mgr, "") == Counter(i, i);
    assert FindOrphan(s0, s0.mgr.clients, "").None?;
  }

  lemma {:induction false} CrowdRun(s: State, cfg: Config, i: nat, n: nat)
    requires Crowded(s, cfg, i) && i <= n < cfg.maxConnectionsFromIp && n < U32 - 2
    requires cfg.maxClientsFromIp <= n && (n == 0 || cfg.maxClientsFromIp == n)
    ensures ValidRun(s, Crowd(i, n)) && OrphanNotFound in Run(s, Crowd(i, n)).alarms
    decreases n - i
  {
    hide Crowded, Valid, Step, Visit;
    var t := Step(s, Visit(i));
    assert Crowd(i, n)[0] == Visit(i) && Crowd(i, n)[1..] == Crowd(i + 1, n);
    if i == n {
      CrowdStuck(s, cfg, i);
      assert Crowd(i + 1, n) == [];
    } else {
      CrowdGrows(s, cfg, i);
      CrowdRun(t, cfg, i + 1, n);
    }
  }

  lemma StuckRun(cfg: Config)
    requires cfg.maxClientsFromIp < cfg.maxConnectionsFromIp && 1 <= cfg.maxConnectionsFromIp
    requires cfg.maxClientsFromIp < U32 - 2
    ensures !NeverStuck(cfg)
  {
    var n := if cfg.maxClientsFromIp < 0 then 0 else cfg.maxClientsFromIp;
    assert Crowded(Init(cfg, 0), cfg, 0);
    hide Crowded;
    CrowdRun(Init(cfg, 0), cfg, 0, n);
  }

  // ---- no connection allowed at all: nobody ever comes in ----

  ghost predicate Deserted(s: State) {
    && s.cfg.maxConnectionsFromIp <= 0 && s.alarms == {}
    && s.mgr.clients == [] && s.mgr.connectionToClient == map[]
    && forall ip :: CounterOf(s.mgr, ip) == Counter(0, 0)
  }

  lemma DesertedStep(s: State, e: Timed)
    requires Deserted(s)
    ensures Deserted(Step(s, e))
  {
    hide Swap, PlaceAt, LoadRooms, LogsOf, Addresses, OnPacket, MakeOrphan, Remove, MakeSpace, Connect;
    if e.event.Open? {
      var s1 := s.(now := e.now);
      var s0 := TouchCounter(s1.(out := s1.out[e.event.k := []]), e.event.k.ip);
      assert CounterOf(s.mgr, e.event.k.ip) == Counter(0, 0);
      forall ip ensures CounterOf(s0.mgr, ip) == Counter(0, 0) {
        assert CounterOf(s.mgr, ip) == Counter(0, 0);
      }
    }
  }

  lemma {:induction false} DesertedRun(s: State, es: seq<Timed>)
    requires Deserted(s)
    ensures Deserted(Run(s, es))
    decreases |es|
  {
    if es != [] {
      DesertedStep(s, es[0]);
      hide Deserted, Step;
      DesertedRun(Step(s, es[0]), es[1..]);
    }
  }

  // ---- the exact condition ----

  lemma GoodNeverStuck(cfg: Config)
    requires GoodConfig(cfg)
    ensures NeverStuck(cfg)
  {
    forall start, es | ValidRun(Init(cfg, start), es) ensures OrphanNotFound !in Run(Init(cfg, start), es).alarms {
      InitInv(cfg, start);
      RunInv(Init(cfg, start), es);
    }
  }

  lemma DesertedNeverStuck(cfg: Config)
    requires cfg.maxConnectionsFromIp <= 0
    ensures NeverStuck(cfg)
  {
    forall start, es | ValidRun(Init(cfg, start), es) ensures OrphanNotFound !in Run(Init(cfg, start), es).alarms {
      DesertedRun(Init(cfg, start), es);
    }
  }

  /**
   * The search for an orphan never fails, in any run, exactly if no connection is allowed at all or
   * at least as many clients as connections are. The limits are signed 32-bit numbers.
   */
  lemma EvictionExact(cfg: Config)
    requires cfg.maxClientsFromIp < 0x8000_0000 && cfg.maxConnectionsFromIp < 0x8000_0000
    ensures NeverStuck(cfg) <==> cfg.maxConnectionsFromIp <= 0 || cfg.maxClientsFromIp >= cfg.maxConnectionsFromIp
  {
    hide NeverStuck;
    if cfg.maxConnectionsFromIp <= 0 {
      DesertedNeverStuck(cfg);
    } else if cfg.maxClientsFromIp >= cfg.maxConnectionsFromIp {
      GoodNeverStuck(cfg);
    } else {
      StuckRun(cfg);
    }
  }
}
