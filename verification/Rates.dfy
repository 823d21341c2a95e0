/** The message rate of one client over a whole run of the server. */
module Rates {
  import opened Types
  import opened RateLimit
  import opened Chat
  import opened PacketSteps
  import opened Registry
  import opened Sessions
  import opened Invariant
  import opened Runs

  /** The message, if any, that client c brings to the limiter with this event. */
  function AttemptOf(s: State, e: Timed, c: ClientRef): (a: Option<Attempt>)
    ensures a.Some? ==> c in s.client && a.value.time == e.now
  {
    match e.event
    case Receive(k, p) =>
      if k in s.mgr.connectionToClient && s.mgr.connectionToClient[k] == c && c in s.client
         && p.MessageIn? && p.target != "" && p.text != ""
      then Some(Attempt(e.now, IsBlank(p.text))) else None
    case _ => None
  }

  predicate LetThrough(s: State, e: Timed, c: ClientRef) {
    var a := AttemptOf(s, e, c);
    a.Some? && Passes(s.client[c].limiter, e.now, a.value.blank)
  }

  /** How many messages of client c pass the limiter at a time in [lo, hi). */
  function PassesIn(s: State, es: seq<Timed>, c: ClientRef, lo: int, hi: int): nat
    decreases |es|
  {
    if es == [] then 0
    else (if LetThrough(s, es[0], c) && lo <= es[0].now < hi then 1 else 0) + PassesIn(Step(s, es[0]), es[1..], c, lo, hi)
  }

  function Attempts(s: State, es: seq<Timed>, c: ClientRef): seq<Attempt>
    decreases |es|
  {
    if es == [] then []
    else (match AttemptOf(s, es[0], c) case Some(a) => [a] case None => []) + Attempts(Step(s, es[0]), es[1..], c)
  }

  /** A step changes the limiter of a client exactly as its attempt says. */
  lemma StepLimiter(s: State, e: Timed, c: ClientRef)
    requires Inv(s) && Valid(s, e) && c in s.client && c in Step(s, e).client
    ensures Step(s, e).client[c].limiter ==
      match AttemptOf(s, e, c)
      case Some(a) => AfterMessage(s.client[c].limiter, a.time, a.blank)
      case None => s.client[c].limiter
  {
    hide Inv, Evolves, Step, Valid, AfterMessage, Arrival;
    StepInv(s, e);
    Numbered(s);
    ArrivalLimiter(s, e, c);
  }

  lemma ArrivalLimiter(s: State, e: Timed, c: ClientRef)
    requires c in s.client
    ensures Arrival(s, e).client.Keys == s.client.Keys && Arrival(s, e).nextClient == s.nextClient
    ensures Arrival(s, e).client[c].limiter ==
      match AttemptOf(s, e, c)
      case Some(a) => AfterMessage(s.client[c].limiter, a.time, a.blank)
      case None => s.client[c].limiter
  {
    hide AfterMessage, IsBlank;
  }

  lemma Numbered(s: State)
    requires Inv(s)
    ensures forall c :: c in s.client ==> c < s.nextClient
  {
  }

  ghost predicate LimitersOk(s: State) {
    forall c :: c in s.client ==> LimiterOk(s.client[c].limiter, s.now)
  }

  lemma LimitersOkStep(s: State, e: Timed)
    requires Inv(s) && Valid(s, e) && LimitersOk(s)
    ensures LimitersOk(Step(s, e))
  {
    hide Inv, Step, Valid, AfterMessage, LimiterOk;
    StepClock(s, e);
    var t := Step(s, e);
    forall c | c in t.client ensures LimiterOk(t.client[c].limiter, t.now) {
      NewOrOld(s, e, c);
      if c in s.client {
        StepLimiter(s, e, c);
        LimiterStays(s.client[c].limiter, s.now, e.now, AttemptOf(s, e, c));
      } else {
        FreshLimiter(e.now);
      }
    }
  }

  lemma NewOrOld(s: State, e: Timed, c: ClientRef)
    requires Inv(s) && Valid(s, e) && c in Step(s, e).client
    ensures c in s.client || Step(s, e).client[c].limiter == Limiter(e.now, 0)
  {
    hide Inv, Step, Valid, Arrival;
    StepInv(s, e);
    StepClock(s, e);
    ArrivalKeys(s, e);
  }

  lemma FreshLimiter(now: int)
    ensures LimiterOk(Limiter(now, 0), now)
  {
  }

  lemma LimiterStays(l: Limiter, now: int, later: int, a: Option<Attempt>)
    requires LimiterOk(l, now) && now <= later && (a.Some? ==> a.value.time == later)
    ensures LimiterOk(match a case Some(x) => AfterMessage(l, x.time, x.blank) case None => l, later)
  {
  }

  /** The object of a client that is gone is never used again. */
  lemma GoneStep(s: State, e: Timed, c: ClientRef)
    requires Inv(s) && Valid(s, e) && c !in s.client && c < s.nextClient
    ensures c !in Step(s, e).client && c < Step(s, e).nextClient
  {
    hide Inv, Evolves, Step, Valid, Arrival;
    StepInv(s, e);
    ArrivalKeys(s, e);
  }

  lemma ArrivalKeys(s: State, e: Timed)
    ensures Arrival(s, e).client.Keys == s.client.Keys && Arrival(s, e).nextClient == s.nextClient
  {
    hide AfterMessage, IsBlank;
  }

  lemma {:induction false} GoneSilent(s: State, es: seq<Timed>, c: ClientRef, lo: int, hi: int)
    requires Inv(s) && ValidRun(s, es) && c !in s.client && c < s.nextClient
    ensures Attempts(s, es, c) == [] && PassesIn(s, es, c, lo, hi) == 0
    decreases |es|
  {
    if es != [] {
      StepInv(s, es[0]);
      GoneStep(s, es[0], c);
      hide Inv, Step;
      GoneSilent(Step(s, es[0]), es[1..], c, lo, hi);
    }
  }

  lemma StepClock(s: State, e: Timed)
    requires Inv(s) && Valid(s, e)
    ensures Inv(Step(s, e)) && s.now <= e.now == Step(s, e).now
    ensures forall c :: c in s.client ==> c < s.nextClient <= Step(s, e).nextClient
  {
    StepInv(s, e);
    Numbered(s);
    hide Inv, Step;
  }

  /** What the run lets through is what the limiter alone lets through of the client's attempts. */
  lemma {:induction false} RunIsAttempts(s: State, es: seq<Timed>, c: ClientRef, lo: int, hi: int)
    requires Inv(s) && ValidRun(s, es) && c in s.client
    ensures PassesIn(s, es, c, lo, hi) == PassedIn(s.client[c].limiter, Attempts(s, es, c), lo, hi)
    ensures Ordered(Attempts(s, es, c), s.now)
    decreases |es|
  {
    hide Inv, Step, AfterMessage, Passes, Valid, AttemptOf;
    if es != [] {
      StepClock(s, es[0]);
      var t := Step(s, es[0]);
      var rest := Attempts(t, es[1..], c);
      if c in t.client {
        StepLimiter(s, es[0], c);
        RunIsAttempts(t, es[1..], c, lo, hi);
      } else {
        GoneSilent(t, es[1..], c, lo, hi);
      }
      OrderedFrom(AttemptOf(s, es[0], c), rest, s.now, t.now);
    }
  }

  lemma OrderedFrom(a: Option<Attempt>, rest: seq<Attempt>, from: int, time: int)
    requires from <= time && Ordered(rest, time) && (a.Some? ==> a.value.time == time)
    ensures var all := (match a case Some(x) => [x] case None => []) + rest;
      Ordered(all, from) && (a.Some? ==> all[1..] == rest) && (a.None? ==> all == rest)
  {
    match a {
      case Some(x) => assert ([x] + rest)[1..] == rest;
      case None => assert [] + rest == rest;
    }
  }

  lemma {:induction false} RunRate(s: State, es: seq<Timed>, c: ClientRef, lo: int, seconds: nat)
    requires Inv(s) && LimitersOk(s) && ValidRun(s, es)
    ensures PassesIn(s, es, c, lo, lo + seconds) <= 4 * (seconds / 2 + 1)
    decreases |es|
  {
    if c in s.client {
      RunIsAttempts(s, es, c, lo, lo + seconds);
      PassedBound(s.client[c].limiter, s.now, Attempts(s, es, c), lo, seconds);
    } else if es != [] {
      StepInv(s, es[0]);
      LimitersOkStep(s, es[0]);
      hide Inv, Step, LimitersOk;
      RunRate(Step(s, es[0]), es[1..], c, lo, seconds);
    }
  }

  /** In every run, in any L consecutive seconds, at most 4 * (L / 2 + 1) messages of a client pass. */
  lemma RateBound(cfg: Config, start: int, es: seq<Timed>, c: ClientRef, lo: int, seconds: nat)
    requires GoodConfig(cfg) && ValidRun(Init(cfg, start), es)
    ensures PassesIn(Init(cfg, start), es, c, lo, lo + seconds) <= 4 * (seconds / 2 + 1)
  {
    InitInv(cfg, start);
    RunRate(Init(cfg, start), es, c, lo, seconds);
  }
}
