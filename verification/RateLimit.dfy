/** The per-client message rate limiter. */
module RateLimit {
  datatype Limiter = Limiter(lastMessageTime: int, messageCounter: int)

  /** A message more than one second after the window opened opens a new window. */
  function OpenWindow(l: Limiter, now: int): Limiter {
    if now - l.lastMessageTime > 1 then Limiter(now, 0) else l
  }

  predicate Blocked(l: Limiter) {
    l.messageCounter > 3
  }

  function CountMessage(l: Limiter): Limiter {
    l.(messageCounter := l.messageCounter + 1)
  }

  /** A message is let through unless its window is used up; blank messages never count. */
  predicate Passes(l: Limiter, now: int, blank: bool) {
    !Blocked(OpenWindow(l, now)) && !blank
  }

  function AfterMessage(l: Limiter, now: int, blank: bool): Limiter {
    if Passes(l, now, blank) then CountMessage(OpenWindow(l, now)) else OpenWindow(l, now)
  }

  // ---- how much may still pass ----

  /** How many windows can start in [from, until) if starts are at least two seconds apart. */
  function Windows(from: int, until: int): nat {
    if until <= from then 0 else (until - from + 1) / 2
  }

  /** Counters never exceed what a window admits, and a window starts no later than now. */
  predicate LimiterOk(l: Limiter, now: int) {
    0 <= l.messageCounter <= 4 && l.lastMessageTime <= now
  }

  /** An upper bound on what passes in [now, until). */
  function Budget(l: Limiter, now: int, until: int): int {
    (if now <= l.lastMessageTime + 1 && now < until then 4 - l.messageCounter else 0)
    + 4 * Windows(if now < l.lastMessageTime + 2 then l.lastMessageTime + 2 else now, until)
  }

  lemma BudgetNonNegative(l: Limiter, now: int, until: int)
    requires LimiterOk(l, now)
    ensures Budget(l, now, until) >= 0
  {
  }

  lemma BudgetShrinks(l: Limiter, now: int, later: int, until: int)
    requires LimiterOk(l, now) && now <= later
    ensures Budget(l, later, until) <= Budget(l, now, until)
  {
  }

  /** Every message that passes is paid for. */
  lemma BudgetPays(l: Limiter, now: int, blank: bool, until: int)
    requires LimiterOk(l, now) && now < until
    ensures LimiterOk(AfterMessage(l, now, blank), now)
    ensures Budget(AfterMessage(l, now, blank), now, until) + (if Passes(l, now, blank) then 1 else 0) <= Budget(l, now, until)
  {
    assert Windows(now, until) == 1 + Windows(now + 2, until);
  }

  /** From any limiter, at most 4 * (L / 2 + 1) messages are left for L seconds. */
  lemma BudgetBound(l: Limiter, now: int, seconds: nat)
    requires LimiterOk(l, now)
    ensures Budget(l, now, now + seconds) <= 4 * (seconds / 2 + 1)
  {
  }

  // ---- a single client's messages ----

  datatype Attempt = Attempt(time: int, blank: bool)

  /** How many of the attempts pass at a time in [lo, hi). */
  function PassedIn(l: Limiter, attempts: seq<Attempt>, lo: int, hi: int): nat
    decreases |attempts|
  {
    if attempts == [] then 0
    else
      var a := attempts[0];
      (if Passes(l, a.time, a.blank) && lo <= a.time < hi then 1 else 0)
      + PassedIn(AfterMessage(l, a.time, a.blank), attempts[1..], lo, hi)
  }

  /** Attempts at times that do not run backwards. */
  ghost predicate Ordered(attempts: seq<Attempt>, from: int)
    decreases |attempts|
  {
    attempts == [] || (attempts[0].time >= from && Ordered(attempts[1..], attempts[0].time))
  }

  lemma {:induction false} PaidFor(l: Limiter, now: int, attempts: seq<Attempt>, lo: int, hi: int)
    requires LimiterOk(l, now) && Ordered(attempts, now) && lo <= now
    ensures PassedIn(l, attempts, lo, hi) <= Budget(l, now, hi)
    decreases |attempts|
  {
    BudgetNonNegative(l, now, hi);
    if attempts != [] {
      var a := attempts[0];
      var l' := AfterMessage(l, a.time, a.blank);
      PaidFor(l', a.time, attempts[1..], lo, hi);
      BudgetShrinks(l, now, a.time, hi);
      if a.time < hi {
        BudgetPays(l, a.time, a.blank, hi);
      } else {
        BudgetNonNegative(l, a.time, hi);
      }
    }
  }

  /** In any L consecutive seconds at most 4 * (L / 2 + 1) messages pass. */
  lemma {:induction false} PassedBound(l: Limiter, now: int, attempts: seq<Attempt>, lo: int, seconds: nat)
    requires LimiterOk(l, now) && Ordered(attempts, now)
    ensures PassedIn(l, attempts, lo, lo + seconds) <= 4 * (seconds / 2 + 1)
    decreases |attempts|
  {
    if attempts != [] && attempts[0].time < lo {
      var a := attempts[0];
      PassedBound(AfterMessage(l, a.time, a.blank), a.time, attempts[1..], lo, seconds);
    } else {
      var from := if now < lo then lo else now;
      PaidFor(l, from, attempts, lo, lo + seconds);
      if from <= lo + seconds {
        BudgetBound(l, from, lo + seconds - from);
      }
    }
  }

  /** Four messages at time t, then four more every two seconds. */
  function Burst(t: int, bursts: nat): seq<Attempt>
    decreases bursts
  {
    var a := Attempt(t, false);
    [a, a, a, a] + (if bursts == 0 then [] else Burst(t + 2, bursts - 1))
  }

  lemma OnePasses(w: int, n: int, t: int, rest: seq<Attempt>, lo: int, hi: int)
    requires 0 <= n < 4 && w <= t <= w + 1 && lo <= t < hi
    ensures PassedIn(Limiter(w, n), [Attempt(t, false)] + rest, lo, hi) == 1 + PassedIn(Limiter(w, n + 1), rest, lo, hi)
  {
    assert ([Attempt(t, false)] + rest)[1..] == rest;
  }

  /** Four messages that find a fresh counter pass and use the window up. */
  lemma FourPass(l: Limiter, t: int, rest: seq<Attempt>, lo: int, hi: int)
    requires OpenWindow(l, t).messageCounter == 0 && lo <= t < hi
    requires OpenWindow(l, t).lastMessageTime <= t <= OpenWindow(l, t).lastMessageTime + 1
    ensures var a := Attempt(t, false);
      PassedIn(l, [a, a, a, a] + rest, lo, hi) == 4 + PassedIn(Limiter(OpenWindow(l, t).lastMessageTime, 4), rest, lo, hi)
  {
    var a := Attempt(t, false);
    var w := OpenWindow(l, t).lastMessageTime;
    assert [a, a, a, a] + rest == [a] + ([a] + ([a] + ([a] + rest)));
    var three := [a] + ([a] + ([a] + rest));
    assert ([a] + three)[1..] == three;
    assert PassedIn(l, [a] + three, lo, hi) == 1 + PassedIn(Limiter(w, 1), three, lo, hi);
    OnePasses(w, 1, t, [a] + ([a] + rest), lo, hi);
    OnePasses(w, 2, t, [a] + rest, lo, hi);
    OnePasses(w, 3, t, rest, lo, hi);
  }

  lemma {:induction false} BurstPasses(l: Limiter, t: int, bursts: nat, lo: int, hi: int)
    requires OpenWindow(l, t).messageCounter == 0 && lo <= t && t + 2 * bursts < hi
    requires OpenWindow(l, t).lastMessageTime <= t <= OpenWindow(l, t).lastMessageTime + 1
    ensures PassedIn(l, Burst(t, bursts), lo, hi) == 4 * (bursts + 1)
    decreases bursts
  {
    var rest := if bursts == 0 then [] else Burst(t + 2, bursts - 1);
    FourPass(l, t, rest, lo, hi);
    if bursts > 0 {
      var l' := Limiter(OpenWindow(l, t).lastMessageTime, 4);
      BurstPasses(l', t + 2, bursts - 1, lo, hi);
    }
  }

  /** The attempts of a client created at time t that use the limiter to the full for some seconds. */
  function Worst(t: int, seconds: nat): seq<Attempt> {
    Burst(t + 1, 0) + (if seconds < 2 then [] else Burst(t + 2, seconds / 2 - 1))
  }

  /** The bound is reached: a new client passes 4 * (L / 2 + 1) messages in L seconds. */
  lemma BoundReached(t: int, seconds: nat)
    requires seconds > 0
    ensures PassedIn(Limiter(t, 0), Worst(t, seconds), t + 1, t + 1 + seconds) == 4 * (seconds / 2 + 1)
  {
    var rest := if seconds < 2 then [] else Burst(t + 2, seconds / 2 - 1);
    assert Burst(t + 1, 0) == [Attempt(t + 1, false), Attempt(t + 1, false), Attempt(t + 1, false), Attempt(t + 1, false)];
    FourPass(Limiter(t, 0), t + 1, rest, t + 1, t + 1 + seconds);
    if seconds >= 2 {
      BurstPasses(Limiter(t, 4), t + 2, seconds / 2 - 1, t + 1, t + 1 + seconds);
    }
  }

  lemma {:induction false} BurstOrdered(t: int, bursts: nat, from: int)
    requires from <= t
    ensures Ordered(Burst(t, bursts), from)
    decreases bursts
  {
    var a := Attempt(t, false);
    var rest := if bursts == 0 then [] else Burst(t + 2, bursts - 1);
    if bursts > 0 { BurstOrdered(t + 2, bursts - 1, t); }
    FourOrdered(t, rest, from);
  }

  lemma FourOrdered(t: int, rest: seq<Attempt>, from: int)
    requires from <= t && Ordered(rest, t)
    ensures var a := Attempt(t, false); Ordered([a, a, a, a] + rest, from)
  {
    var a := Attempt(t, false);
    assert ([a] + rest)[1..] == rest;
    assert ([a, a] + rest)[1..] == [a] + rest;
    assert ([a, a, a] + rest)[1..] == [a, a] + rest;
    assert ([a, a, a, a] + rest)[1..] == [a, a, a] + rest;
    assert Ordered([a] + rest, t) && Ordered([a, a] + rest, t) && Ordered([a, a, a] + rest, t);
  }

  lemma WorstOrdered(t: int, seconds: nat)
    ensures Ordered(Worst(t, seconds), t)
  {
    var rest := if seconds < 2 then [] else Burst(t + 2, seconds / 2 - 1);
    if seconds >= 2 { BurstOrdered(t + 2, seconds / 2 - 1, t + 1); }
    var a := Attempt(t + 1, false);
    assert Burst(t + 1, 0) == [a, a, a, a];
    FourOrdered(t + 1, rest, t);
  }
}
