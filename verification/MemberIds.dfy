/** Allocation of member ids on a wrapping 32-bit counter. */
module MemberIds {
  import opened Types
  import opened Members

  predicate Free(ms: seq<Member>, id: nat) {
    id != 0 && FindById(ms, id).None?
  }

  /** The counter value d increments after start. */
  function Candidate(start: nat, d: nat): nat {
    (start + d) % U32
  }

  ghost predicate FreeWithin(ms: seq<Member>, start: nat, d: nat) {
    exists e :: d <= e <= U32 && Free(ms, Candidate(start, e))
  }

  function NextFrom(ms: seq<Member>, start: nat, d: nat): (id: nat)
    requires FreeWithin(ms, start, d)
    ensures id < U32 && Free(ms, id)
    ensures exists e :: d <= e <= U32 && id == Candidate(start, e)
                        && forall k :: d <= k < e ==> !Free(ms, Candidate(start, k))
    decreases U32 - d
  {
    if Free(ms, Candidate(start, d)) then Candidate(start, d) else NextFrom(ms, start, d + 1)
  }

  /** The first non-zero id after start, cyclically, that no member holds. */
  function NextMemberId(ms: seq<Member>, start: nat): (id: nat)
    requires |ms| < U32 - 1
    ensures 0 < id < U32
    ensures forall m :: m in ms ==> m.id != id
    ensures exists e :: 1 <= e <= U32 && id == Candidate(start, e)
                        && forall k :: 1 <= k < e ==> !Free(ms, Candidate(start, k))
  {
    SomeIdFree(ms, start);
    NextFrom(ms, start, 1)
  }

  ghost function Upto(n: nat): (s: set<nat>)
    ensures forall i :: i in s <==> 1 <= i <= n
    ensures |s| == n
  {
    if n == 0 then {} else Upto(n - 1) + {n}
  }

  ghost function Ids(ms: seq<Member>): set<nat> {
    set m | m in ms :: m.id
  }

  lemma {:induction false} IdsSize(ms: seq<Member>)
    ensures |Ids(ms)| <= |ms|
  {
    if ms == [] {
      assert Ids(ms) == {};
    } else {
      IdsSize(ms[1..]);
      assert ms == [ms[0]] + ms[1..];
      assert Ids(ms) == Ids(ms[1..]) + {ms[0].id};
    }
  }

  lemma SubsetSize(a: set<nat>, b: set<nat>)
    requires a <= b
    ensures |a| <= |b|
  {
    assert b == a + (b - a);
  }

  /** Pigeonhole: fewer than 2^32 - 1 members leave a non-zero id free. */
  lemma SomeIdFree(ms: seq<Member>, start: nat)
    requires |ms| < U32 - 1
    ensures FreeWithin(ms, start, 1)
  {
    IdsSize(ms);
    if Upto(U32 - 1) <= Ids(ms) {
      SubsetSize(Upto(U32 - 1), Ids(ms));
      assert false;
    }
    var f :| f in Upto(U32 - 1) && f !in Ids(ms);
    assert FindById(ms, f).None?;
    var e := if f > start % U32 then f - start % U32 else f + U32 - start % U32;
    assert Candidate(start, e) == f;
  }

  function Increment(id: nat): nat {
    (id + 1) % U32
  }

  lemma IncrementCandidate(start: nat, d: nat)
    ensures Increment(Candidate(start, d)) == Candidate(start, d + 1)
  {
  }

  /** The loop of the room's id generator; the measure is the cyclic distance to the id found. */
  method GenNextMemberId(ms: seq<Member>, nextMemberId: nat) returns (id: nat)
    requires |ms| < U32 - 1
    ensures id == NextMemberId(ms, nextMemberId)
    ensures 0 < id < U32 && forall m :: m in ms ==> m.id != id
  {
    SomeIdFree(ms, nextMemberId);
    ghost var d := 1;
    id := Increment(nextMemberId);
    var taken := FindById(ms, id);
    while id == 0 || taken.Some?
      invariant 1 <= d <= U32 && id == Candidate(nextMemberId, d)
      invariant taken == FindById(ms, id)
      invariant FreeWithin(ms, nextMemberId, d)
      invariant NextFrom(ms, nextMemberId, d) == NextMemberId(ms, nextMemberId)
      decreases U32 - d
    {
      IncrementCandidate(nextMemberId, d);
      id := Increment(id);
      taken := FindById(ms, id);
      d := d + 1;
    }
  }
}
