/** The clean-up of a message text when its packet is read. */
module Sanitizing {
  import opened Utf8

  const NEWLINE: Byte := 10
  const SPACE: Byte := 32
  const MAX_LENGTH := 30 * 1024

  /** How many newlines s begins with. */
  function LeadingNewlines(s: seq<Byte>): (n: nat)
    ensures n <= |s| && (forall i :: 0 <= i < n ==> s[i] == NEWLINE) && (n < |s| ==> s[n] != NEWLINE)
  {
    if s == [] || s[0] != NEWLINE then 0 else 1 + LeadingNewlines(s[1..])
  }

  function Newlines(n: nat): (s: seq<Byte>)
    ensures |s| == n && forall i :: 0 <= i < n ==> s[i] == NEWLINE
  {
    seq(n, _ => NEWLINE)
  }

  function Capped(n: nat): nat {
    if n >= 3 then 3 else n
  }

  /** Every maximal run of three or more newlines becomes three newlines. */
  function Collapse(s: seq<Byte>): seq<Byte> {
    if s == [] then []
    else
      var n := LeadingNewlines(s);
      if n == 0 then [s[0]] + Collapse(s[1..])
      else Newlines(Capped(n)) + Collapse(s[n..])
  }

  function Truncate(s: seq<Byte>): seq<Byte> {
    if |s| > MAX_LENGTH then s[..MAX_LENGTH] else s
  }

  function Sanitize(s: seq<Byte>): seq<Byte> {
    Repair(Truncate(Collapse(s)), SPACE)
  }

  // ---- newlines ----

  predicate AllNewlines(s: seq<Byte>) {
    forall i :: 0 <= i < |s| ==> s[i] == NEWLINE
  }

  /** Four newlines stand in a row from position i on. */
  predicate RunAt(s: seq<Byte>, i: nat) {
    i + 4 <= |s| && s[i] == NEWLINE && s[i + 1] == NEWLINE && s[i + 2] == NEWLINE && s[i + 3] == NEWLINE
  }

  ghost predicate NoLongRun(s: seq<Byte>) {
    forall i :: !RunAt(s, i)
  }

  lemma PrependRun(n: nat, t: seq<Byte>)
    requires n <= 3 && NoLongRun(t) && (t == [] || t[0] != NEWLINE)
    ensures NoLongRun(Newlines(n) + t)
  {
    var s := Newlines(n) + t;
    forall i: nat ensures !RunAt(s, i) {
      if i >= n && i + 4 <= |s| {
        assert !RunAt(t, i - n);
      }
    }
  }

  lemma PrependOther(b: Byte, t: seq<Byte>)
    requires b != NEWLINE && NoLongRun(t)
    ensures NoLongRun([b] + t)
  {
    forall i: nat ensures !RunAt([b] + t, i) {
      if i > 0 {
        assert !RunAt(t, i - 1);
      }
    }
  }

  /** What follows a run does not begin with a newline, collapsed or not. */
  lemma CollapseHead(s: seq<Byte>)
    requires s == [] || s[0] != NEWLINE
    ensures Collapse(s) == [] || Collapse(s)[0] != NEWLINE
  {
  }

  lemma {:induction false} CollapsedShort(s: seq<Byte>)
    ensures NoLongRun(Collapse(s))
  {
    if s != [] {
      var n := LeadingNewlines(s);
      if n == 0 {
        CollapsedShort(s[1..]);
        PrependOther(s[0], Collapse(s[1..]));
      } else {
        CollapsedShort(s[n..]);
        CollapseHead(s[n..]);
        PrependRun(Capped(n), Collapse(s[n..]));
      }
    }
  }

  lemma TailShort(s: seq<Byte>, n: nat)
    requires n <= |s| && NoLongRun(s)
    ensures NoLongRun(s[n..])
  {
    forall i: nat ensures !RunAt(s[n..], i) {
      assert !RunAt(s, i + n);
    }
  }

  lemma RunIsShort(s: seq<Byte>)
    requires NoLongRun(s)
    ensures LeadingNewlines(s) <= 3
  {
    assert !RunAt(s, 0);
  }

  /** A text without long runs is left alone. */
  lemma {:induction false} ShortKept(s: seq<Byte>)
    requires NoLongRun(s)
    ensures Collapse(s) == s
  {
    if s != [] {
      var n := LeadingNewlines(s);
      RunIsShort(s);
      if n == 0 {
        TailShort(s, 1);
        ShortKept(s[1..]);
      } else {
        TailShort(s, n);
        ShortKept(s[n..]);
        assert Newlines(n) == s[..n];
      }
    }
  }

  /** Everything but the newlines, in order. */
  function Ink(s: seq<Byte>): seq<Byte> {
    if s == [] then [] else InkOf(s[0]) + Ink(s[1..])
  }

  function InkOf(b: Byte): seq<Byte> {
    if b == NEWLINE then [] else [b]
  }

  lemma InkCons(b: Byte, t: seq<Byte>)
    ensures Ink([b] + t) == InkOf(b) + Ink(t)
  {
    assert ([b] + t)[1..] == t;
  }

  lemma {:induction false} InkAppend(s: seq<Byte>, t: seq<Byte>)
    ensures Ink(s + t) == Ink(s) + Ink(t)
  {
    if s == [] {
      assert s + t == t;
    } else {
      hide Ink, InkOf;
      InkAppend(s[1..], t);
      Cons(s, t);
      InkCons(s[0], s[1..]);
      InkCons(s[0], s[1..] + t);
      Associate(InkOf(s[0]), Ink(s[1..]), Ink(t));
    }
  }

  lemma {:induction false} NewlinesHaveNoInk(s: seq<Byte>)
    requires AllNewlines(s)
    ensures Ink(s) == []
  {
    if s != [] { NewlinesHaveNoInk(s[1..]); }
  }

  /** Collapsing takes nothing but newlines away. */
  lemma {:induction false} CollapseKeepsInk(s: seq<Byte>)
    ensures Ink(Collapse(s)) == Ink(s)
  {
    if s != [] {
      var n := LeadingNewlines(s);
      if n == 0 {
        CollapseKeepsInk(s[1..]);
        InkAppend([s[0]], Collapse(s[1..]));
        assert [s[0]][1..] == [];
      } else {
        var few := Newlines(Capped(n));
        CollapseKeepsInk(s[n..]);
        InkAppend(few, Collapse(s[n..]));
        InkAppend(s[..n], s[n..]);
        NewlinesHaveNoInk(few);
        NewlinesHaveNoInk(s[..n]);
        assert s == s[..n] + s[n..];
      }
    }
  }

  /** The number of newlines before each other byte, and at the end. */
  function Gaps(s: seq<Byte>): seq<nat> {
    var n := LeadingNewlines(s);
    if n == |s| then [n] else [n] + Gaps(s[n + 1..])
  }

  function CapAll(ns: seq<nat>): seq<nat> {
    if ns == [] then [] else [Capped(ns[0])] + CapAll(ns[1..])
  }

  lemma {:induction false} LeadingAfter(n: nat, t: seq<Byte>)
    requires t == [] || t[0] != NEWLINE
    ensures LeadingNewlines(Newlines(n) + t) == n
  {
    if n > 0 {
      LeadingAfter(n - 1, t);
      assert (Newlines(n) + t)[1..] == Newlines(n - 1) + t;
    }
  }

  /** A run, and the byte behind it. */
  lemma GapsStep(n: nat, b: Byte, t: seq<Byte>)
    requires b != NEWLINE
    ensures Gaps(Newlines(n) + ([b] + t)) == [n] + Gaps(t)
  {
    LeadingAfter(n, [b] + t);
    assert (Newlines(n) + ([b] + t))[n + 1..] == t;
  }

  lemma GapsEnd(n: nat)
    ensures Gaps(Newlines(n)) == [n]
  {
    LeadingAfter(n, []);
    assert Newlines(n) + [] == Newlines(n);
  }

  lemma CollapseStep(n: nat, b: Byte, t: seq<Byte>)
    requires b != NEWLINE
    ensures Collapse(Newlines(n) + ([b] + t)) == Newlines(Capped(n)) + ([b] + Collapse(t))
  {
    var s := Newlines(n) + ([b] + t);
    LeadingAfter(n, [b] + t);
    assert s[n..] == [b] + t;
    assert ([b] + t)[1..] == t;
    assert LeadingNewlines([b] + t) == 0;
    assert Collapse([b] + t) == [b] + Collapse(t);
    if n == 0 {
      assert s == [b] + t;
      assert Newlines(0) + ([b] + Collapse(t)) == [b] + Collapse(t);
    }
  }

  lemma CollapseEnd(n: nat)
    ensures Collapse(Newlines(n)) == Newlines(Capped(n))
  {
    LeadingAfter(n, []);
    assert Newlines(n) + [] == Newlines(n);
    if n > 0 {
      assert Newlines(n)[n..] == [];
      assert Newlines(Capped(n)) + [] == Newlines(Capped(n));
    }
  }

  /** Every run of newlines is capped at three; with the rest kept, that determines the result. */
  lemma {:induction false} CollapseCapsRuns(s: seq<Byte>)
    ensures Gaps(Collapse(s)) == CapAll(Gaps(s))
  {
    hide Collapse, Gaps;
    var n := LeadingNewlines(s);
    if n < |s| {
      var t := s[n + 1..];
      assert s == Newlines(n) + ([s[n]] + t);
      CollapseStep(n, s[n], t);
      GapsStep(n, s[n], t);
      GapsStep(Capped(n), s[n], Collapse(t));
      CollapseCapsRuns(t);
      assert ([n] + Gaps(t))[1..] == Gaps(t);
    } else {
      assert s == Newlines(n);
      CollapseEnd(n);
      GapsEnd(n);
      GapsEnd(Capped(n));
    }
  }

  // ---- the whole clean-up ----

  lemma PrefixShort(s: seq<Byte>, n: nat)
    requires n <= |s| && NoLongRun(s)
    ensures NoLongRun(s[..n])
  {
    forall i: nat ensures !RunAt(s[..n], i) {
      assert !RunAt(s, i);
    }
  }

  /** A repair adds no newline. */
  lemma RepairKeepsShort(s: seq<Byte>)
    requires NoLongRun(s)
    ensures NoLongRun(Repair(s, SPACE))
  {
    hide Repair;
    var r := Repair(s, SPACE);
    forall i | 0 <= i < |s| ensures r[i] == NEWLINE ==> s[i] == NEWLINE {
      RepairOnlyReplaces(s, SPACE, i);
    }
    forall i: nat ensures !RunAt(r, i) {
      assert !RunAt(s, i);
    }
  }

  /**
   * After deserialization a message is UTF-8, at most 30720 bytes long and has no run of four newlines,
   * even when the truncation cuts a character; a text that is all this already is not changed.
   */
  lemma Sanitized(s: seq<Byte>)
    ensures IsUtf8(Sanitize(s)) && |Sanitize(s)| <= 30720 && NoLongRun(Sanitize(s))
    ensures Sanitize(s) == s <==> IsUtf8(s) && |s| <= 30720 && NoLongRun(s)
    ensures Sanitize(Sanitize(s)) == Sanitize(s)
  {
    SanitizedOnce(s);
    SanitizedOnce(Sanitize(s));
  }

  lemma SanitizedOnce(s: seq<Byte>)
    ensures IsUtf8(Sanitize(s)) && |Sanitize(s)| <= 30720 && NoLongRun(Sanitize(s))
    ensures IsUtf8(s) && |s| <= 30720 && NoLongRun(s) ==> Sanitize(s) == s
  {
    hide Collapse, Repair, IsUtf8, NoLongRun;
    var c := Collapse(s);
    CollapsedShort(s);
    if |c| > MAX_LENGTH { PrefixShort(c, MAX_LENGTH); }
    RepairIsUtf8(Truncate(c), SPACE);
    RepairKeepsShort(Truncate(c));
    if IsUtf8(s) && |s| <= 30720 && NoLongRun(s) {
      ShortKept(s);
      RepairFixes(s, SPACE);
    }
  }

  /** Nothing but the length limit shortens a collapsed text, and nothing but the repair changes what is left. */
  lemma SanitizedPrefix(s: seq<Byte>, i: nat)
    ensures |Sanitize(s)| == if |Collapse(s)| > 30720 then 30720 else |Collapse(s)|
    ensures i < |Sanitize(s)| ==> Sanitize(s)[i] == Collapse(s)[i] || Sanitize(s)[i] == 32
    ensures IsUtf8(Collapse(s)) && |Collapse(s)| <= 30720 ==> Sanitize(s) == Collapse(s)
  {
    hide Collapse, IsUtf8;
    if i < |Sanitize(s)| { RepairOnlyReplaces(Truncate(Collapse(s)), SPACE, i); }
    RepairFixes(Collapse(s), SPACE);
  }
}
