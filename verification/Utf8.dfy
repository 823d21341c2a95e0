/** UTF-8 as RFC 3629 defines it, and the in-place repair of byte strings that are not. */
module Utf8 {
  type Byte = b: int | 0 <= b < 256

  // ---- the definition: section 3 of RFC 3629 ----

  /** Code points that may be encoded: no surrogates, nothing above U+10FFFF. */
  predicate Scalar(cp: int) {
    0 <= cp <= 0x10FFFF && !(0xD800 <= cp <= 0xDFFF)
  }

  type ScalarValue = cp: int | Scalar(cp)

  function Encode(cp: int): (s: seq<Byte>)
    requires Scalar(cp)
    ensures 1 <= |s| <= 4
  {
    if cp < 0x80 then [cp]
    else if cp < 0x800 then [0xC0 + cp / 64, 0x80 + cp % 64]
    else if cp < 0x1_0000 then [0xE0 + cp / 4096, 0x80 + cp / 64 % 64, 0x80 + cp % 64]
    else [0xF0 + cp / 262144, 0x80 + cp / 4096 % 64, 0x80 + cp / 64 % 64, 0x80 + cp % 64]
  }

  function EncodeAll(cps: seq<ScalarValue>): seq<Byte> {
    if cps == [] then [] else Encode(cps[0]) + EncodeAll(cps[1..])
  }

  ghost predicate Encodes(cps: seq<ScalarValue>, s: seq<Byte>) {
    EncodeAll(cps) == s
  }

  /** s is the encoding of some sequence of code points. */
  ghost predicate IsUtf8(s: seq<Byte>) {
    exists cps: seq<ScalarValue> :: Encodes(cps, s)
  }

  // ---- the check, byte by byte ----

  predicate Trail(b: Byte) {
    0x80 <= b < 0xC0
  }

  /** The length a lead byte announces; 0 for a byte that is none. */
  function LeadLength(b: Byte): nat {
    if b < 0x80 then 1
    else if 0xC0 <= b < 0xE0 then 2
    else if 0xE0 <= b < 0xF0 then 3
    else if 0xF0 <= b < 0xF8 then 4
    else 0
  }

  /** The number that n bytes spell, whether or not they should. */
  function CodePoint(s: seq<Byte>, n: nat): int
    requires 1 <= n <= 4 && n <= |s|
  {
    var b: seq<int> := s;
    if n == 1 then b[0]
    else if n == 2 then (b[0] - 0xC0) * 64 + (b[1] - 0x80)
    else if n == 3 then (b[0] - 0xE0) * 4096 + (b[1] - 0x80) * 64 + (b[2] - 0x80)
    else (b[0] - 0xF0) * 262144 + (b[1] - 0x80) * 4096 + (b[2] - 0x80) * 64 + (b[3] - 0x80)
  }

  /** The code point could have been spelled with fewer bytes. */
  predicate Overlong(cp: int, n: nat) {
    (cp < 0x80 && n != 1) || (0x80 <= cp < 0x800 && n != 2) || (0x800 <= cp < 0x1_0000 && n != 3)
  }

  /** The length of the valid character that s begins with; 0 if there is none. */
  function CharLength(s: seq<Byte>): (n: nat)
    ensures n <= |s| && n <= 4
  {
    if s == [] then 0
    else
      var n := LeadLength(s[0]);
      if n == 0 || n > |s| then 0
      else if exists i :: 1 <= i < n && !Trail(s[i]) then 0
      else
        var cp := CodePoint(s, n);
        if !Scalar(cp) || Overlong(cp, n) then 0 else n
  }

  /** How far the valid characters reach. */
  function FindInvalid(s: seq<Byte>): (j: nat)
    ensures j <= |s|
  {
    var n := CharLength(s);
    if n == 0 then 0 else n + FindInvalid(s[n..])
  }

  // ---- the check is right ----

  lemma Digit(high: int, low: int)
    requires 0 <= low < 64
    ensures (high * 64 + low) / 64 == high && (high * 64 + low) % 64 == low
  {
  }

  /** The base-64 digits of a number that is spelled with three digits below its highest part. */
  lemma Digits(x: int, y: int, z: int, w: int)
    requires 0 <= y < 64 && 0 <= z < 64 && 0 <= w < 64
    ensures var n := ((x * 64 + y) * 64 + z) * 64 + w;
      && n % 64 == w && n / 64 == (x * 64 + y) * 64 + z && n / 64 % 64 == z
      && n / 4096 == x * 64 + y && n / 4096 % 64 == y && n / 262144 == x
  {
    Digit((x * 64 + y) * 64 + z, w);
    Digit(x * 64 + y, z);
    Digit(x, y);
  }

  /** A character that is accepted is the encoding of its code point. */
  lemma AcceptedIsEncoded(s: seq<Byte>)
    requires CharLength(s) > 0
    ensures Scalar(CodePoint(s, CharLength(s))) && s[..CharLength(s)] == Encode(CodePoint(s, CharLength(s)))
  {
    var n := CharLength(s);
    var b: seq<int> := s;
    assert forall i :: 1 <= i < n ==> Trail(s[i]);
    if n == 2 {
      Digits(0, 0, b[0] - 0xC0, b[1] - 0x80);
    } else if n == 3 {
      Digits(0, b[0] - 0xE0, b[1] - 0x80, b[2] - 0x80);
    } else if n == 4 {
      Digits(b[0] - 0xF0, b[1] - 0x80, b[2] - 0x80, b[3] - 0x80);
    }
  }

  /** Every encoded code point is accepted, with its exact length, whatever follows. */
  lemma EncodedIsAccepted(cp: int, rest: seq<Byte>)
    requires Scalar(cp)
    ensures CharLength(Encode(cp) + rest) == |Encode(cp)|
  {
    var e := Encode(cp);
    var s := e + rest;
    var n := |e|;
    assert forall i :: 0 <= i < n ==> s[i] == e[i];
    assert LeadLength(s[0]) == n;
    assert forall i :: 1 <= i < n ==> Trail(s[i]);
    if n == 4 {
      assert cp / 64 == (cp / 4096) * 64 + cp / 64 % 64 && cp / 4096 == (cp / 262144) * 64 + cp / 4096 % 64;
    } else if n == 3 {
      assert cp / 64 == (cp / 4096) * 64 + cp / 64 % 64;
    }
    assert CodePoint(s, n) == cp;
  }

  lemma Associate(a: seq<Byte>, b: seq<Byte>, c: seq<Byte>)
    ensures a + (b + c) == (a + b) + c
  {
  }

  /** A non-empty text, with more behind it, is its head and the rest. */
  lemma Cons(s: seq<Byte>, t: seq<Byte>)
    requires s != []
    ensures s == [s[0]] + s[1..] && s + t == [s[0]] + (s[1..] + t)
  {
  }

  lemma Prefix(s: seq<Byte>, n: nat, m: nat)
    requires n + m <= |s|
    ensures s[..n + m] == s[..n] + s[n..][..m]
  {
  }

  lemma EncodeCons(cp: ScalarValue, more: seq<ScalarValue>)
    ensures EncodeAll([cp] + more) == Encode(cp) + EncodeAll(more)
  {
    assert ([cp] + more)[1..] == more;
  }

  lemma {:induction false} AcceptedText(s: seq<Byte>) returns (cps: seq<ScalarValue>)
    ensures Encodes(cps, s[..FindInvalid(s)])
  {
    hide Encode, CodePoint, CharLength, Scalar;
    var n := CharLength(s);
    if n == 0 {
      cps := [];
      assert EncodeAll([]) == s[..0];
    } else {
      var more := AcceptedText(s[n..]);
      AcceptedIsEncoded(s);
      cps := [CodePoint(s, n)] + more;
      EncodeCons(CodePoint(s, n), more);
      Prefix(s, n, FindInvalid(s[n..]));
    }
  }

  lemma {:induction false} EncodedText(cps: seq<ScalarValue>)
    ensures FindInvalid(EncodeAll(cps)) == |EncodeAll(cps)|
  {
    if cps != [] {
      var rest := EncodeAll(cps[1..]);
      EncodedText(cps[1..]);
      EncodedIsAccepted(cps[0], rest);
      assert EncodeAll(cps)[|Encode(cps[0])|..] == rest;
    }
  }

  /** The search for an invalid byte runs through exactly if the bytes are UTF-8. */
  lemma CheckExact(s: seq<Byte>)
    ensures FindInvalid(s) == |s| <==> IsUtf8(s)
  {
    if FindInvalid(s) == |s| {
      var cps := AcceptedText(s);
      assert s[..|s|] == s;
    }
    if IsUtf8(s) {
      var cps: seq<ScalarValue> :| Encodes(cps, s);
      EncodedText(cps);
    }
  }

  lemma ValidPrefix(s: seq<Byte>)
    ensures IsUtf8(s[..FindInvalid(s)])
  {
    var cps := AcceptedText(s);
  }

  lemma {:induction false} EncodeAppend(a: seq<ScalarValue>, b: seq<ScalarValue>)
    ensures EncodeAll(a + b) == EncodeAll(a) + EncodeAll(b)
  {
    if a == [] {
      assert a + b == b;
    } else {
      hide Encode, EncodeAll;
      EncodeAppend(a[1..], b);
      assert a == [a[0]] + a[1..] && a + b == [a[0]] + (a[1..] + b);
      EncodeCons(a[0], a[1..]);
      EncodeCons(a[0], a[1..] + b);
      Associate(Encode(a[0]), EncodeAll(a[1..]), EncodeAll(b));
    }
  }

  lemma Utf8Append(s: seq<Byte>, t: seq<Byte>)
    requires IsUtf8(s) && IsUtf8(t)
    ensures IsUtf8(s + t)
  {
    var a: seq<ScalarValue> :| Encodes(a, s);
    var b: seq<ScalarValue> :| Encodes(b, t);
    EncodeAppend(a, b);
    assert Encodes(a + b, s + t);
  }

  // ---- the repair ----

  /** Every byte at which the search stops is replaced, and the search goes on behind it. */
  function Repair(s: seq<Byte>, replacement: Byte): (r: seq<Byte>)
    ensures |r| == |s|
  {
    var j := FindInvalid(s);
    if j == |s| then s else s[..j] + [replacement] + Repair(s[j + 1..], replacement)
  }

  lemma AsciiIsUtf8(b: Byte)
    requires b < 0x80
    ensures IsUtf8([b])
  {
    assert EncodeAll([b]) == [b];
    assert Encodes([b], [b]);
  }

  /** The result of a repair with an ASCII character is UTF-8. */
  lemma {:induction false} RepairIsUtf8(s: seq<Byte>, replacement: Byte)
    requires replacement < 0x80
    ensures IsUtf8(Repair(s, replacement))
  {
    var j := FindInvalid(s);
    if j == |s| {
      CheckExact(s);
    } else {
      ValidPrefix(s);
      AsciiIsUtf8(replacement);
      RepairIsUtf8(s[j + 1..], replacement);
      Utf8Append(s[..j], [replacement]);
      Utf8Append(s[..j] + [replacement], Repair(s[j + 1..], replacement));
    }
  }

  lemma RepairIs(s: seq<Byte>, replacement: Byte)
    ensures var j := FindInvalid(s);
      Repair(s, replacement) == if j == |s| then s else s[..j] + [replacement] + Repair(s[j + 1..], replacement)
  {
    hide FindInvalid;
  }

  /** A repair changes a byte only to the replacement. */
  lemma {:induction false} RepairOnlyReplaces(s: seq<Byte>, replacement: Byte, i: nat)
    requires i < |s|
    ensures Repair(s, replacement)[i] == s[i] || Repair(s, replacement)[i] == replacement
  {
    hide Repair, FindInvalid;
    var j := FindInvalid(s);
    RepairIs(s, replacement);
    if j < |s| && i > j {
      RepairOnlyReplaces(s[j + 1..], replacement, i - j - 1);
    }
  }

  /** UTF-8 is left alone, so a second repair does nothing; and only UTF-8 is left alone. */
  lemma RepairFixes(s: seq<Byte>, replacement: Byte)
    requires replacement < 0x80
    ensures Repair(s, replacement) == s <==> IsUtf8(s)
    ensures Repair(Repair(s, replacement), replacement) == Repair(s, replacement)
  {
    CheckExact(s);
    RepairIsUtf8(s, replacement);
    CheckExact(Repair(s, replacement));
  }

  lemma FindIs(s: seq<Byte>)
    requires CharLength(s) > 0
    ensures FindInvalid(s) == CharLength(s) + FindInvalid(s[CharLength(s)..])
  {
    hide CharLength;
  }

  /** A valid character at the front is kept, and the repair goes on behind it. */
  lemma RepairBehind(s: seq<Byte>, replacement: Byte)
    requires CharLength(s) > 0
    ensures var n := CharLength(s); Repair(s, replacement) == s[..n] + Repair(s[n..], replacement)
  {
    hide CharLength, Repair, FindInvalid;
    var n := CharLength(s);
    var j := FindInvalid(s[n..]);
    FindIs(s);
    RepairIs(s, replacement);
    RepairIs(s[n..], replacement);
    Prefix(s, n, j);
    if n + j < |s| {
      Behind(s, n, j);
      Associate(s[..n] + s[n..][..j], [replacement], Repair(s[n + j + 1..], replacement));
      Associate(s[..n], s[n..][..j], [replacement] + Repair(s[n + j + 1..], replacement));
      Associate(s[n..][..j], [replacement], Repair(s[n + j + 1..], replacement));
    } else {
      assert s[..n] + s[n..] == s;
    }
  }

  lemma Behind(s: seq<Byte>, n: nat, j: nat)
    requires n + j < |s|
    ensures s[n..][j + 1..] == s[n + j + 1..]
  {
  }

  /** Valid text at the front of whatever follows is kept as it is. */
  lemma {:induction false} RepairKeepsText(cps: seq<ScalarValue>, rest: seq<Byte>, replacement: Byte)
    ensures Repair(EncodeAll(cps) + rest, replacement) == EncodeAll(cps) + Repair(rest, replacement)
    decreases |cps|
  {
    if cps == [] {
      assert EncodeAll(cps) + rest == rest;
    } else {
      hide Repair, Encode, CharLength;
      var e := Encode(cps[0]);
      var more := EncodeAll(cps[1..]) + rest;
      Associate(e, EncodeAll(cps[1..]), rest);
      EncodedIsAccepted(cps[0], more);
      RepairBehind(e + more, replacement);
      assert (e + more)[..|e|] == e && (e + more)[|e|..] == more;
      RepairKeepsText(cps[1..], rest, replacement);
      Associate(e, EncodeAll(cps[1..]), Repair(rest, replacement));
    }
  }

  lemma BeginsEncoded(s: seq<Byte>)
    requires CharLength(s) > 0
    ensures exists cp: ScalarValue, rest :: s == Encode(cp) + rest
  {
    AcceptedIsEncoded(s);
    assert s == Encode(CodePoint(s, CharLength(s))) + s[CharLength(s)..];
  }

  /** A byte at which no encoded code point begins is replaced, and only that byte. */
  lemma RepairReplacesOne(s: seq<Byte>, replacement: Byte)
    requires s != [] && forall cp: ScalarValue, rest :: s != Encode(cp) + rest
    ensures Repair(s, replacement) == [replacement] + Repair(s[1..], replacement)
  {
    if CharLength(s) > 0 { BeginsEncoded(s); }
    assert FindInvalid(s) == 0;
    assert s[..0] + [replacement] == [replacement];
  }

  /** One round of the loop: done is final, and the search stops at position j of todo or runs through. */
  lemma RepairRound(done: seq<Byte>, todo: seq<Byte>, replacement: Byte)
    ensures var j := FindInvalid(todo);
      done + Repair(todo, replacement) ==
        if j == |todo| then done + todo
        else (done + todo[..j] + [replacement]) + Repair(todo[j + 1..], replacement)
  {
    hide FindInvalid;
    var j := FindInvalid(todo);
    if j < |todo| {
      assert Repair(todo, replacement) == todo[..j] + [replacement] + Repair(todo[j + 1..], replacement);
      hide Repair;
      Regroup(done, todo[..j], [replacement], Repair(todo[j + 1..], replacement));
    }
  }

  lemma Regroup(a: seq<Byte>, b: seq<Byte>, c: seq<Byte>, d: seq<Byte>)
    ensures a + (b + c + d) == (a + b + c) + d
  {
  }

  /** The loop over the string, in place. */
  method ReplaceInvalidUtf8(a: array<Byte>, replacement: Byte)
    modifies a
    ensures a[..] == Repair(old(a[..]), replacement)
  {
    hide Repair, FindInvalid;
    ghost var was := a[..];
    var start := 0;
    assert a[..0] + Repair(a[0..], replacement) == Repair(was, replacement) by {
      assert a[0..] == was;
    }
    while start != a.Length
      invariant 0 <= start <= a.Length
      invariant a[..start] + Repair(a[start..], replacement) == Repair(was, replacement)
      decreases a.Length - start
    {
      ghost var done, todo := a[..start], a[start..];
      RepairRound(done, todo, replacement);
      var j := FindInvalid(a[start..]);
      start := start + j;
      assert a[..start] == done + todo[..j] && a[start..] == todo[j..];
      if start == a.Length {
        assert todo[..j] == todo && Repair(a[start..], replacement) == [];
      } else {
        a[start] := replacement;
        start := start + 1;
        assert a[..start] == done + todo[..j] + [replacement];
        assert a[start..] == todo[j + 1..];
      }
    }
    assert a[..start] == a[..] && Repair(a[start..], replacement) == [];
  }
}
