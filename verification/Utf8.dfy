/**
 UTF-8 as section 4 of RFC 3629 defines it, and the loop that repairs a PAM message which
 is in no known encoding.
 */
module Utf8 {

  type Byte = b: nat | b < 0x100

  const QUESTION: Byte := 63

  predicate Tail(b: Byte) {
    0x80 <= b <= 0xBF
  }

  /** The length of the well-formed sequence `s` starts with, 0 if there is none. */
  function SequenceLength(s: seq<Byte>): (n: nat)
    ensures n <= |s| && n <= 4
  {
    if |s| >= 1 && s[0] <= 0x7F then 1
    else if |s| >= 2 && 0xC2 <= s[0] <= 0xDF && Tail(s[1]) then 2
    else if |s| >= 3 && Tail(s[2]) && (
         || (s[0] == 0xE0 && 0xA0 <= s[1] <= 0xBF)
         || (0xE1 <= s[0] <= 0xEC && Tail(s[1]))
         || (s[0] == 0xED && 0x80 <= s[1] <= 0x9F)
         || (0xEE <= s[0] <= 0xEF && Tail(s[1]))) then 3
    else if |s| >= 4 && Tail(s[2]) && Tail(s[3]) && (
         || (s[0] == 0xF0 && 0x90 <= s[1] <= 0xBF)
         || (0xF1 <= s[0] <= 0xF3 && Tail(s[1]))
         || (s[0] == 0xF4 && 0x80 <= s[1] <= 0x8F)) then 4
    else 0
  }

  /** Where g_utf8_validate stops: the end of the longest prefix made of well-formed sequences. */
  function ValidPrefix(s: seq<Byte>): (k: nat)
    ensures k <= |s|
  {
    var n := SequenceLength(s);
    if n == 0 then 0 else n + ValidPrefix(s[n..])
  }

  predicate Valid(s: seq<Byte>) {
    ValidPrefix(s) == |s|
  }

  // ------------------------------------------------- what valid means: encoded characters

  /** Unicode scalar values. */
  predicate Scalar(c: nat) {
    c <= 0x10FFFF && !(0xD800 <= c <= 0xDFFF)
  }

  /** The table of section 3 of RFC 3629. */
  function Encode(c: nat): seq<Byte>
    requires Scalar(c)
  {
    if c <= 0x7F then [c]
    else if c <= 0x7FF then [0xC0 + c / 64, 0x80 + c % 64]
    else if c <= 0xFFFF then [0xE0 + c / 4096, 0x80 + c / 64 % 64, 0x80 + c % 64]
    else [0xF0 + c / 262144, 0x80 + c / 4096 % 64, 0x80 + c / 64 % 64, 0x80 + c % 64]
  }

  /** Four digits of six bits each. */
  function Digits(w: nat, x: nat, y: nat, z: nat): nat {
    w * 262144 + x * 4096 + y * 64 + z
  }

  /** The character of the sequence `s` starts with. */
  function Decode(s: seq<Byte>): nat
    requires SequenceLength(s) > 0
  {
    match SequenceLength(s)
    case 1 => s[0]
    case 2 => Digits(0, 0, s[0] - 0xC0, s[1] - 0x80)
    case 3 => Digits(0, s[0] - 0xE0, s[1] - 0x80, s[2] - 0x80)
    case _ => Digits(s[0] - 0xF0, s[1] - 0x80, s[2] - 0x80, s[3] - 0x80)
  }

  /** Six bits are taken off and put back. */
  lemma SixBits(high: nat, low: nat)
    requires low < 64
    ensures (high * 64 + low) / 64 == high && (high * 64 + low) % 64 == low
  {
  }

  lemma DigitsBack(w: nat, x: nat, y: nat, z: nat)
    requires x < 64 && y < 64 && z < 64
    ensures var c := Digits(w, x, y, z);
      && c % 64 == z && c / 64 == w * 4096 + x * 64 + y && c / 64 % 64 == y
      && c / 4096 == w * 64 + x && c / 4096 % 64 == x && c / 262144 == w
  {
    var c := Digits(w, x, y, z);
    SixBits(w * 4096 + x * 64 + y, z);
    SixBits(w * 64 + x, y);
    SixBits(w, x);
    assert c / 4096 == c / 64 / 64 && c / 262144 == c / 64 / 64 / 64;
  }

  lemma DigitsOf(c: nat)
    ensures Digits(c / 262144, c / 4096 % 64, c / 64 % 64, c % 64) == c
  {
    assert c / 4096 == c / 64 / 64 && c / 262144 == c / 64 / 64 / 64;
  }

  /** A well-formed sequence has the digits its length allows. */
  lemma DecodeRange(s: seq<Byte>)
    requires SequenceLength(s) > 0
    ensures var n, c := SequenceLength(s), Decode(s);
      && Scalar(c)
      && (n == 1 <==> c <= 0x7F) && (n == 2 <==> 0x7F < c <= 0x7FF) && (n == 3 <==> 0x7FF < c <= 0xFFFF)
  {
  }

  lemma TailsAreDigits(s: seq<Byte>)
    requires SequenceLength(s) > 0
    ensures var n := SequenceLength(s);
      && (forall i :: 0 < i < n ==> 0x80 <= s[i] < 0xC0)
      && (n == 2 ==> 0xC0 <= s[0] < 0xE0) && (n == 3 ==> 0xE0 <= s[0] < 0xF0) && (n == 4 ==> 0xF0 <= s[0] < 0xF8)
  {
  }

  lemma DecodeThenEncode(s: seq<Byte>)
    requires SequenceLength(s) > 0
    ensures Scalar(Decode(s)) && Encode(Decode(s)) == s[..SequenceLength(s)]
  {
    DecodeRange(s);
    TailsAreDigits(s);
    hide SequenceLength, Scalar, Digits;
    var n := SequenceLength(s);
    match n {
      case 1 =>
      case 2 => DigitsBack(0, 0, s[0] - 0xC0, s[1] - 0x80);
      case 3 => DigitsBack(0, s[0] - 0xE0, s[1] - 0x80, s[2] - 0x80);
      case _ => DigitsBack(s[0] - 0xF0, s[1] - 0x80, s[2] - 0x80, s[3] - 0x80);
    }
  }

  /** The digits of a scalar value are within the bounds of section 4. */
  lemma EncodeBounds(c: nat)
    requires Scalar(c)
    ensures 0x7F < c <= 0x7FF ==> 2 <= c / 64 <= 31
    ensures 0x7FF < c <= 0xFFFF ==>
      c / 4096 <= 15 && (c / 4096 == 0 ==> c / 64 % 64 >= 0x20) && (c / 4096 == 13 ==> c / 64 % 64 <= 0x1F)
    ensures 0xFFFF < c ==>
      c / 262144 <= 4 && (c / 262144 == 0 ==> c / 4096 % 64 >= 0x10) && (c / 262144 == 4 ==> c / 4096 % 64 <= 0x0F)
  {
  }

  lemma EncodeIsOneSequence(c: nat, rest: seq<Byte>)
    requires Scalar(c)
    ensures SequenceLength(Encode(c) + rest) == |Encode(c)|
  {
    var e := Encode(c);
    var s := e + rest;
    assert forall i :: 0 <= i < |e| ==> s[i] == e[i];
    EncodeBounds(c);
  }

  lemma EncodeThenDecode(c: nat, rest: seq<Byte>)
    requires Scalar(c)
    ensures SequenceLength(Encode(c) + rest) == |Encode(c)| && Decode(Encode(c) + rest) == c
  {
    EncodeIsOneSequence(c, rest);
    DigitsOf(c);
    SmallDigits(c);
    hide SequenceLength, Digits;
    var e := Encode(c);
    var s := e + rest;
    assert forall i :: 0 <= i < |e| ==> s[i] == e[i];
  }

  lemma SmallDigits(c: nat)
    ensures c <= 0x7FF ==> c / 262144 == 0 && c / 4096 % 64 == 0 && c / 64 % 64 == c / 64
    ensures c <= 0xFFFF ==> c / 262144 == 0 && c / 4096 % 64 == c / 4096
  {
  }

  lemma EncodeLength(c: nat)
    requires Scalar(c)
    ensures 1 <= |Encode(c)| <= 4
  {
  }

  function EncodeAll(cs: seq<nat>): seq<Byte>
    requires forall c :: c in cs ==> Scalar(c)
  {
    if cs == [] then [] else Encode(cs[0]) + EncodeAll(cs[1..])
  }

  function DecodeAll(s: seq<Byte>): (cs: seq<nat>)
    requires Valid(s)
  {
    if s == [] then [] else [Decode(s)] + DecodeAll(s[SequenceLength(s)..])
  }

  /** The strings the validator accepts are exactly the encodings of sequences of Unicode characters. */
  lemma {:induction false} ValidHasDecoding(s: seq<Byte>)
    requires Valid(s)
    ensures forall c :: c in DecodeAll(s) ==> Scalar(c)
    ensures EncodeAll(DecodeAll(s)) == s
  {
    hide SequenceLength, Decode, Encode;
    if s != [] {
      var n := SequenceLength(s);
      DecodeThenEncode(s);
      ValidHasDecoding(s[n..]);
      assert s == s[..n] + s[n..];
      assert DecodeAll(s)[1..] == DecodeAll(s[n..]);
    }
  }

  lemma {:induction false} EncodingIsValid(cs: seq<nat>)
    requires forall c :: c in cs ==> Scalar(c)
    ensures Valid(EncodeAll(cs)) && DecodeAll(EncodeAll(cs)) == cs
  {
    hide SequenceLength, Decode, Encode;
    if cs != [] {
      assert |Encode(cs[0])| > 0 by { EncodeLength(cs[0]); }
      var e, r := Encode(cs[0]), EncodeAll(cs[1..]);
      EncodeThenDecode(cs[0], r);
      EncodingIsValid(cs[1..]);
      assert (e + r)[|e|..] == r;
    }
  }

  // ------------------------------------------------------------------ the repair loop

  /** Each byte that starts no well-formed sequence becomes a question mark. */
  function Repaired(s: seq<Byte>): (r: seq<Byte>)
    ensures |r| == |s|
  {
    if s == [] then []
    else
      var n := SequenceLength(s);
      if n == 0 then [QUESTION] + Repaired(s[1..]) else s[..n] + Repaired(s[n..])
  }

  /** Position `i` is where reading `s` from its start, sequence by sequence or invalid byte by invalid
      byte, begins something new. */
  predicate Boundary(s: seq<Byte>, i: nat)
    requires i < |s|
  {
    var n := SequenceLength(s);
    var step := if n == 0 then 1 else n;
    i == 0 || (step <= i && Boundary(s[step..], i - step))
  }

  lemma SequenceLengthLocal(s: seq<Byte>, t: seq<Byte>)
    requires SequenceLength(s) > 0
    ensures SequenceLength(s[..SequenceLength(s)] + t) == SequenceLength(s)
  {
  }

  /** Main result: the repaired string is valid. */
  lemma {:induction false} RepairedIsValid(s: seq<Byte>)
    ensures Valid(Repaired(s))
  {
    if s != [] {
      var n := SequenceLength(s);
      if n == 0 {
        RepairedIsValid(s[1..]);
        assert Repaired(s)[1..] == Repaired(s[1..]);
      } else {
        RepairedIsValid(s[n..]);
        SequenceLengthLocal(s, Repaired(s[n..]));
        assert Repaired(s)[n..] == Repaired(s[n..]);
      }
    }
  }

  /** Main result: exactly the bytes that start an invalid sequence are changed. */
  lemma {:induction false} RepairChangesOnly(s: seq<Byte>, i: nat)
    requires i < |s|
    ensures Repaired(s)[i] == if Boundary(s, i) && SequenceLength(s[i..]) == 0 then 0x3F else s[i]
  {
    hide SequenceLength;
    var n := SequenceLength(s);
    var step := if n == 0 then 1 else n;
    if i == 0 {
      assert s[0..] == s;
    } else if i >= step {
      RepairChangesOnly(s[step..], i - step);
      assert s[step..][i - step..] == s[i..];
    }
  }

  /** Main result: ASCII bytes survive, and no other byte turns into NUL. */
  lemma RepairKeepsAscii(s: seq<Byte>, i: nat)
    requires i < |s|
    ensures s[i] <= 0x7F ==> Repaired(s)[i] == s[i]
    ensures s[i] != 0 ==> Repaired(s)[i] != 0
  {
    RepairChangesOnly(s, i);
    assert s[i..][0] == s[i];
  }

  /** Main result: valid messages, and only they, are left as they are. */
  lemma {:induction false} RepairLeavesValid(s: seq<Byte>)
    ensures Repaired(s) == s <==> Valid(s)
  {
    if s != [] {
      var n := SequenceLength(s);
      if n == 0 {
        assert s[0] != QUESTION;
        assert Repaired(s)[0] == QUESTION;
      } else {
        RepairLeavesValid(s[n..]);
        assert s == s[..n] + s[n..];
        assert Repaired(s)[n..] == Repaired(s[n..]);
      }
    }
  }

  /** The longest valid prefix is left alone, and what follows it starts with an error. */
  lemma {:induction false} RepairSkipsValid(s: seq<Byte>)
    ensures var k := ValidPrefix(s);
            Repaired(s) == s[..k] + Repaired(s[k..]) && SequenceLength(s[k..]) == 0
  {
    hide SequenceLength;
    var k, n := ValidPrefix(s), SequenceLength(s);
    if n == 0 {
      assert s[0..] == s;
    } else {
      RepairSkipsValid(s[n..]);
      assert s[n..][k - n..] == s[k..];
      Regroup(s, n, k, Repaired(s[k..]));
    }
  }

  lemma Regroup(s: seq<Byte>, n: nat, k: nat, rest: seq<Byte>)
    requires n <= k <= |s|
    ensures s[..n] + (s[n..][..k - n] + rest) == s[..k] + rest
  {
    assert s[n..][..k - n] == s[n..k];
  }

  lemma Associate(a: seq<Byte>, b: seq<Byte>, c: seq<Byte>, d: seq<Byte>)
    ensures a + (b + (c + d)) == a + b + c + d
  {
  }

  /** One round of the loop, which has `head` behind it. */
  lemma OneRound(head: seq<Byte>, s: seq<Byte>)
    requires ValidPrefix(s) < |s|
    ensures var k := ValidPrefix(s); head + Repaired(s) == head + s[..k] + [QUESTION] + Repaired(s[k + 1..])
  {
    hide SequenceLength, Repaired, ValidPrefix;
    var k := ValidPrefix(s);
    RepairSkipsValid(s);
    RepairError(s[k..]);
    assert s[k..][1..] == s[k + 1..];
    Associate(head, s[..k], [QUESTION], Repaired(s[k + 1..]));
  }

  /** Overwriting place `q` of `s`, seen from place `p`. */
  lemma Overwritten(s: seq<Byte>, p: nat, q: nat, end: nat)
    requires p <= q < end <= |s|
    ensures var t, rest := s[q := QUESTION], s[p..end];
      && t[..q + 1] == s[..p] + rest[..q - p] + [QUESTION]
      && t[q + 1..end] == rest[q - p + 1..]
  {
  }

  lemma RepairError(s: seq<Byte>)
    requires s != [] && SequenceLength(s) == 0
    ensures Repaired(s) == [QUESTION] + Repaired(s[1..])
  {
  }

  predicate NulTerminated(a: seq<Byte>) {
    && |a| > 0
    && a[|a| - 1] == 0
    && forall i :: 0 <= i < |a| - 1 ==> a[i] != 0
  }

  /** The loop of pam_conversation, on a C string. */
  method RepairInPlace(a: array<Byte>)
    requires NulTerminated(a[..])
    modifies a
    ensures a[..] == Repaired(old(a[..a.Length - 1])) + [0]
    ensures NulTerminated(a[..])
  {
    hide SequenceLength, Repaired, ValidPrefix;
    var end := a.Length - 1;
    ghost var was := a[..end];
    var p := 0;
    while p < end
      invariant 0 <= p <= end
      invariant a[..p] + Repaired(a[p..end]) == Repaired(was)
      invariant NulTerminated(a[..])
    {
      // g_utf8_validate (p, -1, &q)
      ghost var before, head, rest := a[..], a[..p], a[p..end];
      var q := p + ValidPrefix(a[p..end]);
      if q == end {
        RepairSkipsValid(rest);
        assert rest[..|rest|] == rest && rest[|rest|..] == [] && Repaired([]) == [];
        break;
      }
      OneRound(head, rest);
      Overwritten(before, p, q, end);
      assert before[..p] == head && before[p..end] == rest;
      a[q] := QUESTION;
      p := q + 1;
      assert a[..] == before[q := QUESTION];
      assert a[..p] == a[..][..p] && a[p..end] == a[..][p..end];
    }
    if p == end {
      assert a[p..end] == [] && Repaired([]) == [];
    }
    assert a[..end] == a[..p] + a[p..end];
    assert a[..] == a[..end] + [0];
  }
}
