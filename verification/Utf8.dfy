/** Well-formed UTF-8, as section 4 of RFC 3629 defines it and Go's utf8.Valid decides it. */
module Utf8 {
  import opened ByteData

  predicate Ascii(b: byte) { b < 0x80 }

  predicate Continues(b: byte) { 0x80 <= b <= 0xBF }

  /** The length of the encoded character that `s` starts with, or 0 if it starts with none. */
  function CharLength(s: Bytes): (n: nat)
    ensures n <= 4 && n <= |s|
    ensures forall i | 1 <= i < n :: Continues(s[i])
  {
    if s == [] then 0
    else if Ascii(s[0]) then 1
    else if |s| >= 2 && 0xC2 <= s[0] <= 0xDF && Continues(s[1]) then 2
    else if |s| >= 3 && SecondOfThree(s[0], s[1]) && Continues(s[2]) then 3
    else if |s| >= 4 && SecondOfFour(s[0], s[1]) && Continues(s[2]) && Continues(s[3]) then 4
    else 0
  }

  /** No overlong form and no surrogate. */
  predicate SecondOfThree(first: byte, second: byte) {
    || (first == 0xE0 && 0xA0 <= second <= 0xBF)
    || (first == 0xED && 0x80 <= second <= 0x9F)
    || (0xE1 <= first <= 0xEF && first != 0xED && Continues(second))
  }

  /** No overlong form and nothing above U+10FFFF. */
  predicate SecondOfFour(first: byte, second: byte) {
    || (first == 0xF0 && 0x90 <= second <= 0xBF)
    || (0xF1 <= first <= 0xF3 && Continues(second))
    || (first == 0xF4 && 0x80 <= second <= 0x8F)
  }

  predicate Valid(s: Bytes) { s == [] || (CharLength(s) > 0 && Valid(s[CharLength(s)..])) }

  /** The first character does not depend on what follows it. */
  lemma LengthJoin(a: Bytes, b: Bytes)
    requires CharLength(a) > 0
    ensures CharLength(a + b) == CharLength(a)
  {
  }

  lemma {:induction false} ValidJoin(a: Bytes, b: Bytes)
    requires Valid(a) && Valid(b)
    ensures Valid(a + b)
    decreases |a|
  {
    if a == [] {
      assert a + b == b;
    } else {
      var n := CharLength(a);
      LengthJoin(a, b);
      assert (a + b)[n..] == a[n..] + b;
      ValidJoin(a[n..], b);
    }
  }

  /** A character that ends before an ASCII byte is a character without it. */
  lemma LengthBefore(a: Bytes, x: byte, b: Bytes)
    requires a != [] && Ascii(x)
    ensures CharLength(a + [x] + b) <= |a|
    ensures CharLength(a) == CharLength(a + [x] + b)
  {
    var s := a + [x] + b;
    assert s[|a|] == x && forall i | 0 <= i < |a| :: s[i] == a[i];
    assert !Continues(s[|a|]);
  }

  /** Cutting at an ASCII byte leaves both sides well-formed. */
  lemma {:induction false} ValidSplit(a: Bytes, x: byte, b: Bytes)
    requires Ascii(x) && Valid(a + [x] + b)
    ensures Valid(a) && Valid(b)
    decreases |a|
  {
    var s := a + [x] + b;
    if a == [] {
      assert s[1..] == b;
    } else {
      var n := CharLength(s);
      LengthBefore(a, x, b);
      assert s[n..] == a[n..] + [x] + b;
      ValidSplit(a[n..], x, b);
    }
  }

  // ----- what is well-formed

  /** A Unicode scalar value: a code point that is no surrogate. */
  predicate Scalar(c: int) { 0 <= c <= 0xD7FF || 0xE000 <= c <= 0x10FFFF }

  /** A byte other than the first, and its six bits. */
  predicate Follows(b: byte) { 0x80 <= b <= 0xBF }

  /** `s` is the encoding of scalar value c in one to four bytes, by the table in section 3 of RFC 3629: the shortest that holds it. */
  predicate Encodes(s: Bytes, c: int) {
    Scalar(c) &&
    if c < 0x80 then |s| == 1 && s[0] as int == c
    else if c < 0x800 then
      |s| == 2 && 0xC0 <= s[0] <= 0xDF && Follows(s[1]) && c == (s[0] as int - 0xC0) * 0x40 + (s[1] as int - 0x80)
    else if c < 0x1_0000 then
      && |s| == 3 && 0xE0 <= s[0] <= 0xEF && Follows(s[1]) && Follows(s[2])
      && c == (s[0] as int - 0xE0) * 0x1000 + (s[1] as int - 0x80) * 0x40 + (s[2] as int - 0x80)
    else
      && |s| == 4 && 0xF0 <= s[0] <= 0xF7 && Follows(s[1]) && Follows(s[2]) && Follows(s[3])
      && c == (s[0] as int - 0xF0) * 0x4_0000 + (s[1] as int - 0x80) * 0x1000 + (s[2] as int - 0x80) * 0x40 + (s[3] as int - 0x80)
  }

  /** `s` is the encodings of these scalar values, one after the other. */
  ghost predicate IsText(s: Bytes, cs: seq<int>)
    decreases |cs|
  {
    if cs == [] then s == []
    else exists n :: 0 < n <= |s| && Encodes(s[..n], cs[0]) && IsText(s[n..], cs[1..])
  }

  /** An encoding is a character, whatever follows it. */
  lemma EncodedIsChar(s: Bytes, n: nat, c: int)
    requires n <= |s| && Encodes(s[..n], c)
    ensures CharLength(s) == n > 0
  {
    assert forall i | 0 <= i < n :: s[..n][i] == s[i];
  }

  /** And every character is one. */
  lemma CharIsEncoded(s: Bytes) returns (c: int)
    requires CharLength(s) > 0
    ensures Encodes(s[..CharLength(s)], c)
  {
    var n := CharLength(s);
    assert forall i | 0 <= i < n :: s[..n][i] == s[i];
    if n == 1 {
      c := s[0] as int;
    } else if n == 2 {
      c := (s[0] as int - 0xC0) * 0x40 + (s[1] as int - 0x80);
    } else if n == 3 {
      c := (s[0] as int - 0xE0) * 0x1000 + (s[1] as int - 0x80) * 0x40 + (s[2] as int - 0x80);
    } else {
      c := (s[0] as int - 0xF0) * 0x4_0000 + (s[1] as int - 0x80) * 0x1000 + (s[2] as int - 0x80) * 0x40 + (s[3] as int - 0x80);
    }
  }

  lemma {:induction false} TextIsValid(s: Bytes, cs: seq<int>)
    requires IsText(s, cs)
    ensures Valid(s)
    decreases |cs|
  {
    if cs != [] {
      var n :| 0 < n <= |s| && Encodes(s[..n], cs[0]) && IsText(s[n..], cs[1..]);
      EncodedIsChar(s, n, cs[0]);
      TextIsValid(s[n..], cs[1..]);
    }
  }

  lemma {:induction false} ValidIsText(s: Bytes) returns (cs: seq<int>)
    requires Valid(s)
    ensures IsText(s, cs)
    decreases |s|
  {
    if s == [] {
      cs := [];
    } else {
      var n := CharLength(s);
      var c := CharIsEncoded(s);
      var rest := ValidIsText(s[n..]);
      cs := [c] + rest;
      assert cs[1..] == rest;
      hide Encodes, CharLength;
      assert 0 < n <= |s| && Encodes(s[..n], cs[0]) && IsText(s[n..], cs[1..]);
    }
  }

  /** Well-formed is what encodes a sequence of Unicode scalar values, and nothing else. */
  lemma ValidExactly(s: Bytes)
    ensures Valid(s) <==> exists cs: seq<int> :: IsText(s, cs)
  {
    hide Valid, IsText;
    if Valid(s) {
      var cs := ValidIsText(s);
    }
    if cs: seq<int> :| IsText(s, cs) {
      TextIsValid(s, cs);
    }
  }
}
