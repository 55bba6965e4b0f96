/** Well-formed UTF-8 is what encoding characters gives, and nothing else. */
module Utf8 {
  import opened Wrappers
  import opened Bytes

  /** The numbers of characters: all below 0x110000 but the surrogates. */
  predicate IsChar(c: nat) {
    c < 0xD800 || 0xE000 <= c < 0x11_0000
  }

  /** One character as one to four bytes, six bits in each after the first. */
  function EncodeChar(c: nat): (s: seq<byte>)
    requires IsChar(c)
    ensures s != []
  {
    if c < 0x80 then [c]
    else if c < 0x800 then [0xC0 + c / 64, 0x80 + c % 64]
    else if c < 0x1_0000 then [0xE0 + c / 4096, 0x80 + c / 64 % 64, 0x80 + c % 64]
    else [0xF0 + c / 262144, 0x80 + c / 4096 % 64, 0x80 + c / 64 % 64, 0x80 + c % 64]
  }

  function EncodeChars(chars: seq<nat>): seq<byte>
    requires forall i :: 0 <= i < |chars| ==> IsChar(chars[i])
  {
    if chars == [] then [] else EncodeChar(chars[0]) + EncodeChars(chars[1..])
  }

  lemma {:induction false} TwoBytes(a: byte, b: byte) returns (c: nat)
    requires 0xC2 <= a <= 0xDF && 0x80 <= b <= 0xBF
    ensures IsChar(c) && EncodeChar(c) == [a, b]
  {
    c := (a - 0xC0) * 64 + (b - 0x80);
    assert c / 64 == a - 0xC0;
  }

  lemma {:induction false} ThreeBytes(a: byte, b: byte, d: byte) returns (c: nat)
    requires 0xE0 <= a <= 0xEF && 0x80 <= b <= 0xBF && 0x80 <= d <= 0xBF
    requires (a == 0xE0 ==> b >= 0xA0) && (a == 0xED ==> b <= 0x9F)
    ensures IsChar(c) && EncodeChar(c) == [a, b, d]
  {
    c := (a - 0xE0) * 4096 + (b - 0x80) * 64 + (d - 0x80);
    assert c / 64 == (a - 0xE0) * 64 + (b - 0x80);
    assert c / 4096 == a - 0xE0;
  }

  lemma {:induction false} FourBytes(a: byte, b: byte, d: byte, e: byte) returns (c: nat)
    requires 0xF0 <= a <= 0xF4 && 0x80 <= b <= 0xBF && 0x80 <= d <= 0xBF && 0x80 <= e <= 0xBF
    requires (a == 0xF0 ==> b >= 0x90) && (a == 0xF4 ==> b <= 0x8F)
    ensures IsChar(c) && EncodeChar(c) == [a, b, d, e]
  {
    c := (a - 0xF0) * 262144 + (b - 0x80) * 4096 + (d - 0x80) * 64 + (e - 0x80);
    assert c / 64 == (a - 0xF0) * 4096 + (b - 0x80) * 64 + (d - 0x80);
    assert c / 4096 == (a - 0xF0) * 64 + (b - 0x80);
    assert c / 262144 == a - 0xF0;
  }

  /** A well-formed start is the encoding of a character. */
  lemma {:induction false} FirstChar(s: seq<byte>) returns (c: nat)
    requires s != [] && CharLength(s) > 0
    ensures IsChar(c) && s[..CharLength(s)] == EncodeChar(c)
  {
    hide EncodeChar;
    var n := CharLength(s);
    assert n <= 4;
    if n == 1 {
      c := s[0];
      OneByte(s[0]);
    } else if n == 2 {
      assert Between(s[1], 0x80, 0xBF);
      c := TwoBytes(s[0], s[1]);
    } else if n == 3 {
      assert Between(s[1], 0x80, 0xBF) && Between(s[2], 0x80, 0xBF);
      c := ThreeBytes(s[0], s[1], s[2]);
    } else {
      assert Between(s[1], 0x80, 0xBF) && Between(s[2], 0x80, 0xBF) && Between(s[3], 0x80, 0xBF);
      c := FourBytes(s[0], s[1], s[2], s[3]);
    }
  }

  lemma {:induction false} OneByte(b: byte)
    requires b < 0x80
    ensures EncodeChar(b) == [b]
  {
  }

  lemma {:induction false} CharStarts(c: nat, rest: seq<byte>)
    requires IsChar(c)
    ensures CharLength(EncodeChar(c) + rest) == |EncodeChar(c)|
  {
    var s := EncodeChar(c) + rest;
    if c >= 0x80 && c < 0x800 {
      assert s[1] == 0x80 + c % 64;
    } else if c >= 0x800 && c < 0x1_0000 {
      assert s[1] == 0x80 + c / 64 % 64 && s[2] == 0x80 + c % 64;
      SecondOfThree(c);
    } else if c >= 0x1_0000 {
      assert s[1] == 0x80 + c / 4096 % 64 && s[2] == 0x80 + c / 64 % 64 && s[3] == 0x80 + c % 64;
      SecondOfFour(c);
    }
  }

  lemma {:induction false} SecondOfThree(c: nat)
    requires 0x800 <= c < 0x1_0000 && IsChar(c)
    ensures c / 4096 == 0 ==> c / 64 % 64 >= 0x20
    ensures c / 4096 == 13 ==> c / 64 % 64 <= 0x1F
    ensures c / 4096 <= 15
  {
    var q := c / 64;
    assert q / 64 == c / 4096;
  }

  lemma {:induction false} SecondOfFour(c: nat)
    requires 0x1_0000 <= c < 0x11_0000
    ensures c / 262144 == 0 ==> c / 4096 % 64 >= 0x10
    ensures c / 262144 == 4 ==> c / 4096 % 64 <= 0x0F
    ensures c / 262144 <= 4
  {
    var q := c / 4096;
    assert q / 64 == c / 262144;
  }

  lemma {:induction false} CharsOf(s: seq<byte>) returns (chars: seq<nat>)
    requires ValidUtf8(s)
    ensures (forall i :: 0 <= i < |chars| ==> IsChar(chars[i])) && EncodeChars(chars) == s
    decreases |s|
  {
    hide CharLength, EncodeChar, IsChar;
    if s == [] {
      chars := [];
    } else {
      var c := FirstChar(s);
      var n := CharLength(s);
      var others := CharsOf(s[n..]);
      chars := [c] + others;
      assert chars[1..] == others && s == s[..n] + s[n..];
    }
  }

  lemma {:induction false} CharsAreValid(chars: seq<nat>)
    requires forall i :: 0 <= i < |chars| ==> IsChar(chars[i])
    ensures ValidUtf8(EncodeChars(chars))
  {
    hide CharLength, EncodeChar, IsChar;
    if chars != [] {
      CharsAreValid(chars[1..]);
      var first, rest := EncodeChar(chars[0]), EncodeChars(chars[1..]);
      CharStarts(chars[0], rest);
      assert (first + rest)[|first|..] == rest;
    }
  }

  /** Bytes are well-formed UTF-8 exactly if they are the encoding of some characters. */
  lemma {:induction false} Utf8Means(s: seq<byte>)
    ensures ValidUtf8(s) <==>
      exists chars: seq<nat> :: (forall i :: 0 <= i < |chars| ==> IsChar(chars[i])) && EncodeChars(chars) == s
  {
    hide ValidUtf8, EncodeChars, IsChar;
    if ValidUtf8(s) {
      var chars := CharsOf(s);
    }
    forall chars: seq<nat> | (forall i :: 0 <= i < |chars| ==> IsChar(chars[i])) && EncodeChars(chars) == s ensures ValidUtf8(s) {
      CharsAreValid(chars);
    }
  }
}
