/** Text as bytes, the way Go holds it (RFC 3629): what JSON documents are sent as. */
module Utf8 {
  import opened Basics

  const REPLACEMENT: char := 0xFFFD as char

  function EncodeChar(c: char): (bytes: seq<Byte>)
    ensures |bytes| > 0
  {
    var n := c as int;
    if n < 0x80 then [n]
    else if n < 0x800 then [0xC0 + n / 64, 0x80 + n % 64]
    else if n < 0x1_0000 then [0xE0 + n / 4096, 0x80 + n / 64 % 64, 0x80 + n % 64]
    else [0xF0 + n / 262144, 0x80 + n / 4096 % 64, 0x80 + n / 64 % 64, 0x80 + n % 64]
  }

  function Encode(s: string): seq<Byte> {
    if s == [] then [] else EncodeChar(s[0]) + Encode(s[1..])
  }

  predicate Continues(b: Byte) {
    0x80 <= b < 0xC0
  }

  function Tail(b: Byte): int {
    b as int - 0x80
  }

  /** The first character and the number of bytes it takes; an invalid byte reads as U+FFFD. */
  function DecodeChar(bytes: seq<Byte>): (r: (char, nat))
    requires bytes != []
    ensures 1 <= r.1 <= |bytes|
  {
    var b: int := bytes[0];
    if b < 0x80 then (b as char, 1)
    else if 0xC0 <= b < 0xE0 && |bytes| >= 2 && Continues(bytes[1]) then
      var n := 64 * (b - 0xC0) + Tail(bytes[1]);
      if n >= 0x80 then (n as char, 2) else (REPLACEMENT, 1)
    else if 0xE0 <= b < 0xF0 && |bytes| >= 3 && Continues(bytes[1]) && Continues(bytes[2]) then
      var n := 4096 * (b - 0xE0) + 64 * Tail(bytes[1]) + Tail(bytes[2]);
      if n >= 0x800 && !(0xD800 <= n < 0xE000) then (n as char, 3) else (REPLACEMENT, 1)
    else if 0xF0 <= b < 0xF8 && |bytes| >= 4 && Continues(bytes[1]) && Continues(bytes[2]) && Continues(bytes[3]) then
      var n := 262144 * (b - 0xF0) + 4096 * Tail(bytes[1]) + 64 * Tail(bytes[2]) + Tail(bytes[3]);
      if 0x1_0000 <= n < 0x11_0000 then (n as char, 4) else (REPLACEMENT, 1)
    else (REPLACEMENT, 1)
  }

  function Decode(bytes: seq<Byte>): string
    decreases |bytes|
  {
    if bytes == [] then []
    else
      var (c, used) := DecodeChar(bytes);
      [c] + Decode(bytes[used..])
  }

  /** The six-bit groups of a code point make it up again. */
  lemma GroupsAddUp(n: nat)
    requires n < 0x11_0000
    ensures n == 64 * (n / 64) + n % 64
    ensures n == 4096 * (n / 4096) + 64 * (n / 64 % 64) + n % 64
    ensures n == 262144 * (n / 262144) + 4096 * (n / 4096 % 64) + 64 * (n / 64 % 64) + n % 64
    ensures n / 262144 < 5 && (n < 0x1_0000 ==> n / 4096 < 16) && (n < 0x800 ==> n / 64 < 32)
  {
  }

  lemma DecodesCharAlone(c: char)
    ensures DecodeChar(EncodeChar(c)) == (c, |EncodeChar(c)|)
  {
    GroupsAddUp(c as int);
  }

  /** What follows a complete character does not change how it is read. */
  lemma DecodeIgnoresRest(c: char, bytes: seq<Byte>, rest: seq<Byte>)
    requires bytes == EncodeChar(c)
    ensures DecodeChar(bytes + rest) == DecodeChar(bytes)
  {
  }

  lemma DecodesChar(c: char, rest: seq<Byte>)
    ensures DecodeChar(EncodeChar(c) + rest) == (c, |EncodeChar(c)|)
  {
    DecodesCharAlone(c);
    DecodeIgnoresRest(c, EncodeChar(c), rest);
  }

  lemma {:induction false} DecodeEncode(s: string)
    ensures Decode(Encode(s)) == s
  {
    if s != [] {
      DecodesChar(s[0], Encode(s[1..]));
      DecodeEncode(s[1..]);
      assert Encode(s)[|EncodeChar(s[0])|..] == Encode(s[1..]);
      assert [s[0]] + s[1..] == s;
    }
  }

  /** A byte below 0x80 stands for itself and is part of no other character. */
  lemma {:induction false} AsciiStandsAlone(s: string, c: char)
    requires c as int < 0x80
    ensures c as int in Encode(s) <==> c in s
  {
    if s != [] {
      AsciiStandsAlone(s[1..], c);
      assert c as int in EncodeChar(s[0]) <==> c == s[0];
      assert s == [s[0]] + s[1..];
    }
  }

  /** The table of section 3 of RFC 3629: how many bytes, how each begins, and what they add up to. */
  lemma FormIsStandard(c: char)
    ensures var n, bytes := c as int, EncodeChar(c);
            && (forall k :: 1 <= k < |bytes| ==> Continues(bytes[k]))
            && (n < 0x80 ==> bytes == [n])
            && (0x80 <= n < 0x800 ==> |bytes| == 2 && n + 0xC0 * 64 == bytes[0] * 64 + Tail(bytes[1]))
            && (0x800 <= n < 0x1_0000 ==>
                  |bytes| == 3 && n + 0xE0 * 4096 == bytes[0] * 4096 + Tail(bytes[1]) * 64 + Tail(bytes[2]))
            && (0x1_0000 <= n ==>
                  && |bytes| == 4
                  && n + 0xF0 * 262144 ==
                     bytes[0] * 262144 + Tail(bytes[1]) * 4096 + Tail(bytes[2]) * 64 + Tail(bytes[3]))
    ensures forall b: Byte :: Continues(b) <==> 0x80 <= b < 0xC0
    ensures forall b: Byte :: Tail(b) == b - 0x80
  {
    GroupsAddUp(c as int);
  }
}
