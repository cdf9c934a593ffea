/** The base64 form (section 4 of RFC 4648, with padding) in which encoding/json writes a byte slice. */
module Base64 {
  import opened Basics

  type Sextet = n: int | 0 <= n < 64

  /** The alphabet A-Z, a-z, 0-9, +, /. */
  function Letter(n: Sextet): char {
    if n < 26 then ('A' as int + n) as char
    else if n < 52 then ('a' as int + (n - 26)) as char
    else if n < 62 then ('0' as int + (n - 52)) as char
    else if n == 62 then '+'
    else '/'
  }

  function LetterValue(c: char): Option<Sextet> {
    if 'A' <= c <= 'Z' then Some(c as int - 'A' as int)
    else if 'a' <= c <= 'z' then Some(c as int - 'a' as int + 26)
    else if '0' <= c <= '9' then Some(c as int - '0' as int + 52)
    else if c == '+' then Some(62)
    else if c == '/' then Some(63)
    else None
  }

  /** The four letters of three bytes. */
  function Quad(a: Byte, b: Byte, c: Byte): string {
    [Letter(a / 4), Letter(a % 4 * 16 + b / 16), Letter(b % 16 * 4 + c / 64), Letter(c % 64)]
  }

  function Encode(bytes: seq<Byte>): string
    decreases |bytes|
  {
    if |bytes| == 0 then []
    else if |bytes| == 1 then Quad(bytes[0], 0, 0)[..2] + "=="
    else if |bytes| == 2 then Quad(bytes[0], bytes[1], 0)[..3] + "="
    else Quad(bytes[0], bytes[1], bytes[2]) + Encode(bytes[3..])
  }

  /** The three bytes of four letters. */
  function Unquad(w: Sextet, x: Sextet, y: Sextet, z: Sextet): seq<Byte> {
    [w * 4 + x / 16, x % 16 * 16 + y / 4, y % 4 * 64 + z]
  }

  function Decode(t: string): Option<seq<Byte>>
    decreases |t|
  {
    if t == [] then Some([])
    else if |t| < 4 then None
    else if |t| == 4 && t[2] == '=' && t[3] == '=' then
      match (LetterValue(t[0]), LetterValue(t[1]))
      case (Some(w), Some(x)) => Some(Unquad(w, x, 0, 0)[..1])
      case _ => None
    else if |t| == 4 && t[3] == '=' then
      match (LetterValue(t[0]), LetterValue(t[1]), LetterValue(t[2]))
      case (Some(w), Some(x), Some(y)) => Some(Unquad(w, x, y, 0)[..2])
      case _ => None
    else
      match (LetterValue(t[0]), LetterValue(t[1]), LetterValue(t[2]), LetterValue(t[3]))
      case (Some(w), Some(x), Some(y), Some(z)) =>
        (match Decode(t[4..])
         case Some(rest) => Some(Unquad(w, x, y, z) + rest)
         case None => None)
      case _ => None
  }

  lemma LetterReads(n: Sextet)
    ensures LetterValue(Letter(n)) == Some(n) && Letter(n) != '='
  {
  }

  lemma QuadReads(a: Byte, b: Byte, c: Byte)
    ensures Unquad(a / 4, a % 4 * 16 + b / 16, b % 16 * 4 + c / 64, c % 64) == [a, b, c]
  {
  }

  /** Each group of four letters reads as the bytes it was made of. */
  lemma QuadLetters(a: Byte, b: Byte, c: Byte)
    ensures var q := Quad(a, b, c);
            && LetterValue(q[0]) == Some(a / 4) && LetterValue(q[1]) == Some(a % 4 * 16 + b / 16)
            && LetterValue(q[2]) == Some(b % 16 * 4 + c / 64) && LetterValue(q[3]) == Some(c % 64)
            && q[2] != '=' && q[3] != '='
  {
    LetterReads(a / 4);
    LetterReads(a % 4 * 16 + b / 16);
    LetterReads(b % 16 * 4 + c / 64);
    LetterReads(c % 64);
  }

  lemma DecodesOne(bytes: seq<Byte>)
    requires |bytes| == 1
    ensures Decode(Quad(bytes[0], 0, 0)[..2] + "==") == Some(bytes)
  {
    var a := bytes[0];
    var t := Quad(a, 0, 0)[..2] + "==";
    QuadLetters(a, 0, 0);
    QuadReads(a, 0, 0);
    assert |t| == 4 && t[0] == Quad(a, 0, 0)[0] && t[1] == Quad(a, 0, 0)[1] && t[2] == '=' && t[3] == '=';
    assert [a, 0 as Byte, 0 as Byte][..1] == bytes;
  }

  lemma ThreeLettersRead(t: string, w: Sextet, x: Sextet, y: Sextet)
    requires |t| == 4 && t[2] != '=' && t[3] == '='
    requires LetterValue(t[0]) == Some(w) && LetterValue(t[1]) == Some(x) && LetterValue(t[2]) == Some(y)
    ensures Decode(t) == Some(Unquad(w, x, y, 0)[..2])
  {
  }

  lemma DecodesTwo(bytes: seq<Byte>)
    requires |bytes| == 2
    ensures Decode(Quad(bytes[0], bytes[1], 0)[..3] + "=") == Some(bytes)
  {
    var a, b := bytes[0], bytes[1];
    QuadLetters(a, b, 0);
    QuadReads(a, b, 0);
    ThreeLettersRead(Quad(a, b, 0)[..3] + "=", a / 4, a % 4 * 16 + b / 16, b % 16 * 4);
    assert [a, b, 0 as Byte][..2] == bytes;
  }

  lemma DecodesQuad(a: Byte, b: Byte, c: Byte, t: string)
    requires Decode(t).Some?
    ensures Decode(Quad(a, b, c) + t) == Some([a, b, c] + Decode(t).value)
  {
    var q := Quad(a, b, c);
    QuadLetters(a, b, c);
    QuadReads(a, b, c);
    assert (q + t)[4..] == t;
    assert forall k :: 0 <= k < 4 ==> (q + t)[k] == q[k];
  }

  lemma {:induction false} DecodeEncode(bytes: seq<Byte>)
    ensures Decode(Encode(bytes)) == Some(bytes)
    decreases |bytes|
  {
    if |bytes| > 2 {
      DecodeEncode(bytes[3..]);
      DecodesQuad(bytes[0], bytes[1], bytes[2], Encode(bytes[3..]));
      FirstThree(bytes);
    } else if |bytes| == 2 {
      DecodesTwo(bytes);
    } else if |bytes| == 1 {
      DecodesOne(bytes);
    }
  }

  lemma FirstThree(bytes: seq<Byte>)
    requires |bytes| > 2
    ensures [bytes[0], bytes[1], bytes[2]] + bytes[3..] == bytes
  {
  }

  // ----- The standard form -----

  /** The letters of table 1 of RFC 4648, in its order. */
  lemma AlphabetIsStandard(n: Sextet)
    ensures Letter(0) == 'A' && Letter(26) == 'a' && Letter(52) == '0' && Letter(62) == '+' && Letter(63) == '/'
    ensures n != 25 && n != 51 && n < 61 ==> Letter(n + 1) as int == Letter(n) as int + 1
  {
  }

  /** Four letters, as the digits of a number to base 64, are three bytes as those of one to base 256. */
  lemma QuadHasTheValue(a: Byte, b: Byte, c: Byte)
    ensures |Quad(a, b, c)| == 4 && forall k :: 0 <= k < 4 ==> LetterValue(Quad(a, b, c)[k]).Some?
    ensures var q := Quad(a, b, c);
            var n := k requires 0 <= k < 4 => LetterValue(q[k]).value as int;
            262144 * n(0) + 4096 * n(1) + 64 * n(2) + n(3) == 65536 * a + 256 * b + c
  {
    QuadLetters(a, b, c);
    LetterReads(a / 4);
  }

  /** The last group is filled up: with one sign after two bytes that are left, with two after one. */
  lemma LastGroupIsFilled(bytes: seq<Byte>)
    requires |bytes| < 3
    ensures |Encode(bytes)| == if bytes == [] then 0 else 4
    ensures |bytes| == 1 ==> Encode(bytes)[2] == '=' && Encode(bytes)[3] == '='
    ensures |bytes| == 2 ==> Encode(bytes)[2] != '=' && Encode(bytes)[3] == '='
  {
    if |bytes| == 2 {
      QuadLetters(bytes[0], bytes[1], 0);
    }
  }
}
