/** Reading back what was written, for every value. */
module JsonRoundTrip {
  import opened Basics
  import opened Json

  /** Text that does not continue a number. */
  predicate EndsNumber(t: string) {
    t == [] || !IsDigit(t[0])
  }

  /** The first character of a text, and what follows it. */
  lemma Uncons(t: string, rest: string)
    requires t != []
    ensures (t + rest)[0] == t[0] && (t + rest)[1..] == t[1..] + rest
  {
  }

  // ----- Numbers -----

  /** The number that a string of digits continues `acc` to. */
  function DigitsValue(t: string, acc: nat): nat
    requires forall k :: 0 <= k < |t| ==> IsDigit(t[k])
  {
    if t == [] then acc
    else
      assert IsDigit(t[0]);
      DigitsValue(t[1..], 10 * acc + (t[0] as int - '0' as int))
  }

  lemma {:induction false} DigitsValueSnoc(t: string, c: char, acc: nat)
    requires IsDigit(c) && forall k :: 0 <= k < |t| ==> IsDigit(t[k])
    ensures DigitsValue(t + [c], acc) == 10 * DigitsValue(t, acc) + (c as int - '0' as int)
  {
    if t == [] {
      assert t + [c] == [c];
    } else {
      DigitsValueSnoc(t[1..], c, 10 * acc + (t[0] as int - '0' as int));
      assert (t + [c])[1..] == t[1..] + [c];
    }
  }

  lemma {:induction false} WrittenNat(n: nat)
    ensures DigitsValue(WriteNat(n), 0) == n
    ensures n > 0 ==> WriteNat(n)[0] != '0'
  {
    if n >= 10 {
      WrittenNat(n / 10);
      DigitsValueSnoc(WriteNat(n / 10), DIGITS[n % 10], 0);
    }
  }

  lemma {:induction false} ReadsDigits(t: string, rest: string, acc: nat)
    requires EndsNumber(rest) && forall k :: 0 <= k < |t| ==> IsDigit(t[k])
    ensures ReadDigits(t + rest, acc) == (DigitsValue(t, acc), rest)
  {
    if t == [] {
      assert t + rest == rest;
    } else {
      ReadsDigits(t[1..], rest, 10 * acc + (t[0] as int - '0' as int));
      assert (t + rest)[1..] == t[1..] + rest;
    }
  }

  lemma ReadsNat(n: nat, rest: string)
    requires EndsNumber(rest)
    ensures ReadNat(WriteNat(n) + rest) == Got(n, rest)
  {
    var t := WriteNat(n);
    WrittenNat(n);
    assert (t + rest)[0] == t[0] && (t + rest)[1..] == t[1..] + rest;
    if n == 0 {
      assert t == ['0'];
      assert t[1..] + rest == rest;
    } else {
      ReadsDigits(t[1..], rest, t[0] as int - '0' as int);
    }
  }

  lemma ReadsNegative(t: string, n: nat, rest: string)
    requires t != [] && t[0] == '-' && ReadNat(t[1..]) == Got(n, rest)
    ensures ReadNumber(t) == Got(Number(0 - n), rest)
  {
  }

  lemma ReadsInt(n: int, rest: string)
    requires EndsNumber(rest)
    ensures ReadNumber(WriteInt(n) + rest) == Got(Number(n), rest)
  {
    if n < 0 {
      Minus(n);
      Uncons(WriteInt(n), rest);
      ReadsNat(-n, rest);
      ReadsNegative(WriteInt(n) + rest, -n, rest);
    } else {
      Uncons(WriteNat(n), rest);
      ReadsNat(n, rest);
    }
  }

  lemma Minus(n: int)
    requires n < 0
    ensures WriteInt(n)[0] == '-' && WriteInt(n)[1..] == WriteNat(-n)
  {
  }

  // ----- Strings -----

  lemma HexReads(n: nat)
    requires n < 16
    ensures HexDigit(HEX[n]) == Some(n)
  {
  }

  lemma ReadsUnicode(c: char, rest: string)
    requires c as int < 0x1_0000
    ensures ReadUnicode(UnicodeEscape(c as int)[2..] + rest) == Got(c, rest)
  {
    var n := c as int;
    var hex := UnicodeEscape(n)[2..];
    HexReads(n / 16 / 16 / 16);
    HexReads(n / 16 / 16 % 16);
    HexReads(n / 16 % 16);
    HexReads(n % 16);
    assert hex == [HEX[n / 16 / 16 / 16], HEX[n / 16 / 16 % 16], HEX[n / 16 % 16], HEX[n % 16]];
    DropFirst(hex, rest);
  }

  lemma DropFirst(t: string, rest: string)
    ensures (t + rest)[|t|..] == rest && forall k :: 0 <= k < |t| ==> (t + rest)[k] == t[k]
  {
  }

  lemma UnicodeShape(n: nat)
    requires n < 0x1_0000
    ensures |UnicodeEscape(n)[1..]| == 5 && UnicodeEscape(n)[1..][0] == 'u'
    ensures UnicodeEscape(n)[1..][1..] == UnicodeEscape(n)[2..]
  {
  }

  lemma AfterTheU(u: string, rest: string)
    requires u != [] && u[0] == 'u'
    ensures ReadEscape(u + rest) == ReadUnicode(u[1..] + rest)
  {
    Uncons(u, rest);
  }

  lemma ReadsLongEscape(c: char, rest: string)
    requires c as int < 0x1_0000
    ensures ReadEscape(UnicodeEscape(c as int)[1..] + rest) == Got(c, rest)
  {
    UnicodeShape(c as int);
    AfterTheU(UnicodeEscape(c as int)[1..], rest);
    ReadsUnicode(c, rest);
  }

  /** What is written after a backslash reads as the character. */
  lemma ReadsEscape(c: char, rest: string)
    requires |EscapeChar(c)| > 1
    ensures EscapeChar(c)[0] == '\\'
    ensures ReadEscape(EscapeChar(c)[1..] + rest) == Got(c, rest)
  {
    var t := EscapeChar(c);
    if |t| == 2 {
      Uncons(t[1..], rest);
      assert t[1..][1..] + rest == rest;
    } else {
      ReadsLongEscape(c, rest);
    }
  }

  lemma AfterBackslash(t: string, rest: string, c: char)
    requires |t| > 1 && t[0] == '\\' && ReadEscape(t[1..] + rest) == Got(c, rest)
    ensures ReadChars(t + rest) == Prepend(c, ReadChars(rest))
  {
  }

  lemma PlainChar(c: char, rest: string)
    requires |EscapeChar(c)| == 1
    ensures ReadChars([c] + rest) == Prepend(c, ReadChars(rest))
  {
  }

  lemma ReadsEscapedChar(c: char, rest: string)
    ensures ReadChars(EscapeChar(c) + rest) == Prepend(c, ReadChars(rest))
  {
    if |EscapeChar(c)| == 1 {
      PlainChar(c, rest);
    } else {
      ReadsEscape(c, rest);
      AfterBackslash(EscapeChar(c), rest, c);
    }
  }

  lemma {:induction false} ReadsChars(s: string, rest: string)
    ensures ReadChars(EscapeAll(s) + ['\"'] + rest) == Got(s, rest)
  {
    if s == [] {
      assert EscapeAll(s) + ['\"'] + rest == ['\"'] + rest;
    } else {
      ReadsChars(s[1..], rest);
      ReadsEscapedChar(s[0], EscapeAll(s[1..]) + ['\"'] + rest);
      assert EscapeAll(s) + ['\"'] + rest == EscapeChar(s[0]) + (EscapeAll(s[1..]) + ['\"'] + rest);
      assert [s[0]] + s[1..] == s;
    }
  }

  lemma ReadsString(s: string, rest: string)
    ensures ReadString(WriteString(s) + rest) == Got(s, rest)
  {
    ReadsChars(s, rest);
    Uncons(WriteString(s), rest);
    assert WriteString(s)[1..] == EscapeAll(s) + ['\"'];
  }

  // ----- Values -----

  lemma NoSpaceFirst(t: string)
    requires t != [] && !IsSpace(t[0])
    ensures SkipSpace(t) == t
  {
  }

  /** The first character of a written value tells its kind. */
  lemma FirstChar(v: Value)
    ensures !IsSpace(Write(v)[0]) && Write(v)[0] != ']'
    ensures match v
            case Null => Write(v)[0] == 'n'
            case Bool(b) => Write(v)[0] == if b then 't' else 'f'
            case Number(_) => Write(v)[0] == '-' || IsDigit(Write(v)[0])
            case String(_) => Write(v)[0] == '\"'
            case Array(_) => Write(v)[0] == '['
            case Object(_) => Write(v)[0] == '{'
  {
  }

  lemma ReadsWord(word: string, v: Value, rest: string)
    requires |word| > 0
    ensures ReadWord(word + rest, word, v) == Got(v, rest)
  {
  }

  /** A text between two delimiters. */
  lemma Enclosed(open: string, body: string, close: string, rest: string)
    requires |open| == 1
    ensures (open + body + close + rest)[0] == open[0]
    ensures (open + body + close + rest)[1..] == body + close + rest
  {
  }

  lemma ReadsAsNumber(t: string, v: Value, rest: string)
    requires t != [] && (t[0] == '-' || IsDigit(t[0])) && ReadNumber(t) == Got(v, rest)
    ensures ReadValue(t) == Got(v, rest)
  {
  }

  lemma ReadsAsString(t: string, s: string, rest: string)
    requires t != [] && t[0] == '\"' && ReadString(t) == Got(s, rest)
    ensures ReadValue(t) == Got(String(s), rest)
  {
  }

  lemma ReadsScalar(v: Value, rest: string)
    requires !v.Array? && !v.Object? && EndsNumber(rest)
    ensures ReadValue(Write(v) + rest) == Got(v, rest)
  {
    FirstChar(v);
    Uncons(Write(v), rest);
    match v {
      case Null =>
        NoSpaceFirst(Write(v) + rest);
        ReadsWord("null", v, rest);
      case Bool(b) =>
        NoSpaceFirst(Write(v) + rest);
        ReadsWord(if b then "true" else "false", v, rest);
      case Number(n) =>
        ReadsInt(n, rest);
        ReadsAsNumber(Write(v) + rest, v, rest);
      case String(s) =>
        ReadsString(s, rest);
        ReadsAsString(Write(v) + rest, s, rest);
    }
  }

  lemma ReadsArray(t: string, items: Items, rest: string)
    requires t != [] && t[0] == '[' && ReadItems(t[1..]) == Got(items, rest)
    ensures ReadValue(t) == Got(Array(items), rest)
  {
  }

  lemma ReadsObject(t: string, fields: Fields, rest: string)
    requires t != [] && t[0] == '{' && ReadFields(t[1..]) == Got(fields, rest)
    ensures ReadValue(t) == Got(Object(fields), rest)
  {
  }

  /** Every value that is written is read back, and exactly the text after it is left. */
  lemma {:induction false} ReadsValue(v: Value, rest: string)
    requires EndsNumber(rest)
    ensures ReadValue(Write(v) + rest) == Got(v, rest)
    decreases v, 1
  {
    match v {
      case Array(items) =>
        ReadsItems(items, rest);
        Enclosed("[", WriteItems(items), "]", rest);
        ReadsArray(Write(v) + rest, items, rest);
      case Object(fields) =>
        ReadsFields(fields, rest);
        Enclosed("{", WriteFields(fields), "}", rest);
        ReadsObject(Write(v) + rest, fields, rest);
      case _ => ReadsScalar(v, rest);
    }
  }

  lemma {:induction false} ReadsItems(items: Items, rest: string)
    ensures ReadItems(WriteItems(items) + "]" + rest) == Got(items, rest)
    decreases items, 1
  {
    var t := WriteItems(items) + "]" + rest;
    match items {
      case NoItems =>
        assert t[0] == ']' && t[1..] == rest;
        NoSpaceFirst(t);
      case Item(v, _) =>
        FirstChar(v);
        assert t[0] == Write(v)[0];
        NoSpaceFirst(t);
        ReadsMoreItems(items, rest);
    }
  }

  lemma {:induction false} ReadsMoreItems(items: Items, rest: string)
    requires items.Item?
    ensures ReadMoreItems(WriteItems(items) + "]" + rest) == Got(items, rest)
    decreases items, 0
  {
    var after := ItemText(items, rest);
    ReadsValue(items.head, after);
    NoSpaceFirst(after);
    if items.tail.NoItems? {
      assert after[1..] == rest;
    } else {
      ReadsMoreItems(items.tail, rest);
      assert after[1..] == WriteItems(items.tail) + "]" + rest;
    }
  }

  /** The text of an item list after its first item. */
  lemma ItemText(items: Items, rest: string) returns (after: string)
    requires items.Item?
    ensures WriteItems(items) + "]" + rest == Write(items.head) + after
    ensures after == if items.tail.NoItems? then "]" + rest else "," + (WriteItems(items.tail) + "]" + rest)
  {
    after := if items.tail.NoItems? then "]" + rest else "," + (WriteItems(items.tail) + "]" + rest);
  }

  lemma {:induction false} ReadsFields(fields: Fields, rest: string)
    ensures ReadFields(WriteFields(fields) + "}" + rest) == Got(fields, rest)
    decreases fields, 1
  {
    var t := WriteFields(fields) + "}" + rest;
    match fields {
      case NoFields =>
        assert t[0] == '}' && t[1..] == rest;
        NoSpaceFirst(t);
      case Field(name, _, _) =>
        assert t[0] == WriteString(name)[0] == '\"';
        NoSpaceFirst(t);
        ReadsMoreFields(fields, rest);
    }
  }

  lemma Regroup(a: string, b: string, c: string, d: string, e: string, f: string)
    ensures (a + b + c + d) + e + f == a + (b + (c + (d + e + f)))
  {
  }

  /** The text of a field list after its first name, and after its first value. */
  lemma FieldText(fields: Fields, rest: string) returns (afterName: string, afterValue: string)
    requires fields.Field?
    ensures WriteFields(fields) + "}" + rest == WriteString(fields.name) + afterName
    ensures afterName == ":" + (Write(fields.value) + afterValue)
    ensures afterValue == if fields.rest.NoFields? then "}" + rest else "," + (WriteFields(fields.rest) + "}" + rest)
  {
    var tail := if fields.rest.NoFields? then "" else "," + WriteFields(fields.rest);
    afterValue := tail + "}" + rest;
    afterName := ":" + (Write(fields.value) + afterValue);
    Regroup(WriteString(fields.name), ":", Write(fields.value), tail, "}", rest);
  }

  lemma {:induction false} ReadsMoreFields(fields: Fields, rest: string)
    requires fields.Field?
    ensures ReadMoreFields(WriteFields(fields) + "}" + rest) == Got(fields, rest)
    decreases fields, 0
  {
    var t := WriteFields(fields) + "}" + rest;
    var afterName, afterValue := FieldText(fields, rest);
    ReadsString(fields.name, afterName);
    assert t[0] == '\"';
    NoSpaceFirst(t);
    NoSpaceFirst(afterName);
    assert afterName[1..] == Write(fields.value) + afterValue;
    ReadsValue(fields.value, afterValue);
    NoSpaceFirst(afterValue);
    if fields.rest.NoFields? {
      assert afterValue[1..] == rest;
    } else {
      ReadsMoreFields(fields.rest, rest);
      assert afterValue[1..] == WriteFields(fields.rest) + "}" + rest;
    }
  }

  /** Parsing a written document gives the value that was written. */
  lemma ParseWrite(v: Value)
    ensures Parse(Write(v)) == Some(v)
  {
    ReadsValue(v, []);
    assert Write(v) + [] == Write(v);
  }

  // ----- No line breaks -----

  /** A document may be followed by white space and by nothing else. */
  lemma ParsesIffOnlySpaceFollows(v: Value, rest: string)
    requires EndsNumber(rest)
    ensures Parse(Write(v) + rest) == if SkipSpace(rest) == [] then Some(v) else None
  {
    ReadsValue(v, rest);
  }


  predicate NoBreak(t: string) {
    forall k :: 0 <= k < |t| ==> t[k] != '\n'
  }

  lemma NoBreakJoins(a: string, b: string)
    requires NoBreak(a) && NoBreak(b)
    ensures NoBreak(a + b)
  {
  }

  lemma HexNoBreak(n: nat)
    requires n < 0x1_0000
    ensures NoBreak(UnicodeEscape(n))
  {
  }

  lemma EscapeNoBreak(c: char)
    ensures NoBreak(EscapeChar(c))
  {
    if c as int < 0x1_0000 {
      HexNoBreak(c as int);
    }
  }

  lemma {:induction false} EscapedNoBreak(s: string)
    ensures NoBreak(EscapeAll(s))
  {
    if s != [] {
      EscapedNoBreak(s[1..]);
      EscapeNoBreak(s[0]);
      NoBreakJoins(EscapeChar(s[0]), EscapeAll(s[1..]));
    }
  }

  lemma IntNoBreak(n: int)
    ensures NoBreak(WriteInt(n))
  {
  }

  lemma StringNoBreak(s: string)
    ensures NoBreak(WriteString(s))
  {
    EscapedNoBreak(s);
  }

  /** No written document contains a line break, whatever its strings contain. */
  lemma {:induction false} WriteNoBreak(v: Value)
    ensures NoBreak(Write(v))
    decreases v
  {
    match v
    case Null =>
    case Bool(_) =>
    case Number(n) => IntNoBreak(n);
    case String(s) => StringNoBreak(s);
    case Array(items) => ItemsNoBreak(items);
    case Object(fields) => FieldsNoBreak(fields);
  }

  lemma {:induction false} ItemsNoBreak(items: Items)
    ensures NoBreak(WriteItems(items))
    decreases items
  {
    if items.Item? {
      WriteNoBreak(items.head);
      ItemsNoBreak(items.tail);
    }
  }

  lemma {:induction false} FieldsNoBreak(fields: Fields)
    ensures NoBreak(WriteFields(fields))
    decreases fields
  {
    if fields.Field? {
      StringNoBreak(fields.name);
      WriteNoBreak(fields.value);
      FieldsNoBreak(fields.rest);
    }
  }
}
