/**
  JSON text as encoding/json writes it for the message types of this repository, and a
  reader for it (RFC 8259). Text is a sequence of Unicode scalar values; Utf8.dfy turns it
  into bytes. Numbers are integers: no message type has any other kind.
 */
module Json {
  import opened Basics

  datatype Value =
    | Null
    | Bool(b: bool)
    | Number(n: int)
    | String(s: string)
    | Array(items: Items)
    | Object(fields: Fields)

  datatype Items = NoItems | Item(head: Value, tail: Items)

  datatype Fields = NoFields | Field(name: string, value: Value, rest: Fields)

  // ----- Writing -----

  const DIGITS: seq<char> := "0123456789"
  const HEX: seq<char> := "0123456789abcdef"

  function WriteNat(n: nat): (t: string)
    ensures |t| > 0 && forall k :: 0 <= k < |t| ==> IsDigit(t[k])
  {
    if n < 10 then [DIGITS[n]] else WriteNat(n / 10) + [DIGITS[n % 10]]
  }

  function WriteInt(n: int): string {
    if n < 0 then "-" + WriteNat(-n) else WriteNat(n)
  }

  predicate IsDigit(c: char) {
    '0' <= c <= '9'
  }

  /** A four-digit escape; the writer uses it for control characters, <, >, &, U+2028 and U+2029. */
  function UnicodeEscape(n: nat): string
    requires n < 0x1_0000
  {
    ['\\', 'u', HEX[n / 16 / 16 / 16], HEX[n / 16 / 16 % 16], HEX[n / 16 % 16], HEX[n % 16]]
  }

  function EscapeChar(c: char): (t: string)
    ensures |t| > 0
  {
    if c == '\\' || c == '\"' then ['\\', c]
    else if c == '\n' then ['\\', 'n']
    else if c == '\r' then ['\\', 'r']
    else if c == '\t' then ['\\', 't']
    else if c as int < 0x20 || c == '<' || c == '>' || c == '&' || c as int == 0x2028 || c as int == 0x2029 then
      UnicodeEscape(c as int)
    else [c]
  }

  function EscapeAll(s: string): string {
    if s == [] then [] else EscapeChar(s[0]) + EscapeAll(s[1..])
  }

  function WriteString(s: string): string {
    ['\"'] + EscapeAll(s) + ['\"']
  }

  function Write(v: Value): (t: string)
    ensures |t| > 0
    decreases v
  {
    match v
    case Null => "null"
    case Bool(b) => if b then "true" else "false"
    case Number(n) => WriteInt(n)
    case String(s) => WriteString(s)
    case Array(items) => "[" + WriteItems(items) + "]"
    case Object(fields) => "{" + WriteFields(fields) + "}"
  }

  function WriteItems(items: Items): string
    decreases items
  {
    match items
    case NoItems => ""
    case Item(v, rest) => Write(v) + (if rest.NoItems? then "" else "," + WriteItems(rest))
  }

  function WriteFields(fields: Fields): string
    decreases fields
  {
    match fields
    case NoFields => ""
    case Field(name, v, rest) =>
      WriteString(name) + ":" + Write(v) + (if rest.NoFields? then "" else "," + WriteFields(rest))
  }

  // ----- Reading: each reader returns what it read and the text that is left -----

  datatype Read<+T> = Got(value: T, rest: string) | Bad

  predicate IsSpace(c: char) {
    c == ' ' || c == '\t' || c == '\n' || c == '\r'
  }

  function SkipSpace(t: string): (r: string)
    ensures |r| <= |t|
  {
    if t != [] && IsSpace(t[0]) then SkipSpace(t[1..]) else t
  }

  function HexDigit(c: char): Option<nat> {
    if '0' <= c <= '9' then Some(c as int - '0' as int)
    else if 'a' <= c <= 'f' then Some(c as int - 'a' as int + 10)
    else if 'A' <= c <= 'F' then Some(c as int - 'A' as int + 10)
    else None
  }

  /** The character after a backslash, and what follows it. Lone surrogates read as U+FFFD. */
  function ReadEscape(t: string): (r: Read<char>)
    requires t != []
    ensures r.Got? ==> |r.rest| < |t|
  {
    match t[0]
    case '\"' => Got('\"', t[1..])
    case '\\' => Got('\\', t[1..])
    case '/' => Got('/', t[1..])
    case 'b' => Got(8 as char, t[1..])
    case 'f' => Got(12 as char, t[1..])
    case 'n' => Got('\n', t[1..])
    case 'r' => Got('\r', t[1..])
    case 't' => Got('\t', t[1..])
    case 'u' => ReadUnicode(t[1..])
    case _ => Bad
  }

  function ReadUnicode(t: string): (r: Read<char>)
    ensures r.Got? ==> |r.rest| < |t|
  {
    if |t| < 4 then Bad
    else
      match (HexDigit(t[0]), HexDigit(t[1]), HexDigit(t[2]), HexDigit(t[3]))
      case (Some(a), Some(b), Some(c), Some(d)) =>
        var n := 4096 * a + 256 * b + 16 * c + d;
        if 0xD800 <= n < 0xE000 || n >= 0x1_0000 then Got(0xFFFD as char, t[4..])
        else Got(n as char, t[4..])
      case _ => Bad
  }

  /** The rest of a string literal, up to its closing quote. */
  function ReadChars(t: string): (r: Read<string>)
    ensures r.Got? ==> |r.rest| < |t|
  {
    if t == [] || t[0] as int < 0x20 then Bad
    else if t[0] == '\"' then Got([], t[1..])
    else if t[0] == '\\' then
      if |t| < 2 then Bad
      else
        match ReadEscape(t[1..])
        case Bad => Bad
        case Got(c, rest) => Prepend(c, ReadChars(rest))
    else Prepend(t[0], ReadChars(t[1..]))
  }

  function Prepend(c: char, r: Read<string>): Read<string> {
    match r
    case Bad => Bad
    case Got(s, rest) => Got([c] + s, rest)
  }

  function ReadString(t: string): (r: Read<string>)
    ensures r.Got? ==> |r.rest| < |t|
  {
    if t != [] && t[0] == '\"' then ReadChars(t[1..]) else Bad
  }

  /** The longest run of digits at the front of `t`, as a number that continues `acc`. */
  function ReadDigits(t: string, acc: nat): (r: (nat, string))
    ensures |r.1| <= |t|
  {
    if t != [] && IsDigit(t[0]) then ReadDigits(t[1..], 10 * acc + (t[0] as int - '0' as int))
    else (acc, t)
  }

  /** A number has no leading zeros. */
  function ReadNat(t: string): (r: Read<nat>)
    ensures r.Got? ==> |r.rest| < |t|
  {
    if t == [] || !IsDigit(t[0]) then Bad
    else if t[0] == '0' then
      if |t| > 1 && IsDigit(t[1]) then Bad else Got(0, t[1..])
    else
      var (n, rest) := ReadDigits(t[1..], t[0] as int - '0' as int);
      Got(n, rest)
  }

  function ReadNumber(t: string): (r: Read<Value>)
    ensures r.Got? ==> |r.rest| < |t|
  {
    if t != [] && t[0] == '-' then
      match ReadNat(t[1..])
      case Bad => Bad
      case Got(n, rest) => Got(Number(0 - n), rest)
    else
      match ReadNat(t)
      case Bad => Bad
      case Got(n, rest) => Got(Number(n), rest)
  }

  function ReadWord(t: string, word: string, v: Value): (r: Read<Value>)
    requires |word| > 0
    ensures r.Got? ==> |r.rest| < |t|
  {
    if word <= t then Got(v, t[|word|..]) else Bad
  }

  /** A value, with any white space before it. */
  function ReadValue(t: string): (r: Read<Value>)
    ensures r.Got? ==> |r.rest| < |t|
    decreases |t|, 3
  {
    var u := SkipSpace(t);
    if u == [] then Bad
    else
      match u[0]
      case 'n' => ReadWord(u, "null", Null)
      case 't' => ReadWord(u, "true", Bool(true))
      case 'f' => ReadWord(u, "false", Bool(false))
      case '\"' =>
        (match ReadString(u)
         case Bad => Bad
         case Got(s, rest) => Got(String(s), rest))
      case '[' =>
        (match ReadItems(u[1..])
         case Bad => Bad
         case Got(items, rest) => Got(Array(items), rest))
      case '{' =>
        (match ReadFields(u[1..])
         case Bad => Bad
         case Got(fields, rest) => Got(Object(fields), rest))
      case _ => ReadNumber(u)
  }

  /** What follows an opening bracket, through the closing one. */
  function ReadItems(t: string): (r: Read<Items>)
    ensures r.Got? ==> |r.rest| < |t|
    decreases |t|, 5
  {
    var u := SkipSpace(t);
    if u != [] && u[0] == ']' then Got(NoItems, u[1..]) else ReadMoreItems(t)
  }

  function ReadMoreItems(t: string): (r: Read<Items>)
    ensures r.Got? ==> |r.rest| < |t|
    decreases |t|, 4
  {
    match ReadValue(t)
    case Bad => Bad
    case Got(v, rest) =>
      var u := SkipSpace(rest);
      if u == [] then Bad
      else if u[0] == ']' then Got(Item(v, NoItems), u[1..])
      else if u[0] == ',' then
        (match ReadMoreItems(u[1..])
         case Bad => Bad
         case Got(items, rest) => Got(Item(v, items), rest))
      else Bad
  }

  /** What follows an opening brace, through the closing one. */
  function ReadFields(t: string): (r: Read<Fields>)
    ensures r.Got? ==> |r.rest| < |t|
    decreases |t|, 5
  {
    var u := SkipSpace(t);
    if u != [] && u[0] == '}' then Got(NoFields, u[1..]) else ReadMoreFields(t)
  }

  function ReadMoreFields(t: string): (r: Read<Fields>)
    ensures r.Got? ==> |r.rest| < |t|
    decreases |t|, 4
  {
    match ReadString(SkipSpace(t))
    case Bad => Bad
    case Got(name, afterName) =>
      var u := SkipSpace(afterName);
      if u == [] || u[0] != ':' then Bad
      else
        match ReadValue(u[1..])
        case Bad => Bad
        case Got(v, afterValue) =>
          var w := SkipSpace(afterValue);
          if w == [] then Bad
          else if w[0] == '}' then Got(Field(name, v, NoFields), w[1..])
          else if w[0] == ',' then
            (match ReadMoreFields(w[1..])
             case Bad => Bad
             case Got(fields, rest) => Got(Field(name, v, fields), rest))
          else Bad
  }

  /** A whole document: one value, with nothing but white space after it. */
  function Parse(t: string): Option<Value> {
    match ReadValue(t)
    case Bad => None
    case Got(v, rest) => if SkipSpace(rest) == [] then Some(v) else None
  }
}
