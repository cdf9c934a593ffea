/**
  The bytes on the wire in full (the struct tags of the message types, RFC 8259, RFC 4648 and
  RFC 3629): what other implementations have to agree with, apart from any round trip.
 */
module WireText {
  import opened Basics
  import opened Json
  import opened JsonRoundTrip
  import opened Messages
  import Framing
  import Utf8

  // ----- Strings -----

  /** What encoding/json escapes by number, for HTML and JavaScript too. */
  predicate ByNumber(c: char) {
    || c == '<' || c == '>' || c == '&' || c as int == 0x2028 || c as int == 0x2029
    || (c as int < 0x20 && c != '\n' && c != '\r' && c != '\t')
  }

  /** The escapes of one letter; any character that is not escaped by number stays as it is. */
  lemma ShortEscapes(c: char)
    ensures EscapeChar('\"') == ['\\', '\"'] && EscapeChar('\\') == ['\\', '\\']
    ensures EscapeChar('\n') == ['\\', 'n'] && EscapeChar('\r') == ['\\', 'r'] && EscapeChar('\t') == ['\\', 't']
    ensures c != '\"' && c != '\\' && c as int >= 0x20 && !ByNumber(c) ==> EscapeChar(c) == [c]
  {
  }

  /** The others: four hexadecimal digits that make up the code point. */
  lemma LongEscapes(c: char)
    requires ByNumber(c)
    ensures |EscapeChar(c)| == 6 && EscapeChar(c)[..2] == ['\\', 'u']
    ensures ReadUnicode(EscapeChar(c)[2..]) == Got(c, "")
  {
    var t := EscapeChar(c)[2..];
    ReadsUnicode(c, "");
    assert t + "" == t;
  }

  // ----- Objects -----

  /** Names with the texts of their values, in order. */
  datatype Members = NoMembers | Member(name: string, text: string, rest: Members)

  function MembersText(members: Members): string {
    match members
    case NoMembers => ""
    case Member(name, text, rest) =>
      "\"" + name + "\":" + text + (if rest.NoMembers? then "" else "," + MembersText(rest))
  }

  function ObjectText(members: Members): string {
    "{" + MembersText(members) + "}"
  }

  predicate IsLetter(c: char) {
    ('a' <= c <= 'z') || ('A' <= c <= 'Z')
  }

  predicate IsWord(s: string) {
    forall k :: 0 <= k < |s| ==> IsLetter(s[k])
  }

  lemma {:induction false} WordsStandForThemselves(s: string)
    requires IsWord(s)
    ensures EscapeAll(s) == s && WriteString(s) == "\"" + s + "\""
  {
    if s != [] {
      assert IsLetter(s[0]) && EscapeChar(s[0]) == [s[0]];
      assert forall k :: 0 <= k < |s[1..]| ==> s[1..][k] == s[k + 1];
      WordsStandForThemselves(s[1..]);
      assert [s[0]] + s[1..] == s;
    }
  }

  /** The fields have these names and values, in this order. */
  predicate Lists(fields: Fields, members: Members)
    decreases fields
  {
    match (fields, members)
    case (NoFields, NoMembers) => true
    case (Field(name, v, rest), Member(name', text, rest')) =>
      IsWord(name) && name == name' && Write(v) == text && Lists(rest, rest')
    case _ => false
  }

  lemma {:induction false} FieldsAreMembers(fields: Fields, members: Members)
    requires Lists(fields, members)
    ensures WriteFields(fields) == MembersText(members)
    decreases fields
  {
    match fields
    case NoFields =>
    case Field(name, v, rest) =>
      WordsStandForThemselves(name);
      FieldsAreMembers(rest, members.rest);
      assert WriteString(name) + ":" + Write(v) == "\"" + name + "\":" + Write(v);
  }

  lemma OneMember(name: string, v: Value, text: string, fields: Fields, members: Members)
    requires IsWord(name) && Write(v) == text && Lists(fields, members)
    ensures Lists(Field(name, v, fields), Member(name, text, members))
  {
  }

  lemma ObjectIsText(fields: Fields, members: Members)
    requires Lists(fields, members)
    ensures Write(Object(fields)) == ObjectText(members)
  {
    FieldsAreMembers(fields, members);
  }

  lemma NamesAreWords()
    ensures IsWord("id") && IsWord("partyKey") && IsWord("newPartyKey") && IsWord("haveSharedKey") && IsWord("index")
    ensures IsWord("from") && IsWord("code") && IsWord("payload") && IsWord("deadline") && IsWord("to")
    ensures IsWord("isBroadcast") && IsWord("reshareType") && IsWord("parties") && IsWord("data") && IsWord("type")
    ensures IsWord("address")
  {
  }

  // ----- Values -----

  function BigText(k: Option<int>): string {
    if k.None? then "null" else WriteInt(k.value)
  }

  function BytesText(b: Option<seq<Byte>>): string {
    if b.None? then "null" else "\"" + Base64.Encode(b.value) + "\""
  }

  /** Text that needs no escapes. */
  predicate Plain(s: string) {
    forall k :: 0 <= k < |s| ==> EscapeChar(s[k]) == [s[k]]
  }

  lemma {:induction false} PlainIsItself(s: string)
    requires Plain(s)
    ensures EscapeAll(s) == s
  {
    if s != [] {
      assert forall k :: 0 <= k < |s[1..]| ==> s[1..][k] == s[k + 1];
      PlainIsItself(s[1..]);
    }
  }

  lemma LetterIsPlain(n: Base64.Sextet)
    ensures EscapeChar(Base64.Letter(n)) == [Base64.Letter(n)]
  {
  }

  lemma QuadIsPlain(a: Byte, b: Byte, c: Byte)
    ensures Plain(Base64.Quad(a, b, c)) && Plain("=") && Plain("==")
  {
    LetterIsPlain(a / 4);
    LetterIsPlain(a % 4 * 16 + b / 16);
    LetterIsPlain(b % 16 * 4 + c / 64);
    LetterIsPlain(c % 64);
    assert EscapeChar('=') == ['='];
  }

  lemma PlainJoins(s: string, t: string)
    requires Plain(s) && Plain(t)
    ensures Plain(s + t) && forall n :: 0 <= n <= |s| ==> Plain(s[..n])
  {
  }

  lemma {:induction false} Base64IsPlain(bytes: seq<Byte>)
    ensures Plain(Base64.Encode(bytes))
    decreases |bytes|
  {
    var at := k => if 0 <= k < |bytes| then bytes[k] else 0;
    var quad := Base64.Quad(at(0), at(1), at(2));
    QuadIsPlain(at(0), at(1), at(2));
    PlainJoins(quad, "");
    if |bytes| == 1 {
      PlainJoins(quad[..2], "==");
    } else if |bytes| == 2 {
      PlainJoins(quad[..3], "=");
    } else if |bytes| > 2 {
      Base64IsPlain(bytes[3..]);
      PlainJoins(quad, Base64.Encode(bytes[3..]));
    }
  }

  lemma BytesAreText(b: Option<seq<Byte>>)
    ensures Write(FromBytes(b)) == BytesText(b)
  {
    if b.Some? {
      Base64IsPlain(b.value);
      PlainIsItself(Base64.Encode(b.value));
    }
  }

  function ListText(texts: seq<string>): string {
    if texts == [] then "" else texts[0] + (if |texts| == 1 then "" else "," + ListText(texts[1..]))
  }

  /** An array, or null for a missing list. */
  function SeqText<T>(xs: Option<seq<T>>, text: T -> string): string {
    if xs.None? then "null"
    else "[" + ListText(seq(|xs.value|, k requires 0 <= k < |xs.value| => text(xs.value[k]))) + "]"
  }

  lemma {:induction false} ItemsAreText<T>(xs: seq<T>, f: T -> Value, texts: seq<string>)
    requires |texts| == |xs| && forall k :: 0 <= k < |xs| ==> Write(f(xs[k])) == texts[k]
    ensures WriteItems(ItemsOf(xs, f)) == ListText(texts)
  {
    if xs != [] {
      assert forall k :: 0 <= k < |xs[1..]| ==> xs[1..][k] == xs[k + 1] && texts[1..][k] == texts[k + 1];
      ItemsAreText(xs[1..], f, texts[1..]);
    }
  }

  lemma SeqsAreText<T>(xs: Option<seq<T>>, f: T -> Value, text: T -> string)
    requires forall x :: Write(f(x)) == text(x)
    ensures Write(FromSeq(xs, f)) == SeqText(xs, text)
  {
    if xs.Some? {
      ItemsAreText(xs.value, f, seq(|xs.value|, k requires 0 <= k < |xs.value| => text(xs.value[k])));
    }
  }

  function IdText(id: PeerId): string {
    WriteString(id.text)
  }

  function BoolText(b: bool): string {
    if b then "true" else "false"
  }

  // ----- The message types -----

  function PartyText(p: Party): string {
    ObjectText(
      Member("id", IdText(p.id),
      Member("partyKey", BigText(p.partyKey),
      Member("newPartyKey", BigText(p.newPartyKey),
      Member("haveSharedKey", BoolText(p.haveSharedKey),
      Member("index", WriteInt(p.index),
      NoMembers))))))
  }

  lemma PartyIsText(p: Party)
    ensures Write(FromParty(p)) == PartyText(p)
  {
    NamesAreWords();
    var fields := FromParty(p).fields;
    OneMember("index", Number(p.index), WriteInt(p.index), NoFields, NoMembers);
    var m4 := Member("index", WriteInt(p.index), NoMembers);
    OneMember("haveSharedKey", Bool(p.haveSharedKey), BoolText(p.haveSharedKey), fields.rest.rest.rest.rest, m4);
    var m3 := Member("haveSharedKey", BoolText(p.haveSharedKey), m4);
    OneMember("newPartyKey", FromBig(p.newPartyKey), BigText(p.newPartyKey), fields.rest.rest.rest, m3);
    var m2 := Member("newPartyKey", BigText(p.newPartyKey), m3);
    OneMember("partyKey", FromBig(p.partyKey), BigText(p.partyKey), fields.rest.rest, m2);
    var m1 := Member("partyKey", BigText(p.partyKey), m2);
    OneMember("id", FromId(p.id), IdText(p.id), fields.rest, m1);
    ObjectIsText(fields, Member("id", IdText(p.id), m1));
  }

  /** peer/pb/message.go: the envelope. */
  lemma MessageIsText(m: Message)
    ensures Write(FromMessage(m)) ==
            ObjectText(
              Member("from", IdText(m.from),
              Member("code", WriteInt(m.code),
              Member("payload", BytesText(m.payload),
              Member("deadline", WriteString(m.deadline),
              NoMembers)))))
  {
    NamesAreWords();
    BytesAreText(m.payload);
    var fields := FromMessage(m).fields;
    OneMember("deadline", String(m.deadline), WriteString(m.deadline), NoFields, NoMembers);
    var m3 := Member("deadline", WriteString(m.deadline), NoMembers);
    OneMember("payload", FromBytes(m.payload), BytesText(m.payload), fields.rest.rest.rest, m3);
    var m2 := Member("payload", BytesText(m.payload), m3);
    OneMember("code", Number(m.code), WriteInt(m.code), fields.rest.rest, m2);
    var m1 := Member("code", WriteInt(m.code), m2);
    OneMember("from", FromId(m.from), IdText(m.from), fields.rest, m1);
    ObjectIsText(fields, Member("from", IdText(m.from), m1));
  }

  /** tss/pb/tss.go. */
  lemma TssIsText(m: TssMessage)
    ensures Write(FromTss(m)) ==
            ObjectText(
              Member("from", PartyText(m.from),
              Member("to", SeqText(m.dests, IdText),
              Member("isBroadcast", BoolText(m.isBroadcast),
              Member("payload", BytesText(m.payload),
              Member("reshareType", WriteInt(m.reshareType),
              NoMembers))))))
  {
    NamesAreWords();
    PartyIsText(m.from);
    SeqsAreText(m.dests, FromId, IdText);
    BytesAreText(m.payload);
    var fields := FromTss(m).fields;
    OneMember("reshareType", Number(m.reshareType), WriteInt(m.reshareType), NoFields, NoMembers);
    var m4 := Member("reshareType", WriteInt(m.reshareType), NoMembers);
    OneMember("payload", FromBytes(m.payload), BytesText(m.payload), fields.rest.rest.rest.rest, m4);
    var m3 := Member("payload", BytesText(m.payload), m4);
    OneMember("isBroadcast", Bool(m.isBroadcast), BoolText(m.isBroadcast), fields.rest.rest.rest, m3);
    var m2 := Member("isBroadcast", BoolText(m.isBroadcast), m3);
    OneMember("to", FromSeq(m.dests, FromId), SeqText(m.dests, IdText), fields.rest.rest, m2);
    var m1 := Member("to", SeqText(m.dests, IdText), m2);
    OneMember("from", FromParty(m.from), PartyText(m.from), fields.rest, m1);
    ObjectIsText(fields, Member("from", PartyText(m.from), m1));
  }

  /** message/sign.go. */
  lemma SignIsText(s: Sign)
    ensures Write(FromSign(s)) ==
            ObjectText(
              Member("parties", SeqText(s.parties, PartyText),
              Member("data", BytesText(s.data),
              Member("type", WriteString(s.signType),
              NoMembers))))
  {
    NamesAreWords();
    forall p: Party ensures Write(FromParty(p)) == PartyText(p) {
      PartyIsText(p);
    }
    SeqsAreText(s.parties, FromParty, PartyText);
    BytesAreText(s.data);
    var fields := FromSign(s).fields;
    OneMember("type", String(s.signType), WriteString(s.signType), NoFields, NoMembers);
    var m2 := Member("type", WriteString(s.signType), NoMembers);
    OneMember("data", FromBytes(s.data), BytesText(s.data), fields.rest.rest, m2);
    var m1 := Member("data", BytesText(s.data), m2);
    OneMember("parties", FromSeq(s.parties, FromParty), SeqText(s.parties, PartyText), fields.rest, m1);
    ObjectIsText(fields, Member("parties", SeqText(s.parties, PartyText), m1));
  }

  /** message/newpeer.go. */
  lemma NewPeerIsText(p: NewPeer)
    ensures Write(FromNewPeer(p)) ==
            ObjectText(
              Member("id", IdText(p.id),
              Member("address", SeqText(p.address, WriteString),
              NoMembers)))
  {
    NamesAreWords();
    SeqsAreText(p.address, FromText, WriteString);
    var fields := FromNewPeer(p).fields;
    OneMember("address", FromSeq(p.address, FromText), SeqText(p.address, WriteString), NoFields, NoMembers);
    var m1 := Member("address", SeqText(p.address, WriteString), NoMembers);
    OneMember("id", FromId(p.id), IdText(p.id), fields.rest, m1);
    ObjectIsText(fields, Member("id", IdText(p.id), m1));
  }

  /** A frame is the text of the message in UTF-8, and a line feed. */
  lemma FrameIsText(m: Message)
    ensures Framing.Frame(m) == Utf8.Encode(Write(FromMessage(m))) + [10]
  {
  }
}
