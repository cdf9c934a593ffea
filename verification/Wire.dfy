/** Marshal and Unmarshal: the message types as bytes. */
module Wire {
  import opened Basics
  import opened Json
  import opened JsonRoundTrip
  import opened Messages
  import Utf8

  function Document(v: Value): seq<Byte> {
    Utf8.Encode(Write(v))
  }

  function ReadDocument(bytes: seq<Byte>): Option<Value> {
    Parse(Utf8.Decode(bytes))
  }

  function MarshalMessage(m: Message): seq<Byte> {
    Document(FromMessage(m))
  }

  function UnmarshalMessage(bytes: seq<Byte>): Option<Message> {
    var v :- ReadDocument(bytes);
    ToMessage(v)
  }

  function MarshalTss(m: TssMessage): seq<Byte> {
    Document(FromTss(m))
  }

  function UnmarshalTss(bytes: seq<Byte>): Option<TssMessage> {
    var v :- ReadDocument(bytes);
    ToTss(v)
  }

  function MarshalSign(s: Sign): seq<Byte> {
    Document(FromSign(s))
  }

  function UnmarshalSign(bytes: seq<Byte>): Option<Sign> {
    var v :- ReadDocument(bytes);
    ToSign(v)
  }

  function MarshalParty(p: Party): seq<Byte> {
    Document(FromParty(p))
  }

  function UnmarshalParty(bytes: seq<Byte>): Option<Party> {
    var v :- ReadDocument(bytes);
    ToParty(v, BLANK)
  }

  function MarshalNewPeer(p: NewPeer): seq<Byte> {
    Document(FromNewPeer(p))
  }

  function UnmarshalNewPeer(bytes: seq<Byte>): Option<NewPeer> {
    var v :- ReadDocument(bytes);
    ToNewPeer(v)
  }

  lemma DocumentBack(v: Value)
    ensures ReadDocument(Document(v)) == Some(v)
  {
    Utf8.DecodeEncode(Write(v));
    ParseWrite(v);
  }

  lemma MessageRoundTrip(m: Message)
    requires SendableMessage(m)
    ensures UnmarshalMessage(MarshalMessage(m)) == Some(m)
  {
    DocumentBack(FromMessage(m));
    MessageBack(m);
  }

  lemma TssRoundTrip(m: TssMessage)
    requires SendableTss(m)
    ensures UnmarshalTss(MarshalTss(m)) == Some(m)
  {
    DocumentBack(FromTss(m));
    TssBack(m);
  }

  lemma SignRoundTrip(s: Sign)
    requires SendableSign(s)
    ensures UnmarshalSign(MarshalSign(s)) == Some(s)
  {
    DocumentBack(FromSign(s));
    SignBack(s);
  }

  lemma PartyRoundTrip(p: Party)
    requires SendableParty(p)
    ensures UnmarshalParty(MarshalParty(p)) == Some(p)
  {
    DocumentBack(FromParty(p));
    PartyBack(p);
  }

  lemma NewPeerRoundTrip(p: NewPeer)
    ensures UnmarshalNewPeer(MarshalNewPeer(p)) == Some(p)
  {
    DocumentBack(FromNewPeer(p));
    NewPeerBack(p);
  }

  const DELIMITER: Byte := 10

  /** The delimiter question of peer/peer.go: no marshalled message contains it, whatever it carries. */
  lemma DelimiterIsValid(m: Message)
    ensures DELIMITER !in MarshalMessage(m)
  {
    var t := Write(FromMessage(m));
    WriteNoBreak(FromMessage(m));
    Utf8.AsciiStandsAlone(t, '\n');
  }
}
