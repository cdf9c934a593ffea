/**
  The message types and their JSON form: peer/pb/message.go, tss/pb/tss.go, tss/pb/party.go,
  message/sign.go and message/newpeer.go. A nil slice or pointer is None.

  Decoding fills a zero value field by field, in the order of the document: unknown names
  are skipped, null leaves a plain field alone and clears a slice or pointer.
 */
module Messages {
  import opened Basics
  import opened Json
  import Base64

  datatype Message = Message(from: PeerId, code: nat, payload: Option<seq<Byte>>, deadline: string)

  datatype TssMessage = TssMessage(
    from: Party,
    dests: Option<seq<PeerId>>,
    isBroadcast: bool,
    payload: Option<seq<Byte>>,
    reshareType: nat)

  datatype Sign = Sign(parties: Option<seq<Party>>, data: Option<seq<Byte>>, signType: string)

  datatype NewPeer = NewPeer(id: PeerId, address: Option<seq<string>>)

  /** Which of a node's two parties a reshare message is for. */
  const OLD_RESHARE := 1
  const NEW_RESHARE := 2

  const NO_MESSAGE := Message(PeerId(""), 0, None, "")
  const NO_TSS_MESSAGE := TssMessage(BLANK, None, false, None, 0)
  const NO_SIGN := Sign(None, None, "")
  const NO_NEW_PEER := NewPeer(PeerId(""), None)

  // ----- What can be sent -----

  const UINT_LIMIT := 0x1_0000_0000_0000_0000
  const INT_LIMIT := 0x8000_0000_0000_0000

  /** The characters of a timestamp (section 5.6 of RFC 3339). */
  predicate IsTimestamp(t: string) {
    t != [] && forall k :: 0 <= k < |t| ==>
      ('0' <= t[k] <= '9') || t[k] == '-' || t[k] == ':' || t[k] == '.' || t[k] == '+' || t[k] == 'T' || t[k] == 'Z'
  }

  predicate SendableMessage(m: Message) {
    m.code < UINT_LIMIT && IsTimestamp(m.deadline)
  }

  predicate SendableParty(p: Party) {
    -INT_LIMIT <= p.index < INT_LIMIT
  }

  predicate SendableTss(m: TssMessage) {
    SendableParty(m.from) && m.reshareType < UINT_LIMIT
  }

  predicate SendableSign(s: Sign) {
    s.parties.Some? ==> forall k :: 0 <= k < |s.parties.value| ==> SendableParty(s.parties.value[k])
  }

  // ----- To JSON -----

  function FromBig(k: Option<int>): Value {
    match k
    case None => Null
    case Some(n) => Number(n)
  }

  function FromBytes(b: Option<seq<Byte>>): Value {
    match b
    case None => Null
    case Some(bytes) => String(Base64.Encode(bytes))
  }

  function ItemsOf<T>(xs: seq<T>, f: T -> Value): Items {
    if xs == [] then NoItems else Item(f(xs[0]), ItemsOf(xs[1..], f))
  }

  function FromSeq<T>(xs: Option<seq<T>>, f: T -> Value): Value {
    match xs
    case None => Null
    case Some(s) => Array(ItemsOf(s, f))
  }

  function FromId(id: PeerId): Value {
    String(id.text)
  }

  function FromText(t: string): Value {
    String(t)
  }

  function FromMessage(m: Message): Value {
    Object(
      Field("from", FromId(m.from),
      Field("code", Number(m.code),
      Field("payload", FromBytes(m.payload),
      Field("deadline", String(m.deadline),
      NoFields)))))
  }

  function FromParty(p: Party): Value {
    Object(
      Field("id", FromId(p.id),
      Field("partyKey", FromBig(p.partyKey),
      Field("newPartyKey", FromBig(p.newPartyKey),
      Field("haveSharedKey", Bool(p.haveSharedKey),
      Field("index", Number(p.index),
      NoFields))))))
  }

  function FromTss(m: TssMessage): Value {
    Object(
      Field("from", FromParty(m.from),
      Field("to", FromSeq(m.dests, FromId),
      Field("isBroadcast", Bool(m.isBroadcast),
      Field("payload", FromBytes(m.payload),
      Field("reshareType", Number(m.reshareType),
      NoFields))))))
  }

  function FromSign(s: Sign): Value {
    Object(
      Field("parties", FromSeq(s.parties, FromParty),
      Field("data", FromBytes(s.data),
      Field("type", String(s.signType),
      NoFields))))
  }

  function FromNewPeer(p: NewPeer): Value {
    Object(
      Field("id", FromId(p.id),
      Field("address", FromSeq(p.address, FromText),
      NoFields)))
  }

  // ----- From JSON: each function updates the was value of a field -----

  function ToText(v: Value, was: string): Option<string> {
    match v
    case Null => Some(was)
    case String(s) => Some(s)
    case _ => None
  }

  function ToId(v: Value, was: PeerId): Option<PeerId> {
    var t :- ToText(v, was.text);
    Some(PeerId(t))
  }

  function ToBool(v: Value, was: bool): Option<bool> {
    match v
    case Null => Some(was)
    case Bool(b) => Some(b)
    case _ => None
  }

  function ToUint(v: Value, was: nat): Option<nat> {
    match v
    case Null => Some(was)
    case Number(n) => if 0 <= n < UINT_LIMIT then Some(n) else None
    case _ => None
  }

  function ToInt(v: Value, was: int): Option<int> {
    match v
    case Null => Some(was)
    case Number(n) => if -INT_LIMIT <= n < INT_LIMIT then Some(n) else None
    case _ => None
  }

  function ToBig(v: Value): Option<Option<int>> {
    match v
    case Null => Some(None)
    case Number(n) => Some(Some(n))
    case _ => None
  }

  function ToBytes(v: Value): Option<Option<seq<Byte>>> {
    match v
    case Null => Some(None)
    case String(s) =>
      var bytes :- Base64.Decode(s);
      Some(Some(bytes))
    case _ => None
  }

  function ToTimestamp(v: Value, was: string): Option<string> {
    match v
    case Null => Some(was)
    case String(s) => if IsTimestamp(s) then Some(s) else None
    case _ => None
  }

  function ToItems<T>(items: Items, f: Value -> Option<T>): Option<seq<T>> {
    match items
    case NoItems => Some([])
    case Item(v, rest) =>
      var x :- f(v);
      var xs :- ToItems(rest, f);
      Some([x] + xs)
  }

  function ToSeq<T>(v: Value, f: Value -> Option<T>): Option<Option<seq<T>>> {
    match v
    case Null => Some(None)
    case Array(items) =>
      var xs :- ToItems(items, f);
      Some(Some(xs))
    case _ => None
  }

  function ToOneId(v: Value): Option<PeerId> {
    ToId(v, PeerId(""))
  }

  function ToOneText(v: Value): Option<string> {
    ToText(v, "")
  }

  function ToOneParty(v: Value): Option<Party> {
    ToParty(v, BLANK)
  }

  function PartyField(p: Party, name: string, v: Value): Option<Party> {
    if name == "id" then
      var x :- ToId(v, p.id); Some(p.(id := x))
    else if name == "partyKey" then
      var x :- ToBig(v); Some(p.(partyKey := x))
    else if name == "newPartyKey" then
      var x :- ToBig(v); Some(p.(newPartyKey := x))
    else if name == "haveSharedKey" then
      var x :- ToBool(v, p.haveSharedKey); Some(p.(haveSharedKey := x))
    else if name == "index" then
      var x :- ToInt(v, p.index); Some(p.(index := x))
    else Some(p)
  }

  function MessageField(m: Message, name: string, v: Value): Option<Message> {
    if name == "from" then
      var x :- ToId(v, m.from); Some(m.(from := x))
    else if name == "code" then
      var x :- ToUint(v, m.code); Some(m.(code := x))
    else if name == "payload" then
      var x :- ToBytes(v); Some(m.(payload := x))
    else if name == "deadline" then
      var x :- ToTimestamp(v, m.deadline); Some(m.(deadline := x))
    else Some(m)
  }

  function TssField(m: TssMessage, name: string, v: Value): Option<TssMessage> {
    if name == "from" then
      var x :- ToParty(v, m.from); Some(m.(from := x))
    else if name == "to" then
      var x :- ToSeq(v, ToOneId); Some(m.(dests := x))
    else if name == "isBroadcast" then
      var x :- ToBool(v, m.isBroadcast); Some(m.(isBroadcast := x))
    else if name == "payload" then
      var x :- ToBytes(v); Some(m.(payload := x))
    else if name == "reshareType" then
      var x :- ToUint(v, m.reshareType); Some(m.(reshareType := x))
    else Some(m)
  }

  function SignField(s: Sign, name: string, v: Value): Option<Sign> {
    if name == "parties" then
      var x :- ToSeq(v, ToOneParty); Some(s.(parties := x))
    else if name == "data" then
      var x :- ToBytes(v); Some(s.(data := x))
    else if name == "type" then
      var x :- ToText(v, s.signType); Some(s.(signType := x))
    else Some(s)
  }

  function NewPeerField(p: NewPeer, name: string, v: Value): Option<NewPeer> {
    if name == "id" then
      var x :- ToId(v, p.id); Some(p.(id := x))
    else if name == "address" then
      var x :- ToSeq(v, ToOneText); Some(p.(address := x))
    else Some(p)
  }

  /** Fills `x` from the fields of an object, in their order. */
  function Fill<T>(x: T, fields: Fields, f: (T, string, Value) -> Option<T>): Option<T>
    decreases fields
  {
    match fields
    case NoFields => Some(x)
    case Field(name, v, rest) =>
      var y :- f(x, name, v);
      Fill(y, rest, f)
  }

  /** null leaves the receiver as it is; anything but an object is an error. */
  function FillFrom<T>(x: T, v: Value, f: (T, string, Value) -> Option<T>): Option<T> {
    match v
    case Null => Some(x)
    case Object(fields) => Fill(x, fields, f)
    case _ => None
  }

  function ToParty(v: Value, was: Party): Option<Party> {
    FillFrom(was, v, PartyField)
  }

  function ToMessage(v: Value): Option<Message> {
    FillFrom(NO_MESSAGE, v, MessageField)
  }

  function ToTss(v: Value): Option<TssMessage> {
    FillFrom(NO_TSS_MESSAGE, v, TssField)
  }

  function ToSign(v: Value): Option<Sign> {
    FillFrom(NO_SIGN, v, SignField)
  }

  function ToNewPeer(v: Value): Option<NewPeer> {
    FillFrom(NO_NEW_PEER, v, NewPeerField)
  }

  // ----- What is rejected -----

  /**
    Unmarshalling a value of the wrong kind is an error: a number outside the range of its Go type,
    text that is no base64 or no timestamp, a kind that the field does not have. null leaves
    a field as it is, or makes a list or a big integer nil.
   */
  lemma WrongKindsAreErrors(v: Value, text: string, number: nat, index: int, flag: bool)
    ensures ToText(v, text) == match v case Null => Some(text) case String(s) => Some(s) case _ => None
    ensures ToBool(v, flag) == match v case Null => Some(flag) case Bool(b) => Some(b) case _ => None
    ensures ToUint(v, number).Some? <==> v.Null? || (v.Number? && 0 <= v.n < 0x1_0000_0000_0000_0000)
    ensures ToInt(v, index).Some? <==> v.Null? || (v.Number? && -0x8000_0000_0000_0000 <= v.n < 0x8000_0000_0000_0000)
    ensures ToBig(v).Some? <==> v.Null? || v.Number?
    ensures ToBytes(v).Some? <==> v.Null? || (v.String? && Base64.Decode(v.s).Some?)
    ensures ToTimestamp(v, text).Some? <==> v.Null? || (v.String? && IsTimestamp(v.s))
    ensures ToSeq(v, ToOneText).Some? ==> v.Null? || v.Array?
    ensures ToMessage(v).Some? ==> v.Null? || v.Object?
    ensures ToParty(v, BLANK).Some? ==> v.Null? || v.Object?
  {
  }

  // ----- Round trips -----

  lemma OneField<T>(x: T, name: string, v: Value, rest: Fields, f: (T, string, Value) -> Option<T>, y: T)
    requires f(x, name, v) == Some(y)
    ensures Fill(x, Field(name, v, rest), f) == Fill(y, rest, f)
  {
  }

  lemma BytesBack(b: Option<seq<Byte>>)
    ensures ToBytes(FromBytes(b)) == Some(b)
  {
    if b.Some? {
      Base64.DecodeEncode(b.value);
    }
  }

  lemma {:induction false} ItemsBack<T>(xs: seq<T>, f: T -> Value, g: Value -> Option<T>)
    requires forall k :: 0 <= k < |xs| ==> g(f(xs[k])) == Some(xs[k])
    ensures ToItems(ItemsOf(xs, f), g) == Some(xs)
  {
    if xs != [] {
      assert forall k :: 0 <= k < |xs[1..]| ==> xs[1..][k] == xs[k + 1];
      ItemsBack(xs[1..], f, g);
      assert [xs[0]] + xs[1..] == xs;
    }
  }

  lemma SeqBack<T>(xs: Option<seq<T>>, f: T -> Value, g: Value -> Option<T>)
    requires xs.Some? ==> forall k :: 0 <= k < |xs.value| ==> g(f(xs.value[k])) == Some(xs.value[k])
    ensures ToSeq(FromSeq(xs, f), g) == Some(xs)
  {
    if xs.Some? {
      ItemsBack(xs.value, f, g);
    }
  }

  lemma PartyBack(p: Party)
    requires SendableParty(p)
    ensures ToParty(FromParty(p), BLANK) == Some(p)
  {
    var fields := FromParty(p).fields;
    var p1 := BLANK.(id := p.id);
    var p2 := p1.(partyKey := p.partyKey);
    var p3 := p2.(newPartyKey := p.newPartyKey);
    var p4 := p3.(haveSharedKey := p.haveSharedKey);
    OneField(BLANK, "id", FromId(p.id), fields.rest, PartyField, p1);
    OneField(p1, "partyKey", FromBig(p.partyKey), fields.rest.rest, PartyField, p2);
    OneField(p2, "newPartyKey", FromBig(p.newPartyKey), fields.rest.rest.rest, PartyField, p3);
    OneField(p3, "haveSharedKey", Bool(p.haveSharedKey), fields.rest.rest.rest.rest, PartyField, p4);
    OneField(p4, "index", Number(p.index), NoFields, PartyField, p);
  }

  lemma MessageBack(m: Message)
    requires SendableMessage(m)
    ensures ToMessage(FromMessage(m)) == Some(m)
  {
    var fields := FromMessage(m).fields;
    var m1 := NO_MESSAGE.(from := m.from);
    var m2 := m1.(code := m.code);
    var m3 := m2.(payload := m.payload);
    BytesBack(m.payload);
    OneField(NO_MESSAGE, "from", FromId(m.from), fields.rest, MessageField, m1);
    OneField(m1, "code", Number(m.code), fields.rest.rest, MessageField, m2);
    OneField(m2, "payload", FromBytes(m.payload), fields.rest.rest.rest, MessageField, m3);
    OneField(m3, "deadline", String(m.deadline), NoFields, MessageField, m);
  }

  lemma TssBack(m: TssMessage)
    requires SendableTss(m)
    ensures ToTss(FromTss(m)) == Some(m)
  {
    var fields := FromTss(m).fields;
    var m1 := NO_TSS_MESSAGE.(from := m.from);
    var m2 := m1.(dests := m.dests);
    var m3 := m2.(isBroadcast := m.isBroadcast);
    var m4 := m3.(payload := m.payload);
    PartyBack(m.from);
    SeqBack(m.dests, FromId, ToOneId);
    BytesBack(m.payload);
    OneField(NO_TSS_MESSAGE, "from", FromParty(m.from), fields.rest, TssField, m1);
    OneField(m1, "to", FromSeq(m.dests, FromId), fields.rest.rest, TssField, m2);
    OneField(m2, "isBroadcast", Bool(m.isBroadcast), fields.rest.rest.rest, TssField, m3);
    OneField(m3, "payload", FromBytes(m.payload), fields.rest.rest.rest.rest, TssField, m4);
    OneField(m4, "reshareType", Number(m.reshareType), NoFields, TssField, m);
  }

  lemma SignBack(s: Sign)
    requires SendableSign(s)
    ensures ToSign(FromSign(s)) == Some(s)
  {
    var fields := FromSign(s).fields;
    var s1 := NO_SIGN.(parties := s.parties);
    var s2 := s1.(data := s.data);
    if s.parties.Some? {
      forall k | 0 <= k < |s.parties.value|
        ensures ToOneParty(FromParty(s.parties.value[k])) == Some(s.parties.value[k])
      {
        PartyBack(s.parties.value[k]);
      }
    }
    SeqBack(s.parties, FromParty, ToOneParty);
    BytesBack(s.data);
    OneField(NO_SIGN, "parties", FromSeq(s.parties, FromParty), fields.rest, SignField, s1);
    OneField(s1, "data", FromBytes(s.data), fields.rest.rest, SignField, s2);
    OneField(s2, "type", String(s.signType), NoFields, SignField, s);
  }

  lemma NewPeerBack(p: NewPeer)
    ensures ToNewPeer(FromNewPeer(p)) == Some(p)
  {
    var fields := FromNewPeer(p).fields;
    var p1 := NO_NEW_PEER.(id := p.id);
    SeqBack(p.address, FromText, ToOneText);
    OneField(NO_NEW_PEER, "id", FromId(p.id), fields.rest, NewPeerField, p1);
    OneField(p1, "address", FromSeq(p.address, FromText), NoFields, NewPeerField, p);
  }
}
