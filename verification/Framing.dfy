/**
  The framed byte stream of peer/peer.go: SendMsg writes a marshalled message and a
  delimiter, ReadData reads up to the next delimiter, however the transport cuts the bytes.
 */
module Framing {
  import opened Basics
  import opened Messages
  import opened Wire

  function Frame(m: Message): seq<Byte> {
    MarshalMessage(m) + [DELIMITER]
  }

  function Frames(ms: seq<Message>): seq<Byte> {
    if ms == [] then [] else Frame(ms[0]) + Frames(ms[1..])
  }

  function Concat(chunks: seq<seq<Byte>>): seq<Byte> {
    if chunks == [] then [] else chunks[0] + Concat(chunks[1..])
  }

  /** The bytes before the first delimiter, and those after it. */
  function Split(bytes: seq<Byte>): (r: Option<(seq<Byte>, seq<Byte>)>)
    ensures r.Some? <==> DELIMITER in bytes
    ensures r.Some? ==> DELIMITER !in r.value.0 && bytes == r.value.0 + [DELIMITER] + r.value.1
  {
    if bytes == [] then None
    else if bytes[0] == DELIMITER then Some(([], bytes[1..]))
    else
      match Split(bytes[1..])
      case None => assert bytes == [bytes[0]] + bytes[1..]; None
      case Some((front, back)) => assert bytes == [bytes[0]] + bytes[1..]; Some(([bytes[0]] + front, back))
  }

  lemma {:induction false} SplitAt(front: seq<Byte>, back: seq<Byte>)
    requires DELIMITER !in front
    ensures Split(front + [DELIMITER] + back) == Some((front, back))
  {
    var bytes := front + [DELIMITER] + back;
    if front == [] {
      assert bytes[1..] == back;
    } else {
      SplitAt(front[1..], back);
      assert bytes[1..] == front[1..] + [DELIMITER] + back;
      assert [front[0]] + front[1..] == front;
    }
  }

  /** Why a reader stops. */
  datatype ReadError = EndOfStream | BadMessage

  /** What reading a whole stream gives: the messages, and why it stopped. */
  function ReadAll(bytes: seq<Byte>, remote: PeerId): (seq<Message>, ReadError)
    decreases |bytes|
  {
    match Split(bytes)
    case None => ([], EndOfStream)
    case Some((data, rest)) =>
      match UnmarshalMessage(data)
      case None => ([], BadMessage)
      case Some(m) =>
        var (ms, e) := ReadAll(rest, remote);
        ([m.(from := remote)] + ms, e)
  }

  /** One end of a stream: the write side under `mu`, and the buffered read side. */
  class Stream {
    const remote: PeerId
    var written: seq<Byte>
    var buffered: seq<Byte>
    var arriving: seq<seq<Byte>>   // what the transport still delivers, in the pieces it does

    constructor (remote: PeerId, arriving: seq<seq<Byte>>)
      ensures this.remote == remote && this.written == [] && Unread() == Concat(arriving)
    {
      this.remote := remote;
      this.written := [];
      this.buffered := [];
      this.arriving := arriving;
    }

    ghost function Unread(): seq<Byte>
      reads this
    {
      buffered + Concat(arriving)
    }

    method SendMsg(m: Message)
      modifies this`written
      ensures written == old(written) + Frame(m)
    {
      var data := MarshalMessage(m);
      written := written + (data + [DELIMITER]);
    }

    /** ReadBytes of bufio.Reader: pulls pieces until the buffer holds a delimiter. */
    method ReadBytes() returns (r: Option<seq<Byte>>)
      modifies this`buffered, this`arriving
      ensures match Split(old(Unread()))
              case None => r.None? && Unread() == []
              case Some((data, rest)) => r == Some(data + [DELIMITER]) && Unread() == rest
    {
      ghost var unread := Unread();
      while DELIMITER !in buffered && arriving != []
        invariant Unread() == unread
        decreases |arriving|
      {
        AssociateChunk(buffered, arriving);
        buffered, arriving := buffered + arriving[0], arriving[1..];
      }
      match Split(buffered)
      case None =>
        assert unread == buffered;
        buffered, r := [], None;
      case Some((data, rest)) =>
        SplitAt(data, rest + Concat(arriving));
        assert unread == data + [DELIMITER] + (rest + Concat(arriving));
        buffered, r := rest, Some(data + [DELIMITER]);
    }

    /** ReadData: the sender a message names is replaced by the remote end of the stream. */
    method ReadData() returns (r: Result<Message, ReadError>)
      modifies this`buffered, this`arriving
      ensures match Split(old(Unread()))
              case None => r == Err(EndOfStream) && Unread() == []
              case Some((data, rest)) =>
                && Unread() == rest
                && match UnmarshalMessage(data)
                   case None => r == Err(BadMessage)
                   case Some(m) => r == Ok(m.(from := remote))
    {
      var bytes := ReadBytes();
      match bytes
      case None => r := Err(EndOfStream);
      case Some(data) =>
        assert data[..|data| - 1] + [DELIMITER] == data;
        match UnmarshalMessage(data[..|data| - 1]) {
          case None => r := Err(BadMessage);
          case Some(m) => r := Ok(m.(from := remote));
        }
    }

    /** readFromPeer: reads and hands over messages until a read fails. */
    method ReadFromPeer() returns (received: seq<Message>, stop: ReadError)
      modifies this`buffered, this`arriving
      ensures (received, stop) == ReadAll(old(Unread()), remote)
    {
      received := [];
      ghost var all := ReadAll(Unread(), remote);
      assert [] + all.0 == all.0;
      while true
        invariant all == ReadOn(received, Unread(), remote)
        decreases |Unread()|
      {
        ghost var before := Unread();
        var r := ReadData();
        ReadOnStep(received, before, remote);
        match r
        case Err(e) =>
          stop := e;
          return;
        case Ok(m) => received := received + [m];
      }
    }
  }

  /** The outcome of reading on after `received` has been handed over. */
  function ReadOn(received: seq<Message>, bytes: seq<Byte>, remote: PeerId): (seq<Message>, ReadError) {
    (received + ReadAll(bytes, remote).0, ReadAll(bytes, remote).1)
  }

  lemma HandOver(received: seq<Message>, m: Message, later: seq<Message>)
    ensures received + ([m] + later) == received + [m] + later
    ensures received + [] == received
  {
  }

  lemma ReadOnStep(received: seq<Message>, bytes: seq<Byte>, remote: PeerId)
    ensures match Split(bytes)
            case None => ReadOn(received, bytes, remote) == (received, EndOfStream)
            case Some((data, rest)) =>
              && |rest| < |bytes|
              && match UnmarshalMessage(data)
                 case None => ReadOn(received, bytes, remote) == (received, BadMessage)
                 case Some(m) =>
                   ReadOn(received, bytes, remote) == ReadOn(received + [m.(from := remote)], rest, remote)
  {
    match Split(bytes)
    case None => HandOver(received, NO_MESSAGE, []);
    case Some((data, rest)) =>
      match UnmarshalMessage(data)
      case None => HandOver(received, NO_MESSAGE, []);
      case Some(m) => HandOver(received, m.(from := remote), ReadAll(rest, remote).0);
  }

  lemma AssociateChunk(buffered: seq<Byte>, arriving: seq<seq<Byte>>)
    requires arriving != []
    ensures buffered + Concat(arriving) == (buffered + arriving[0]) + Concat(arriving[1..])
  {
  }

  // ----- What arrives is what was sent -----

  predicate AllSendable(ms: seq<Message>) {
    forall k :: 0 <= k < |ms| ==> SendableMessage(ms[k])
  }

  function WithFrom(ms: seq<Message>, remote: PeerId): (r: seq<Message>)
    ensures |r| == |ms|
    ensures forall k :: 0 <= k < |ms| ==> r[k] == ms[k].(from := remote)
  {
    seq(|ms|, k requires 0 <= k < |ms| => ms[k].(from := remote))
  }

  lemma ReadFrame(m: Message, rest: seq<Byte>, remote: PeerId)
    requires SendableMessage(m)
    ensures ReadAll(Frame(m) + rest, remote) ==
            ([m.(from := remote)] + ReadAll(rest, remote).0, ReadAll(rest, remote).1)
  {
    DelimiterIsValid(m);
    SplitAt(MarshalMessage(m), rest);
    MessageRoundTrip(m);
  }

  lemma FirstFrame(ms: seq<Message>, tail: seq<Byte>, remote: PeerId)
    requires ms != [] && AllSendable(ms)
    ensures ReadAll(Frames(ms) + tail, remote) ==
            ([ms[0].(from := remote)] + ReadAll(Frames(ms[1..]) + tail, remote).0,
             ReadAll(Frames(ms[1..]) + tail, remote).1)
  {
    assert Frames(ms) + tail == Frame(ms[0]) + (Frames(ms[1..]) + tail);
    ReadFrame(ms[0], Frames(ms[1..]) + tail, remote);
  }

  lemma FirstFrom(ms: seq<Message>, remote: PeerId)
    ensures ms == [] ==> WithFrom(ms, remote) == []
    ensures ms != [] ==> WithFrom(ms, remote) == [ms[0].(from := remote)] + WithFrom(ms[1..], remote)
  {
  }

  lemma JoinThree(a: seq<Message>, b: seq<Message>, c: seq<Message>)
    ensures a + (b + c) == a + b + c
  {
  }

  lemma JoinNothing(a: seq<Message>)
    ensures [] + a == a && a + [] == a
  {
  }

  /** What follows whole frames is read as if they were not there. */
  lemma {:induction false} ReadsFramesThen(ms: seq<Message>, tail: seq<Byte>, remote: PeerId)
    requires AllSendable(ms)
    ensures ReadAll(Frames(ms) + tail, remote) == ReadOn(WithFrom(ms, remote), tail, remote)
  {
    FirstFrom(ms, remote);
    if ms == [] {
      assert Frames(ms) + tail == tail;
      JoinNothing(ReadAll(tail, remote).0);
    } else {
      FirstFrame(ms, tail, remote);
      ReadsFramesThen(ms[1..], tail, remote);
      JoinThree([ms[0].(from := remote)], WithFrom(ms[1..], remote), ReadAll(tail, remote).0);
    }
  }

  lemma NoFrame(tail: seq<Byte>, remote: PeerId)
    requires DELIMITER !in tail
    ensures ReadAll(tail, remote) == ([], EndOfStream)
  {
  }

  /** Whole frames, followed by the beginning of one, are read as exactly the whole ones. */
  lemma ReadFrames(ms: seq<Message>, tail: seq<Byte>, remote: PeerId)
    requires AllSendable(ms) && DELIMITER !in tail
    ensures ReadAll(Frames(ms) + tail, remote) == (WithFrom(ms, remote), EndOfStream)
  {
    ReadsFramesThen(ms, tail, remote);
    NoFrame(tail, remote);
    JoinNothing(WithFrom(ms, remote));
  }

  /**
    The stream round trip: for any messages, sent one after the other, and any way in which
    the transport cuts the stream into pieces, the reader gets exactly these messages, in
    order, each with the remote end as its sender, and then the end of the stream.
   */
  lemma StreamRoundTrip(ms: seq<Message>, pieces: seq<seq<Byte>>, remote: PeerId)
    requires AllSendable(ms) && Concat(pieces) == Frames(ms)
    ensures ReadAll(Concat(pieces), remote) == (WithFrom(ms, remote), EndOfStream)
  {
    ReadFrames(ms, [], remote);
    assert Frames(ms) + [] == Frames(ms);
  }

  lemma BadFrame(bad: seq<Byte>, rest: seq<Byte>, remote: PeerId)
    requires DELIMITER !in bad && UnmarshalMessage(bad).None?
    ensures ReadAll(bad + [DELIMITER] + rest, remote) == ([], BadMessage)
  {
    SplitAt(bad, rest);
  }

  /** The reader stops for good at a frame that does not parse, whatever follows it. */
  lemma BadFrameStops(ms: seq<Message>, bad: seq<Byte>, rest: seq<Byte>, remote: PeerId)
    requires AllSendable(ms) && DELIMITER !in bad && UnmarshalMessage(bad).None?
    ensures ReadAll(Frames(ms) + (bad + [DELIMITER] + rest), remote) == (WithFrom(ms, remote), BadMessage)
  {
    ReadsFramesThen(ms, bad + [DELIMITER] + rest, remote);
    BadFrame(bad, rest, remote);
    JoinNothing(WithFrom(ms, remote));
  }
}
