/**
  Many goroutines sending on one stream (sender.go, peer/peer.go): each waits for the lock,
  writes its frame in pieces as the buffer is flushed, and releases the lock.
 */
module Senders {
  import opened Basics
  import opened Messages
  import opened Wire
  import opened Framing

  datatype Channel = Channel(
    sent: multiset<Message>,        // every message a goroutine was started for
    waiting: multiset<Message>,     // those whose goroutine has not got the lock yet
    holder: Option<Message>,        // the one whose goroutine holds the lock
    written: nat,                   // how much of its frame is on the stream
    done: seq<Message>,             // those whose goroutine has released the lock, in order
    stream: seq<Byte>)

  datatype Action = Start(m: Message) | Lock(m: Message) | Write(count: nat) | Unlock

  predicate Enabled(c: Channel, a: Action) {
    match a
    case Start(m) => SendableMessage(m)
    case Lock(m) => c.holder.None? && m in c.waiting
    case Write(n) => c.holder.Some? && c.written + n <= |Frame(c.holder.value)|
    case Unlock => c.holder.Some? && c.written == |Frame(c.holder.value)|
  }

  function Apply(c: Channel, a: Action): Channel
    requires Enabled(c, a)
  {
    match a
    case Start(m) => c.(sent := c.sent + multiset{m}, waiting := c.waiting + multiset{m})
    case Lock(m) => c.(waiting := c.waiting - multiset{m}, holder := Some(m), written := 0)
    case Write(n) =>
      c.(written := c.written + n, stream := c.stream + Frame(c.holder.value)[c.written..c.written + n])
    case Unlock => c.(holder := None, written := 0, done := c.done + [c.holder.value])
  }

  const IDLE := Channel(multiset{}, multiset{}, None, 0, [], [])

  predicate ValidRun(c: Channel, actions: seq<Action>)
    decreases |actions|
  {
    actions == [] || (Enabled(c, actions[0]) && ValidRun(Apply(c, actions[0]), actions[1..]))
  }

  function RunEnd(c: Channel, actions: seq<Action>): Channel
    requires ValidRun(c, actions)
    decreases |actions|
  {
    if actions == [] then c else RunEnd(Apply(c, actions[0]), actions[1..])
  }

  /** The part of the holder's frame that is on the stream. */
  function Partial(c: Channel): seq<Byte> {
    if c.holder.Some? && c.written <= |Frame(c.holder.value)| then Frame(c.holder.value)[..c.written] else []
  }

  function Held(c: Channel): seq<Message> {
    if c.holder.Some? then [c.holder.value] else []
  }

  /** Whole frames and then at most a piece of the lock holder's; and no message gets lost. */
  ghost predicate ChannelInvariant(c: Channel) {
    && (c.holder.Some? ==> c.written <= |Frame(c.holder.value)|)
    && c.stream == Frames(c.done) + Partial(c)
    && c.sent == multiset(c.done) + multiset(Held(c)) + c.waiting
    && (forall m :: m in c.sent ==> SendableMessage(m))
  }

  lemma FramesUnfold(ms: seq<Message>, rest: seq<Message>)
    requires ms != [] && ms[1..] == rest
    ensures Frames(ms) == Frame(ms[0]) + Frames(rest)
  {
  }

  lemma Reassociate(a: seq<Byte>, b: seq<Byte>, c: seq<Byte>)
    ensures a + (b + c) == a + b + c
  {
  }

  lemma {:induction false} FramesSnoc(ms: seq<Message>, m: Message)
    ensures Frames(ms + [m]) == Frames(ms) + Frame(m)
  {
    if ms == [] {
      assert [] + [m] == [m];
      FramesUnfold([m], []);
      assert Frame(m) + [] == [] + Frame(m);
    } else {
      FramesSnoc(ms[1..], m);
      FramesUnfold(ms + [m], ms[1..] + [m]);
      FramesUnfold(ms, ms[1..]);
      Reassociate(Frame(ms[0]), Frames(ms[1..]), Frame(m));
    }
  }

  lemma WriteKeepsChannel(c: Channel, n: nat)
    requires Enabled(c, Write(n)) && ChannelInvariant(c)
    ensures Apply(c, Write(n)).stream == Frames(c.done) + Partial(Apply(c, Write(n)))
  {
    Extend(Frames(c.done), Frame(c.holder.value), c.written, n);
  }

  lemma Extend(before: seq<Byte>, frame: seq<Byte>, k: nat, n: nat)
    requires k + n <= |frame|
    ensures before + frame[..k] + frame[k..k + n] == before + frame[..k + n]
  {
  }

  lemma UnlockKeepsChannel(c: Channel)
    requires Enabled(c, Unlock) && ChannelInvariant(c)
    ensures var c' := Apply(c, Unlock);
            c'.stream == Frames(c'.done) + Partial(c') &&
            multiset(c'.done) + multiset(Held(c')) == multiset(c.done) + multiset(Held(c))
  {
    var m := c.holder.value;
    FramesSnoc(c.done, m);
    assert Frame(m)[..c.written] == Frame(m);
    assert multiset(c.done + [m]) == multiset(c.done) + multiset([m]);
    assert Frames(c.done + [m]) + [] == Frames(c.done + [m]);
  }

  lemma StartKeepsChannel(c: Channel, m: Message)
    requires Enabled(c, Start(m)) && ChannelInvariant(c)
    ensures ChannelInvariant(Apply(c, Start(m)))
  {
  }

  lemma LockKeepsChannel(c: Channel, m: Message)
    requires Enabled(c, Lock(m)) && ChannelInvariant(c)
    ensures ChannelInvariant(Apply(c, Lock(m)))
  {
    assert Frame(m)[..0] == [];
  }

  lemma StepKeepsChannel(c: Channel, a: Action)
    requires Enabled(c, a) && ChannelInvariant(c)
    ensures ChannelInvariant(Apply(c, a))
  {
    match a
    case Start(m) => StartKeepsChannel(c, m);
    case Lock(m) => LockKeepsChannel(c, m);
    case Write(n) => WriteKeepsChannel(c, n);
    case Unlock => UnlockKeepsChannel(c);
  }

  lemma {:induction false} ChannelInEveryRun(c: Channel, actions: seq<Action>)
    requires ValidRun(c, actions) && ChannelInvariant(c)
    ensures ChannelInvariant(RunEnd(c, actions))
    decreases |actions|
  {
    if actions != [] {
      StepKeepsChannel(c, actions[0]);
      ChannelInEveryRun(Apply(c, actions[0]), actions[1..]);
    }
  }

  // ----- The receiver -----

  /** A reader that has been given any beginning of a framed stream has read the first messages. */
  lemma {:induction false} ReadBeginning(ms: seq<Message>, bytes: seq<Byte>, remote: PeerId)
    requires AllSendable(ms) && bytes <= Frames(ms)
    ensures var (got, stop) := ReadAll(bytes, remote);
            stop == EndOfStream && |got| <= |ms| && got == WithFrom(ms[..|got|], remote)
    decreases |ms|
  {
    if ms == [] || |bytes| < |Frame(ms[0])| {
      if ms != [] {
        BeginningHasNoDelimiter(ms[0], Frames(ms[1..]), bytes);
      }
      assert ReadAll(bytes, remote).0 == WithFrom(ms[..0], remote);
    } else {
      var rest := bytes[|Frame(ms[0])|..];
      assert bytes == Frame(ms[0]) + rest && rest <= Frames(ms[1..]);
      ReadFrame(ms[0], rest, remote);
      ReadBeginning(ms[1..], rest, remote);
      OneMore(ms, ReadAll(rest, remote).0, remote);
    }
  }

  lemma OneMore(ms: seq<Message>, got: seq<Message>, remote: PeerId)
    requires ms != [] && |got| <= |ms[1..]| && got == WithFrom(ms[1..][..|got|], remote)
    ensures [ms[0].(from := remote)] + got == WithFrom(ms[..|got| + 1], remote)
  {
  }

  lemma BeginningHasNoDelimiter(m: Message, rest: seq<Byte>, bytes: seq<Byte>)
    requires bytes <= Frame(m) + rest && |bytes| < |Frame(m)|
    ensures DELIMITER !in bytes
  {
    DelimiterIsValid(m);
    assert bytes <= MarshalMessage(m);
  }

  /** The messages in the order in which their goroutines got the lock. */
  function InOrder(c: Channel): seq<Message> {
    c.done + Held(c)
  }

  /** What has been sent but not read, when `count` messages have been read. */
  function Outstanding(c: Channel, count: nat): multiset<Message>
    requires count <= |InOrder(c)|
  {
    multiset(InOrder(c)[count..]) + c.waiting
  }

  lemma BeginningOfBoth(before: seq<Byte>, frame: seq<Byte>, k: nat)
    requires k <= |frame|
    ensures before + frame[..k] <= before + frame
  {
  }

  lemma StreamIsOrdered(c: Channel)
    requires ChannelInvariant(c)
    ensures c.stream <= Frames(InOrder(c)) && AllSendable(InOrder(c))
    ensures c.sent == multiset(InOrder(c)) + c.waiting
  {
    if c.holder.Some? {
      FramesSnoc(c.done, c.holder.value);
      BeginningOfBoth(Frames(c.done), Frame(c.holder.value), c.written);
      assert multiset(c.done + Held(c)) == multiset(c.done) + multiset(Held(c));
    } else {
      assert InOrder(c) == c.done && c.stream == Frames(c.done);
    }
    forall k | 0 <= k < |InOrder(c)| ensures SendableMessage(InOrder(c)[k]) {
      assert InOrder(c)[k] in multiset(InOrder(c));
    }
  }

  lemma NothingMissing(c: Channel, count: nat)
    requires c.sent == multiset(InOrder(c)) + c.waiting && count <= |InOrder(c)|
    ensures multiset(InOrder(c)[..count]) + Outstanding(c, count) == c.sent
  {
    assert InOrder(c) == InOrder(c)[..count] + InOrder(c)[count..];
  }

  /**
    Concurrent senders: in every interleaving of any number of goroutines, whatever part of
    the stream has arrived, the reader has read whole messages only, namely the first ones in
    lock order, and what it has read together with what is outstanding is exactly what was sent.
   */
  lemma ConcurrentSendersDoNotMix(actions: seq<Action>, arrived: nat, remote: PeerId)
    requires ValidRun(IDLE, actions) && arrived <= |RunEnd(IDLE, actions).stream|
    ensures var c := RunEnd(IDLE, actions);
            var (got, stop) := ReadAll(c.stream[..arrived], remote);
            && stop == EndOfStream
            && |got| <= |InOrder(c)| && got == WithFrom(InOrder(c)[..|got|], remote)
            && multiset(InOrder(c)[..|got|]) + Outstanding(c, |got|) == c.sent
  {
    ChannelInEveryRun(IDLE, actions);
    var c := RunEnd(IDLE, actions);
    StreamIsOrdered(c);
    ReadBeginning(InOrder(c), c.stream[..arrived], remote);
    NothingMissing(c, |ReadAll(c.stream[..arrived], remote).0|);
  }

  /** When every goroutine has finished and everything has arrived, nothing is outstanding. */
  lemma EverythingArrives(actions: seq<Action>, remote: PeerId)
    requires ValidRun(IDLE, actions)
    requires RunEnd(IDLE, actions).holder.None? && RunEnd(IDLE, actions).waiting == multiset{}
    ensures var c := RunEnd(IDLE, actions);
            ReadAll(c.stream, remote).0 == WithFrom(c.done, remote) && multiset(c.done) == c.sent
  {
    ChannelInEveryRun(IDLE, actions);
    var c := RunEnd(IDLE, actions);
    StreamIsOrdered(c);
    assert InOrder(c) == c.done;
    ReadFrames(c.done, [], remote);
    assert c.stream == Frames(c.done) + [];
  }
}
