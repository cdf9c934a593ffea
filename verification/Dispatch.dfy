/** The message codes, the admission gate and the dispatch of start.go, and the nested payloads. */
module Dispatch {
  import opened Basics
  import opened Messages
  import opened Wire
  import opened Framing
  import opened CommitteeCopies

  const NEW_PEER_JOINED := 1
  const PARTY_ID := 2
  const START_KEYGEN := 3
  const UPDATE_KEYGEN := 4
  const START_SIGN := 5
  const UPDATE_SIGN := 6
  const START_RESHARE := 7
  const UPDATE_RESHARE_OLD := 8
  const UPDATE_RESHARE_NEW := 9

  datatype Handler =
    | NewPeerJoined | RecordParty
    | StartKeyGen | UpdateKeyGen
    | StartSign | UpdateSign
    | StartReshare | UpdateReshareOld | UpdateReshareNew

  datatype DispatchError = AnotherProcess | UnknownCode

  predicate IsUpdate(code: nat) {
    code == UPDATE_KEYGEN || code == UPDATE_SIGN || code == UPDATE_RESHARE_OLD || code == UPDATE_RESHARE_NEW
  }

  /** processIsRunning: updates pass whatever the flag says. */
  predicate ProcessIsRunning(code: nat, busy: bool) {
    !IsUpdate(code) && busy
  }

  /** handleMessage: the handler a message goes to. */
  function HandleMessage(code: nat, busy: bool): Result<Handler, DispatchError> {
    if ProcessIsRunning(code, busy) then Err(AnotherProcess)
    else if code == NEW_PEER_JOINED then Ok(NewPeerJoined)
    else if code == PARTY_ID then Ok(RecordParty)
    else if code == START_KEYGEN then Ok(StartKeyGen)
    else if code == UPDATE_KEYGEN then Ok(UpdateKeyGen)
    else if code == START_SIGN then Ok(StartSign)
    else if code == UPDATE_SIGN then Ok(UpdateSign)
    else if code == START_RESHARE then Ok(StartReshare)
    else if code == UPDATE_RESHARE_OLD then Ok(UpdateReshareOld)
    else if code == UPDATE_RESHARE_NEW then Ok(UpdateReshareNew)
    else Err(UnknownCode)
  }

  // ----- The gate -----

  /** A busy node turns away everything but the updates, which have the codes 4, 6, 8 and 9; an idle one nothing. */
  lemma GateIsExact(code: nat)
    ensures HandleMessage(code, true) == Err(AnotherProcess) <==> code != 4 && code != 6 && code != 8 && code != 9
    ensures HandleMessage(code, false) != Err(AnotherProcess)
  {
  }

  /** The handlers by the numbers of message/message.go; updates reach theirs at a busy node too. */
  lemma CodesHaveTheirHandlers(code: nat, busy: bool)
    ensures HandleMessage(1, false) == Ok(NewPeerJoined) && HandleMessage(2, false) == Ok(RecordParty)
    ensures HandleMessage(3, false) == Ok(StartKeyGen) && HandleMessage(4, busy) == Ok(UpdateKeyGen)
    ensures HandleMessage(5, false) == Ok(StartSign) && HandleMessage(6, busy) == Ok(UpdateSign)
    ensures HandleMessage(7, false) == Ok(StartReshare)
    ensures HandleMessage(8, busy) == Ok(UpdateReshareOld) && HandleMessage(9, busy) == Ok(UpdateReshareNew)
    ensures HandleMessage(code, false) == Err(UnknownCode) <==> code == 0 || code > 9
  {
  }

  /** The sessions that send updates; a reshare has one code for each committee. */
  datatype Session = KeyGen | Signing | Resharing(reshareType: nat)

  /** handleReshareUpdateMessage panics on any other reshare type. */
  predicate HasCode(session: Session) {
    session.Resharing? ==> session.reshareType == OLD_RESHARE || session.reshareType == NEW_RESHARE
  }

  function UpdateCode(session: Session): nat
    requires HasCode(session)
  {
    match session
    case KeyGen => UPDATE_KEYGEN
    case Signing => UPDATE_SIGN
    case Resharing(t) => if t == OLD_RESHARE then UPDATE_RESHARE_OLD else UPDATE_RESHARE_NEW
  }

  /** handleKeyGenUpdateMessage and its kin: the TSS message becomes the payload of a message. */
  function WrapUpdate(host: PeerId, session: Session, m: TssMessage, deadline: string): Message
    requires HasCode(session)
  {
    Message(host, UpdateCode(session), Some(MarshalTss(m)), deadline)
  }

  /** What the remote update call is given: handleUpdateKeyGenParty and its kin. */
  function UnwrapUpdate(m: Message): Option<TssMessage> {
    match m.payload
    case None => None
    case Some(bytes) => UnmarshalTss(bytes)
  }

  /** The message the remote end of a stream reads first. */
  function FirstRead(bytes: seq<Byte>, remote: PeerId): Option<Message> {
    var (received, _) := ReadAll(bytes, remote);
    if received == [] then None else Some(received[0])
  }

  lemma FrameIsRead(m: Message, rest: seq<Byte>)
    requires SendableMessage(m)
    ensures FirstRead(Frame(m) + rest, m.from) == Some(m)
  {
    ReadFrame(m, rest, m.from);
  }

  /** The update call of each session; the reshare types are those of tss/pb/tss.go. */
  lemma UpdatesGoToTheirCalls(host: PeerId, session: Session, m: TssMessage, deadline: string, busy: bool)
    requires HasCode(session)
    ensures HandleMessage(WrapUpdate(host, session, m, deadline).code, busy) ==
            match session
            case KeyGen => Ok(UpdateKeyGen)
            case Signing => Ok(UpdateSign)
            case Resharing(t) => if t == 1 then Ok(UpdateReshareOld) else Ok(UpdateReshareNew)
    ensures session.Resharing? ==> session.reshareType == 1 || session.reshareType == 2
  {
    CodesHaveTheirHandlers(0, busy);
  }

  lemma UnwrapsWhatWasWrapped(host: PeerId, session: Session, m: TssMessage, deadline: string)
    requires HasCode(session) && SendableTss(m)
    ensures UnwrapUpdate(WrapUpdate(host, session, m, deadline)) == Some(m)
  {
    TssRoundTrip(m);
  }

  /**
    The nested round trip: a TSS message, wrapped by a session and framed, with anything
    following it on the stream, is read by the remote end, passes the gate even while a
    session is running, goes to the update call of the same session, and is unwrapped to
    exactly the message that was sent.
   */
  lemma UpdateArrives(host: PeerId, session: Session, m: TssMessage, deadline: string, rest: seq<Byte>, busy: bool)
    requires HasCode(session) && SendableTss(m) && IsTimestamp(deadline)
    ensures var received := FirstRead(Frame(WrapUpdate(host, session, m, deadline)) + rest, host);
            && received == Some(WrapUpdate(host, session, m, deadline))
            && received.value.from == host && received.value.deadline == deadline
            && UnwrapUpdate(received.value) == Some(m)
            && HandleMessage(received.value.code, busy) ==
               match session
               case KeyGen => Ok(UpdateKeyGen)
               case Signing => Ok(UpdateSign)
               case Resharing(t) => if t == 1 then Ok(UpdateReshareOld) else Ok(UpdateReshareNew)
  {
    var sent := WrapUpdate(host, session, m, deadline);
    UnwrapsWhatWasWrapped(host, session, m, deadline);
    UpdatesGoToTheirCalls(host, session, m, deadline, busy);
    FrameIsRead(sent, rest);
  }

  /**
    Whatever handleMessageCommittee makes of a message has a code, so handleReshareUpdateMessage
    does not panic on it, and arrives at the update call of the party it was made for, with
    the sender and the payload that the library's message has.
   */
  lemma CopiesArrive(host: PeerId, m: TssMessage, audience: Audience, oldCount: nat, late: bool, k: nat,
          deadline: string, rest: seq<Byte>, busy: bool)
    requires k < |Copies(m, audience, oldCount, late)| && SendableTss(m) && IsTimestamp(deadline)
    ensures var copy := Copies(m, audience, oldCount, late)[k];
            && HasCode(Resharing(copy.reshareType))
            && var sent := WrapUpdate(host, Resharing(copy.reshareType), copy, deadline);
            var received := FirstRead(Frame(sent) + rest, host);
            && received.Some? && UnwrapUpdate(received.value) == Some(copy)
            && copy.payload == m.payload && copy.from == m.from && copy.isBroadcast == m.isBroadcast
            && HandleMessage(received.value.code, busy) ==
               Ok(if copy.reshareType == 1 then UpdateReshareOld else UpdateReshareNew)
  {
    var copy := Copies(m, audience, oldCount, late)[k];
    UpdateArrives(host, Resharing(copy.reshareType), copy, deadline, rest, busy);
  }
}
