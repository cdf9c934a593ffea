/**
  The signer's own state (tss/tss.go) and what key generation and reshare do to it
  (tss/keygen.go, tss/reshare.go). tss-lib is a source of events: a message to send, an
  error, the end of a party with the data it has to save, or the deadline.
 */
module Signer {
  import opened Basics
  import opened Membership
  import opened Committee
  import opened Messages
  import opened CommitteeCopies

  /** What tss-lib saves: the share's ID and, unless it is missing, the public key. */
  datatype Share = Share(shareId: int, publicKey: Option<string>)

  datatype SignerState = SignerState(
    privateKey: Option<Share>,
    publicKey: string,
    partyKey: nat,
    partyIndex: int,
    newPartyKey: nat,
    newPartyIndex: int)

  datatype Event =
    | Deadline
    | LibraryError
    | Out(msg: Option<TssMessage>)   // None when the message cannot be converted
    | End(share: Share)

  /** In a reshare a message has an audience; `late` is as in CommitteeCopies. */
  datatype ReshareEvent =
    | Deadline
    | LibraryError
    | Out(msg: Option<TssMessage>, audience: Audience, late: bool)
    | End(share: Share)

  datatype SignalError = ContextDone | FromLibrary | NotConverted | NoPublicKey

  /** What the session loop hands to its driver. */
  datatype Signal = Failed(error: SignalError) | Forward(msg: TssMessage) | Finished

  /** GetParty. */
  function AsParty(id: PeerId, t: SignerState): Party {
    Party(id, Some(t.partyKey), Some(t.newPartyKey), t.privateKey.Some?, t.partyIndex)
  }

  /** A signer that holds a share runs under the ID of that share. */
  predicate Coupled(t: SignerState) {
    t.privateKey.Some? ==> t.partyKey == Magnitude(t.privateKey.value.shareId)
  }

  /** New: a saved share gives the party its key; without one, the key is random. */
  function NewState(saved: Option<Share>, random: nat, newRandom: nat): Option<SignerState> {
    match saved
    case None => Some(SignerState(None, "", random, -1, newRandom, -1))
    case Some(share) =>
      var publicKey :- share.publicKey;
      Some(SignerState(Some(share), publicKey, Magnitude(share.shareId), -1, newRandom, -1))
  }

  /** Each message on its own. */
  function Forwards(ms: seq<TssMessage>): seq<Signal> {
    if ms == [] then [] else [Forward(ms[0])] + Forwards(ms[1..])
  }

  // ----- Key generation -----

  function KeyGenRun(t: SignerState, events: seq<Event>): (SignerState, seq<Signal>) {
    if events == [] then (t, [])
    else
      match events[0]
      case Deadline => (t, [Failed(ContextDone)])
      case LibraryError => (t, [Failed(FromLibrary)])
      case Out(None) => (t, [Failed(NotConverted)])
      case Out(Some(m)) =>
        var (t', signals) := KeyGenRun(t, events[1..]);
        (t', [Forward(m)] + signals)
      case End(share) =>
        var t' := t.(privateKey := Some(share));
        match share.publicKey
        case None => (t', [Failed(NoPublicKey)])
        case Some(pk) => (t'.(publicKey := pk), [Finished])
  }

  // ----- Reshare -----

  /** The first end value is passed over when the node also runs an old party. */
  function ReshareRun(t: SignerState, oldCount: nat, events: seq<ReshareEvent>, ended: nat, nextKey: nat)
    : (SignerState, seq<Signal>)
  {
    if events == [] then (t, [])
    else
      match events[0]
      case Deadline => (t, [Failed(ContextDone)])
      case LibraryError => (t, [Failed(FromLibrary)])
      case Out(None, _, _) => (t, [Failed(NotConverted)])
      case Out(Some(m), audience, late) =>
        var (t', signals) := ReshareRun(t, oldCount, events[1..], ended, nextKey);
        (t', Forwards(Copies(m, audience, oldCount, late)) + signals)
      case End(share) =>
        if t.privateKey.Some? && ended == 0 then ReshareRun(t, oldCount, events[1..], 1, nextKey)
        else
          var t' := t.(privateKey := Some(share));
          match share.publicKey
          case None => (t', [Failed(NoPublicKey)])
          case Some(pk) =>
            (t'.(publicKey := pk, partyKey := t.newPartyKey, newPartyKey := nextKey), [Finished])
  }

  /** The end value a reshare takes as the new share, if it gets that far. */
  function TakenShare(t: SignerState, events: seq<ReshareEvent>, ended: nat): Option<Share> {
    if events == [] then None
    else
      match events[0]
      case Out(Some(_), _, _) => TakenShare(t, events[1..], ended)
      case End(share) =>
        if t.privateKey.Some? && ended == 0 then TakenShare(t, events[1..], 1) else Some(share)
      case _ => None
  }

  // ----- What the loops do, by the positions of the events -----

  /** The library handed over a message that could be converted. */
  predicate Sends(e: Event) {
    e.Out? && e.msg.Some?
  }

  /** GenerateKey's loop looks at the event: all before it were messages. */
  predicate KeyGenReads(events: seq<Event>, k: nat) {
    k < |events| && forall j :: 0 <= j < k ==> Sends(events[j])
  }

  /** The state after storing a share and, if it has one, its public key. */
  function Storing(t: SignerState, share: Share): (t': SignerState)
    ensures t'.privateKey == Some(share)
    ensures t'.publicKey == if share.publicKey.Some? then share.publicKey.value else t.publicKey
    ensures t'.partyKey == t.partyKey && t'.newPartyKey == t.newPartyKey
    ensures t'.partyIndex == t.partyIndex && t'.newPartyIndex == t.newPartyIndex
  {
    var t' := t.(privateKey := Some(share));
    if share.publicKey.None? then t' else t'.(publicKey := share.publicKey.value)
  }

  /**
    GenerateKey ends at the first event that is no message to send: with an end value it stores
    the share and its public key, and is done if there is one; with anything else it fails and
    changes nothing.
   */
  lemma {:induction false} KeyGenEndsAt(t: SignerState, events: seq<Event>, k: nat)
    requires KeyGenReads(events, k) && !Sends(events[k])
    ensures KeyGenRun(t, events).0 == if events[k].End? then Storing(t, events[k].share) else t
    ensures var signals := KeyGenRun(t, events).1;
            && |signals| == k + 1
            && (forall j :: 0 <= j < k ==> signals[j] == Forward(events[j].msg.value))
            && signals[k] == match events[k]
                             case Deadline => Failed(ContextDone)
                             case LibraryError => Failed(FromLibrary)
                             case Out(_) => Failed(NotConverted)
                             case End(share) => if share.publicKey.Some? then Finished else Failed(NoPublicKey)
  {
    if k > 0 {
      assert forall j :: 0 <= j < |events[1..]| ==> events[1..][j] == events[j + 1];
      KeyGenEndsAt(t, events[1..], k - 1);
    }
  }

  /** As long as the library only hands over messages, the state stays and each is forwarded. */
  lemma {:induction false} KeyGenGoesOn(t: SignerState, events: seq<Event>)
    requires forall j :: 0 <= j < |events| ==> Sends(events[j])
    ensures KeyGenRun(t, events).0 == t && |KeyGenRun(t, events).1| == |events|
    ensures forall j :: 0 <= j < |events| ==>
              Sends(events[j]) && KeyGenRun(t, events).1[j] == Forward(events[j].msg.value)
  {
    if events != [] {
      assert forall j :: 0 <= j < |events[1..]| ==> events[1..][j] == events[j + 1];
      KeyGenGoesOn(t, events[1..]);
    }
  }

  /** ReshareKey's loop looks at the event: before it were messages, and the end value that is passed over. */
  predicate ReshareReads(passes: bool, events: seq<ReshareEvent>, k: nat) {
    && k < |events|
    && (forall j :: 0 <= j < k ==> (events[j].Out? && events[j].msg.Some?) || (passes && events[j].End?))
    && forall i, j :: 0 <= i < j < k && events[i].End? ==> !events[j].End?
  }

  predicate EndSeen(events: seq<ReshareEvent>, k: nat)
    requires k <= |events|
  {
    exists j :: 0 <= j < k && events[j].End?
  }

  /**
    ReshareKey takes the first end value, or the second one when the signer holds a share: it
    stores the share and its public key, and if there is one, the new key becomes the party key
    and a fresh one takes its place. Everything else that ends it changes nothing.
   */
  lemma {:induction false} ReshareEndsAt(t: SignerState, oldCount: nat, events: seq<ReshareEvent>, k: nat, ended: nat,
          nextKey: nat)
    requires var passes := t.privateKey.Some? && ended == 0;
             && ReshareReads(passes, events, k)
             && !(events[k].Out? && events[k].msg.Some?)
             && (events[k].End? ==> !passes || EndSeen(events, k))
    ensures var t' := ReshareRun(t, oldCount, events, ended, nextKey).0;
            if events[k].End? then
              && t'.privateKey == Some(events[k].share)
              && (events[k].share.publicKey.None? ==> t' == Storing(t, events[k].share))
              && (events[k].share.publicKey.Some? ==>
                    && t'.publicKey == events[k].share.publicKey.value
                    && t'.partyKey == t.newPartyKey && t'.newPartyKey == nextKey
                    && t'.partyIndex == t.partyIndex && t'.newPartyIndex == t.newPartyIndex)
            else t' == t
    ensures Finished in ReshareRun(t, oldCount, events, ended, nextKey).1 <==>
            events[k].End? && events[k].share.publicKey.Some?
    decreases k
  {
    if k > 0 {
      var ended' := if events[0].End? then 1 else ended;
      assert forall j :: 0 <= j < |events[1..]| ==> events[1..][j] == events[j + 1];
      RestEnds(t, events, k, ended, ended');
      ReshareEndsAt(t, oldCount, events[1..], k - 1, ended', nextKey);
      if events[0].Out? {
        ForwardsOnly(Copies(events[0].msg.value, events[0].audience, oldCount, events[0].late));
      }
    }
  }

  lemma RestEnds(t: SignerState, events: seq<ReshareEvent>, k: nat, ended: nat, ended': nat)
    requires 0 < k && ReshareReads(t.privateKey.Some? && ended == 0, events, k)
    requires ended' == if events[0].End? then 1 else ended
    ensures ReshareReads(t.privateKey.Some? && ended' == 0, events[1..], k - 1)
    ensures EndSeen(events, k) ==> events[0].End? || EndSeen(events[1..], k - 1)
  {
    if EndSeen(events, k) && !events[0].End? {
      var j :| 0 <= j < k && events[j].End?;
      assert events[1..][j - 1] == events[j];
    }
  }

  /** What New makes: a saved share without a public key is refused. */
  lemma NewIsExact(saved: Option<Share>, random: nat, newRandom: nat)
    ensures var t := NewState(saved, random, newRandom);
            && (t.None? <==> saved.Some? && saved.value.publicKey.None?)
            && (t.Some? ==>
                  && t.value.privateKey == saved && t.value.newPartyKey == newRandom
                  && t.value.partyIndex == -1 && t.value.newPartyIndex == -1
                  && (saved.Some? ==> Some(t.value.publicKey) == saved.value.publicKey && Coupled(t.value))
                  && (saved.None? ==> t.value.publicKey == "" && t.value.partyKey == random))
  {
  }

  /** The ID under which a party is sorted and found: its own, with the key asked for. */
  lemma PartyIsKnownByItsKeys(id: PeerId, t: SignerState)
    ensures ToPartyID(AsParty(id, t), false).Some? && ToPartyID(AsParty(id, t), true).Some?
    ensures ToPartyID(AsParty(id, t), false).value.key == t.partyKey
    ensures ToPartyID(AsParty(id, t), true).value.key == t.newPartyKey
    ensures ToPartyID(AsParty(id, t), false).value.id == id && ToPartyID(AsParty(id, t), true).value.id == id
  {
  }

  // ----- The signer as an object -----

  class TssSigner {
    const id: PeerId
    var privateKey: Option<Share>
    var publicKey: string
    var partyKey: nat
    var partyIndex: int
    var newPartyKey: nat
    var newPartyIndex: int

    constructor (id: PeerId, t: SignerState)
      ensures this.id == id && State() == t
    {
      this.id := id;
      privateKey, publicKey := t.privateKey, t.publicKey;
      partyKey, partyIndex := t.partyKey, t.partyIndex;
      newPartyKey, newPartyIndex := t.newPartyKey, t.newPartyIndex;
    }

    function State(): SignerState
      reads this
    {
      SignerState(privateKey, publicKey, partyKey, partyIndex, newPartyKey, newPartyIndex)
    }

    function GetParty(): Party
      reads this
    {
      AsParty(id, State())
    }

    /** updateIndex; the source panics when the party is not in the list. */
    method UpdateIndex(sorted: seq<PartyID>, newKey: bool) returns (found: bool)
      modifies this`partyIndex, this`newPartyIndex
      ensures var pid := FindByKey(sorted, old(if newKey then newPartyKey else partyKey));
              && found == pid.Some?
              && State() == if pid.None? then old(State())
                            else if newKey then old(State()).(newPartyIndex := pid.value.index)
                            else old(State()).(partyIndex := pid.value.index)
    {
      var pid := FindByKeyLoop(sorted, if newKey then newPartyKey else partyKey);
      found := pid.Some?;
      if found {
        if newKey {
          newPartyIndex := pid.value.index;
        } else {
          partyIndex := pid.value.index;
        }
      }
    }

    /** makePublicKey; false when there is no share or it has no public key. */
    method MakePublicKey() returns (ok: bool)
      modifies this`publicKey
      ensures ok == (privateKey.Some? && privateKey.value.publicKey.Some?)
      ensures publicKey == if ok then privateKey.value.publicKey.value else old(publicKey)
    {
      ok := privateKey.Some? && privateKey.value.publicKey.Some?;
      if ok {
        publicKey := privateKey.value.publicKey.value;
      }
    }

    /** The loop of GenerateKey. */
    method GenerateKey(events: seq<Event>) returns (signals: seq<Signal>)
      modifies this`privateKey, this`publicKey
      ensures (State(), signals) == KeyGenRun(old(State()), events)
    {
      signals := [];
      FromTheStart(events, KeyGenRun(State(), events).1);
      for k := 0 to |events|
        invariant State() == old(State())
        invariant KeyGenRun(old(State()), events) ==
                  (KeyGenRun(State(), events[k..]).0, signals + KeyGenRun(State(), events[k..]).1)
      {
        assert events[k..][0] == events[k] && events[k..][1..] == events[k + 1..];
        match events[k] {
          case Deadline =>
            signals := signals + [Failed(ContextDone)];
            return;
          case LibraryError =>
            signals := signals + [Failed(FromLibrary)];
            return;
          case Out(None) =>
            signals := signals + [Failed(NotConverted)];
            return;
          case Out(Some(m)) =>
            Regroup(signals, [Forward(m)], KeyGenRun(State(), events[k + 1..]).1);
            signals := signals + [Forward(m)];
          case End(share) =>
            privateKey := Some(share);
            var ok := MakePublicKey();
            signals := signals + [if ok then Finished else Failed(NoPublicKey)];
            return;
        }
      }
      assert signals + [] == signals;
    }

    /** The loop of ReshareKey. */
    method ReshareKey(oldCount: nat, events: seq<ReshareEvent>, nextKey: nat) returns (signals: seq<Signal>)
      modifies this`privateKey, this`publicKey, this`partyKey, this`newPartyKey
      ensures (State(), signals) == ReshareRun(old(State()), oldCount, events, 0, nextKey)
    {
      signals := [];
      var ended := 0;
      FromTheStart(events, ReshareRun(State(), oldCount, events, 0, nextKey).1);
      for k := 0 to |events|
        invariant State() == old(State())
        invariant var rest := ReshareRun(State(), oldCount, events[k..], ended, nextKey);
                  ReshareRun(old(State()), oldCount, events, 0, nextKey) == (rest.0, signals + rest.1)
      {
        assert events[k..][0] == events[k] && events[k..][1..] == events[k + 1..];
        match events[k] {
          case Deadline =>
            signals := signals + [Failed(ContextDone)];
            return;
          case LibraryError =>
            signals := signals + [Failed(FromLibrary)];
            return;
          case Out(None, _, _) =>
            signals := signals + [Failed(NotConverted)];
            return;
          case Out(Some(m), audience, late) =>
            var copies := HandleMessageCommittee(m, audience, oldCount, late);
            Regroup(signals, Forwards(copies), ReshareRun(State(), oldCount, events[k + 1..], ended, nextKey).1);
            signals := signals + Forwards(copies);
          case End(share) =>
            ended := ended + 1;
            if privateKey.Some? && ended == 1 {
              continue;
            }
            privateKey := Some(share);
            var ok := MakePublicKey();
            if !ok {
              signals := signals + [Failed(NoPublicKey)];
              return;
            }
            partyKey, newPartyKey := newPartyKey, nextKey;
            signals := signals + [Finished];
            return;
        }
      }
      assert signals + [] == signals;
    }
  }

  lemma Regroup(signals: seq<Signal>, more: seq<Signal>, later: seq<Signal>)
    ensures signals + (more + later) == signals + more + later
  {
  }

  lemma FromTheStart<E>(events: seq<E>, later: seq<Signal>)
    ensures events[0..] == events && [] + later == later
  {
  }

  // ----- The coupling of share and key -----

  /** The library's promise for key generation: the share it ends with carries the party's key. */
  predicate KeyGenContract(t: SignerState, events: seq<Event>) {
    forall k :: 0 <= k < |events| && events[k].End? ==> Magnitude(events[k].share.shareId) == t.partyKey
  }

  lemma {:induction false} KeyGenKeepsCoupling(t: SignerState, events: seq<Event>)
    requires Coupled(t) && KeyGenContract(t, events)
    ensures Coupled(KeyGenRun(t, events).0)
    ensures KeyGenRun(t, events).0.partyKey == t.partyKey && KeyGenRun(t, events).0.newPartyKey == t.newPartyKey
  {
    if events != [] && events[0].Out? && events[0].msg.Some? {
      assert forall k :: 0 <= k < |events[1..]| ==> events[1..][k] == events[k + 1];
      KeyGenKeepsCoupling(t, events[1..]);
    }
  }

  /** What a reshare does to the state depends only on the share it takes. */
  function AfterReshare(t: SignerState, taken: Option<Share>, nextKey: nat): SignerState {
    match taken
    case None => t
    case Some(share) =>
      if share.publicKey.None? then Storing(t, share)
      else Storing(t, share).(partyKey := t.newPartyKey, newPartyKey := nextKey)
  }

  lemma {:induction false} ForwardsOnly(ms: seq<TssMessage>)
    ensures forall signal :: signal in Forwards(ms) ==> signal.Forward?
  {
    if ms != [] {
      ForwardsOnly(ms[1..]);
    }
  }

  lemma {:induction false} ReshareTakes(t: SignerState, oldCount: nat, events: seq<ReshareEvent>, ended: nat,
          nextKey: nat)
    ensures ReshareRun(t, oldCount, events, ended, nextKey).0 == AfterReshare(t, TakenShare(t, events, ended), nextKey)
    ensures Finished in ReshareRun(t, oldCount, events, ended, nextKey).1 <==>
            TakenShare(t, events, ended).Some? && TakenShare(t, events, ended).value.publicKey.Some?
    decreases |events|
  {
    if events != [] {
      match events[0]
      case Out(Some(m), audience, late) =>
        ForwardsOnly(Copies(m, audience, oldCount, late));
        ReshareTakes(t, oldCount, events[1..], ended, nextKey);
      case End(_) =>
        if t.privateKey.Some? && ended == 0 {
          ReshareTakes(t, oldCount, events[1..], 1, nextKey);
        }
      case _ =>
    }
  }

  /**
    When a reshare keeps share and key together: if and only if it takes no share, or the
    share it takes has a public key and the ID of the new party's key, or it has no public
    key and the ID of the old one. In the last case the source has stored the share but
    returned before rotating the keys.
   */
  lemma ReshareCoupling(t: SignerState, oldCount: nat, events: seq<ReshareEvent>, nextKey: nat)
    requires Coupled(t)
    ensures Coupled(ReshareRun(t, oldCount, events, 0, nextKey).0) <==>
            match TakenShare(t, events, 0)
            case None => true
            case Some(share) =>
              Magnitude(share.shareId) == if share.publicKey.Some? then t.newPartyKey else t.partyKey
  {
    ReshareTakes(t, oldCount, events, 0, nextKey);
  }

  /**
    Under the library's promise that the last end value carries the new party's key, the
    coupling survives exactly when that value has a public key. Without one the source
    stores the new share and keeps the old party key.
   */
  lemma MissingPublicKeyBreaksCoupling(t: SignerState, oldCount: nat, events: seq<ReshareEvent>, nextKey: nat)
    requires Coupled(t) && t.newPartyKey != t.partyKey
    requires TakenShare(t, events, 0).Some? && Magnitude(TakenShare(t, events, 0).value.shareId) == t.newPartyKey
    ensures Coupled(ReshareRun(t, oldCount, events, 0, nextKey).0) <==> TakenShare(t, events, 0).value.publicKey.Some?
  {
    ReshareCoupling(t, oldCount, events, nextKey);
  }

  /** One such run, in full: a node without a share joins a reshare whose result has no public key. */
  lemma BrokenCouplingExample()
    ensures var t := SignerState(None, "", 1, -1, 2, -1);
            Coupled(t) && !Coupled(ReshareRun(t, 0, [ReshareEvent.End(Share(2, None))], 0, 3).0)
  {
  }

  /** A reshare that finishes does to the party what the network's rotation says. */
  lemma ReshareRotatesParty(id: PeerId, t: SignerState, oldCount: nat, events: seq<ReshareEvent>, nextKey: nat)
    requires Finished in ReshareRun(t, oldCount, events, 0, nextKey).1
    ensures AsParty(id, ReshareRun(t, oldCount, events, 0, nextKey).0) == Rotate(AsParty(id, t), nextKey)
  {
    ReshareTakes(t, oldCount, events, 0, nextKey);
  }

  // ----- A signer's life -----

  datatype Operation =
    | MakeKey(events: seq<Event>)
    | Reshare(oldCount: nat, reshareEvents: seq<ReshareEvent>, nextKey: nat)
    | TakeIndices(index: int, newIndex: int)

  function After(t: SignerState, op: Operation): SignerState {
    match op
    case MakeKey(events) => KeyGenRun(t, events).0
    case Reshare(oldCount, events, nextKey) => ReshareRun(t, oldCount, events, 0, nextKey).0
    case TakeIndices(i, j) => t.(partyIndex := i, newPartyIndex := j)
  }

  function AfterAll(t: SignerState, ops: seq<Operation>): SignerState
    decreases |ops|
  {
    if ops == [] then t else AfterAll(After(t, ops[0]), ops[1..])
  }

  /** The library keeps its promises in every operation of the life. */
  predicate Contract(t: SignerState, ops: seq<Operation>)
    decreases |ops|
  {
    ops == [] ||
    (&& (match ops[0]
         case MakeKey(events) => KeyGenContract(t, events)
         case Reshare(_, events, _) =>
           var taken := TakenShare(t, events, 0);
           taken.Some? ==> taken.value.publicKey.Some? && Magnitude(taken.value.shareId) == t.newPartyKey
         case TakeIndices(_, _) => true)
     && Contract(After(t, ops[0]), ops[1..]))
  }

  /**
    Share and key stay coupled: from New, through any number of key generations, reshares and
    sessions, successful or not, a signer that holds a share has that share's ID as its key.
   */
  lemma {:induction false} LifeKeepsCoupling(t: SignerState, ops: seq<Operation>)
    requires Coupled(t) && Contract(t, ops)
    ensures Coupled(AfterAll(t, ops))
    decreases |ops|
  {
    if ops != [] {
      match ops[0] {
        case MakeKey(events) => KeyGenKeepsCoupling(t, events);
        case Reshare(oldCount, events, nextKey) => ReshareCoupling(t, oldCount, events, nextKey);
        case TakeIndices(_, _) =>
      }
      LifeKeepsCoupling(After(t, ops[0]), ops[1..]);
    }
  }

  lemma SignersAreBornCoupled(saved: Option<Share>, random: nat, newRandom: nat, ops: seq<Operation>)
    requires NewState(saved, random, newRandom).Some?
    requires Contract(NewState(saved, random, newRandom).value, ops)
    ensures Coupled(AfterAll(NewState(saved, random, newRandom).value, ops))
  {
    LifeKeepsCoupling(NewState(saved, random, newRandom).value, ops);
  }
}
