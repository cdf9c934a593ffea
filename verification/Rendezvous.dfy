/** What sessions guarantee, in every run of a node: results about the step system of Sessions. */
module Rendezvous {
  import opened Basics
  import opened Messages
  import opened CommitteeCopies
  import opened Sessions
  import Signer

  // ----- The flags -----

  /**
    In every run each flag is set exactly while one operation, or one worker, holds it: at most
    one signer session is ever active, although the node's flag is free again while a worker
    is still waiting for update calls.
   */
  lemma FlagsTellTheTruth(n: Node, steps: seq<Step>)
    requires Unused(n) && ValidRun(n, steps)
    ensures var end := RunEnd(n, steps);
            && (end.busy <==> exists id :: id in end.ops && Holds(end.ops[id]))
            && (end.tss <==> exists id :: id in end.ops && HoldsTss(end.ops[id]))
            && (forall i, j :: i in end.ops && j in end.ops && Holds(end.ops[i]) && Holds(end.ops[j]) ==> i == j)
            && (forall i, j :: i in end.ops && j in end.ops && HoldsTss(end.ops[i]) && HoldsTss(end.ops[j]) ==> i == j)
  {
    InvariantFromTheStart(n, steps);
  }

  /** Its session does nothing but report ErrAnotherTssProcessIsRunning. */
  predicate TurnedAway(op: Operation) {
    && op.Session? && op.events == [] && op.received == [] && op.dispatched == [] && op.loose == multiset{}
    && ((op.worker.Refused? && op.driver.Waiting?)
        || (op.worker.Gone? && op.driver == Returned(Concluded(Failed(AnotherTss)))))
  }

  lemma RefusedIsTurnedAway(n: Node, id: nat)
    requires Invariant(n) && IsSession(n, id) && n.ops[id].worker.Refused?
    ensures TurnedAway(n.ops[id])
  {
  }

  lemma {:induction false} RefusedStaysOut(n: Node, steps: seq<Step>, id: nat)
    requires ValidRun(n, steps) && id in n.ops && TurnedAway(n.ops[id])
    ensures id in RunEnd(n, steps).ops && TurnedAway(RunEnd(n, steps).ops[id])
    decreases |steps|
  {
    if steps != [] {
      RefusedStaysOut(Apply(n, steps[0]), steps[1..], id);
    }
  }

  /** From its refusal on, whatever else the node does, a session takes and sends nothing. */
  lemma RefusedSessionDoesNothing(n: Node, steps: seq<Step>, id: nat, later: seq<Step>)
    requires Unused(n) && ValidRun(n, steps) && IsSession(RunEnd(n, steps), id)
    requires RunEnd(n, steps).ops[id].worker.Refused? && ValidRun(RunEnd(n, steps), later)
    ensures id in RunEnd(RunEnd(n, steps), later).ops
    ensures TurnedAway(RunEnd(RunEnd(n, steps), later).ops[id])
  {
    InvariantFromTheStart(n, steps);
    RefusedIsTurnedAway(RunEnd(n, steps), id);
    RefusedStaysOut(RunEnd(n, steps), later, id);
  }

  // ----- How a session begins and ends -----

  /**
    A session starts its worker exactly if there are as many peers as the threshold, or for a sign
    session if it is ready; otherwise it is over, nothing has changed, and the node is free.
   */
  lemma StartsIffEnoughPeers(n: Node, id: nat, ready: bool, listed: set<PeerId>)
    requires Guard(n, Gather(id, ready, listed))
    ensures var n' := Apply(n, Gather(id, ready, listed));
            var op := n'.ops[id];
            var starts := if n.ops[id].kind.Sign? then ready else |n.peers| >= n.threshold;
            && op.Session? && op.kind == n.ops[id].kind && n'.peers == n.peers && n'.tss == n.tss
            && (starts ==>
                  && op.driver.Waiting? && op.worker.Starting? && n'.busy == n.busy
                  && op.committee == n.peers && op.listed == listed)
            && (!starts ==> op.driver == Returned(NotReady) && op.worker == n.ops[id].worker && !n'.busy)
  {
  }

  /** The worker is refused exactly if the signer is busy, and a sign session ends at once if it is not prepared. */
  lemma WorkerStartsIffSignerFree(n: Node, id: nat, prepared: bool)
    requires Guard(n, StartWorker(id, prepared))
    ensures var n' := Apply(n, StartWorker(id, prepared));
            && n'.tss && n'.busy == n.busy && n'.ops[id].Session?
            && n'.ops[id].driver == n.ops[id].driver
            && (n'.ops[id].worker.Refused? <==> n.tss)
            && (n'.ops[id].worker.Running? <==> !n.tss && (n.ops[id].kind.Sign? ==> prepared))
            && (!n.tss && n.ops[id].kind.Sign? && !prepared ==>
                  n'.ops[id].worker == Ending(Failed(NotPrepared), false))
  {
  }

  /**
    The two steps in which a session ends, the event that decides it and the meeting with the
    driver: the node is free and the peers are marked exactly if a key generation or a reshare has
    finished; and the signer is free exactly if a key generation or a signing ran into the
    deadline, while any other worker has yet to wait for the update calls.
   */
  lemma DecisionEndsTheSession(n: Node, id: nat, e: LibEvent, v: Verdict)
    requires Guard(n, Library(id, e)) && n.ops[id].driver.Waiting? && n.tss
    requires Decides(Passes(n.ops[id].kind) && !SeenEnd(n.ops[id].events), e) == Some(v)
    ensures Guard(Apply(n, Library(id, e)), Receive(id))
    ensures var end := Apply(Apply(n, Library(id, e)), Receive(id));
            var early := e.Deadline? && !n.ops[id].kind.Reshare?;
            && !end.busy && end.tss == !early && end.ops[id].Session?
            && end.ops[id].driver == Returned(Concluded(v))
            && end.ops[id].worker == (if early then Gone else Draining)
            && end.peers == if v.Finished? && !n.ops[id].kind.Sign? then Membership.MarkShares(n.peers) else n.peers
  {
  }

  /** A draining worker frees the signer exactly when no update call is in progress any more. */
  lemma DrainsIffNoUpdates(n: Node, id: nat)
    requires IsSession(n, id) && n.ops[id].worker.Draining?
    ensures Guard(n, Release(id)) <==> n.updates == 0
    ensures Guard(n, Release(id)) ==> !Apply(n, Release(id)).tss && Apply(n, Release(id)).ops[id].worker == Gone
  {
  }

  /** Update calls that have begun in a run, less those that have ended. */
  function Updates(steps: seq<Step>): int {
    if steps == [] then 0
    else (if steps[0].BeginUpdate? then 1 else if steps[0].EndUpdate? then -1 else 0) + Updates(steps[1..])
  }

  /** The wait group counts them: in every run it is what has begun and not ended. */
  lemma {:induction false} UpdatesAreCounted(n: Node, steps: seq<Step>)
    requires ValidRun(n, steps)
    ensures RunEnd(n, steps).updates == n.updates + Updates(steps)
    decreases |steps|
  {
    if steps != [] {
      UpdatesAreCounted(Apply(n, steps[0]), steps[1..]);
    }
  }

  // ----- What comes out -----

  /**
    When a session's driver has its verdict, the verdict is the first one the library's events
    decide, or the refusal given before any event; and every message the library had handed
    over for a key generation or a signing has been dispatched, in order.
   */
  lemma DriverGetsTheVerdict(n: Node, steps: seq<Step>, id: nat)
    requires Unused(n) && ValidRun(n, steps) && IsSession(RunEnd(n, steps), id)
    requires RunEnd(n, steps).ops[id].driver.Returned? && RunEnd(n, steps).ops[id].driver.outcome.Concluded?
    ensures var op := RunEnd(n, steps).ops[id];
            var v := op.driver.outcome.verdict;
            && (Decision(Passes(op.kind), op.events) == Some(v)
                || (op.events == [] && v.Failed? && (v.error.AnotherTss? || v.error.NotPrepared?)))
            && (!op.kind.Reshare? ==> op.dispatched == Outgoing(op.events))
            && (op.kind.Reshare? ==> multiset(op.dispatched) <= multiset(Outgoing(op.events)))
  {
    InvariantFromTheStart(n, steps);
    var op := RunEnd(n, steps).ops[id];
    assert RightVerdict(op) && NothingLost(op) && InStep(op.driver, op.worker);
    assert op.dispatched + [] == op.dispatched;
    assert op.received + [] == op.received;
  }

  /**
    At any moment of a key generation or a signing, what the library has handed over is what was
    dispatched, then the message the driver has in hand, then the one the worker is offering.
   */
  lemma MessagesStayInOrder(n: Node, steps: seq<Step>, id: nat)
    requires Unused(n) && ValidRun(n, steps) && IsSession(RunEnd(n, steps), id)
    requires !RunEnd(n, steps).ops[id].kind.Reshare?
    ensures var op := RunEnd(n, steps).ops[id];
            Outgoing(op.events) == op.dispatched + InHand(op.driver) + OnOffer(op.worker)
  {
    InvariantFromTheStart(n, steps);
    assert NothingLost(RunEnd(n, steps).ops[id]);
  }

  /**
    The blanket marking at the end of a key generation or a reshare touches only peers that
    were in that session's committee, and nothing else of their records has changed since.
   */
  lemma FinishMarksItsCommittee(n: Node, steps: seq<Step>, id: nat)
    requires Unused(n) && ValidRun(n, steps) && Guard(RunEnd(n, steps), Receive(id))
    requires var op := RunEnd(n, steps).ops[id];
             !op.kind.Sign? && op.worker.Ending? && op.worker.verdict == Finished
    ensures var s := RunEnd(n, steps);
            var committee := s.ops[id].committee;
            var after := Apply(s, Receive(id)).peers;
            && after.Keys == s.peers.Keys && after.Keys <= committee.Keys
            && forall q :: q in after ==>
                 after[q] == committee[q].(party := committee[q].party.(haveSharedKey := true))
  {
    InvariantFromTheStart(n, steps);
    var s := RunEnd(n, steps);
    assert UnderWay(s.ops[id]) && Frozen(s.peers, s.ops[id].committee);
  }

  // ----- The worker's turns are the signer's loops -----

  function Seen(events: seq<Signer.Event>): (seen: seq<LibEvent>)
    ensures |seen| == |events|
  {
    seq(|events|, k requires 0 <= k < |events| =>
      match events[k]
      case Deadline => Deadline
      case LibraryError => LibraryError
      case Out(m) => Out(m)
      case End(share) => End(share.publicKey.Some?))
  }

  function AsSignal(v: Verdict): Signer.Signal {
    match v
    case Finished => Signer.Finished
    case Failed(ContextDone) => Signer.Failed(Signer.ContextDone)
    case Failed(FromLibrary) => Signer.Failed(Signer.FromLibrary)
    case Failed(NotConverted) => Signer.Failed(Signer.NotConverted)
    case Failed(_) => Signer.Failed(Signer.NoPublicKey)
  }

  /** The messages for the network, then the verdict, if there is one. */
  function Signals(passes: bool, events: seq<LibEvent>): seq<Signer.Signal> {
    Signer.Forwards(Outgoing(events)) +
    match Decision(passes, events)
    case None => []
    case Some(v) => [AsSignal(v)]
  }

  /** The worker has stopped at the first decision. */
  predicate StopsThere(passes: bool, events: seq<LibEvent>) {
    events != [] ==> Decision(passes, events[..|events| - 1]).None?
  }

  lemma ForwardsUnfold(events: seq<LibEvent>)
    requires events != []
    ensures Signer.Forwards(Outgoing(events)) ==
            (if Sends(events[0]) then [Signer.Forward(events[0].msg.value)] else [])
            + Signer.Forwards(Outgoing(events[1..]))
  {
    if Sends(events[0]) {
      assert Outgoing(events)[1..] == Outgoing(events[1..]);
    } else {
      assert Outgoing(events) == Outgoing(events[1..]);
    }
  }

  lemma SignalsUnfold(passes: bool, events: seq<LibEvent>)
    requires events != [] && StopsThere(passes, events)
    ensures Decides(passes, events[0]).None? ==>
              StopsThere(passes && !events[0].End?, events[1..])
    ensures Decides(passes, events[0]).None? ==>
              Signals(passes, events) ==
              (if Sends(events[0]) then [Signer.Forward(events[0].msg.value)] else [])
              + Signals(passes && !events[0].End?, events[1..])
    ensures Decides(passes, events[0]).Some? ==>
              Signals(passes, events) == [AsSignal(Decides(passes, events[0]).value)]
  {
    ForwardsUnfold(events);
    if |events| == 1 {
      assert Outgoing(events[1..]) == [];
    } else {
      assert events[..|events| - 1][0] == events[0];
      assert events[..|events| - 1][1..] == events[1..][..|events[1..]| - 1];
    }
  }

  /**
    GenerateKey's loop, run on its own, signals exactly what the worker of the step system
    offers: the library's messages in order, then the decision.
   */
  lemma {:induction false} KeyGenSignals(t: Signer.SignerState, events: seq<Signer.Event>)
    requires StopsThere(false, Seen(events))
    ensures Signer.KeyGenRun(t, events).1 == Signals(false, Seen(events))
  {
    if events != [] {
      SignalsUnfold(false, Seen(events));
      SeenRest(events);
      if Sends(Seen(events)[0]) {
        KeyGenSignals(t, events[1..]);
      }
    }
  }

  lemma SeenRest(events: seq<Signer.Event>)
    requires events != []
    ensures Seen(events)[1..] == Seen(events[1..])
  {
  }

  /** One event for each message. */
  function Sent(ms: seq<TssMessage>): (sent: seq<LibEvent>)
    ensures |sent| == |ms|
  {
    seq(|ms|, k requires 0 <= k < |ms| => Out(Some(ms[k])))
  }

  /** In a reshare the worker sees one event for each copy that handleMessageCommittee makes. */
  function SeenReshare(oldCount: nat, events: seq<Signer.ReshareEvent>): seq<LibEvent> {
    if events == [] then []
    else
      (match events[0]
       case Deadline => [LibEvent.Deadline]
       case LibraryError => [LibEvent.LibraryError]
       case Out(None, _, _) => [LibEvent.Out(None)]
       case Out(Some(m), audience, late) => Sent(Copies(m, audience, oldCount, late))
       case End(share) => [LibEvent.End(share.publicKey.Some?)]) + SeenReshare(oldCount, events[1..])
  }

  lemma SentUnfolds(ms: seq<TssMessage>, later: seq<LibEvent>)
    ensures ms == [] ==> Sent(ms) + later == later
    ensures ms != [] ==> (Sent(ms) + later)[0] == Out(Some(ms[0]))
    ensures ms != [] ==> (Sent(ms) + later)[1..] == Sent(ms[1..]) + later
  {
  }

  lemma SignalsAfterOne(passes: bool, m: TssMessage, events: seq<LibEvent>)
    requires events != [] && events[0] == Out(Some(m)) && StopsThere(passes, events)
    ensures StopsThere(passes, events[1..])
    ensures Signals(passes, events) == [Signer.Forward(m)] + Signals(passes, events[1..])
  {
    SignalsUnfold(passes, events);
  }

  lemma ForwardsFirst(m: TssMessage, ms: seq<TssMessage>, later: seq<Signer.Signal>)
    requires ms != [] && ms[0] == m
    ensures [Signer.Forward(m)] + (Signer.Forwards(ms[1..]) + later) == Signer.Forwards(ms) + later
  {
    assert Signer.Forwards(ms) == [Signer.Forward(m)] + Signer.Forwards(ms[1..]);
  }

  lemma {:induction false} SignalsAfterSent(passes: bool, ms: seq<TssMessage>, later: seq<LibEvent>)
    requires StopsThere(passes, Sent(ms) + later)
    ensures StopsThere(passes, later)
    ensures Signals(passes, Sent(ms) + later) == Signer.Forwards(ms) + Signals(passes, later)
  {
    SentUnfolds(ms, later);
    if ms != [] {
      SignalsAfterOne(passes, ms[0], Sent(ms) + later);
      SignalsAfterSent(passes, ms[1..], later);
      ForwardsFirst(ms[0], ms, Signals(passes, later));
    }
  }

  /** The decision at the head of what a reshare's worker sees, if it is not a message. */
  lemma SignalsOfHead(passes: bool, e: LibEvent, later: seq<LibEvent>)
    requires StopsThere(passes, [e] + later) && !Sends(e)
    ensures Decides(passes, e).None? ==> StopsThere(passes && !e.End?, later)
    ensures Signals(passes, [e] + later) ==
            match Decides(passes, e)
            case None => Signals(passes && !e.End?, later)
            case Some(v) => [AsSignal(v)]
  {
    var events := [e] + later;
    assert events[0] == e && events[1..] == later;
    SignalsUnfold(passes, events);
    assert [] + Signals(passes && !e.End?, later) == Signals(passes && !e.End?, later);
  }

  /** The same for ReshareKey, with the copies that are made of each message for the two committees. */
  lemma {:induction false} ReshareSignals(t: Signer.SignerState, oldCount: nat, events: seq<Signer.ReshareEvent>,
          ended: nat, nextKey: nat)
    requires StopsThere(t.privateKey.Some? && ended == 0, SeenReshare(oldCount, events))
    ensures Signer.ReshareRun(t, oldCount, events, ended, nextKey).1 ==
            Signals(t.privateKey.Some? && ended == 0, SeenReshare(oldCount, events))
    decreases |events|
  {
    if events != [] {
      var passes, later := t.privateKey.Some? && ended == 0, SeenReshare(oldCount, events[1..]);
      match events[0]
      case Out(Some(m), audience, late) =>
        SignalsAfterSent(passes, Copies(m, audience, oldCount, late), later);
        ReshareSignals(t, oldCount, events[1..], ended, nextKey);
      case Out(None, _, _) => SignalsOfHead(passes, LibEvent.Out(None), later);
      case End(share) =>
        SignalsOfHead(passes, LibEvent.End(share.publicKey.Some?), later);
        if passes {
          ReshareSignals(t, oldCount, events[1..], 1, nextKey);
        }
      case Deadline => SignalsOfHead(passes, LibEvent.Deadline, later);
      case LibraryError => SignalsOfHead(passes, LibEvent.LibraryError, later);
    }
  }
}
