/**
  Sessions at one node: the node's busy flag, the signer's own flag, and the driver and worker
  of a session, which meet over unbuffered channels (start.go, keygen.go, sign.go, reshare.go;
  tss/keygen.go, tss/sign.go, tss/reshare.go).

  Claiming a flag, read and then stored in the source, is one step here. tss-lib may produce
  any events, and any operations of the node may be interleaved with a session's steps.
 */
module Sessions {
  import opened Basics
  import opened Membership
  import opened Messages
  import Routing

  /** A reshare's worker passes over the first end value when the node already holds a share. */
  datatype Kind = KeyGen | Sign | Reshare(hasShare: bool)

  /** What tss-lib does next; a message that cannot be converted is None. */
  datatype LibEvent = Deadline | LibraryError | Out(msg: Option<TssMessage>) | End(usable: bool)

  datatype Failure = AnotherTss | NotPrepared | ContextDone | FromLibrary | NotConverted | Unusable

  datatype Verdict = Failed(error: Failure) | Finished

  /** The goroutine started by doKeyGen, doSign or doReshare. */
  datatype Worker =
    | Absent
    | Starting
    | Refused                                 // offers ErrAnotherTssProcessIsRunning
    | Running
    | Sending(msg: TssMessage)                // offers a message for the network
    | Ending(verdict: Verdict, drains: bool)  // offers its verdict
    | Draining                                // waits for the update calls
    | Gone

  datatype Outcome = NotReady | DispatchFailed(msg: TssMessage) | Concluded(verdict: Verdict)

  datatype Driver = Claimed | Waiting | Dispatching(msg: TssMessage) | Returned(outcome: Outcome)

  /** Everything that claims the busy flag. */
  datatype Operation =
    | ChangingPeers     // AddPeer, handleNewPeerJoinedMsg, handleNewConnection
    | PeersChanged
    | Session(
        kind: Kind,
        driver: Driver,
        worker: Worker,
        committee: map<PeerId, Record>,   // the peers the session was started with
        listed: set<PeerId>,              // sign only: the IDs in the list of signers
        events: seq<LibEvent>,            // what the worker has taken from the library
        received: seq<TssMessage>,        // what the driver has taken from the worker
        dispatched: seq<TssMessage>,      // what the driver has sent to the network
        loose: multiset<TssMessage>)      // reshare only: messages offered by goroutines of their own

  datatype Node = Node(
    host: PeerId,
    busy: bool,
    tss: bool,
    updates: nat,             // update calls in progress: the signer's wait group
    threshold: nat,
    peers: map<PeerId, Record>,
    ops: map<nat, Operation>)

  datatype Step =
    | BeginPeerChange(id: nat)
    | Launch(id: nat, link: nat, remote: PeerId)
    | EndPeerChange(id: nat)
    | RecordPartyOf(from: PeerId, party: Party)
    | DeletePeer(peer: PeerId)
    | Claim(id: nat, kind: Kind)
    | Gather(id: nat, ready: bool, listed: set<PeerId>)
    | StartWorker(id: nat, prepared: bool)
    | Library(id: nat, event: LibEvent)
    | Receive(id: nat)
    | ReceiveLoose(id: nat, msg: TssMessage)
    | Dispatch(id: nat)
    | Release(id: nat)
    | BeginUpdate
    | EndUpdate

  // ----- What the loops make of the library's events -----

  /** The messages for the network, in order. */
  function Outgoing(events: seq<LibEvent>): seq<TssMessage> {
    if events == [] then []
    else
      (match events[0]
       case Out(Some(m)) => [m]
       case _ => []) + Outgoing(events[1..])
  }

  predicate SeenEnd(events: seq<LibEvent>) {
    exists k :: 0 <= k < |events| && events[k].End?
  }

  /** What a single event decides; `passes` when an end value is to be passed over. */
  function Decides(passes: bool, e: LibEvent): Option<Verdict> {
    match e
    case Deadline => Some(Failed(ContextDone))
    case LibraryError => Some(Failed(FromLibrary))
    case Out(m) => if m.None? then Some(Failed(NotConverted)) else None
    case End(usable) =>
      if passes then None
      else if usable then Some(Finished) else Some(Failed(Unusable))
  }

  /** The first decision among the events. */
  function Decision(passes: bool, events: seq<LibEvent>): Option<Verdict> {
    if events == [] then None
    else
      var first := Decides(passes, events[0]);
      if first.Some? then first else Decision(passes && !events[0].End?, events[1..])
  }

  predicate Passes(kind: Kind) {
    kind.Reshare? && kind.hasShare
  }

  /** Only key generation and signing return at the deadline without waiting for updates. */
  predicate Drains(kind: Kind, e: LibEvent) {
    kind.Reshare? || !e.Deadline?
  }

  lemma {:induction false} OutgoingAppend(events: seq<LibEvent>, e: LibEvent)
    ensures Outgoing(events + [e]) == Outgoing(events) + Outgoing([e])
  {
    if events == [] {
      assert events + [e] == [e];
    } else {
      assert (events + [e])[1..] == events[1..] + [e];
      OutgoingAppend(events[1..], e);
    }
  }

  lemma {:induction false} DecisionAppend(passes: bool, events: seq<LibEvent>, e: LibEvent)
    requires Decision(passes, events).None?
    ensures Decision(passes, events + [e]) == Decides(passes && !SeenEnd(events), e)
  {
    if events == [] {
      assert (events + [e])[1..] == [];
    } else {
      assert (events + [e])[1..] == events[1..] + [e];
      DecisionAppend(passes && !events[0].End?, events[1..], e);
      assert SeenEnd(events) <==> events[0].End? || SeenEnd(events[1..]) by {
        assert forall k :: 0 < k < |events| ==> events[1..][k - 1] == events[k];
      }
    }
  }

  // ----- The steps -----

  function NewSession(kind: Kind): Operation {
    Session(kind, Claimed, Absent, map[], {}, [], [], [], multiset{})
  }

  predicate IsSession(n: Node, id: nat) {
    id in n.ops && n.ops[id].Session?
  }

  predicate Guard(n: Node, step: Step) {
    match step
    case BeginPeerChange(id) => !n.busy && id !in n.ops
    case Launch(id, _, _) => id in n.ops && n.ops[id].ChangingPeers?
    case EndPeerChange(id) => id in n.ops && n.ops[id].ChangingPeers?
    case RecordPartyOf(_, _) => !n.busy
    case DeletePeer(_) => true
    case Claim(id, _) => !n.busy && id !in n.ops
    case Gather(id, _, _) => IsSession(n, id) && n.ops[id].driver.Claimed?
    case StartWorker(id, _) => IsSession(n, id) && n.ops[id].worker.Starting?
    case Library(id, _) => IsSession(n, id) && n.ops[id].worker.Running?
    case Receive(id) => IsSession(n, id) && n.ops[id].driver.Waiting? && Offers(n.ops[id].worker)
    case ReceiveLoose(id, m) => IsSession(n, id) && n.ops[id].driver.Waiting? && m in n.ops[id].loose
    case Dispatch(id) => IsSession(n, id) && n.ops[id].driver.Dispatching?
    case Release(id) => IsSession(n, id) && n.ops[id].worker.Draining? && n.updates == 0
    case BeginUpdate => true
    case EndUpdate => n.updates > 0
  }

  /** The worker is blocked until its driver receives. */
  predicate Offers(w: Worker) {
    w.Refused? || w.Sending? || w.Ending?
  }

  /** What a step makes of the operation it moves, of the flags and of the peers. */
  datatype Change = Change(op: Operation, busy: bool, tss: bool, peers: map<PeerId, Record>)

  /** The checks before the worker is started: enough peers, or for a sign session `ready`. */
  predicate Ready(n: Node, kind: Kind, ready: bool) {
    if kind.Sign? then ready else |n.peers| >= n.threshold
  }

  /** The driver reads its peers, for a sign session those listed, and starts the worker, or returns. */
  function DoGather(n: Node, op: Operation, ready: bool, listed: set<PeerId>): Change
    requires op.Session?
  {
    if Ready(n, op.kind, ready) then
      Change(op.(driver := Waiting, worker := Starting, committee := n.peers, listed := listed), n.busy, n.tss, n.peers)
    else
      Change(op.(driver := Returned(NotReady)), false, n.tss, n.peers)
  }

  /** The worker looks at the signer's flag; a sign session then checks its key and its data. */
  function DoStart(n: Node, op: Operation, prepared: bool): Change
    requires op.Session?
  {
    if n.tss then Change(op.(worker := Refused), n.busy, true, n.peers)
    else if op.kind.Sign? && !prepared then
      Change(op.(worker := Ending(Failed(NotPrepared), false)), n.busy, true, n.peers)
    else
      Change(op.(worker := Running), n.busy, true, n.peers)
  }

  /** One turn of the worker's loop. */
  function Turn(op: Operation, e: LibEvent): Operation
    requires op.Session?
  {
    var op' := op.(events := op.events + [e]);
    match Decides(Passes(op.kind) && !SeenEnd(op.events), e)
    case Some(v) => op'.(worker := Ending(v, Drains(op.kind, e)))
    case None =>
      match e
      case Out(Some(m)) =>
        if op.kind.Reshare? then op'.(loose := op.loose + multiset{m}) else op'.(worker := Sending(m))
      case _ => op'
  }

  /** The meeting on a channel, as the two sides see it. */
  function Meet(op: Operation): Operation
    requires op.Session? && Offers(op.worker)
  {
    match op.worker
    case Sending(m) => op.(driver := Dispatching(m), worker := Running, received := op.received + [m])
    case Refused => op.(driver := Returned(Concluded(Failed(AnotherTss))), worker := Gone)
    case Ending(v, drains) =>
      op.(driver := Returned(Concluded(v)), worker := if drains then Draining else Gone)
  }

  /** On anything but a message the driver returns, marking its peers on success. */
  function DoReceive(n: Node, op: Operation): Change
    requires op.Session? && Offers(op.worker)
  {
    match op.worker
    case Sending(_) => Change(Meet(op), n.busy, n.tss, n.peers)
    case Refused => Change(Meet(op), false, n.tss, n.peers)
    case Ending(v, drains) =>
      Change(Meet(op), false, drains && n.tss,
             if v.Finished? && !op.kind.Sign? then MarkShares(n.peers) else n.peers)
  }

  function MeetLoose(op: Operation, m: TssMessage): Operation
    requires op.Session?
  {
    op.(driver := Dispatching(m), received := op.received + [m], loose := op.loose - multiset{m})
  }

  function Dispatched(op: Operation, delivered: bool): Operation
    requires op.Session? && op.driver.Dispatching?
  {
    if delivered then op.(driver := Waiting, dispatched := op.dispatched + [op.driver.msg])
    else op.(driver := Returned(DispatchFailed(op.driver.msg)))
  }

  /** The peers a session sends to: the current ones, or the signer peers chosen at its start. */
  function Known(n: Node, op: Operation): set<PeerId>
    requires op.Session?
  {
    if op.kind.Sign? then (op.listed - {n.host}) * op.committee.Keys else n.peers.Keys
  }

  /**
    Whether handleKeyGenUpdateMessage and its kin return without an error: a broadcast always
    does, any other message if handleUpdateMessage can route it.
   */
  predicate Deliverable(n: Node, op: Operation, m: TssMessage)
    requires op.Session?
  {
    m.isBroadcast || Routing.Route(n.host, m.dests, Known(n, op)).error.None?
  }

  predicate MovesOne(step: Step) {
    !step.Launch? && !step.RecordPartyOf? && !step.DeletePeer? && !step.BeginUpdate? && !step.EndUpdate?
  }

  function Advance(n: Node, step: Step): Change
    requires Guard(n, step) && MovesOne(step)
  {
    match step
    case BeginPeerChange(_) => Change(ChangingPeers, true, n.tss, n.peers)
    case EndPeerChange(_) => Change(PeersChanged, false, n.tss, n.peers)
    case Claim(_, kind) => Change(NewSession(kind), true, n.tss, n.peers)
    case Gather(id, ready, listed) => DoGather(n, n.ops[id], ready, listed)
    case StartWorker(id, prepared) => DoStart(n, n.ops[id], prepared)
    case Library(id, e) => Change(Turn(n.ops[id], e), n.busy, n.tss, n.peers)
    case Receive(id) => DoReceive(n, n.ops[id])
    case ReceiveLoose(id, m) => Change(MeetLoose(n.ops[id], m), n.busy, n.tss, n.peers)
    case Dispatch(id) =>
      var delivered := Deliverable(n, n.ops[id], n.ops[id].driver.msg);
      Change(Dispatched(n.ops[id], delivered), delivered && n.busy, n.tss, n.peers)
    case Release(id) => Change(n.ops[id].(worker := Gone), n.busy, false, n.peers)
  }

  function Make(n: Node, id: nat, c: Change): Node {
    n.(ops := n.ops[id := c.op], busy := c.busy, tss := c.tss, peers := c.peers)
  }

  function Apply(n: Node, step: Step): Node
    requires Guard(n, step)
  {
    match step
    case Launch(_, link, q) => n.(peers := WithPeer(n.peers, link, q))
    case RecordPartyOf(from, party) => n.(peers := WithParty(n.peers, from, party))
    case DeletePeer(q) => n.(peers := WithoutPeer(n.peers, q))
    case BeginUpdate => n.(updates := n.updates + 1)
    case EndUpdate => n.(updates := n.updates - 1)
    case _ => Make(n, step.id, Advance(n, step))
  }

  predicate ValidRun(n: Node, steps: seq<Step>)
    decreases |steps|
  {
    steps == [] || (Guard(n, steps[0]) && ValidRun(Apply(n, steps[0]), steps[1..]))
  }

  function RunEnd(n: Node, steps: seq<Step>): Node
    requires ValidRun(n, steps)
    decreases |steps|
  {
    if steps == [] then n else RunEnd(Apply(n, steps[0]), steps[1..])
  }

  /** A node as it is created: nothing runs and nothing has run. */
  predicate Unused(n: Node) {
    !n.busy && !n.tss && n.ops == map[]
  }

  // ----- The invariant -----

  /** The operation is between claiming the busy flag and releasing it. */
  predicate Holds(op: Operation) {
    op.ChangingPeers? || (op.Session? && !op.driver.Returned?)
  }

  /** The session's worker is between claiming the signer's flag and releasing it. */
  predicate HoldsTss(op: Operation) {
    op.Session? && (op.worker.Running? || op.worker.Sending? || op.worker.Ending? || op.worker.Draining?)
  }

  /** The flag is set exactly when one operation holds it, and never do two. */
  ghost predicate Exclusive(flag: bool, ops: map<nat, Operation>, holds: Operation -> bool) {
    && (flag <==> exists id :: id in ops && holds(ops[id]))
    && forall i, j :: i in ops && j in ops && holds(ops[i]) && holds(ops[j]) ==> i == j
  }

  /** The message the driver is about to dispatch, or failed to. */
  function InHand(d: Driver): seq<TssMessage> {
    match d
    case Dispatching(m) => [m]
    case Returned(DispatchFailed(m)) => [m]
    case _ => []
  }

  function OnOffer(w: Worker): seq<TssMessage> {
    if w.Sending? then [w.msg] else []
  }

  /** What driver and worker may be doing at the same time. */
  predicate InStep(d: Driver, w: Worker) {
    match d
    case Claimed => w.Absent?
    case Waiting => !w.Absent? && !w.Draining? && !w.Gone?
    case Dispatching(_) => w.Running? || w.Sending? || w.Ending?
    case Returned(NotReady) => w.Absent?
    case Returned(DispatchFailed(_)) => w.Running? || w.Sending? || w.Ending?
    case Returned(Concluded(_)) => w.Draining? || w.Gone?
  }

  /** Nothing is lost, doubled or reordered between the library and the network. */
  predicate NothingLost(op: Operation)
    requires op.Session?
  {
    && op.received == op.dispatched + InHand(op.driver)
    && (if op.kind.Reshare?
        then multiset(Outgoing(op.events)) == multiset(op.received) + op.loose && !op.worker.Sending?
        else Outgoing(op.events) == op.received + OnOffer(op.worker) && op.loose == multiset{})
  }

  /** The verdict is the one the library's events decide, or was given before any of them. */
  predicate JustVerdict(op: Operation, v: Verdict)
    requires op.Session?
  {
    || Decision(Passes(op.kind), op.events) == Some(v)
    || (op.events == [] && (v == Failed(AnotherTss) || (op.kind.Sign? && v == Failed(NotPrepared))))
  }

  predicate RightVerdict(op: Operation)
    requires op.Session?
  {
    && (op.worker.Ending? ==> JustVerdict(op, op.worker.verdict))
    && (op.driver.Returned? && op.driver.outcome.Concluded? ==> JustVerdict(op, op.driver.outcome.verdict))
    && (op.worker.Running? || op.worker.Sending? ==> Decision(Passes(op.kind), op.events).None?)
    && (op.worker.Absent? || op.worker.Starting? || op.worker.Refused? ==> op.events == [])
  }

  predicate SessionOk(op: Operation) {
    op.Session? ==> InStep(op.driver, op.worker) && NothingLost(op) && RightVerdict(op)
  }

  /** No peer was added and no record changed since `committee` was read. */
  ghost predicate Frozen(peers: map<PeerId, Record>, committee: map<PeerId, Record>) {
    forall q :: q in peers ==> q in committee && peers[q] == committee[q]
  }

  predicate UnderWay(op: Operation) {
    op.Session? && (op.driver.Waiting? || op.driver.Dispatching?)
  }

  ghost predicate Invariant(n: Node) {
    && Exclusive(n.busy, n.ops, Holds)
    && Exclusive(n.tss, n.ops, HoldsTss)
    && (forall id :: id in n.ops ==> SessionOk(n.ops[id]))
    && (forall id :: id in n.ops && UnderWay(n.ops[id]) ==> Frozen(n.peers, n.ops[id].committee))
  }

  /** The flag is claimed or released together with the operation, or neither changes. */
  predicate Shift(held: bool, holds: bool, flag: bool, flag': bool) {
    || (held == holds && flag' == flag)
    || (!held && holds && !flag && flag')
    || (held && !holds && !flag')
  }

  lemma ExclusiveAfter(flag: bool, flag': bool, ops: map<nat, Operation>, id: nat, op': Operation,
          holds: Operation -> bool)
    requires Exclusive(flag, ops, holds)
    requires Shift(id in ops && holds(ops[id]), holds(op'), flag, flag')
    ensures Exclusive(flag', ops[id := op'], holds)
  {
    var ops' := ops[id := op'];
    if flag' && !holds(op') {
      var other :| other in ops && holds(ops[other]);
      assert other != id && other in ops' && holds(ops'[other]);
    } else if flag' {
      assert id in ops' && holds(ops'[id]);
    }
  }

  predicate Sends(e: LibEvent) {
    e.Out? && e.msg.Some?
  }

  lemma OutgoingAfter(events: seq<LibEvent>, e: LibEvent)
    ensures Outgoing(events + [e]) == if Sends(e) then Outgoing(events) + [e.msg.value] else Outgoing(events)
  {
    OutgoingAppend(events, e);
    assert [e][1..] == [];
    assert Outgoing([e]) == if Sends(e) then [e.msg.value] else [];
  }

  lemma TurnSilent(op: Operation, e: LibEvent)
    requires op.Session? && op.worker.Running? && NothingLost(op) && !Sends(e)
    ensures NothingLost(Turn(op, e))
  {
    OutgoingAfter(op.events, e);
  }

  lemma TurnSends(op: Operation, m: TssMessage)
    requires op.Session? && op.worker.Running? && NothingLost(op)
    ensures NothingLost(Turn(op, Out(Some(m))))
  {
    var e := Out(Some(m));
    OutgoingAfter(op.events, e);
    if op.kind.Reshare? {
      CountOneMore(Outgoing(op.events), m);
      assert Turn(op, e).loose == op.loose + multiset{m};
    } else {
      assert op.received + [] == op.received;
      assert Turn(op, e).worker == Sending(m);
    }
  }

  lemma CountOneMore<T>(s: seq<T>, x: T)
    ensures multiset(s + [x]) == multiset(s) + multiset{x}
  {
  }

  lemma TurnVerdict(op: Operation, e: LibEvent)
    requires op.Session? && op.worker.Running? && RightVerdict(op) && InStep(op.driver, op.worker)
    ensures RightVerdict(Turn(op, e))
  {
    DecisionAppend(Passes(op.kind), op.events, e);
  }

  lemma MeetMessages(op: Operation)
    requires op.Session? && Offers(op.worker) && NothingLost(op) && op.driver.Waiting?
    ensures NothingLost(Meet(op))
  {
  }

  lemma MeetVerdict(op: Operation)
    requires op.Session? && Offers(op.worker) && RightVerdict(op) && op.driver.Waiting?
    ensures RightVerdict(Meet(op))
  {
  }

  lemma LooseMessages(op: Operation, m: TssMessage)
    requires op.Session? && NothingLost(op) && op.driver.Waiting? && m in op.loose
    ensures NothingLost(MeetLoose(op, m))
  {
    CountOneMore(op.received, m);
  }

  lemma LooseAfterEvents(op: Operation, m: TssMessage)
    requires op.Session? && NothingLost(op) && m in op.loose
    ensures op.events != []
  {
  }

  lemma DispatchMessages(op: Operation, delivered: bool)
    requires op.Session? && op.driver.Dispatching? && NothingLost(op)
    ensures NothingLost(Dispatched(op, delivered))
  {
  }

  // ----- Every step keeps the invariant -----

  /** An operation that has not begun holds nothing. */
  function Before(n: Node, id: nat): Operation {
    if id in n.ops then n.ops[id] else PeersChanged
  }

  /** While the flag is held nothing but deletions touches the peers, and the committee stays. */
  predicate CommitteeStays(n: Node, op: Operation, c: Change) {
    && (c.peers == n.peers || !c.busy)
    && (UnderWay(c.op) ==> (UnderWay(op) && c.op.committee == op.committee) || c.op.committee == n.peers)
  }

  /** The flags move with the operation, and a session under way sees no new peers. */
  ghost predicate Smooth(n: Node, op: Operation, c: Change) {
    && Shift(Holds(op), Holds(c.op), n.busy, c.busy)
    && Shift(HoldsTss(op), HoldsTss(c.op), n.tss, c.tss)
    && CommitteeStays(n, op, c)
  }

  lemma AdvanceInStep(n: Node, step: Step)
    requires Guard(n, step) && MovesOne(step)
    requires Before(n, step.id).Session? ==> InStep(n.ops[step.id].driver, n.ops[step.id].worker)
    requires step.ReceiveLoose? ==> SessionOk(n.ops[step.id])
    ensures var op' := Advance(n, step).op; op'.Session? ==> InStep(op'.driver, op'.worker)
  {
    if step.ReceiveLoose? {
      LooseAfterEvents(n.ops[step.id], step.msg);
    }
  }

  lemma GatherMessages(n: Node, op: Operation, ready: bool, listed: set<PeerId>)
    requires op.Session? && op.driver.Claimed? && op.worker.Absent? && NothingLost(op)
    ensures NothingLost(DoGather(n, op, ready, listed).op)
  {
    var op' := DoGather(n, op, ready, listed).op;
    assert InHand(op'.driver) == InHand(op.driver) && OnOffer(op'.worker) == OnOffer(op.worker);
    assert op'.kind == op.kind && op'.events == op.events && op'.loose == op.loose;
    assert op'.received == op.received && op'.dispatched == op.dispatched;
  }

  lemma StartMessages(n: Node, op: Operation, prepared: bool)
    requires op.Session? && op.worker.Starting? && NothingLost(op)
    ensures NothingLost(DoStart(n, op, prepared).op)
  {
  }

  lemma AdvanceMessages(n: Node, step: Step)
    requires Guard(n, step) && MovesOne(step)
    requires Before(n, step.id).Session? ==> NothingLost(n.ops[step.id])
    requires step.Gather? ==> n.ops[step.id].worker.Absent?
    ensures var op' := Advance(n, step).op; op'.Session? ==> NothingLost(op')
  {
    match step {
      case Gather(id, ready, listed) => GatherMessages(n, n.ops[id], ready, listed);
      case StartWorker(id, prepared) => StartMessages(n, n.ops[id], prepared);
      case Library(id, e) =>
        if Sends(e) {
          TurnSends(n.ops[id], e.msg.value);
        } else {
          TurnSilent(n.ops[id], e);
        }
      case Receive(id) => MeetMessages(n.ops[id]);
      case ReceiveLoose(id, m) => LooseMessages(n.ops[id], m);
      case Dispatch(id) => DispatchMessages(n.ops[id], Deliverable(n, n.ops[id], n.ops[id].driver.msg));
      case _ =>
    }
  }

  lemma AdvanceVerdict(n: Node, step: Step)
    requires Guard(n, step) && MovesOne(step)
    requires Before(n, step.id).Session? ==> RightVerdict(n.ops[step.id])
    requires step.Library? || step.Gather? ==> InStep(n.ops[step.id].driver, n.ops[step.id].worker)
    ensures var op' := Advance(n, step).op; op'.Session? ==> RightVerdict(op')
  {
    match step {
      case Library(id, e) => TurnVerdict(n.ops[id], e);
      case Receive(id) => MeetVerdict(n.ops[id]);
      case _ =>
    }
  }

  lemma AdvanceShiftsFlag(n: Node, step: Step)
    requires Guard(n, step) && MovesOne(step)
    requires Holds(Before(n, step.id)) ==> n.busy
    ensures Shift(Holds(Before(n, step.id)), Holds(Advance(n, step).op), n.busy, Advance(n, step).busy)
  {
  }

  lemma AdvanceShiftsSignerFlag(n: Node, step: Step)
    requires Guard(n, step) && MovesOne(step)
    requires Before(n, step.id).Session? ==> InStep(n.ops[step.id].driver, n.ops[step.id].worker)
    requires HoldsTss(Before(n, step.id)) ==> n.tss
    ensures Shift(HoldsTss(Before(n, step.id)), HoldsTss(Advance(n, step).op), n.tss, Advance(n, step).tss)
  {
  }

  lemma GatherKeepsCommittee(n: Node, op: Operation, ready: bool, listed: set<PeerId>)
    requires op.Session?
    ensures CommitteeStays(n, op, DoGather(n, op, ready, listed))
  {
  }

  lemma StartKeepsCommittee(n: Node, op: Operation, prepared: bool)
    requires op.Session?
    ensures CommitteeStays(n, op, DoStart(n, op, prepared))
  {
  }

  lemma ReceiveKeepsCommittee(n: Node, op: Operation)
    requires op.Session? && op.driver.Waiting? && Offers(op.worker)
    ensures CommitteeStays(n, op, DoReceive(n, op))
  {
  }

  lemma TurnKeepsCommittee(n: Node, op: Operation, e: LibEvent)
    requires op.Session?
    ensures CommitteeStays(n, op, Change(Turn(op, e), n.busy, n.tss, n.peers))
  {
  }

  lemma AdvanceKeepsCommittee(n: Node, step: Step)
    requires Guard(n, step) && MovesOne(step)
    ensures CommitteeStays(n, Before(n, step.id), Advance(n, step))
  {
    match step
    case Gather(id, ready, listed) => GatherKeepsCommittee(n, n.ops[id], ready, listed);
    case StartWorker(id, prepared) => StartKeepsCommittee(n, n.ops[id], prepared);
    case Receive(id) => ReceiveKeepsCommittee(n, n.ops[id]);
    case Library(id, e) => TurnKeepsCommittee(n, n.ops[id], e);
    case _ =>
  }

  lemma AdvanceSmooth(n: Node, step: Step)
    requires Guard(n, step) && MovesOne(step)
    requires Before(n, step.id).Session? ==> InStep(n.ops[step.id].driver, n.ops[step.id].worker)
    requires Holds(Before(n, step.id)) ==> n.busy
    requires HoldsTss(Before(n, step.id)) ==> n.tss
    ensures Smooth(n, Before(n, step.id), Advance(n, step))
  {
    AdvanceShiftsFlag(n, step);
    AdvanceShiftsSignerFlag(n, step);
    AdvanceKeepsCommittee(n, step);
  }

  lemma MakeKeepsInvariant(n: Node, id: nat, c: Change)
    requires Invariant(n) && SessionOk(c.op) && Smooth(n, Before(n, id), c)
    ensures Invariant(Make(n, id, c))
  {
    var n' := Make(n, id, c);
    ExclusiveAfter(n.busy, c.busy, n.ops, id, c.op, Holds);
    ExclusiveAfter(n.tss, c.tss, n.ops, id, c.op, HoldsTss);
    forall j | j in n'.ops && UnderWay(n'.ops[j])
      ensures Frozen(n'.peers, n'.ops[j].committee)
    {
      assert Holds(n'.ops[j]);
    }
  }

  lemma AdvanceOk(n: Node, step: Step)
    requires Guard(n, step) && MovesOne(step) && SessionOk(Before(n, step.id))
    ensures SessionOk(Advance(n, step).op)
  {
    AdvanceInStep(n, step);
    AdvanceMessages(n, step);
    AdvanceVerdict(n, step);
  }

  lemma MovingStepKeepsInvariant(n: Node, step: Step)
    requires Guard(n, step) && MovesOne(step) && Invariant(n)
    ensures Invariant(Apply(n, step))
  {
    AdvanceOk(n, step);
    AdvanceSmooth(n, step);
    MakeKeepsInvariant(n, step.id, Advance(n, step));
  }

  lemma OtherStepKeepsInvariant(n: Node, step: Step)
    requires Guard(n, step) && !MovesOne(step) && Invariant(n)
    ensures Invariant(Apply(n, step))
  {
    forall j | j in n.ops && UnderWay(n.ops[j])
      ensures Frozen(Apply(n, step).peers, n.ops[j].committee)
    {
      assert Holds(n.ops[j]);
    }
  }

  lemma StepKeepsInvariant(n: Node, step: Step)
    requires Guard(n, step) && Invariant(n)
    ensures Invariant(Apply(n, step))
  {
    if MovesOne(step) {
      MovingStepKeepsInvariant(n, step);
    } else {
      OtherStepKeepsInvariant(n, step);
    }
  }

  /** From a node's creation on, through any operations, updates, losses and library events. */
  lemma {:induction false} InvariantInEveryRun(n: Node, steps: seq<Step>)
    requires Invariant(n) && ValidRun(n, steps)
    ensures Invariant(RunEnd(n, steps))
    decreases |steps|
  {
    if steps != [] {
      StepKeepsInvariant(n, steps[0]);
      InvariantInEveryRun(Apply(n, steps[0]), steps[1..]);
    }
  }

  lemma InvariantFromTheStart(n: Node, steps: seq<Step>)
    requires Unused(n) && ValidRun(n, steps)
    ensures Invariant(RunEnd(n, steps))
  {
    InvariantInEveryRun(n, steps);
  }
}
