/**
  When driver and worker of a session can still end, when a failed dispatch leaves the worker
  with nobody to receive from it, and which peers decide it (keygen.go, sign.go, reshare.go
  with commons.go).
 */
module Stranding {
  import opened Basics
  import opened Messages
  import opened Sessions
  import Routing

  /** Both sides are through. */
  predicate Over(op: Operation) {
    op.Session? && op.driver.Returned? && (op.worker.Gone? || op.worker.Absent?)
  }

  /** The driver has gone although the worker still has to meet it. */
  predicate Stranded(op: Operation) {
    op.Session? && op.driver.Returned? && op.driver.outcome.DispatchFailed?
  }

  /** What has to be dispatched before the session can end: in the driver's hand, then on offer. */
  function Pending(op: Operation): seq<TssMessage>
    requires op.Session?
  {
    (if op.driver.Dispatching? then [op.driver.msg] else []) + OnOffer(op.worker)
  }

  /** The guard: every pending message can be routed to the peers the session knows now. */
  predicate PendingDeliverable(n: Node, op: Operation)
    requires op.Session?
  {
    forall m :: m in Pending(op) ==> Deliverable(n, op, m)
  }

  // ----- Ending -----

  /** A step that a session can take by itself, or the end of an update call it waits for. */
  function OwnStep(n: Node, id: nat): Step
    requires IsSession(n, id)
  {
    var op := n.ops[id];
    if op.driver.Claimed? then Gather(id, true, {})
    else if op.worker.Starting? then StartWorker(id, true)
    else if op.driver.Dispatching? then Dispatch(id)
    else if op.worker.Running? then Library(id, Deadline)
    else if Offers(op.worker) then Receive(id)
    else if n.updates > 0 then EndUpdate
    else Release(id)
  }

  /** How far the two sides are from their end, not counting update calls. */
  function Remaining(d: Driver, w: Worker): nat {
    (match d
     case Claimed => 20
     case Dispatching(_) => 1
     case _ => 0)
    + (match w
       case Starting => 9
       case Sending(_) => 7
       case Running => 5
       case Refused => 3
       case Ending(_, _) => 3
       case Draining => 1
       case _ => 0)
  }

  function Distance(n: Node, id: nat): nat
    requires IsSession(n, id)
  {
    n.updates + Remaining(n.ops[id].driver, n.ops[id].worker)
  }

  /** A session on its way to an end. */
  predicate OnTheWay(n: Node, id: nat) {
    && IsSession(n, id) && InStep(n.ops[id].driver, n.ops[id].worker)
    && !Over(n.ops[id]) && !Stranded(n.ops[id]) && PendingDeliverable(n, n.ops[id])
  }

  lemma OwnStepIsEnabled(n: Node, id: nat)
    requires OnTheWay(n, id)
    ensures Guard(n, OwnStep(n, id))
  {
  }

  /** The driver and the worker after an own step of their session. */
  lemma OwnStepMoves(n: Node, id: nat)
    requires OnTheWay(n, id) && Guard(n, OwnStep(n, id)) && MovesOne(OwnStep(n, id))
    ensures OwnStep(n, id).id == id
    ensures var op := n.ops[id];
            var c := Advance(n, OwnStep(n, id));
            && c.op.Session? && !Stranded(c.op)
            && Remaining(c.op.driver, c.op.worker) < Remaining(op.driver, op.worker)
  {
    if n.ops[id].driver.Dispatching? {
      assert n.ops[id].driver.msg in Pending(n.ops[id]);
    }
  }

  lemma ReceiveFrees(n: Node, op: Operation)
    requires op.Session? && op.driver.Waiting? && Offers(op.worker) && HoldsTss(op)
    ensures HoldsTss(DoReceive(n, op).op) || (Over(DoReceive(n, op).op) && !DoReceive(n, op).tss)
  {
  }

  lemma TurnFreesNothing(op: Operation, e: LibEvent)
    requires op.Session? && op.worker.Running?
    ensures HoldsTss(Turn(op, e))
  {
  }

  /** The worker gives its flag back only at the end of the session. */
  lemma OwnStepFrees(n: Node, id: nat)
    requires OnTheWay(n, id) && Guard(n, OwnStep(n, id)) && MovesOne(OwnStep(n, id)) && HoldsTss(n.ops[id])
    ensures var c := Advance(n, OwnStep(n, id));
            HoldsTss(c.op) || (Over(c.op) && !c.tss)
  {
    match OwnStep(n, id)
    case Receive(_) => ReceiveFrees(n, n.ops[id]);
    case Library(_, e) => TurnFreesNothing(n.ops[id], e);
    case _ =>
  }

  /** What decides whether a message can be routed is the same after a change. */
  predicate SameRoutes(n: Node, op: Operation, c: Change)
    requires op.Session?
  {
    c.op.Session? && c.op.kind == op.kind && c.op.committee == op.committee && c.op.listed == op.listed
    && c.peers.Keys == n.peers.Keys
  }

  lemma SameRoutesSameDelivery(n: Node, id: nat, c: Change, m: TssMessage)
    requires IsSession(n, id) && SameRoutes(n, n.ops[id], c)
    ensures Deliverable(Make(n, id, c), c.op, m) <==> Deliverable(n, n.ops[id], m)
  {
    assert Known(Make(n, id, c), c.op) == Known(n, n.ops[id]);
  }

  /** Nothing is pending before the worker runs. */
  lemma NothingPending(op: Operation)
    requires op.Session? && InStep(op.driver, op.worker)
    requires op.driver.Claimed? || op.worker.Starting? || op.worker.Refused? || op.worker.Draining?
    ensures Pending(op) == []
  {
  }

  lemma StartPendsNothing(n: Node, op: Operation, prepared: bool)
    requires op.Session? && InStep(op.driver, op.worker) && op.worker.Starting?
    ensures Pending(DoStart(n, op, prepared).op) == []
  {
  }

  lemma GatherPendsNothing(n: Node, op: Operation, ready: bool, listed: set<PeerId>)
    requires op.Session? && InStep(op.driver, op.worker) && op.driver.Claimed?
    ensures Pending(DoGather(n, op, ready, listed).op) == []
  {
  }

  lemma DeadlinePendsNothing(op: Operation)
    requires op.Session? && op.worker.Running?
    ensures Pending(Turn(op, Deadline)) == if op.driver.Dispatching? then [op.driver.msg] else []
    ensures Turn(op, Deadline).kind == op.kind && Turn(op, Deadline).committee == op.committee
    ensures Turn(op, Deadline).listed == op.listed
  {
  }

  lemma DispatchLeavesPending(op: Operation, delivered: bool)
    requires op.Session? && op.driver.Dispatching?
    ensures Pending(Dispatched(op, delivered)) == OnOffer(op.worker)
    ensures forall m :: m in OnOffer(op.worker) ==> m in Pending(op)
  {
  }

  lemma ReceiveMovesPending(n: Node, op: Operation)
    requires op.Session? && op.driver.Waiting? && Offers(op.worker)
    ensures Pending(DoReceive(n, op).op) == OnOffer(op.worker) == Pending(op)
    ensures Pending(op) != [] ==> SameRoutes(n, op, DoReceive(n, op))
  {
  }

  /** An own step brings up no message that was not pending, and leaves the routes of what is. */
  lemma OwnStepKeepsPending(n: Node, id: nat)
    requires OnTheWay(n, id) && Guard(n, OwnStep(n, id)) && MovesOne(OwnStep(n, id))
    ensures var op := n.ops[id];
            var c := Advance(n, OwnStep(n, id));
            && c.op.Session?
            && (forall m :: m in Pending(c.op) ==> m in Pending(op))
            && (Pending(c.op) != [] ==> SameRoutes(n, op, c))
  {
    var op := n.ops[id];
    match OwnStep(n, id)
    case Gather(_, ready, listed) => GatherPendsNothing(n, op, ready, listed);
    case StartWorker(_, prepared) => StartPendsNothing(n, op, prepared);
    case Dispatch(_) => DispatchLeavesPending(op, Deliverable(n, op, op.driver.msg));
    case Library(_, _) => DeadlinePendsNothing(op);
    case Receive(_) => ReceiveMovesPending(n, op);
    case Release(_) => NothingPending(op);
  }

  lemma OwnStepStaysDeliverable(n: Node, id: nat)
    requires OnTheWay(n, id) && Guard(n, OwnStep(n, id)) && MovesOne(OwnStep(n, id))
    ensures var n' := Make(n, id, Advance(n, OwnStep(n, id)));
            n'.ops[id].Session? && PendingDeliverable(n', n'.ops[id])
  {
    OwnStepKeepsPending(n, id);
    var c := Advance(n, OwnStep(n, id));
    forall m | m in Pending(c.op) ensures Deliverable(Make(n, id, c), c.op, m) {
      SameRoutesSameDelivery(n, id, c, m);
    }
  }

  lemma OwnStepAdvances(n: Node, id: nat)
    requires Invariant(n) && OnTheWay(n, id)
    ensures Guard(n, OwnStep(n, id))
    ensures var n' := Apply(n, OwnStep(n, id));
            && Invariant(n') && IsSession(n', id) && Distance(n', id) < Distance(n, id)
            && (Over(n'.ops[id]) || OnTheWay(n', id))
            && (HoldsTss(n.ops[id]) && !HoldsTss(n'.ops[id]) ==> Over(n'.ops[id]) && !n'.tss)
  {
    OwnStepIsEnabled(n, id);
    StepKeepsInvariant(n, OwnStep(n, id));
    if MovesOne(OwnStep(n, id)) {
      OwnStepMoves(n, id);
      if HoldsTss(n.ops[id]) { OwnStepFrees(n, id); }
      OwnStepStaysDeliverable(n, id);
    }
  }

  lemma OneMoreStep(n: Node, step: Step, rest: seq<Step>)
    requires Guard(n, step) && ValidRun(Apply(n, step), rest)
    ensures ValidRun(n, [step] + rest) && RunEnd(n, [step] + rest) == RunEnd(Apply(n, step), rest)
  {
    assert ([step] + rest)[1..] == rest;
  }

  /** A run to the end; a worker that held the signer's flag has freed it there. */
  lemma {:induction false} WayToTheEnd(n: Node, id: nat) returns (steps: seq<Step>)
    requires Invariant(n) && IsSession(n, id) && (Over(n.ops[id]) || OnTheWay(n, id))
    ensures ValidRun(n, steps) && IsSession(RunEnd(n, steps), id) && Over(RunEnd(n, steps).ops[id])
    ensures Over(n.ops[id]) ==> steps == []
    ensures HoldsTss(n.ops[id]) ==> !RunEnd(n, steps).tss
    decreases Distance(n, id)
  {
    if Over(n.ops[id]) {
      steps := [];
    } else {
      OwnStepAdvances(n, id);
      var rest := WayToTheEnd(Apply(n, OwnStep(n, id)), id);
      OneMoreStep(n, OwnStep(n, id), rest);
      steps := [OwnStep(n, id)] + rest;
    }
  }

  // ----- Never ending -----

  /** The worker cannot go on without its driver. */
  predicate NeedsDriver(w: Worker) {
    w.Running? || w.Sending? || w.Ending?
  }

  /** The driver has returned and the worker is blocked; or a pending message cannot be routed. */
  predicate Hopeless(n: Node, id: nat) {
    && IsSession(n, id) && NeedsDriver(n.ops[id].worker)
    && (Stranded(n.ops[id]) || (UnderWay(n.ops[id]) && !PendingDeliverable(n, n.ops[id])))
  }

  /** With fewer peers, less can be routed. */
  lemma FewerKnown(host: PeerId, dests: Option<seq<PeerId>>, fewer: set<PeerId>, more: set<PeerId>)
    requires fewer <= more && Routing.Route(host, dests, fewer).error.None?
    ensures Routing.Route(host, dests, more).error.None?
  {
    Routing.RoutingIsExact(host, dests.value, fewer);
    Routing.RoutingIsExact(host, dests.value, more);
  }

  /** A step of another operation: this one stays, and its session knows no more peers. */
  lemma OthersAddNoPeer(n: Node, step: Step, id: nat)
    requires Invariant(n) && Guard(n, step) && IsSession(n, id) && UnderWay(n.ops[id])
    requires !MovesOne(step) || step.id != id
    ensures IsSession(Apply(n, step), id) && Apply(n, step).ops[id] == n.ops[id]
    ensures Apply(n, step).peers.Keys <= n.peers.Keys && Apply(n, step).host == n.host
  {
    assert Holds(n.ops[id]) && n.busy;
  }

  lemma OthersKeepHopeless(n: Node, step: Step, id: nat)
    requires Invariant(n) && Guard(n, step) && Hopeless(n, id) && UnderWay(n.ops[id])
    requires !MovesOne(step) || step.id != id
    ensures Hopeless(Apply(n, step), id)
  {
    OthersAddNoPeer(n, step, id);
    var n', op := Apply(n, step), n.ops[id];
    var m :| m in Pending(op) && !Deliverable(n, op, m);
    if Deliverable(n', op, m) {
      FewerKnown(n.host, m.dests, Known(n', op), Known(n, op));
    }
  }

  lemma TurnKeepsPending(op: Operation, e: LibEvent, m: TssMessage)
    requires op.Session? && UnderWay(op) && op.worker.Running? && m in Pending(op)
    ensures var op' := Turn(op, e);
            && m in Pending(op') && UnderWay(op') && NeedsDriver(op'.worker)
            && op'.kind == op.kind && op'.committee == op.committee && op'.listed == op.listed
  {
  }

  lemma MeetKeepsPending(n: Node, op: Operation, m: TssMessage)
    requires op.Session? && op.driver.Waiting? && Offers(op.worker) && m in Pending(op)
    ensures var c := DoReceive(n, op);
            SameRoutes(n, op, c) && m in Pending(c.op) && UnderWay(c.op) && NeedsDriver(c.op.worker)
  {
  }

  /** Only a reshare's messages come loose, and they are not offered by its worker. */
  lemma LooseIsNotPending(op: Operation)
    requires op.Session? && NothingLost(op)
    ensures op.driver.Waiting? && op.loose != multiset{} ==> Pending(op) == []
  {
  }

  lemma DispatchKeepsHopeless(n: Node, id: nat, m: TssMessage)
    requires Guard(n, Dispatch(id)) && NeedsDriver(n.ops[id].worker)
    requires m in Pending(n.ops[id]) && !Deliverable(n, n.ops[id], m)
    ensures var c := Advance(n, Dispatch(id));
            && SameRoutes(n, n.ops[id], c) && NeedsDriver(c.op.worker)
            && (Stranded(c.op) || (UnderWay(c.op) && m in Pending(c.op)))
  {
  }

  /** A pending message that cannot be routed stays pending, or its dispatch strands the worker. */
  lemma OwnerKeepsHopeless(n: Node, step: Step, id: nat, m: TssMessage)
    requires Guard(n, step) && MovesOne(step) && step.id == id && IsSession(n, id) && NothingLost(n.ops[id])
    requires UnderWay(n.ops[id]) && NeedsDriver(n.ops[id].worker)
    requires m in Pending(n.ops[id]) && !Deliverable(n, n.ops[id], m)
    ensures var c := Advance(n, step);
            && SameRoutes(n, n.ops[id], c) && NeedsDriver(c.op.worker)
            && (Stranded(c.op) || (UnderWay(c.op) && m in Pending(c.op)))
  {
    LooseIsNotPending(n.ops[id]);
    match step
    case Library(_, e) => TurnKeepsPending(n.ops[id], e, m);
    case Receive(_) => MeetKeepsPending(n, n.ops[id], m);
    case Dispatch(_) => DispatchKeepsHopeless(n, id, m);
    case _ =>
  }

  lemma OwnersKeepHopeless(n: Node, step: Step, id: nat)
    requires Guard(n, step) && Hopeless(n, id) && UnderWay(n.ops[id]) && NothingLost(n.ops[id])
    requires MovesOne(step) && step.id == id
    ensures Hopeless(Apply(n, step), id)
  {
    var m :| m in Pending(n.ops[id]) && !Deliverable(n, n.ops[id], m);
    OwnerKeepsHopeless(n, step, id, m);
    SameRoutesSameDelivery(n, id, Advance(n, step), m);
  }

  /** A worker that is stranded needs its driver for good. */
  lemma StrandedStays(n: Node, step: Step, id: nat)
    requires Guard(n, step) && IsSession(n, id) && Stranded(n.ops[id]) && NeedsDriver(n.ops[id].worker)
    ensures IsSession(Apply(n, step), id)
    ensures Stranded(Apply(n, step).ops[id]) && NeedsDriver(Apply(n, step).ops[id].worker)
  {
    if MovesOne(step) && step.id == id {
      assert step.Library?;
    }
  }

  lemma StepKeepsHopeless(n: Node, step: Step, id: nat)
    requires Invariant(n) && Guard(n, step) && Hopeless(n, id)
    ensures Hopeless(Apply(n, step), id)
  {
    if Stranded(n.ops[id]) {
      StrandedStays(n, step, id);
    } else if MovesOne(step) && step.id == id {
      assert SessionOk(n.ops[id]);
      OwnersKeepHopeless(n, step, id);
    } else {
      OthersKeepHopeless(n, step, id);
    }
  }

  lemma {:induction false} HopelessForever(n: Node, steps: seq<Step>, id: nat)
    requires Invariant(n) && ValidRun(n, steps) && Hopeless(n, id)
    ensures Hopeless(RunEnd(n, steps), id) && Invariant(RunEnd(n, steps)) && RunEnd(n, steps).tss
    decreases |steps|
  {
    if steps != [] {
      StepKeepsHopeless(n, steps[0], id);
      StepKeepsInvariant(n, steps[0]);
      HopelessForever(Apply(n, steps[0]), steps[1..], id);
    } else {
      assert HoldsTss(n.ops[id]);
    }
  }

  // ----- The exact condition -----

  ghost predicate CanEnd(n: Node, id: nat) {
    exists steps :: ValidRun(n, steps) && IsSession(RunEnd(n, steps), id) && Over(RunEnd(n, steps).ops[id])
  }

  ghost predicate CanFreeSigner(n: Node) {
    exists steps :: ValidRun(n, steps) && !RunEnd(n, steps).tss
  }

  /** The condition under which a session that has begun can still end. */
  predicate CanGoOn(n: Node, op: Operation)
    requires op.Session?
  {
    !Stranded(op) && PendingDeliverable(n, op)
  }

  /** Whatever is not over can go on, or is hopeless. */
  lemma GoesOnOrHopeless(n: Node, id: nat)
    requires IsSession(n, id) && InStep(n.ops[id].driver, n.ops[id].worker)
    ensures CanGoOn(n, n.ops[id]) ==> Over(n.ops[id]) || OnTheWay(n, id)
    ensures !CanGoOn(n, n.ops[id]) ==> Hopeless(n, id)
  {
  }

  /**
    From every reachable state a session can still end, whatever else the node is doing, if and
    only if its driver has not returned on a failed dispatch and every message that is pending
    can be routed to the peers the session knows at that moment.
   */
  lemma EndsIffPendingDeliverable(n: Node, steps: seq<Step>, id: nat)
    requires Unused(n) && ValidRun(n, steps) && IsSession(RunEnd(n, steps), id)
    ensures CanEnd(RunEnd(n, steps), id) <==> CanGoOn(RunEnd(n, steps), RunEnd(n, steps).ops[id])
  {
    var s := RunEnd(n, steps);
    InvariantFromTheStart(n, steps);
    GoesOnOrHopeless(s, id);
    if CanGoOn(s, s.ops[id]) {
      var way := WayToTheEnd(s, id);
    } else {
      forall more | ValidRun(s, more)
        ensures !(IsSession(RunEnd(s, more), id) && Over(RunEnd(s, more).ops[id]))
      {
        HopelessForever(s, more, id);
      }
    }
  }

  /**
    While a session's worker holds the signer's flag, the flag can be freed again if and only if
    the session can go on. Otherwise the signer refuses every later worker, in every run.
   */
  lemma SignerIsFreedIffPendingDeliverable(n: Node, steps: seq<Step>, id: nat)
    requires Unused(n) && ValidRun(n, steps) && IsSession(RunEnd(n, steps), id)
    requires HoldsTss(RunEnd(n, steps).ops[id])
    ensures CanFreeSigner(RunEnd(n, steps)) <==> CanGoOn(RunEnd(n, steps), RunEnd(n, steps).ops[id])
    ensures !CanGoOn(RunEnd(n, steps), RunEnd(n, steps).ops[id]) ==>
              forall more, j, prepared ::
                ValidRun(RunEnd(n, steps), more) && Guard(RunEnd(RunEnd(n, steps), more), StartWorker(j, prepared)) ==>
                  Advance(RunEnd(RunEnd(n, steps), more), StartWorker(j, prepared)).op.worker == Refused
  {
    var s := RunEnd(n, steps);
    InvariantFromTheStart(n, steps);
    GoesOnOrHopeless(s, id);
    if CanGoOn(s, s.ops[id]) {
      var way := WayToTheEnd(s, id);
    } else {
      forall more | ValidRun(s, more) ensures RunEnd(s, more).tss {
        HopelessForever(s, more, id);
      }
    }
  }

  // ----- Who decides it: the members of the committee -----

  /** The IDs a session's messages may name: its peers and the node itself, or the listed signers. */
  function Members(n: Node, op: Operation): set<PeerId>
    requires op.Session?
  {
    if op.kind.Sign? then op.listed else op.committee.Keys + {n.host}
  }

  /** The members that the session cannot send to now. */
  function Missing(n: Node, op: Operation): set<PeerId>
    requires op.Session?
  {
    Members(n, op) - {n.host} - Known(n, op)
  }

  /** A message addressed inside the committee. */
  predicate Inside(n: Node, op: Operation, m: TssMessage)
    requires op.Session?
  {
    m.isBroadcast || (m.dests.Some? && forall d :: d in m.dests.value ==> d in Members(n, op))
  }

  /**
    For a key generation or a reshare the missing members are those deleted since it gathered
    its peers; for a sign session, those that were not peers when it began.
   */
  lemma MissingMembers(n: Node, id: nat, q: PeerId)
    requires Invariant(n) && IsSession(n, id) && UnderWay(n.ops[id])
    ensures var op := n.ops[id];
            q in Missing(n, op) <==>
            q != n.host &&
            if op.kind.Sign? then q in op.listed && q !in op.committee
            else q in op.committee && q !in n.peers
  {
  }

  /** A message addressed inside the committee is refused exactly when it names a missing member. */
  lemma RefusedIffNamesMissing(n: Node, op: Operation, m: TssMessage)
    requires op.Session? && Inside(n, op, m)
    ensures !Deliverable(n, op, m) <==> !m.isBroadcast && exists d :: d in m.dests.value && d in Missing(n, op)
  {
    if !m.isBroadcast {
      Routing.RoutingIsExact(n.host, m.dests.value, Known(n, op));
    }
  }

  /**
    A dispatch addressed inside the committee strands the worker if and only if it names a
    member that is missing.
   */
  lemma DispatchStrandsIffMemberMissing(n: Node, steps: seq<Step>, id: nat)
    requires Unused(n) && ValidRun(n, steps) && Guard(RunEnd(n, steps), Dispatch(id))
    requires Inside(RunEnd(n, steps), RunEnd(n, steps).ops[id], RunEnd(n, steps).ops[id].driver.msg)
    ensures var s := RunEnd(n, steps);
            var m := s.ops[id].driver.msg;
            Stranded(Apply(s, Dispatch(id)).ops[id]) <==>
            !m.isBroadcast && exists d :: d in m.dests.value && d in Missing(s, s.ops[id])
  {
    RefusedIffNamesMissing(RunEnd(n, steps), RunEnd(n, steps).ops[id], RunEnd(n, steps).ops[id].driver.msg);
  }

  // ----- A session whose members stay -----

  /** The step keeps the session's members, and the library names only members. */
  predicate KeepsMembers(n: Node, step: Step, id: nat) {
    match step
    case DeletePeer(q) => IsSession(n, id) && UnderWay(n.ops[id]) ==> q !in Members(n, n.ops[id])
    case Gather(j, _, listed) =>
      j == id && IsSession(n, id) && n.ops[id].kind.Sign? ==> listed - {n.host} <= n.peers.Keys
    case Library(j, Out(Some(m))) => j == id && IsSession(n, id) ==> Inside(n, n.ops[id], m)
    case _ => true
  }

  predicate MembersStay(n: Node, steps: seq<Step>, id: nat)
    requires ValidRun(n, steps)
    decreases |steps|
  {
    steps == [] || (KeepsMembers(n, steps[0], id) && MembersStay(Apply(n, steps[0]), steps[1..], id))
  }

  predicate AllInside(n: Node, op: Operation)
    requires op.Session?
  {
    && (forall m :: m in Pending(op) ==> Inside(n, op, m))
    && (forall m :: m in op.loose ==> Inside(n, op, m))
  }

  /** The session has not stranded, its messages name members, and no member is missing. */
  predicate Intact(n: Node, id: nat) {
    IsSession(n, id) ==>
      var op := n.ops[id];
      && !Stranded(op)
      && (op.driver.Claimed? || op.worker.Starting? || op.worker.Refused? ==> op.loose == multiset{})
      && AllInside(n, op)
      && (UnderWay(op) ==> Missing(n, op) == {})
  }

  lemma OthersLeaveSession(n: Node, step: Step, id: nat)
    requires Guard(n, step) && (!MovesOne(step) || step.id != id)
    ensures IsSession(Apply(n, step), id) <==> IsSession(n, id)
    ensures IsSession(n, id) ==> Apply(n, step).ops[id] == n.ops[id] && Apply(n, step).host == n.host
  {
  }

  lemma OthersLeaveMembers(n: Node, step: Step, id: nat)
    requires Guard(n, step) && IsSession(n, id) && UnderWay(n.ops[id]) && n.busy
    requires !MovesOne(step) || step.id != id
    requires forall j :: j in n.ops && Holds(n.ops[j]) ==> j == id
    requires KeepsMembers(n, step, id) && Missing(n, n.ops[id]) == {}
    ensures Missing(Apply(n, step), n.ops[id]) == {}
  {
    assert Members(n, n.ops[id]) - {n.host} <= Known(n, n.ops[id]);
    assert !step.DeletePeer? ==> Apply(n, step).peers.Keys == n.peers.Keys;
  }

  lemma OthersKeepIntact(n: Node, step: Step, id: nat)
    requires Invariant(n) && Guard(n, step) && KeepsMembers(n, step, id) && Intact(n, id)
    requires !MovesOne(step) || step.id != id
    ensures Intact(Apply(n, step), id)
  {
    OthersLeaveSession(n, step, id);
    if IsSession(n, id) && UnderWay(n.ops[id]) {
      assert Holds(n.ops[id]);
      OthersLeaveMembers(n, step, id);
    }
  }

  /** The session keeps its members, and its messages are still inside. */
  predicate StaysInside(n: Node, op: Operation, c: Change)
    requires op.Session?
  {
    && c.op.Session? && c.op.kind == op.kind && c.op.committee == op.committee && c.op.listed == op.listed
    && c.peers.Keys == n.peers.Keys
    && (forall m :: m in Pending(c.op) ==> Inside(n, op, m))
    && (forall m :: m in c.op.loose ==> Inside(n, op, m))
  }

  lemma TurnStaysInside(n: Node, op: Operation, e: LibEvent)
    requires op.Session? && op.worker.Running? && AllInside(n, op)
    requires Sends(e) ==> Inside(n, op, e.msg.value)
    ensures StaysInside(n, op, Change(Turn(op, e), n.busy, n.tss, n.peers))
  {
    forall m | m in Pending(Turn(op, e)) ensures Inside(n, op, m) {
      assert m in Pending(op) || (Sends(e) && m == e.msg.value);
    }
  }

  lemma ReceiveStaysInside(n: Node, op: Operation)
    requires op.Session? && op.driver.Waiting? && Offers(op.worker) && AllInside(n, op)
    ensures StaysInside(n, op, DoReceive(n, op))
  {
    ReceiveMovesPending(n, op);
  }

  lemma LooseStaysInside(n: Node, op: Operation, m: TssMessage)
    requires op.Session? && op.driver.Waiting? && m in op.loose && AllInside(n, op)
    ensures StaysInside(n, op, Change(MeetLoose(op, m), n.busy, n.tss, n.peers))
  {
    assert forall x :: x in Pending(MeetLoose(op, m)) ==> x == m || x in Pending(op);
  }

  lemma DispatchStaysInside(n: Node, op: Operation, delivered: bool)
    requires op.Session? && op.driver.Dispatching? && AllInside(n, op)
    ensures StaysInside(n, op, Change(Dispatched(op, delivered), delivered && n.busy, n.tss, n.peers))
  {
    DispatchLeavesPending(op, delivered);
  }

  lemma InsideIsDeliverable(n: Node, op: Operation, m: TssMessage)
    requires op.Session? && Inside(n, op, m) && Missing(n, op) == {}
    ensures Deliverable(n, op, m)
  {
    RefusedIffNamesMissing(n, op, m);
  }

  /** The steps of a session that is under way. */
  lemma OwnerStaysInside(n: Node, step: Step, id: nat)
    requires Guard(n, step) && MovesOne(step) && step.id == id && KeepsMembers(n, step, id)
    requires IsSession(n, id) && InStep(n.ops[id].driver, n.ops[id].worker)
    requires AllInside(n, n.ops[id]) && !n.ops[id].driver.Claimed?
    ensures StaysInside(n, n.ops[id], Advance(n, step))
  {
    var op := n.ops[id];
    match step
    case StartWorker(_, prepared) => StartPendsNothing(n, op, prepared);
    case Library(_, e) => TurnStaysInside(n, op, e);
    case Receive(_) => ReceiveStaysInside(n, op);
    case ReceiveLoose(_, m) => LooseStaysInside(n, op, m);
    case Dispatch(_) => DispatchStaysInside(n, op, Deliverable(n, op, op.driver.msg));
    case Release(_) =>
  }

  /** A message from inside the committee is delivered while no member is missing. */
  lemma OwnerStaysUnstranded(n: Node, step: Step, id: nat)
    requires Guard(n, step) && MovesOne(step) && step.id == id && IsSession(n, id)
    requires !Stranded(n.ops[id]) && AllInside(n, n.ops[id])
    requires UnderWay(n.ops[id]) ==> Missing(n, n.ops[id]) == {}
    ensures !Stranded(Advance(n, step).op)
  {
    if step.Dispatch? {
      assert n.ops[id].driver.msg in Pending(n.ops[id]);
      InsideIsDeliverable(n, n.ops[id], n.ops[id].driver.msg);
    }
  }

  lemma InsideKeepsIntact(n: Node, id: nat, c: Change)
    requires IsSession(n, id) && Intact(n, id) && StaysInside(n, n.ops[id], c) && !Stranded(c.op)
    requires UnderWay(c.op) ==> UnderWay(n.ops[id])
    requires c.op.driver.Claimed? || c.op.worker.Starting? || c.op.worker.Refused? ==> c.op.loose == multiset{}
    ensures Intact(Make(n, id, c), id)
  {
    var n' := Make(n, id, c);
    assert Members(n', c.op) == Members(n, n.ops[id]) && Known(n', c.op) == Known(n, n.ops[id]);
  }

  lemma OwnerStaysUnderWay(n: Node, step: Step, id: nat)
    requires Guard(n, step) && MovesOne(step) && step.id == id && IsSession(n, id)
    requires InStep(n.ops[id].driver, n.ops[id].worker) && !n.ops[id].driver.Claimed?
    requires n.ops[id].worker.Starting? || n.ops[id].worker.Refused? ==> n.ops[id].loose == multiset{}
    ensures var op' := Advance(n, step).op;
            && (UnderWay(op') ==> UnderWay(n.ops[id]))
            && (op'.Session? && (op'.driver.Claimed? || op'.worker.Starting? || op'.worker.Refused?) ==>
                  op'.loose == multiset{})
  {
  }

  /** A session begins with no message and, once it has gathered its peers, without a missing member. */
  lemma BeginsIntact(n: Node, step: Step, id: nat)
    requires Guard(n, step) && MovesOne(step) && step.id == id && KeepsMembers(n, step, id) && Intact(n, id)
    requires IsSession(n, id) ==> n.ops[id].driver.Claimed? && InStep(n.ops[id].driver, n.ops[id].worker)
    ensures Intact(Apply(n, step), id)
  {
    if step.Gather? {
      GatherPendsNothing(n, n.ops[id], step.ready, step.listed);
    }
  }

  lemma StepKeepsIntact(n: Node, step: Step, id: nat)
    requires Invariant(n) && Guard(n, step) && KeepsMembers(n, step, id) && Intact(n, id)
    ensures Intact(Apply(n, step), id)
  {
    if !MovesOne(step) || step.id != id {
      OthersKeepIntact(n, step, id);
    } else if IsSession(n, id) && !n.ops[id].driver.Claimed? {
      assert SessionOk(n.ops[id]);
      OwnerStaysInside(n, step, id);
      OwnerStaysUnstranded(n, step, id);
      OwnerStaysUnderWay(n, step, id);
      InsideKeepsIntact(n, id, Advance(n, step));
    } else {
      assert IsSession(n, id) ==> SessionOk(n.ops[id]);
      BeginsIntact(n, step, id);
    }
  }

  lemma {:induction false} RunKeepsIntact(n: Node, steps: seq<Step>, id: nat)
    requires Invariant(n) && ValidRun(n, steps) && MembersStay(n, steps, id) && Intact(n, id)
    ensures Intact(RunEnd(n, steps), id)
    decreases |steps|
  {
    if steps != [] {
      StepKeepsIntact(n, steps[0], id);
      StepKeepsInvariant(n, steps[0]);
      RunKeepsIntact(Apply(n, steps[0]), steps[1..], id);
    }
  }

  /**
    A session whose members all stay peers while it is under way, and whose library addresses
    only members, never strands its worker: at every moment of every such run, with whatever
    else the node does, it can still end.
   */
  lemma IntactSessionNeverStrands(n: Node, steps: seq<Step>, id: nat)
    requires Unused(n) && ValidRun(n, steps) && MembersStay(n, steps, id) && IsSession(RunEnd(n, steps), id)
    ensures !Stranded(RunEnd(n, steps).ops[id]) && CanEnd(RunEnd(n, steps), id)
  {
    var s := RunEnd(n, steps);
    RunKeepsIntact(n, steps, id);
    InvariantFromTheStart(n, steps);
    assert InStep(s.ops[id].driver, s.ops[id].worker);
    forall m | m in Pending(s.ops[id]) ensures Deliverable(s, s.ops[id], m) {
      InsideIsDeliverable(s, s.ops[id], m);
    }
    EndsIffPendingDeliverable(n, steps, id);
  }
}
