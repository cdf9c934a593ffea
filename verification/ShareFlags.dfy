/**
  What the blanket marking at the end of a key generation records (doneKeyGen in keygen.go):
  every peer is taken to hold a share, although each node sees only its own session end, and
  a PartyId that is still on its way overwrites the mark again (handlePartyId in peer.go).
 */
module ShareFlags {
  import opened Basics
  import opened Membership
  import opened Gossip
  import opened PeerTable
  import opened Joining
  import opened Quiescence
  import Signer

  /** How a node's session has ended: whether its signer holds a share, and whether it finished. */
  datatype Ended = Ended(holds: bool, finished: bool)

  // ----- One node: the end of GenerateKey -----

  function KeyGenEnd(t: Signer.SignerState, events: seq<Signer.Event>): Ended {
    var (t', signals) := Signer.KeyGenRun(t, events);
    Ended(t'.privateKey.Some?, Signer.Finished in signals)
  }

  /** The share that the loop takes from the library, if it gets that far. */
  function TakenShare(events: seq<Signer.Event>): Option<Signer.Share> {
    if events == [] then None
    else
      match events[0]
      case Out(Some(_)) => TakenShare(events[1..])
      case End(share) => Some(share)
      case _ => None
  }

  /**
    The share is stored before makePublicKey can fail: a signer without a share holds one
    afterwards exactly when the library ended with one, and has finished exactly when that
    share has a public key.
   */
  lemma {:induction false} KeyGenEndsWith(t: Signer.SignerState, events: seq<Signer.Event>)
    requires t.privateKey.None?
    ensures KeyGenEnd(t, events).holds <==> TakenShare(events).Some?
    ensures KeyGenEnd(t, events).finished <==> TakenShare(events).Some? && TakenShare(events).value.publicKey.Some?
    ensures forall id :: Signer.AsParty(id, Signer.KeyGenRun(t, events).0).haveSharedKey == KeyGenEnd(t, events).holds
  {
    if events != [] && events[0].Out? && events[0].msg.Some? {
      KeyGenEndsWith(t, events[1..]);
    }
  }

  // ----- All nodes -----

  /** What may happen during a key generation: no new stream, no deletion and no reshare. */
  predicate IsKeyGenStep(step: Step) {
    !step.Launch? && !step.Accept? && !step.DeletePeer? && !step.EndReshare?
  }

  /** How the sessions have ended, and the pairs (p, q) for which p has read q's party after its own end. */
  datatype Outcome = Outcome(ended: map<PeerId, Ended>, reread: set<(PeerId, PeerId)>)

  const BEGUN := Outcome(map[], {})

  function After(links: map<nat, Link>, g: Outcome, step: Step): Outcome {
    match step
    case EndSession(p, holds, marks, _) => g.(ended := g.ended[p := Ended(holds, marks)])
    case DeliverParty(m) =>
      if m.to in g.ended && m.link in links then g.(reread := g.reread + {(m.to, links[m.link].Other(m.to))}) else g
    case _ => g
  }

  /** A run of one key generation: no node ends it twice. */
  predicate KeyGenRun(links: map<nat, Link>, g: Outcome, steps: seq<Step>)
    decreases |steps|
  {
    steps == [] ||
    (&& IsKeyGenStep(steps[0])
     && (steps[0].EndSession? ==> steps[0].node !in g.ended)
     && KeyGenRun(links, After(links, g, steps[0]), steps[1..]))
  }

  function AtEnd(links: map<nat, Link>, g: Outcome, steps: seq<Step>): Outcome
    decreases |steps|
  {
    if steps == [] then g else AtEnd(links, After(links, g, steps[0]), steps[1..])
  }

  /** Nobody holds a share, nobody is recorded as holding one, and no PartyId on its way says so. */
  ghost predicate NoShares(s: Network) {
    && (forall p :: p in s.nodes ==>
          && !s.nodes[p].self.haveSharedKey
          && forall q :: q in s.nodes[p].peers ==> !s.nodes[p].peers[q].party.haveSharedKey)
    && forall m :: m in s.parties ==> !m.party.haveSharedKey
  }

  /** What a key generation may start from: a full mesh without shares, whose messages may still be on their way. */
  ghost predicate Start(s: Network) {
    FullMesh(s) && NoShares(s) && TableInvariant(s)
  }

  /** Every share flag tells whether the peer holds a share. */
  ghost predicate FlagsExact(s: Network) {
    forall p, q :: p in s.nodes && q in s.nodes[p].peers && q in s.nodes ==>
      s.nodes[p].peers[q].party.haveSharedKey == s.nodes[q].self.haveSharedKey
  }

  predicate Holds(g: Outcome, p: PeerId) {
    p in g.ended && g.ended[p].holds
  }

  predicate Finished(g: Outcome, p: PeerId) {
    p in g.ended && g.ended[p].finished
  }

  /** What `p` takes `q` for: it has finished, and has not read `q`'s party since. */
  predicate Marks(g: Outcome, p: PeerId, q: PeerId) {
    Finished(g, p) && (p, q) !in g.reread
  }

  /** A node's own share, and which of its peers it takes to hold one. */
  predicate MarkedAs(g: Outcome, p: PeerId, n: NodeState, peers: set<PeerId>) {
    && n.peers.Keys == peers
    && n.self.haveSharedKey == Holds(g, p)
    && (forall q :: q in n.peers ==> n.peers[q].party.haveSharedKey == Marks(g, p, q))
    && (Finished(g, p) ==> Holds(g, p))
  }

  /** An old message: it was there at the start, and says that its sender has no share. */
  ghost predicate IsOld(base: Network, m: PartyMsg) {
    m in base.parties && PartyMsgOk(base.links, m) && !m.party.haveSharedKey
  }

  ghost predicate RereadOk(base: Network, g: Outcome, pair: (PeerId, PeerId)) {
    pair.0 in g.ended && pair.0 in base.nodes && pair.1 in base.nodes && pair.0 != pair.1
  }

  ghost predicate Marked(base: Network, s: Network, g: Outcome) {
    && s.nodes.Keys == base.nodes.Keys
    && LinksGrow(base.links, s.links)
    && (forall m :: m in s.parties ==> IsOld(base, m))
    && (forall pair :: pair in g.reread ==> RereadOk(base, g, pair))
    && forall p :: p in s.nodes ==> MarkedAs(g, p, s.nodes[p], base.nodes[p].peers.Keys)
  }

  lemma EndMarks(links: map<nat, Link>, s: Network, g: Outcome, step: Step, peers: set<PeerId>)
    requires Enabled(s, step) && step.EndSession? && step.node !in g.ended
    requires forall q :: (step.node, q) !in g.reread
    requires MarkedAs(g, step.node, s.nodes[step.node], peers)
    ensures MarkedAs(After(links, g, step), step.node, Apply(s, step).nodes[step.node], peers)
  {
  }

  lemma ReadingUnmarks(links: map<nat, Link>, s: Network, g: Outcome, m: PartyMsg, peers: set<PeerId>)
    requires Enabled(s, DeliverParty(m)) && !m.party.haveSharedKey && m.link in links
    requires s.links[m.link].opener == links[m.link].opener && s.links[m.link].acceptor == links[m.link].acceptor
    requires MarkedAs(g, m.to, s.nodes[m.to], peers)
    ensures MarkedAs(After(links, g, DeliverParty(m)), m.to, Apply(s, DeliverParty(m)).nodes[m.to], peers)
  {
    assert Apply(s, DeliverParty(m)).nodes[m.to] == RecordParty(s.nodes[m.to], links[m.link].Other(m.to), m.party);
  }

  lemma OthersStayMarked(links: map<nat, Link>, s: Network, g: Outcome, step: Step, p: PeerId, peers: set<PeerId>)
    requires Enabled(s, step) && IsKeyGenStep(step) && p in s.nodes
    requires step.EndSession? || step.DeliverParty? ==> Actor(s, step) != p
    requires MarkedAs(g, p, s.nodes[p], peers)
    ensures MarkedAs(After(links, g, step), p, Apply(s, step).nodes[p], peers)
  {
    PeersUntouched(s, step, p);
  }

  lemma StepMarksNode(base: Network, s: Network, g: Outcome, step: Step, p: PeerId)
    requires Enabled(s, step) && IsKeyGenStep(step) && (step.EndSession? ==> step.node !in g.ended)
    requires Marked(base, s, g) && p in s.nodes
    ensures MarkedAs(After(base.links, g, step), p, Apply(s, step).nodes[p], base.nodes[p].peers.Keys)
  {
    var peers := base.nodes[p].peers.Keys;
    if step.EndSession? && step.node == p {
      assert forall q :: (p, q) in g.reread ==> RereadOk(base, g, (p, q));
      EndMarks(base.links, s, g, step, peers);
    } else if step.DeliverParty? && step.msg.to == p {
      assert IsOld(base, step.msg);
      ReadingUnmarks(base.links, s, g, step.msg, peers);
    } else {
      OthersStayMarked(base.links, s, g, step, p, peers);
    }
  }

  lemma NothingNewIsSent(s: Network, step: Step, m: PartyMsg)
    requires Enabled(s, step) && IsKeyGenStep(step) && m in Apply(s, step).parties
    ensures m in s.parties
  {
  }

  lemma StepMarksPairs(base: Network, g: Outcome, step: Step, pair: (PeerId, PeerId))
    requires forall l :: l in base.links ==> LinkOk(base.nodes.Keys, base.links[l])
    requires step.DeliverParty? ==> PartyMsgOk(base.links, step.msg)
    requires pair in g.reread ==> RereadOk(base, g, pair)
    requires pair in After(base.links, g, step).reread
    ensures RereadOk(base, After(base.links, g, step), pair)
  {
  }

  lemma LinksKeepGrowing(links: map<nat, Link>, links': map<nat, Link>, links'': map<nat, Link>)
    requires LinksGrow(links, links') && LinksGrow(links', links'')
    ensures LinksGrow(links, links'')
  {
  }

  lemma StepMarks(base: Network, s: Network, g: Outcome, step: Step)
    requires Enabled(s, step) && IsKeyGenStep(step) && (step.EndSession? ==> step.node !in g.ended)
    requires Marked(base, s, g) && forall l :: l in base.links ==> LinkOk(base.nodes.Keys, base.links[l])
    ensures Marked(base, Apply(s, step), After(base.links, g, step))
  {
    var s', g' := Apply(s, step), After(base.links, g, step);
    LinksKeepGrowing(base.links, s.links, s'.links);
    forall m | m in s'.parties ensures IsOld(base, m) { NothingNewIsSent(s, step, m); }
    forall pair | pair in g'.reread ensures RereadOk(base, g', pair) {
      assert step.DeliverParty? ==> IsOld(base, step.msg);
      StepMarksPairs(base, g, step, pair);
    }
    forall p | p in s'.nodes ensures MarkedAs(g', p, s'.nodes[p], base.nodes[p].peers.Keys) {
      StepMarksNode(base, s, g, step, p);
    }
  }

  lemma {:induction false} RunMarks(base: Network, s: Network, g: Outcome, steps: seq<Step>)
    requires ValidRun(s, steps) && KeyGenRun(base.links, g, steps)
    requires Marked(base, s, g) && forall l :: l in base.links ==> LinkOk(base.nodes.Keys, base.links[l])
    ensures Marked(base, RunEnd(s, steps), AtEnd(base.links, g, steps))
    decreases |steps|
  {
    if steps != [] {
      StepMarks(base, s, g, steps[0]);
      RunMarks(base, Apply(s, steps[0]), After(base.links, g, steps[0]), steps[1..]);
    }
  }

  /** From such a start every node's session has ended, once. */
  ghost predicate KeyGeneration(s: Network, steps: seq<Step>) {
    && Start(s) && ValidRun(s, steps) && KeyGenRun(s.links, BEGUN, steps)
    && AtEnd(s.links, BEGUN, steps).ended.Keys == s.nodes.Keys
  }

  function OutcomeOf(s: Network, steps: seq<Step>): Outcome {
    AtEnd(s.links, BEGUN, steps)
  }

  lemma GenerationMarks(s: Network, steps: seq<Step>)
    requires KeyGeneration(s, steps)
    ensures Marked(s, RunEnd(s, steps), OutcomeOf(s, steps))
  {
    forall p | p in s.nodes ensures MarkedAs(BEGUN, p, s.nodes[p], s.nodes[p].peers.Keys) {
    }
    RunMarks(s, s, BEGUN, steps);
  }

  // ----- When the flags are exact -----

  ghost predicate AllFinished(all: set<PeerId>, g: Outcome) {
    forall p :: p in all ==> Finished(g, p)
  }

  /** Nobody finished, then, either. */
  ghost predicate NobodyHolds(all: set<PeerId>, g: Outcome) {
    forall p :: p in all ==> !Holds(g, p) && !Finished(g, p)
  }

  lemma FlagOf(base: Network, s: Network, g: Outcome, p: PeerId, q: PeerId)
    requires FullMesh(base) && Marked(base, s, g) && p in s.nodes && q in s.nodes && p != q
    ensures q in s.nodes[p].peers && s.nodes[p].peers[q].party.haveSharedKey == Marks(g, p, q)
    ensures s.nodes[q].self.haveSharedKey == Holds(g, q) && (Finished(g, q) ==> Holds(g, q))
  {
    assert MarkedAs(g, p, s.nodes[p], base.nodes[p].peers.Keys);
    assert MarkedAs(g, q, s.nodes[q], base.nodes[q].peers.Keys);
  }

  /** If the flags are exact and somebody holds a share, everybody else has finished, and so has that node. */
  lemma ExactMeansFinished(base: Network, s: Network, g: Outcome, r: PeerId)
    requires FullMesh(base) && Marked(base, s, g) && FlagsExact(s) && |s.nodes.Keys| > 1
    requires r in s.nodes && Holds(g, r)
    ensures AllFinished(s.nodes.Keys, g) && g.reread == {}
  {
    forall p | p in s.nodes ensures Finished(g, p) {
      if p != r {
        FlagOf(base, s, g, p, r);
      } else {
        var q := Another(s.nodes.Keys, r);
        FlagOf(base, s, g, q, r);
        FlagOf(base, s, g, r, q);
      }
    }
    if pair :| pair in g.reread {
      assert RereadOk(base, g, pair) && Finished(g, pair.1);
      FlagOf(base, s, g, pair.0, pair.1);
    }
  }

  lemma AgreeMeansExact(base: Network, s: Network, g: Outcome)
    requires FullMesh(base) && Marked(base, s, g)
    requires NobodyHolds(s.nodes.Keys, g) || (AllFinished(s.nodes.Keys, g) && g.reread == {})
    ensures FlagsExact(s)
  {
    forall p, q | p in s.nodes && q in s.nodes[p].peers && q in s.nodes
      ensures s.nodes[p].peers[q].party.haveSharedKey == s.nodes[q].self.haveSharedKey
    {
      assert MarkedAs(g, p, s.nodes[p], base.nodes[p].peers.Keys);
      FlagOf(base, s, g, p, q);
    }
  }

  /** A single node has no flags to be wrong. */
  lemma NobodyElse<T>(all: set<T>, p: T)
    requires |all| <= 1 && p in all
    ensures all - {p} == {}
  {
    assert |all - {p}| == |all| - 1;
  }

  lemma AloneIsExact(s: Network)
    requires FullMesh(s) && |s.nodes.Keys| <= 1
    ensures FlagsExact(s)
  {
    forall p | p in s.nodes ensures s.nodes[p].peers.Keys == {} {
      NobodyElse(s.nodes.Keys, p);
    }
  }

  /**
    The marking, exactly. From a full mesh of two or more nodes without shares, with any messages
    still on their way, in any order of deliveries, losses and the nodes' ends: once every session
    has ended, all share flags are exact if and only if nobody holds a share, or all sessions
    finished and no node has read a PartyId after its own end. A node that has taken its share and
    then failed counts as one that holds a share and has not finished.
   */
  lemma FlagsAreExactIff(s: Network, steps: seq<Step>)
    requires KeyGeneration(s, steps)
    ensures var g := OutcomeOf(s, steps);
            FlagsExact(RunEnd(s, steps)) <==>
            || |s.nodes.Keys| <= 1 || NobodyHolds(s.nodes.Keys, g)
            || (AllFinished(s.nodes.Keys, g) && g.reread == {})
  {
    var end, g := RunEnd(s, steps), OutcomeOf(s, steps);
    GenerationMarks(s, steps);
    if |s.nodes.Keys| <= 1 {
      EndIsMesh(s, end, g);
      AloneIsExact(end);
    } else if NobodyHolds(s.nodes.Keys, g) || (AllFinished(s.nodes.Keys, g) && g.reread == {}) {
      AgreeMeansExact(s, end, g);
    } else if FlagsExact(end) {
      HoldsOrFinished(s, end, g);
      var r :| r in s.nodes && Holds(g, r);
      ExactMeansFinished(s, end, g, r);
    }
  }

  lemma EndIsMesh(base: Network, s: Network, g: Outcome)
    requires FullMesh(base) && Marked(base, s, g)
    ensures FullMesh(s)
  {
    forall p | p in s.nodes ensures s.nodes[p].peers.Keys == s.nodes.Keys - {p} {
      assert MarkedAs(g, p, s.nodes[p], base.nodes[p].peers.Keys);
    }
  }

  lemma HoldsOrFinished(base: Network, s: Network, g: Outcome)
    requires Marked(base, s, g) && !NobodyHolds(s.nodes.Keys, g)
    ensures exists r :: r in s.nodes && Holds(g, r)
  {
    var r :| r in s.nodes && (Holds(g, r) || Finished(g, r));
    assert MarkedAs(g, r, s.nodes[r], base.nodes[r].peers.Keys);
  }

  /** Each node's flag for each other one: it has finished, and has not read that node's party since. */
  lemma FlagsAtTheEnd(s: Network, steps: seq<Step>, p: PeerId, q: PeerId)
    requires KeyGeneration(s, steps) && p in s.nodes && q in s.nodes && p != q
    ensures var end, g := RunEnd(s, steps), OutcomeOf(s, steps);
            && p in end.nodes && q in end.nodes && q in end.nodes[p].peers
            && (end.nodes[p].peers[q].party.haveSharedKey <==> Finished(g, p) && (p, q) !in g.reread)
            && (end.nodes[q].self.haveSharedKey <==> Holds(g, q))
  {
    GenerationMarks(s, steps);
    FlagOf(s, RunEnd(s, steps), OutcomeOf(s, steps), p, q);
  }

  // ----- In terms of the shares -----

  /** The library gave this node a share that has a public key. */
  predicate GivenUsable(events: seq<Signer.Event>) {
    TakenShare(events).Some? && TakenShare(events).value.publicKey.Some?
  }

  lemma EndsByShares(g: Outcome, t: map<PeerId, Signer.SignerState>, events: map<PeerId, seq<Signer.Event>>)
    requires t.Keys == events.Keys && forall p :: p in t ==> t[p].privateKey.None?
    requires g.ended == map p | p in t :: KeyGenEnd(t[p], events[p])
    ensures AllFinished(t.Keys, g) <==> forall p :: p in t ==> GivenUsable(events[p])
    ensures NobodyHolds(t.Keys, g) <==> forall p :: p in t ==> TakenShare(events[p]).None?
  {
    forall p | p in t
      ensures g.ended[p].holds <==> TakenShare(events[p]).Some?
      ensures g.ended[p].finished <==> GivenUsable(events[p])
    {
      KeyGenEndsWith(t[p], events[p]);
    }
    forall p | p in t && AllFinished(t.Keys, g) ensures GivenUsable(events[p]) {
      assert Finished(g, p);
    }
    forall p | p in t && NobodyHolds(t.Keys, g) ensures TakenShare(events[p]).None? {
      assert !Holds(g, p);
    }
  }

  /**
    The same in terms of what the library gave each node, whose signers began without a share:
    exact if and only if no node was given any, or every node was given a share with a public key
    and read no PartyId after its end. So one share without a public key is enough to leave a
    false flag.
   */
  lemma FlagsAreExactIffSharesAgree(s: Network, steps: seq<Step>, t: map<PeerId, Signer.SignerState>,
          events: map<PeerId, seq<Signer.Event>>)
    requires KeyGeneration(s, steps) && |s.nodes.Keys| > 1
    requires t.Keys == events.Keys == s.nodes.Keys && forall p :: p in t ==> t[p].privateKey.None?
    requires OutcomeOf(s, steps).ended == map p | p in t :: KeyGenEnd(t[p], events[p])
    ensures FlagsExact(RunEnd(s, steps)) <==>
            || (forall p :: p in t ==> TakenShare(events[p]).None?)
            || ((forall p :: p in t ==> GivenUsable(events[p])) && OutcomeOf(s, steps).reread == {})
  {
    FlagsAreExactIff(s, steps);
    EndsByShares(OutcomeOf(s, steps), t, events);
  }

  // ----- A guard that can be checked before the key generation -----

  /** No PartyId is on its way to an end that can read it. */
  ghost predicate NothingToRead(s: Network) {
    forall m :: m in s.parties ==> !(m.link in s.links && s.links[m.link].Up(m.to))
  }

  lemma NothingStaysUnread(s: Network, step: Step)
    requires Enabled(s, step) && IsKeyGenStep(step) && NothingToRead(s)
    requires forall m :: m in s.parties ==> m.link in s.links
    ensures NothingToRead(Apply(s, step)) && !step.DeliverParty?
    ensures forall m :: m in Apply(s, step).parties ==> m.link in Apply(s, step).links
  {
    forall m | m in Apply(s, step).parties
      ensures m.link in Apply(s, step).links && !Apply(s, step).links[m.link].Up(m.to)
    {
      NothingNewIsSent(s, step, m);
    }
  }

  lemma {:induction false} NothingIsReread(links: map<nat, Link>, s: Network, g: Outcome, steps: seq<Step>)
    requires ValidRun(s, steps) && KeyGenRun(links, g, steps)
    requires NothingToRead(s) && forall m :: m in s.parties ==> m.link in s.links
    ensures AtEnd(links, g, steps).reread == g.reread
    decreases |steps|
  {
    if steps != [] {
      NothingStaysUnread(s, steps[0]);
      NothingIsReread(links, Apply(s, steps[0]), After(links, g, steps[0]), steps[1..]);
    }
  }

  /**
    So with nothing to read at the start, the marking is right exactly when the key generation
    has ended the same way everywhere.
   */
  lemma FlagsAreExactIffAllAgree(s: Network, steps: seq<Step>)
    requires KeyGeneration(s, steps) && NothingToRead(s)
    ensures var g := OutcomeOf(s, steps);
            FlagsExact(RunEnd(s, steps)) <==>
            |s.nodes.Keys| <= 1 || AllFinished(s.nodes.Keys, g) || NobodyHolds(s.nodes.Keys, g)
  {
    assert forall m :: m in s.parties ==> PartyMsgOk(s.links, m);
    NothingIsReread(s.links, s, BEGUN, steps);
    FlagsAreExactIff(s, steps);
  }

  // ----- No stream is set up unless one was on its way -----

  /** Nobody dials or launches, and no connection waits to be accepted. */
  ghost predicate NoStreamComing(s: Network) {
    && s.conns == {}
    && forall p :: p in s.nodes ==> !s.nodes[p].op.Dialing? && !s.nodes[p].op.Launching?
  }

  /** No node ends a session twice, no peer is deleted, and no reshare ends. Anything else may happen. */
  predicate EndsOnce(ended: set<PeerId>, steps: seq<Step>)
    decreases |steps|
  {
    steps == [] ||
    (&& !steps[0].DeletePeer? && !steps[0].EndReshare?
     && (steps[0].EndSession? ==> steps[0].node !in ended)
     && EndsOnce(if steps[0].EndSession? then ended + {steps[0].node} else ended, steps[1..]))
  }

  lemma PeersKept(s: Network, step: Step, p: PeerId)
    requires Enabled(s, step) && IsKeyGenStep(step) && p in s.nodes
    ensures Apply(s, step).nodes[p].peers.Keys == s.nodes[p].peers.Keys
  {
    if Actor(s, step) != p || !ChangesPeers(step) {
      PeersUntouched(s, step, p);
    } else if step.DeliverParty? {
      assert Apply(s, step).nodes[p] == RecordParty(s.nodes[p], s.links[step.msg.link].Other(p), step.msg.party);
    }
  }

  /** In a full mesh nobody has anybody left to dial. */
  lemma NobodyToDial(s: Network, step: Step)
    requires Enabled(s, step) && (step.BeginAdd? || step.DeliverJoined?) && FullMesh(s) && InputOk(s, step)
    ensures Apply(s, step).nodes == s.nodes && Apply(s, step).conns == s.conns
  {
    assert s.nodes[step.node].peers.Keys == s.nodes.Keys - {step.node};
  }

  lemma NoneIsLaunched(s: Network, step: Step)
    requires Enabled(s, step) && NoStreamComing(s)
    ensures !step.Launch? && !step.Accept? && !step.Dial? && !step.DialFails? && !step.LoseConnection?
  {
  }

  predicate IsSessionStep(step: Step) {
    step.BeginSession? || step.EndSession? || step.DeliverParty? || step.LoseParty? || step.LoseJoined?
  }

  lemma SessionStepSetsUpNone(s: Network, step: Step)
    requires Enabled(s, step) && IsSessionStep(step) && NoStreamComing(s)
    ensures NoStreamComing(Apply(s, step))
  {
  }

  lemma StepSetsUpNone(s: Network, step: Step)
    requires Enabled(s, step) && !step.DeletePeer? && !step.EndReshare?
    requires FullMesh(s) && NoStreamComing(s) && InputOk(s, step)
    ensures IsKeyGenStep(step) && NoStreamComing(Apply(s, step))
  {
    NoneIsLaunched(s, step);
    if step.BeginAdd? || step.DeliverJoined? {
      NobodyToDial(s, step);
    } else {
      SessionStepSetsUpNone(s, step);
    }
  }

  lemma MeshKept(s: Network, step: Step)
    requires Enabled(s, step) && IsKeyGenStep(step) && FullMesh(s)
    ensures FullMesh(Apply(s, step))
  {
    forall p | p in s.nodes ensures Apply(s, step).nodes[p].peers.Keys == s.nodes.Keys - {p} {
      PeersKept(s, step, p);
    }
  }

  ghost predicate QuietMesh(s: Network) {
    FullMesh(s) && NoStreamComing(s) && TableInvariant(s)
  }

  lemma StepKeepsQuietMesh(s: Network, step: Step)
    requires Enabled(s, step) && !step.DeletePeer? && !step.EndReshare? && QuietMesh(s)
    ensures IsKeyGenStep(step) && QuietMesh(Apply(s, step))
  {
    InputsAreOk(s, step);
    StepSetsUpNone(s, step);
    MeshKept(s, step);
    StepKeepsTables(s, step);
  }

  lemma EndedKeys(links: map<nat, Link>, g: Outcome, step: Step)
    ensures After(links, g, step).ended.Keys == if step.EndSession? then g.ended.Keys + {step.node} else g.ended.Keys
  {
  }

  lemma {:induction false} NoStreamIsSetUp(links: map<nat, Link>, s: Network, g: Outcome, steps: seq<Step>)
    requires QuietMesh(s) && ValidRun(s, steps) && EndsOnce(g.ended.Keys, steps)
    ensures KeyGenRun(links, g, steps)
    decreases |steps|
  {
    if steps != [] {
      StepKeepsQuietMesh(s, steps[0]);
      EndedKeys(links, g, steps[0]);
      NoStreamIsSetUp(links, Apply(s, steps[0]), After(links, g, steps[0]), steps[1..]);
    }
  }

  lemma QuietRun(s: Network, steps: seq<Step>)
    requires QuietMesh(s) && ValidRun(s, steps) && EndsOnce({}, steps)
    ensures KeyGenRun(s.links, BEGUN, steps)
  {
    assert BEGUN.ended.Keys == {};
    NoStreamIsSetUp(s.links, s, BEGUN, steps);
  }

  lemma RestIsQuiet(s: Network)
    requires Start(s) && Quiescent(s)
    ensures QuietMesh(s) && NothingToRead(s)
  {
  }

  /**
    From a full mesh at rest, then, every run in which each node ends its session once is a key
    generation as above, with nothing to read: AddPeer calls and losses included.
   */
  lemma EveryRunFromRest(s: Network, steps: seq<Step>)
    requires Start(s) && Quiescent(s) && ValidRun(s, steps) && EndsOnce({}, steps)
    requires OutcomeOf(s, steps).ended.Keys == s.nodes.Keys
    ensures KeyGeneration(s, steps) && NothingToRead(s)
  {
    RestIsQuiet(s);
    QuietRun(s, steps);
  }

  // ----- Every outcome is reached -----

  ghost predicate AllIdle(s: Network) {
    forall p :: p in s.nodes ==> s.nodes[p].op.Idle?
  }

  /** The outcomes that sessions can have: none finishes without a share. */
  ghost predicate Possible(s: Network, outcomes: map<PeerId, Ended>) {
    outcomes.Keys == s.nodes.Keys && forall p :: p in outcomes && outcomes[p].finished ==> outcomes[p].holds
  }

  /** One node's whole session, on its own. */
  lemma OneSession(s: Network, g: Outcome, p: PeerId, e: Ended) returns (steps: seq<Step>, s': Network)
    requires AllIdle(s) && p in s.nodes && p !in g.ended && (e.finished ==> e.holds)
    ensures |steps| == 2 && ValidRun(s, steps) && RunEnd(s, steps) == s' && KeyGenRun(s.links, g, steps)
    ensures AtEnd(s.links, g, steps) == g.(ended := g.ended[p := e])
    ensures AllIdle(s') && s'.nodes.Keys == s.nodes.Keys && s'.links == s.links && s'.parties == s.parties
  {
    var begin, end := BeginSession(p), EndSession(p, e.holds, e.finished, 0);
    var s1 := Apply(s, begin);
    s' := Apply(s1, end);
    OneStep(s1, end);
    FirstStep(s, begin, [end]);
    steps := [begin] + [end];
    StepAlone(s.links, g, end);
    StepFirst(s.links, g, begin, [end]);
  }

  lemma StepFirst(links: map<nat, Link>, g: Outcome, step: Step, rest: seq<Step>)
    requires IsKeyGenStep(step) && (step.EndSession? ==> step.node !in g.ended)
    requires KeyGenRun(links, After(links, g, step), rest)
    ensures KeyGenRun(links, g, [step] + rest)
    ensures AtEnd(links, g, [step] + rest) == AtEnd(links, After(links, g, step), rest)
  {
    assert ([step] + rest)[1..] == rest;
  }

  lemma StepAlone(links: map<nat, Link>, g: Outcome, step: Step)
    requires IsKeyGenStep(step) && (step.EndSession? ==> step.node !in g.ended)
    ensures KeyGenRun(links, g, [step]) && AtEnd(links, g, [step]) == After(links, g, step)
  {
    StepFirst(links, g, step, []);
    assert [step] + [] == [step];
  }

  lemma {:induction false} RunsOfOneKeyGen(links: map<nat, Link>, g: Outcome, first: seq<Step>, second: seq<Step>)
    requires KeyGenRun(links, g, first) && KeyGenRun(links, AtEnd(links, g, first), second)
    ensures KeyGenRun(links, g, first + second)
    ensures AtEnd(links, g, first + second) == AtEnd(links, AtEnd(links, g, first), second)
    decreases |first|
  {
    ConsAppend(first, second);
    if first != [] {
      RunsOfOneKeyGen(links, After(links, g, first[0]), first[1..], second);
      StepFirst(links, g, first[0], first[1..] + second);
    }
  }

  lemma MoreEnded(outcomes: map<PeerId, Ended>, ended: map<PeerId, Ended>, p: PeerId)
    requires ended.Keys <= outcomes.Keys && p in outcomes && (forall q :: q in ended ==> ended[q] == outcomes[q])
    ensures var ended' := ended[p := outcomes[p]];
            ended'.Keys <= outcomes.Keys && forall q :: q in ended' ==> ended'[q] == outcomes[q]
  {
  }

  /** The remaining nodes run their sessions one after the other. */
  lemma {:induction false} RemainingSessions(s: Network, g: Outcome, outcomes: map<PeerId, Ended>)
          returns (steps: seq<Step>, s': Network)
    requires AllIdle(s) && Possible(s, outcomes)
    requires g.ended.Keys <= outcomes.Keys && forall p :: p in g.ended ==> g.ended[p] == outcomes[p]
    ensures ValidRun(s, steps) && RunEnd(s, steps) == s' && KeyGenRun(s.links, g, steps)
    ensures AtEnd(s.links, g, steps) == g.(ended := outcomes)
    ensures AllIdle(s') && s'.nodes.Keys == s.nodes.Keys && s'.links == s.links && s'.parties == s.parties
    decreases outcomes.Keys - g.ended.Keys
  {
    if p :| p in outcomes && p !in g.ended {
      var first, s1 := OneSession(s, g, p, outcomes[p]);
      var g1 := g.(ended := g.ended[p := outcomes[p]]);
      MoreEnded(outcomes, g.ended, p);
      var rest;
      rest, s' := RemainingSessions(s1, g1, outcomes);
      RunsCompose(s, first, rest);
      RunsOfOneKeyGen(s.links, g, first, rest);
      steps := first + rest;
    } else {
      assert g.ended == outcomes;
      steps, s' := [], s;
    }
  }

  /** Somebody holds a share, and somebody has not finished. */
  ghost predicate Disagree(outcomes: map<PeerId, Ended>) {
    (exists p :: p in outcomes && outcomes[p].holds) && (exists p :: p in outcomes && !outcomes[p].finished)
  }

  /**
    From every start with idle nodes, every combination of outcomes is reached by some key
    generation that reads no PartyId. So whenever one node finishes and another does not, or one
    keeps a share it could not use, a flag is wrong.
   */
  lemma EveryOutcomeIsReached(s: Network, outcomes: map<PeerId, Ended>) returns (steps: seq<Step>)
    requires Start(s) && AllIdle(s) && Possible(s, outcomes)
    ensures KeyGeneration(s, steps) && OutcomeOf(s, steps) == Outcome(outcomes, {})
    ensures |s.nodes.Keys| > 1 ==> (FlagsExact(RunEnd(s, steps)) <==> !Disagree(outcomes))
  {
    var s';
    steps, s' := RemainingSessions(s, BEGUN, outcomes);
    if |s.nodes.Keys| > 1 {
      FlagsAreExactIff(s, steps);
      DisagreeingOutcomes(s.nodes.Keys, OutcomeOf(s, steps));
    }
  }

  lemma DisagreeingOutcomes(all: set<PeerId>, g: Outcome)
    requires g.ended.Keys == all
    requires forall p :: p in g.ended && g.ended[p].finished ==> g.ended[p].holds
    ensures NobodyHolds(all, g) || AllFinished(all, g) <==> !Disagree(g.ended)
  {
  }

  // ----- A late PartyId -----

  /** Whatever order and deliveries: if all sessions finish, the flags are exact. */
  ghost predicate FinishingIsEnough(s: Network) {
    forall steps ::
      KeyGeneration(s, steps) && AllFinished(s.nodes.Keys, OutcomeOf(s, steps)) ==> FlagsExact(RunEnd(s, steps))
  }

  lemma ReadingLast(s: Network, g: Outcome, m: PartyMsg)
    requires AllIdle(s) && m in s.parties && m.link in s.links && s.links[m.link].Up(m.to)
    requires m.to in s.nodes && m.to in g.ended
    ensures ValidRun(s, [DeliverParty(m)]) && KeyGenRun(s.links, g, [DeliverParty(m)])
    ensures AtEnd(s.links, g, [DeliverParty(m)]).ended == g.ended && AtEnd(s.links, g, [DeliverParty(m)]).reread != {}
  {
    OneStep(s, DeliverParty(m));
    StepAlone(s.links, g, DeliverParty(m));
    assert (m.to, s.links[m.link].Other(m.to)) in After(s.links, g, DeliverParty(m)).reread;
  }

  /** All sessions finish, and then a party that was sent before is read. */
  lemma LatePartyRun(s: Network, m: PartyMsg) returns (steps: seq<Step>)
    requires Start(s) && AllIdle(s)
    requires m in s.parties && m.link in s.links && s.links[m.link].Up(m.to)
    ensures KeyGeneration(s, steps) && AllFinished(s.nodes.Keys, OutcomeOf(s, steps))
    ensures OutcomeOf(s, steps).reread != {}
  {
    var outcomes := map p | p in s.nodes :: Ended(true, true);
    var first, s1 := RemainingSessions(s, BEGUN, outcomes);
    assert PartyMsgOk(s.links, m) && LinkOk(s.nodes.Keys, s.links[m.link]);
    ReadingLast(s1, Outcome(outcomes, {}), m);
    RunsCompose(s, first, [DeliverParty(m)]);
    RunsOfOneKeyGen(s.links, BEGUN, first, [DeliverParty(m)]);
    steps := first + [DeliverParty(m)];
  }

  /** That is enough to leave a false flag. */
  lemma LatePartyExample(s: Network, m: PartyMsg) returns (steps: seq<Step>)
    requires Start(s) && AllIdle(s) && |s.nodes.Keys| > 1
    requires m in s.parties && m.link in s.links && s.links[m.link].Up(m.to)
    ensures KeyGeneration(s, steps) && AllFinished(s.nodes.Keys, OutcomeOf(s, steps))
    ensures !FlagsExact(RunEnd(s, steps))
  {
    steps := LatePartyRun(s, m);
    FlagsAreExactIff(s, steps);
    var p :| p in s.nodes;
    assert Finished(OutcomeOf(s, steps), p);
  }

  /**
    When it is enough that all sessions finish: from a full mesh of two or more idle nodes without
    shares, all flags are then exact in every run, if and only if no PartyId was on its way to an
    end that can read it when the key generation began.
   */
  lemma FinishingIsEnoughIffNothingToRead(s: Network)
    requires Start(s) && AllIdle(s) && |s.nodes.Keys| > 1
    ensures FinishingIsEnough(s) <==> NothingToRead(s)
  {
    if NothingToRead(s) {
      forall steps | KeyGeneration(s, steps) && AllFinished(s.nodes.Keys, OutcomeOf(s, steps))
        ensures FlagsExact(RunEnd(s, steps))
      {
        FlagsAreExactIffAllAgree(s, steps);
      }
    } else {
      var m :| m in s.parties && m.link in s.links && s.links[m.link].Up(m.to);
      var steps := LatePartyExample(s, m);
    }
  }
}
