/** The sessions of one node, as Sessions tells them, are the session steps of the network in Gossip. */
module SessionRefinement {
  import opened Basics
  import Gossip
  import Dispatch
  import Signing
  import opened Sessions

  /** Some session of the node holds its busy flag. */
  ghost predicate SessionRuns(n: Node) {
    exists id :: IsSession(n, id) && Holds(n.ops[id])
  }

  /** The network's node `p` is this node: the same peers, the same use of the busy flag. */
  ghost predicate Agrees(s: Gossip.Network, p: PeerId, n: Node) {
    && p in s.nodes && n.host == p && n.peers == s.nodes[p].peers
    && (s.nodes[p].op.Idle? <==> !n.busy)
    && (s.nodes[p].op.InSession? <==> SessionRuns(n))
  }

  /** The steps of sessions and their updates; the others are Gossip's own steps. */
  predicate OfSessions(step: Step) {
    !step.BeginPeerChange? && !step.Launch? && !step.EndPeerChange? && !step.RecordPartyOf?
  }

  /** The node's busy flag is released by this step. */
  predicate Releases(n: Node, step: Step)
    requires Guard(n, step)
  {
    MovesOne(step) && n.busy && !Advance(n, step).busy
  }

  /** A key generation or a reshare finishes: its peers are marked. */
  predicate Finishes(n: Node, step: Step)
    requires Guard(n, step)
  {
    step.Receive? && n.ops[step.id].worker.Ending? && n.ops[step.id].worker.verdict.Finished?
    && !n.ops[step.id].kind.Sign?
  }

  /**
    What the network sees of a step: the claim, the end with its outcome, a deletion. Whether the
    signer holds a share, the indices and the fresh key come from the signer.
   */
  function Seen(n: Node, step: Step, holds: bool, index: int, freshKey: int): seq<Gossip.Step>
    requires Guard(n, step)
  {
    if step.Claim? then [Gossip.BeginSession(n.host)]
    else if step.DeletePeer? then
      (if step.peer in n.peers then [Gossip.DeletePeer(n.host, step.peer)] else [])
    else if Releases(n, step) then
      (if Finishes(n, step) && n.ops[step.id].kind.Reshare? then [Gossip.EndReshare(n.host, index, freshKey)]
       else [Gossip.EndSession(n.host, holds, Finishes(n, step), index)])
    else []
  }

  /** A step of a session: it goes on holding the busy flag, or it releases it. */
  predicate GoesOnOrReleases(n: Node, op: Operation, c: Change)
    requires op.Session?
  {
    && c.op.Session?
    && (if c.busy == n.busy then Holds(c.op) == Holds(op) && c.peers == n.peers
        else !c.busy && Holds(op) && !Holds(c.op))
  }

  lemma GatherEffect(n: Node, op: Operation, ready: bool, listed: set<PeerId>)
    requires op.Session? && op.driver.Claimed? && n.busy
    ensures GoesOnOrReleases(n, op, DoGather(n, op, ready, listed))
    ensures DoGather(n, op, ready, listed).peers == n.peers
  {
  }

  lemma ReceiveEffect(n: Node, op: Operation)
    requires op.Session? && op.driver.Waiting? && Offers(op.worker) && n.busy
    ensures GoesOnOrReleases(n, op, DoReceive(n, op))
    ensures op.worker.Ending? ==> !DoReceive(n, op).busy
    ensures DoReceive(n, op).peers ==
            if op.worker.Ending? && op.worker.verdict.Finished? && !op.kind.Sign? then Membership.MarkShares(n.peers)
            else n.peers
  {
  }

  lemma MoveEffect(n: Node, step: Step)
    requires Guard(n, step) && MovesOne(step) && OfSessions(step) && !step.Claim?
    requires Holds(n.ops[step.id]) ==> n.busy
    ensures IsSession(n, step.id) && GoesOnOrReleases(n, n.ops[step.id], Advance(n, step))
    ensures Releases(n, step) <==> Advance(n, step).busy != n.busy
    ensures Finishes(n, step) ==> Releases(n, step)
    ensures Advance(n, step).peers == if Finishes(n, step) then Membership.MarkShares(n.peers) else n.peers
  {
    match step
    case Gather(id, ready, listed) => GatherEffect(n, n.ops[id], ready, listed);
    case Receive(id) => ReceiveEffect(n, n.ops[id]);
    case _ =>
  }

  /** With one holder at most, its release leaves none. */
  lemma ReleaseLeavesNone(n: Node, id: nat, c: Change)
    requires Exclusive(n.busy, n.ops, Holds) && IsSession(n, id) && Holds(n.ops[id]) && !Holds(c.op)
    ensures SessionRuns(n) && !SessionRuns(Make(n, id, c))
  {
  }

  lemma GoingOnLeavesAll(n: Node, id: nat, c: Change)
    requires IsSession(n, id) && c.op.Session? && Holds(c.op) == Holds(n.ops[id])
    ensures SessionRuns(Make(n, id, c)) <==> SessionRuns(n)
  {
    var n' := Make(n, id, c);
    if j :| IsSession(n, j) && Holds(n.ops[j]) {
      assert IsSession(n', j) && Holds(n'.ops[j]);
    }
    if j :| IsSession(n', j) && Holds(n'.ops[j]) {
      assert IsSession(n, j) && Holds(n.ops[j]);
    }
  }

  lemma HolderIsBusy(n: Node, id: nat)
    requires Exclusive(n.busy, n.ops, Holds) && id in n.ops
    ensures Holds(n.ops[id]) ==> n.busy
  {
  }

  lemma ClaimStarts(n: Node, id: nat, kind: Kind)
    requires Guard(n, Claim(id, kind))
    ensures var n' := Apply(n, Claim(id, kind));
            SessionRuns(n') && n'.busy && n'.peers == n.peers && n'.host == n.host
  {
    assert IsSession(Apply(n, Claim(id, kind)), id) && Holds(Apply(n, Claim(id, kind)).ops[id]);
  }

  /** What a step that is not a claim does to what the network sees of the node. */
  lemma NodeAfter(n: Node, step: Step)
    requires Exclusive(n.busy, n.ops, Holds) && Guard(n, step) && OfSessions(step) && !step.Claim?
    ensures var n' := Apply(n, step);
            && n'.host == n.host
            && n'.busy == (n.busy && !Releases(n, step))
            && (Releases(n, step) ==> SessionRuns(n) && !SessionRuns(n'))
            && (!Releases(n, step) ==> (SessionRuns(n') <==> SessionRuns(n)))
            && n'.peers == (if step.DeletePeer? then Membership.WithoutPeer(n.peers, step.peer)
                            else if Releases(n, step) && Finishes(n, step) then Membership.MarkShares(n.peers)
                            else n.peers)
  {
    if MovesOne(step) {
      HolderIsBusy(n, step.id);
      MoveEffect(n, step);
      var c := Advance(n, step);
      if Releases(n, step) {
        ReleaseLeavesNone(n, step.id, c);
      } else {
        GoingOnLeavesAll(n, step.id, c);
      }
    }
  }

  lemma WithoutStranger(peers: map<PeerId, Membership.Record>, q: PeerId)
    requires q !in peers
    ensures Membership.WithoutPeer(peers, q) == peers
  {
  }

  /** The claim, as the network sees it. */
  lemma ClaimIsSeen(s: Gossip.Network, p: PeerId, n: Node, id: nat, kind: Kind)
    requires Agrees(s, p, n) && Guard(n, Claim(id, kind))
    ensures Gossip.Enabled(s, Gossip.BeginSession(p))
    ensures Agrees(Gossip.Apply(s, Gossip.BeginSession(p)), p, Apply(n, Claim(id, kind)))
  {
    ClaimStarts(n, id, kind);
  }

  /** The release, as the network sees it. */
  lemma ReleaseIsSeen(s: Gossip.Network, p: PeerId, n: Node, step: Step, seen: Gossip.Step)
    requires Exclusive(n.busy, n.ops, Holds) && Agrees(s, p, n)
    requires Guard(n, step) && OfSessions(step) && !step.Claim? && !step.DeletePeer? && Releases(n, step)
    requires || (seen.EndReshare? && seen.node == p && Finishes(n, step))
             || (seen.EndSession? && seen.node == p && seen.marks == Finishes(n, step) && (seen.marks ==> seen.holds))
    ensures Gossip.Enabled(s, seen) && Agrees(Gossip.Apply(s, seen), p, Apply(n, step))
  {
    NodeAfter(n, step);
  }

  lemma DeletionIsSeen(s: Gossip.Network, p: PeerId, n: Node, q: PeerId)
    requires Exclusive(n.busy, n.ops, Holds) && Agrees(s, p, n) && q in n.peers
    ensures Gossip.Enabled(s, Gossip.DeletePeer(p, q))
    ensures Agrees(Gossip.Apply(s, Gossip.DeletePeer(p, q)), p, Apply(n, DeletePeer(q)))
  {
    NodeAfter(n, DeletePeer(q));
  }

  /** Nothing to be seen. */
  lemma UnseenStepAgrees(s: Gossip.Network, p: PeerId, n: Node, step: Step)
    requires Exclusive(n.busy, n.ops, Holds) && Agrees(s, p, n)
    requires Guard(n, step) && OfSessions(step) && !step.Claim? && !Releases(n, step)
    requires step.DeletePeer? ==> step.peer !in n.peers
    ensures Agrees(s, p, Apply(n, step))
  {
    NodeAfter(n, step);
    if step.DeletePeer? { WithoutStranger(n.peers, step.peer); }
  }

  /**
    Every step of a session at a node, in every run of the node, is what the network sees of it:
    the network's node takes those steps and agrees with the node again.
   */
  lemma SessionStepsAreNetworkSteps(s: Gossip.Network, p: PeerId, n: Node, step: Step, holds: bool, index: int,
          freshKey: int)
    requires Exclusive(n.busy, n.ops, Holds) && Agrees(s, p, n) && Guard(n, step) && OfSessions(step)
    requires Finishes(n, step) ==> holds
    ensures var seen := Seen(n, step, holds, index, freshKey);
            Gossip.ValidRun(s, seen) && Agrees(Gossip.RunEnd(s, seen), p, Apply(n, step))
  {
    var seen := Seen(n, step, holds, index, freshKey);
    if seen == [] {
      UnseenStepAgrees(s, p, n, step);
      assert Gossip.ValidRun(s, []) && Gossip.RunEnd(s, []) == s;
    } else {
      assert seen == [seen[0]];
      if step.Claim? {
        ClaimIsSeen(s, p, n, step.id, step.kind);
      } else if step.DeletePeer? {
        DeletionIsSeen(s, p, n, step.peer);
      } else {
        ReleaseIsSeen(s, p, n, step, seen[0]);
      }
      Gossip.OneStep(s, seen[0]);
    }
  }

  // ----- The steps of membership -----

  lemma ChangeLeavesSessions(n: Node, id: nat, op: Operation, c: Change)
    requires (id in n.ops ==> !n.ops[id].Session?) && !c.op.Session?
    ensures SessionRuns(Make(n, id, c)) <==> SessionRuns(n)
  {
    var n' := Make(n, id, c);
    if j :| IsSession(n, j) && Holds(n.ops[j]) {
      assert IsSession(n', j) && Holds(n'.ops[j]);
    }
    if j :| IsSession(n', j) && Holds(n'.ops[j]) {
      assert IsSession(n, j) && Holds(n.ops[j]);
    }
  }

  /** AddPeer and handleNewPeerJoinedMsg claim the flag before they dial. */
  lemma PeerChangeBegins(s: Gossip.Network, p: PeerId, n: Node, id: nat, q: PeerId)
    requires Agrees(s, p, n) && id !in n.ops && Gossip.Enabled(s, Gossip.BeginAdd(p, q))
    requires Membership.CheckNewPeer(s.nodes[p], p, q).None?
    ensures Guard(n, BeginPeerChange(id))
    ensures Agrees(Gossip.Apply(s, Gossip.BeginAdd(p, q)), p, Apply(n, BeginPeerChange(id)))
  {
    ChangeLeavesSessions(n, id, ChangingPeers, Advance(n, BeginPeerChange(id)));
    assert !SessionRuns(n);
  }

  /** The launch of the dialled stream, and the release of the flag. */
  lemma LaunchEndsPeerChange(s: Gossip.Network, p: PeerId, n: Node, id: nat)
    requires Agrees(s, p, n) && id in n.ops && n.ops[id].ChangingPeers? && Gossip.Enabled(s, Gossip.Launch(p))
    ensures var launch := Launch(id, s.nodes[p].op.link, s.nodes[p].op.target);
            && Guard(n, launch) && Guard(Apply(n, launch), EndPeerChange(id))
            && Agrees(Gossip.Apply(s, Gossip.Launch(p)), p, Apply(Apply(n, launch), EndPeerChange(id)))
  {
    var n1 := Apply(n, Launch(id, s.nodes[p].op.link, s.nodes[p].op.target));
    SameOperationsSameSessions(n, n1);
    ChangeLeavesSessions(n1, id, PeersChanged, Advance(n1, EndPeerChange(id)));
    assert !SessionRuns(n);
  }

  lemma SameOperationsSameSessions(n: Node, n': Node)
    requires n'.ops == n.ops
    ensures SessionRuns(n') <==> SessionRuns(n)
  {
    if j :| IsSession(n, j) && Holds(n.ops[j]) {
      assert IsSession(n', j) && Holds(n'.ops[j]);
    }
    if j :| IsSession(n', j) && Holds(n'.ops[j]) {
      assert IsSession(n, j) && Holds(n.ops[j]);
    }
  }

  /** handleNewConnection: claim, launch and release without a pause. */
  lemma AcceptIsSeen(s: Gossip.Network, p: PeerId, n: Node, id: nat, l: nat)
    requires Agrees(s, p, n) && id !in n.ops && Gossip.Enabled(s, Gossip.Accept(l)) && s.links[l].acceptor == p
    ensures var n1 := Apply(n, BeginPeerChange(id));
            var n2 := Apply(n1, Launch(id, l, s.links[l].opener));
            && Guard(n, BeginPeerChange(id)) && Guard(n1, Launch(id, l, s.links[l].opener))
            && Guard(n2, EndPeerChange(id))
            && Agrees(Gossip.Apply(s, Gossip.Accept(l)), p, Apply(n2, EndPeerChange(id)))
  {
    var n1 := Apply(n, BeginPeerChange(id));
    var n2 := Apply(n1, Launch(id, l, s.links[l].opener));
    ChangeLeavesSessions(n, id, ChangingPeers, Advance(n, BeginPeerChange(id)));
    SameOperationsSameSessions(n1, n2);
    ChangeLeavesSessions(n2, id, PeersChanged, Advance(n2, EndPeerChange(id)));
    assert !SessionRuns(n);
  }

  /** handlePartyId. */
  lemma PartyIsSeen(s: Gossip.Network, p: PeerId, n: Node, m: Gossip.PartyMsg)
    requires Agrees(s, p, n) && Gossip.Enabled(s, Gossip.DeliverParty(m)) && m.to == p
    ensures var step := RecordPartyOf(s.links[m.link].Other(p), m.party);
            && Guard(n, step) && Agrees(Gossip.Apply(s, Gossip.DeliverParty(m)), p, Apply(n, step))
  {
    SameOperationsSameSessions(n, Apply(n, RecordPartyOf(s.links[m.link].Other(p), m.party)));
  }

  /** The peers a sign session sends to are those that updateSignerPeers keeps, never the node itself. */
  lemma KnownAreTheSignerPeers(n: Node, op: Operation, me: Party, list: seq<Party>)
    requires op.Session? && op.kind.Sign? && op.listed == Signing.ListedIds(list)
    ensures Known(n, op) ==
            Signing.SignerPeers(Membership.NodeState(me, op.committee, Membership.Idle), n.host, list)
  {
  }

  // ----- The gate -----

  /** The code of the message that starts a session of this kind. */
  function StartCode(kind: Kind): nat {
    match kind
    case KeyGen => 3
    case Sign => 5
    case Reshare(_) => 7
  }

  /**
    The guards of the steps that a message brings about are the gate of handleMessage: a session is
    claimed and a party recorded exactly if the message that asks for it is accepted; update
    calls begin at any time.
   */
  lemma GuardsAreTheGate(n: Node, id: nat, kind: Kind, from: PeerId, party: Party)
    requires id !in n.ops
    ensures Guard(n, Claim(id, kind)) <==> Dispatch.HandleMessage(StartCode(kind), n.busy).Ok?
    ensures Guard(n, RecordPartyOf(from, party)) <==> Dispatch.HandleMessage(2, n.busy).Ok?
    ensures Guard(n, BeginUpdate)
    ensures forall code :: code == 4 || code == 6 || code == 8 || code == 9 ==> Dispatch.HandleMessage(code, n.busy).Ok?
  {
    Dispatch.GateIsExact(StartCode(kind));
    Dispatch.GateIsExact(2);
    Dispatch.CodesHaveTheirHandlers(0, n.busy);
  }
}
