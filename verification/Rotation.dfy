/**
  Key rotation over a whole network: every node ends a reshare in any order and sends its new
  party to all peers (doneReshare in reshare.go). These messages arrive in any order, or are
  dropped by a receiver that is still in its own session (start.go). What each node records
  afterwards is decided by which of them were dropped.
 */
module Rotation {
  import opened Basics
  import opened Membership
  import opened Gossip
  import opened PeerTable
  import opened Directory
  import opened Joining

  predicate IsReshareStep(step: Step) {
    step.BeginSession? || step.EndReshare? || step.DeliverParty? || step.LoseParty?
  }

  /** The nodes that have ended their reshare, and the pairs (p, q) for which p dropped q's party. */
  datatype Progress = Progress(done: set<PeerId>, lost: set<(PeerId, PeerId)>)

  const BEGUN := Progress({}, {})

  function After(links: map<nat, Link>, g: Progress, step: Step): Progress {
    match step
    case EndReshare(q, _, _) => g.(done := g.done + {q})
    case LoseParty(m) =>
      if m.link in links then g.(lost := g.lost + {(m.to, links[m.link].Other(m.to))}) else g
    case _ => g
  }

  /** A run of one reshare: every step belongs to it, and no node ends it twice. */
  predicate ReshareRun(links: map<nat, Link>, g: Progress, steps: seq<Step>)
    decreases |steps|
  {
    steps == [] ||
    (&& IsReshareStep(steps[0])
     && (steps[0].EndReshare? ==> steps[0].node !in g.done)
     && ReshareRun(links, After(links, g, steps[0]), steps[1..]))
  }

  function AtEnd(links: map<nat, Link>, g: Progress, steps: seq<Step>): Progress
    decreases |steps|
  {
    if steps == [] then g else AtEnd(links, After(links, g, steps[0]), steps[1..])
  }

  // ----- What the run keeps -----

  predicate SelfOk(was: Party, now: Party, done: bool) {
    && now.id == was.id
    && (if done then now.partyKey == was.newPartyKey else now.Identity() == was.Identity())
  }

  /** The same peers on the same links. */
  predicate SamePeers(n: NodeState, n': NodeState) {
    n'.peers.Keys == n.peers.Keys && forall q :: q in n.peers ==> n'.peers[q].link == n.peers[q].link
  }

  /** The one message that `q` sends to `p` when it ends its reshare. */
  function PartyFor(base: Network, s: Network, p: PeerId, q: PeerId): PartyMsg
    requires q in s.nodes && q in base.nodes && p in base.nodes[q].peers
  {
    PartyMsg(base.nodes[q].peers[p].link, p, s.nodes[q].self)
  }

  /** A message in flight: the only copy of what its sender, who is done, sent to this receiver. */
  predicate MessageOk(base: Network, s: Network, g: Progress, m: PartyMsg) {
    && m.link in base.links
    && var q := base.links[m.link].Other(m.to);
    && q in g.done && q in s.nodes && q in base.nodes && m.to in base.nodes[q].peers
    && m == PartyFor(base, s, m.to, q) && s.parties[m] == 1 && (m.to, q) !in g.lost
  }

  /** `q`'s party has been sent to `p`, was not dropped, and is not in flight any more. */
  predicate Arrived(base: Network, s: Network, g: Progress, p: PeerId, q: PeerId)
    requires q in s.nodes && q in base.nodes && p in base.nodes[q].peers
  {
    q in g.done && (p, q) !in g.lost && PartyFor(base, s, p, q) !in s.parties
  }

  /** The record is what `q` is now if its party has arrived, and what it was before otherwise. */
  predicate RecordOkay(base: Network, s: Network, g: Progress, p: PeerId, q: PeerId)
    requires p in s.nodes && q in s.nodes[p].peers
    requires q in s.nodes && q in base.nodes && p in base.nodes[q].peers
  {
    s.nodes[p].peers[q].party.Identity() ==
    if Arrived(base, s, g, p, q) then s.nodes[q].self.Identity() else base.nodes[q].self.Identity()
  }

  /** The network a reshare starts from. */
  ghost predicate Base(base: Network) {
    && FullMesh(base)
    && forall p, q :: p in base.nodes && q in base.nodes[p].peers ==>
         base.nodes[p].peers[q].link in base.links && base.links[base.nodes[p].peers[q].link].Joins(p, q)
  }

  predicate LostOk(base: Network, g: Progress, pair: (PeerId, PeerId)) {
    pair.1 in g.done && pair.1 in base.nodes && pair.0 in base.nodes[pair.1].peers
  }

  ghost predicate RotationInvariant(base: Network, s: Network, g: Progress) {
    && s.nodes.Keys == base.nodes.Keys && s.links.Keys == base.links.Keys
    && (forall l :: l in s.links ==> s.links[l] == base.links[l])
    && (forall p :: p in s.nodes ==>
          SamePeers(base.nodes[p], s.nodes[p]) && SelfOk(base.nodes[p].self, s.nodes[p].self, p in g.done))
    && (forall m :: m in s.parties ==> MessageOk(base, s, g, m))
    && (forall pair :: pair in g.lost ==> LostOk(base, g, pair))
    && (forall p, q :: p in s.nodes && q in s.nodes && p != q && q in s.nodes[p].peers && p in base.nodes[q].peers ==>
          RecordOkay(base, s, g, p, q))
  }

  lemma PeersStay(s: Network, step: Step, p: PeerId)
    requires Enabled(s, step) && IsReshareStep(step) && p in s.nodes
    ensures SamePeers(s.nodes[p], Apply(s, step).nodes[p])
    ensures Apply(s, step).links == s.links
  {
    var n, n' := s.nodes[p], Apply(s, step).nodes[p];
    if Actor(s, step) != p || !ChangesPeers(step) {
      PeersUntouched(s, step, p);
    } else if step.DeliverParty? {
      assert n' == RecordParty(n, s.links[step.msg.link].Other(p), step.msg.party);
    } else {
      assert n'.peers == MarkShares(n.peers);
    }
  }

  lemma SelfStays(s: Network, step: Step, q: PeerId)
    requires Enabled(s, step) && IsReshareStep(step) && q in s.nodes
    requires !(step.EndReshare? && step.node == q)
    ensures Apply(s, step).nodes[q].self == s.nodes[q].self
  {
  }

  lemma SelfRotates(base: Network, s: Network, g: Progress, step: Step, p: PeerId)
    requires Enabled(s, step) && IsReshareStep(step) && (step.EndReshare? ==> step.node !in g.done)
    requires p in s.nodes && p in base.nodes && SelfOk(base.nodes[p].self, s.nodes[p].self, p in g.done)
    ensures SelfOk(base.nodes[p].self, Apply(s, step).nodes[p].self, p in After(base.links, g, step).done)
  {
    if step.EndReshare? && step.node == p {
      assert Apply(s, step).nodes[p].self == Rotate(s.nodes[p].self, step.freshKey).(index := step.index);
    } else {
      SelfStays(s, step, p);
    }
  }

  lemma IntroducedOnce(peers: map<PeerId, Record>, self: Party, m: PartyMsg)
    ensures Introductions(peers, self)[m] <= 1
  {
    var introduced := set q | q in peers :: PartyMsg(peers[q].link, q, self);
    assert Introductions(peers, self) == multiset(introduced);
  }

  /** The messages a node sends at its end are what the pair's one message is from then on. */
  lemma EndSends(base: Network, s: Network, step: Step, m: PartyMsg)
    requires step.EndReshare? && Enabled(s, step) && step.node in base.nodes
    requires SamePeers(base.nodes[step.node], s.nodes[step.node])
    ensures Apply(s, step).parties ==
            s.parties + Introductions(s.nodes[step.node].peers, Apply(s, step).nodes[step.node].self)
    ensures m in Introductions(s.nodes[step.node].peers, Apply(s, step).nodes[step.node].self) <==>
            m.to in base.nodes[step.node].peers && m == PartyFor(base, Apply(s, step), m.to, step.node)
  {
    IntroductionsMember(s.nodes[step.node].peers, Apply(s, step).nodes[step.node].self, m);
  }

  lemma EndKeepsMessage(base: Network, s: Network, g: Progress, step: Step, m: PartyMsg)
    requires step.EndReshare? && Enabled(s, step) && Base(base)
    requires step.node in base.nodes && step.node !in g.done
    requires forall pair :: pair in g.lost ==> LostOk(base, g, pair)
    requires SamePeers(base.nodes[step.node], s.nodes[step.node])
    requires m in s.parties ==> MessageOk(base, s, g, m)
    requires m in Apply(s, step).parties
    ensures MessageOk(base, Apply(s, step), After(base.links, g, step), m)
  {
    var q := step.node;
    EndSends(base, s, step, m);
    IntroducedOnce(s.nodes[q].peers, Apply(s, step).nodes[q].self, m);
    if m in s.parties {
      assert base.links[m.link].Other(m.to) != q;
    }
  }

  lemma MessageStays(base: Network, s: Network, g: Progress, step: Step, m: PartyMsg)
    requires Enabled(s, step) && IsReshareStep(step) && !step.EndReshare?
    requires m in s.parties ==> MessageOk(base, s, g, m)
    requires step.LoseParty? ==> MessageOk(base, s, g, step.msg)
    requires m in Apply(s, step).parties
    ensures MessageOk(base, Apply(s, step), After(base.links, g, step), m)
  {
    assert m in s.parties;
    SelfStays(s, step, base.links[m.link].Other(m.to));
    if step.LoseParty? {
      assert step.msg != m;
    }
  }

  /** Two nodes are the ends of a link in one way only. */
  lemma OneSender(base: Network, p: PeerId, q: PeerId, r: PeerId)
    requires Base(base) && p in base.nodes && q in base.nodes && r in base.nodes && p != q && p != r
    requires base.nodes[q].peers[p].link == base.nodes[r].peers[p].link
    ensures q == r
  {
  }

  /** What the steps below may assume about a pair of nodes. */
  ghost predicate Pair(base: Network, s: Network, p: PeerId, q: PeerId) {
    && Base(base) && p != q && p in base.nodes && q in base.nodes && p in s.nodes && q in s.nodes
    && p in base.nodes[q].peers && q in base.nodes[p].peers && q in s.nodes[p].peers
  }

  lemma BeginKeepsRecord(base: Network, s: Network, g: Progress, a: PeerId, p: PeerId, q: PeerId)
    requires Enabled(s, BeginSession(a)) && Pair(base, s, p, q) && RecordOkay(base, s, g, p, q)
    ensures q in Apply(s, BeginSession(a)).nodes[p].peers && RecordOkay(base, Apply(s, BeginSession(a)), g, p, q)
  {
  }

  /** A node's end turns what it sends into messages in flight, and touches no other pair. */
  lemma EndKeepsRecord(base: Network, s: Network, g: Progress, step: Step, p: PeerId, q: PeerId)
    requires step.EndReshare? && Enabled(s, step) && Pair(base, s, p, q) && RecordOkay(base, s, g, p, q)
    requires step.node in base.nodes && step.node !in g.done
    requires SamePeers(base.nodes[step.node], s.nodes[step.node])
    ensures q in Apply(s, step).nodes[p].peers
    ensures RecordOkay(base, Apply(s, step), After(base.links, g, step), p, q)
  {
    var s', g' := Apply(s, step), After(base.links, g, step);
    EntryAfterEnd(s, step, p, q);
    EndSends(base, s, step, PartyFor(base, s', p, q));
    if step.node == q {
      assert !Arrived(base, s', g', p, q) && !Arrived(base, s, g, p, q);
    } else {
      SelfStays(s, step, q);
      if step.node != p && base.nodes[q].peers[p].link == base.nodes[step.node].peers[p].link {
        OneSender(base, p, q, step.node);
      }
      assert Arrived(base, s', g', p, q) <==> Arrived(base, s, g, p, q);
    }
  }

  lemma EntryAfterEnd(s: Network, step: Step, p: PeerId, q: PeerId)
    requires step.EndReshare? && Enabled(s, step) && p in s.nodes && q in s.nodes[p].peers
    ensures q in Apply(s, step).nodes[p].peers
    ensures Apply(s, step).nodes[p].peers[q].party.Identity() == s.nodes[p].peers[q].party.Identity()
  {
    PeersStay(s, step, p);
    EntryKept(s, step, p, q);
  }

  /** The pair that a message in flight belongs to. */
  predicate Concerns(base: Network, m: PartyMsg, p: PeerId, q: PeerId) {
    m.link in base.links && m.to == p && base.links[m.link].Other(p) == q
  }

  lemma OneCopy(parties: multiset<PartyMsg>, m: PartyMsg, x: PartyMsg)
    requires m in parties && parties[m] == 1
    ensures x in parties - multiset{m} <==> x in parties && x != m
  {
  }

  /** A message that concerns another pair leaves this one as it is. */
  lemma AnotherPair(base: Network, s: Network, g: Progress, m: PartyMsg, p: PeerId, q: PeerId)
    requires Pair(base, s, p, q) && m in s.parties && MessageOk(base, s, g, m)
    ensures Concerns(base, m, p, q) <==> m == PartyFor(base, s, p, q)
  {
    assert base.links[base.nodes[q].peers[p].link].Joins(q, p);
  }

  lemma DeliveryKeepsRecord(base: Network, s: Network, g: Progress, m: PartyMsg, p: PeerId, q: PeerId)
    requires Enabled(s, DeliverParty(m)) && Pair(base, s, p, q) && RecordOkay(base, s, g, p, q)
    requires MessageOk(base, s, g, m) && s.links[m.link] == base.links[m.link]
    ensures q in Apply(s, DeliverParty(m)).nodes[p].peers
    ensures RecordOkay(base, Apply(s, DeliverParty(m)), g, p, q)
  {
    var s' := Apply(s, DeliverParty(m));
    AnotherPair(base, s, g, m, p, q);
    SelfStays(s, DeliverParty(m), q);
    OneCopy(s.parties, m, PartyFor(base, s, p, q));
    if m.to == p {
      assert s'.nodes[p] == RecordParty(s.nodes[p], s.links[m.link].Other(p), m.party);
    }
  }

  lemma LossKeepsRecord(base: Network, s: Network, g: Progress, m: PartyMsg, p: PeerId, q: PeerId)
    requires Enabled(s, LoseParty(m)) && Pair(base, s, p, q) && RecordOkay(base, s, g, p, q)
    requires MessageOk(base, s, g, m)
    ensures q in Apply(s, LoseParty(m)).nodes[p].peers
    ensures RecordOkay(base, Apply(s, LoseParty(m)), After(base.links, g, LoseParty(m)), p, q)
  {
    AnotherPair(base, s, g, m, p, q);
    OneCopy(s.parties, m, PartyFor(base, s, p, q));
    var s', g' := Apply(s, LoseParty(m)), After(base.links, g, LoseParty(m));
    assert s'.nodes == s.nodes;
    assert (p, q) in g'.lost <==> (p, q) in g.lost || Concerns(base, m, p, q);
    assert Arrived(base, s', g', p, q) <==> Arrived(base, s, g, p, q);
  }

  /** What a step of the run may take from the invariant. */
  ghost predicate StepOk(base: Network, s: Network, g: Progress, step: Step) {
    && Enabled(s, step) && IsReshareStep(step)
    && (step.EndReshare? ==>
          && step.node in base.nodes && step.node !in g.done && SamePeers(base.nodes[step.node], s.nodes[step.node]))
    && (step.DeliverParty? || step.LoseParty? ==> MessageOk(base, s, g, step.msg))
    && (step.DeliverParty? ==> s.links[step.msg.link] == base.links[step.msg.link])
  }

  lemma StepKeepsRecord(base: Network, s: Network, g: Progress, step: Step, p: PeerId, q: PeerId)
    requires Pair(base, s, p, q) && RecordOkay(base, s, g, p, q) && StepOk(base, s, g, step)
    ensures q in Apply(s, step).nodes[p].peers
    ensures RecordOkay(base, Apply(s, step), After(base.links, g, step), p, q)
  {
    match step
    case BeginSession(a) => BeginKeepsRecord(base, s, g, a, p, q);
    case EndReshare(_, _, _) => EndKeepsRecord(base, s, g, step, p, q);
    case DeliverParty(m) => DeliveryKeepsRecord(base, s, g, m, p, q);
    case LoseParty(m) => LossKeepsRecord(base, s, g, m, p, q);
  }

  // ----- The whole run -----

  lemma StepsAreOk(base: Network, s: Network, g: Progress, step: Step)
    requires Enabled(s, step) && IsReshareStep(step) && (step.EndReshare? ==> step.node !in g.done)
    requires RotationInvariant(base, s, g)
    ensures StepOk(base, s, g, step)
  {
  }

  lemma StepKeepsMessages(base: Network, s: Network, g: Progress, step: Step)
    requires Base(base) && StepOk(base, s, g, step)
    requires forall m :: m in s.parties ==> MessageOk(base, s, g, m)
    requires forall pair :: pair in g.lost ==> LostOk(base, g, pair)
    ensures forall m :: m in Apply(s, step).parties ==> MessageOk(base, Apply(s, step), After(base.links, g, step), m)
  {
    forall m | m in Apply(s, step).parties
      ensures MessageOk(base, Apply(s, step), After(base.links, g, step), m)
    {
      if step.EndReshare? {
        EndKeepsMessage(base, s, g, step, m);
      } else {
        MessageStays(base, s, g, step, m);
      }
    }
  }

  /** No step of a reshare opens a link or takes one away. */
  lemma LinksUntouched(s: Network, step: Step)
    requires Enabled(s, step) && IsReshareStep(step)
    ensures Apply(s, step).links == s.links && Apply(s, step).nodes.Keys == s.nodes.Keys
  {
  }

  lemma SelfAndPeersStay(base: Network, s: Network, g: Progress, step: Step, p: PeerId)
    requires Enabled(s, step) && IsReshareStep(step) && (step.EndReshare? ==> step.node !in g.done)
    requires p in s.nodes && p in base.nodes && SamePeers(base.nodes[p], s.nodes[p])
    requires SelfOk(base.nodes[p].self, s.nodes[p].self, p in g.done)
    ensures SamePeers(base.nodes[p], Apply(s, step).nodes[p])
    ensures SelfOk(base.nodes[p].self, Apply(s, step).nodes[p].self, p in After(base.links, g, step).done)
  {
    PeersStay(s, step, p);
    SelfRotates(base, s, g, step, p);
  }

  lemma StepKeepsSelvesAndPeers(base: Network, s: Network, g: Progress, step: Step)
    requires Enabled(s, step) && IsReshareStep(step) && (step.EndReshare? ==> step.node !in g.done)
    requires s.nodes.Keys == base.nodes.Keys
    requires forall p :: p in s.nodes ==>
      SamePeers(base.nodes[p], s.nodes[p]) && SelfOk(base.nodes[p].self, s.nodes[p].self, p in g.done)
    ensures forall p :: p in s.nodes ==>
      && SamePeers(base.nodes[p], Apply(s, step).nodes[p])
      && SelfOk(base.nodes[p].self, Apply(s, step).nodes[p].self, p in After(base.links, g, step).done)
  {
    forall p | p in s.nodes
      ensures SamePeers(base.nodes[p], Apply(s, step).nodes[p])
      ensures SelfOk(base.nodes[p].self, Apply(s, step).nodes[p].self, p in After(base.links, g, step).done)
    {
      SelfAndPeersStay(base, s, g, step, p);
    }
  }

  lemma StepKeepsRecords(base: Network, s: Network, g: Progress, step: Step)
    requires Base(base) && StepOk(base, s, g, step) && s.nodes.Keys == base.nodes.Keys
    requires forall p, q ::
      p in s.nodes && q in s.nodes && p != q && q in s.nodes[p].peers && p in base.nodes[q].peers ==>
        RecordOkay(base, s, g, p, q)
    ensures var s' := Apply(s, step);
            forall p, q ::
              p in s'.nodes && q in s'.nodes && p != q && q in s'.nodes[p].peers && p in base.nodes[q].peers ==>
                RecordOkay(base, s', After(base.links, g, step), p, q)
  {
    var s' := Apply(s, step);
    forall p, q | p in s'.nodes && q in s'.nodes && p != q && q in s'.nodes[p].peers && p in base.nodes[q].peers
      ensures RecordOkay(base, s', After(base.links, g, step), p, q)
    {
      PeersStay(s, step, p);
      assert Pair(base, s, p, q);
      StepKeepsRecord(base, s, g, step, p, q);
    }
  }

  lemma LostWereDone(base: Network, s: Network, g: Progress, step: Step)
    requires StepOk(base, s, g, step) && forall pair :: pair in g.lost ==> LostOk(base, g, pair)
    ensures forall pair :: pair in After(base.links, g, step).lost ==> LostOk(base, After(base.links, g, step), pair)
  {
  }

  lemma StepKeepsRotation(base: Network, s: Network, g: Progress, step: Step)
    requires Enabled(s, step) && IsReshareStep(step) && (step.EndReshare? ==> step.node !in g.done)
    requires Base(base) && RotationInvariant(base, s, g)
    ensures RotationInvariant(base, Apply(s, step), After(base.links, g, step))
  {
    StepsAreOk(base, s, g, step);
    StepKeepsMessages(base, s, g, step);
    LinksUntouched(s, step);
    StepKeepsSelvesAndPeers(base, s, g, step);
    StepKeepsRecords(base, s, g, step);
    LostWereDone(base, s, g, step);
  }

  lemma {:induction false} RotationInRun(base: Network, s: Network, g: Progress, steps: seq<Step>)
    requires ValidRun(s, steps) && ReshareRun(base.links, g, steps)
    requires Base(base) && RotationInvariant(base, s, g)
    ensures RotationInvariant(base, RunEnd(s, steps), AtEnd(base.links, g, steps))
    decreases |steps|
  {
    if steps != [] {
      StepKeepsRotation(base, s, g, steps[0]);
      RotationInRun(base, Apply(s, steps[0]), After(base.links, g, steps[0]), steps[1..]);
    }
  }

  /** A reshare of all nodes of a quiet full mesh, until nothing is in flight. */
  ghost predicate Reshare(s: Network, steps: seq<Step>) {
    && Quiescent(s) && TableInvariant(s) && FullMesh(s) && ExactDirectories(s)
    && ValidRun(s, steps) && ReshareRun(s.links, BEGUN, steps)
    && AtEnd(s.links, BEGUN, steps).done == s.nodes.Keys
    && Quiescent(RunEnd(s, steps))
  }

  /** The pairs (p, q) for which `p` dropped the party that `q` sent at its end. */
  function Lost(s: Network, steps: seq<Step>): set<(PeerId, PeerId)> {
    AtEnd(s.links, BEGUN, steps).lost
  }

  /** Every node's party key is the new key it had before. */
  ghost predicate Rotated(s: Network, s': Network) {
    && s'.nodes.Keys == s.nodes.Keys
    && forall p :: p in s.nodes ==>
         s'.nodes[p].self.id == s.nodes[p].self.id && s'.nodes[p].self.partyKey == s.nodes[p].self.newPartyKey
  }

  lemma TablesGiveBase(s: Network)
    requires TableInvariant(s) && FullMesh(s)
    ensures Base(s)
  {
    forall p, q | p in s.nodes && q in s.nodes[p].peers
      ensures s.nodes[p].peers[q].link in s.links && s.links[s.nodes[p].peers[q].link].Joins(p, q)
    {
      assert NodeOk(s.links, s.nodes.Keys, p, s.nodes[p]);
      assert RecordOk(s.links, p, q, s.nodes[p].peers[q]);
    }
  }

  lemma RotationStarts(s: Network)
    requires Quiescent(s) && FullMesh(s) && ExactDirectories(s)
    ensures RotationInvariant(s, s, BEGUN)
  {
    forall p, q | p in s.nodes && q in s.nodes && p != q && q in s.nodes[p].peers && p in s.nodes[q].peers
      ensures RecordOkay(s, s, BEGUN, p, q)
    {
      assert !Arrived(s, s, BEGUN, p, q);
    }
  }

  predicate RecordAfter(s: Network, s': Network, lost: set<(PeerId, PeerId)>, p: PeerId, q: PeerId)
    requires p in s'.nodes && q in s'.nodes[p].peers
  {
    && q in s'.nodes && q in s.nodes
    && s'.nodes[p].peers[q].party.Identity() ==
       if (p, q) in lost then s.nodes[q].self.Identity() else s'.nodes[q].self.Identity()
  }

  ghost predicate RecordsAfter(s: Network, s': Network, lost: set<(PeerId, PeerId)>) {
    forall p, q :: p in s'.nodes && q in s'.nodes[p].peers ==> RecordAfter(s, s', lost, p, q)
  }

  /**
    What a reshare leaves behind, `s'` for `s`: the keys have rotated everywhere; and each record is
    what its peer is now, unless its owner dropped the party that the peer sent at its end, in
    which case it still is what the peer was before.
   */
  ghost predicate Refreshed(s: Network, s': Network, lost: set<(PeerId, PeerId)>) {
    && FullMesh(s) && FullMesh(s') && Rotated(s, s')
    && (forall pair :: pair in lost ==> pair.0 in s.nodes && pair.1 in s.nodes && pair.0 != pair.1)
    && RecordsAfter(s, s', lost)
  }

  lemma RecordAtEnd(base: Network, s: Network, g: Progress, p: PeerId, q: PeerId)
    requires p in s.nodes && q in s.nodes[p].peers && q in s.nodes && q in base.nodes && p in base.nodes[q].peers
    requires RecordOkay(base, s, g, p, q) && s.parties == multiset{} && q in g.done
    ensures RecordAfter(base, s, g.lost, p, q)
  {
  }

  lemma MeshAtEnd(base: Network, s: Network, g: Progress)
    requires RotationInvariant(base, s, g) && FullMesh(base) && g.done == base.nodes.Keys
    ensures FullMesh(s) && Rotated(base, s)
  {
    forall p | p in s.nodes ensures s.nodes[p].peers.Keys == s.nodes.Keys - {p} {
      assert SamePeers(base.nodes[p], s.nodes[p]);
    }
  }

  lemma LostAreNodes(base: Network, s: Network, g: Progress)
    requires RotationInvariant(base, s, g) && FullMesh(base) && g.done == base.nodes.Keys
    ensures forall pair :: pair in g.lost ==> pair.0 in base.nodes && pair.1 in base.nodes && pair.0 != pair.1
  {
    forall pair | pair in g.lost ensures pair.0 in base.nodes && pair.1 in base.nodes && pair.0 != pair.1 {
      assert LostOk(base, g, pair);
    }
  }

  lemma RecordsAtEnd(base: Network, s: Network, g: Progress)
    requires RotationInvariant(base, s, g) && FullMesh(base) && Quiescent(s) && g.done == base.nodes.Keys
    ensures RecordsAfter(base, s, g.lost)
  {
    MeshAtEnd(base, s, g);
    forall p, q | p in s.nodes && q in s.nodes[p].peers
      ensures RecordAfter(base, s, g.lost, p, q)
    {
      assert q in s.nodes && p != q && q in base.nodes && p in base.nodes[q].peers;
      RecordAtEnd(base, s, g, p, q);
    }
  }

  lemma RotationEnds(base: Network, s: Network, g: Progress)
    requires RotationInvariant(base, s, g) && FullMesh(base) && Quiescent(s) && g.done == base.nodes.Keys
    ensures Refreshed(base, s, g.lost)
  {
    MeshAtEnd(base, s, g);
    LostAreNodes(base, s, g);
    RecordsAtEnd(base, s, g);
  }

  /** Every run of a reshare leaves that behind, whatever was dropped. */
  lemma ReshareRefreshes(s: Network, steps: seq<Step>)
    requires Reshare(s, steps)
    ensures Refreshed(s, RunEnd(s, steps), Lost(s, steps)) && TableInvariant(RunEnd(s, steps))
  {
    TablesGiveBase(s);
    RotationStarts(s);
    RotationInRun(s, s, BEGUN, steps);
    RotationEnds(s, RunEnd(s, steps), AtEnd(s.links, BEGUN, steps));
    TablesInEveryRun(s, steps);
  }
}
