/**
  The membership protocol of peer.go as a step system over a whole network.

  A handler that has to open a stream holds the busy flag over three steps (dial, stream
  open, launch), and other nodes may act in between. Accepting a connection and recording
  a party never block, so each is one step. A message that was sent is delivered, or lost,
  in any order.
 */
module Gossip {
  import opened Basics
  import opened Membership

  /** A stream from `opener` to `acceptor`; an end is up once that node has launched it. */
  datatype Link = Link(opener: PeerId, acceptor: PeerId, openerUp: bool, acceptorUp: bool)
  {
    predicate Joins(p: PeerId, q: PeerId) {
      (p == opener && q == acceptor) || (p == acceptor && q == opener)
    }

    predicate Up(p: PeerId) {
      if p == opener then openerUp else acceptorUp
    }

    function Other(p: PeerId): PeerId {
      if p == opener then acceptor else opener
    }

    function Raise(p: PeerId): Link {
      if p == opener then this.(openerUp := true) else this.(acceptorUp := true)
    }
  }

  /** A NewPeerJoined message on its way to `to`. */
  datatype Joined = Joined(to: PeerId, who: PeerId)

  /** A PartyId message on its way to `to` on one particular link. */
  datatype PartyMsg = PartyMsg(link: nat, to: PeerId, party: Party)

  datatype Network = Network(
    nodes: map<PeerId, NodeState>,
    links: map<nat, Link>,
    conns: set<nat>,                // opened, and not yet taken from the acceptor's channel
    joined: multiset<Joined>,
    parties: multiset<PartyMsg>)

  datatype Step =
    | BeginAdd(node: PeerId, who: PeerId)
    | DeliverJoined(node: PeerId, who: PeerId)
    | Dial(node: PeerId, link: nat)
    | DialFails(node: PeerId)
    | Launch(node: PeerId)
    | Accept(link: nat)
    | DeliverParty(msg: PartyMsg)
    | LoseJoined(node: PeerId, who: PeerId)
    | LoseParty(msg: PartyMsg)
    | LoseConnection(link: nat)
    | DeletePeer(node: PeerId, who: PeerId)
    | BeginSession(node: PeerId)
    | EndSession(node: PeerId, holds: bool, marks: bool, index: int)
    | EndReshare(node: PeerId, index: int, freshKey: int)

  /** One copy of the announcement of `who` for each destination. */
  function Announcements(to: set<PeerId>, who: PeerId): multiset<Joined> {
    multiset(set q | q in to :: Joined(q, who))
  }

  /** sendMyPartyToPeers: one PartyId for every current peer, on that peer's latest link. */
  function Introductions(peers: map<PeerId, Record>, self: Party): multiset<PartyMsg> {
    multiset(set q | q in peers :: PartyMsg(peers[q].link, q, self))
  }

  predicate IsIdle(s: Network, p: PeerId) {
    p in s.nodes && s.nodes[p].op.Idle?
  }

  /** When a step can be taken. */
  predicate Guard(s: Network, step: Step) {
    match step
    case BeginAdd(p, q) => IsIdle(s, p) && q in s.nodes
    case DeliverJoined(p, x) => Joined(p, x) in s.joined && IsIdle(s, p)
    case Dial(p, l) => p in s.nodes && s.nodes[p].op.Dialing? && l !in s.links
    case DialFails(p) => p in s.nodes && s.nodes[p].op.Dialing?
    case Launch(p) => p in s.nodes && s.nodes[p].op.Launching? && s.nodes[p].op.link in s.links
    case Accept(l) => l in s.conns && l in s.links && IsIdle(s, s.links[l].acceptor)
    case DeliverParty(m) =>
      m in s.parties && IsIdle(s, m.to) && m.link in s.links && s.links[m.link].Up(m.to)
    case LoseJoined(p, x) => Joined(p, x) in s.joined
    case LoseParty(m) => m in s.parties
    case LoseConnection(l) => l in s.conns
    case DeletePeer(p, q) => p in s.nodes && q in s.nodes[p].peers
    case BeginSession(p) => IsIdle(s, p)
    case EndSession(p, holds, marks, _) => p in s.nodes && s.nodes[p].op.InSession? && (marks ==> holds)
    case EndReshare(p, _, _) => p in s.nodes && s.nodes[p].op.InSession?
  }

  /** The links only grow: none disappears and none changes its ends. */
  ghost predicate LinksGrow(links: map<nat, Link>, links': map<nat, Link>) {
    forall l :: l in links ==>
      l in links' && links'[l].opener == links[l].opener && links'[l].acceptor == links[l].acceptor
  }

  /** Only `p` changes its state, and the links only grow. */
  ghost predicate ActsAt(s: Network, s': Network, p: PeerId) {
    && s'.nodes.Keys == s.nodes.Keys
    && LinksGrow(s.links, s'.links)
    && forall q :: q in s.nodes && q != p ==> s'.nodes[q] == s.nodes[q]
  }

  function SetOp(s: Network, p: PeerId, op: Operation): (s': Network)
    requires p in s.nodes
    ensures ActsAt(s, s', p)
  {
    s.(nodes := s.nodes[p := s.nodes[p].(op := op)])
  }

  /** launchNewPeer at `p`: record the peer, bring this end up, send this node's party. */
  function LaunchAt(s: Network, p: PeerId, l: nat, q: PeerId): (s': Network)
    requires p in s.nodes && l in s.links
    ensures ActsAt(s, s', p)
  {
    s.(nodes := s.nodes[p := LaunchPeer(s.nodes[p], l, q).(op := Idle)],
       links := s.links[l := s.links[l].Raise(p)],
       parties := s.parties + multiset{PartyMsg(l, q, s.nodes[p].self)})
  }

  /** AddPeer up to the point where it starts dialling. */
  function ApplyBeginAdd(s: Network, p: PeerId, q: PeerId): (s': Network)
    requires p in s.nodes
    ensures ActsAt(s, s', p)
  {
    if CheckNewPeer(s.nodes[p], p, q).Some? then s
    else
      SetOp(s, p, Dialing(q)).(joined := s.joined + Announcements(s.nodes[p].peers.Keys, q))
  }

  /** handleNewPeerJoinedMsg: ignores itself and known peers, and does not announce further. */
  function ApplyJoined(s: Network, p: PeerId, x: PeerId): (s': Network)
    requires p in s.nodes
    ensures ActsAt(s, s', p)
  {
    var s1 := s.(joined := s.joined - multiset{Joined(p, x)});
    if x == p || x in s.nodes[p].peers then s1 else SetOp(s1, p, Dialing(x))
  }

  /** connectToNewPeer: a new stream, which the other end has yet to accept. */
  function ApplyDial(s: Network, p: PeerId, l: nat): (s': Network)
    requires p in s.nodes && s.nodes[p].op.Dialing? && l !in s.links
    ensures ActsAt(s, s', p)
  {
    var q := s.nodes[p].op.target;
    SetOp(s, p, Launching(q, l)).(
      links := s.links[l := Link(p, q, false, false)],
      conns := s.conns + {l})
  }

  /** handleNewConnection: announces the opener to the current peers, then launches it. */
  function ApplyAccept(s: Network, l: nat): (s': Network)
    requires l in s.links && s.links[l].acceptor in s.nodes
    ensures ActsAt(s, s', s.links[l].acceptor)
  {
    var p, q := s.links[l].acceptor, s.links[l].opener;
    LaunchAt(s, p, l, q).(
      conns := s.conns - {l},
      joined := s.joined + Announcements(s.nodes[p].peers.Keys, q))
  }

  /** handlePartyId: the sender is the remote end of the link, whatever the message says. */
  function ApplyParty(s: Network, m: PartyMsg): (s': Network)
    requires m.to in s.nodes && m.link in s.links
    ensures ActsAt(s, s', m.to)
  {
    s.(parties := s.parties - multiset{m},
       nodes := s.nodes[m.to := RecordParty(s.nodes[m.to], s.links[m.link].Other(m.to), m.party)])
  }

  /**
    The end of a session that leaves the keys alone. The signer holds a share afterwards if it
    has taken one, even when the session then fails; only doneKeyGen marks the peers.
   */
  function ApplyEndSession(s: Network, p: PeerId, holds: bool, marks: bool, index: int): (s': Network)
    requires p in s.nodes
    ensures ActsAt(s, s', p)
  {
    var n := s.nodes[p];
    s.(nodes := s.nodes[p := NodeState(
      n.self.(index := index, haveSharedKey := holds || n.self.haveSharedKey),
      if marks then MarkShares(n.peers) else n.peers,
      Idle)])
  }

  /** The end of a reshare: rotated keys, every peer marked, the new party sent to all. */
  function ApplyEndReshare(s: Network, p: PeerId, index: int, freshKey: int): (s': Network)
    requires p in s.nodes
    ensures ActsAt(s, s', p)
  {
    var n := s.nodes[p];
    var self := Rotate(n.self, freshKey).(index := index);
    s.(nodes := s.nodes[p := NodeState(self, MarkShares(n.peers), Idle)],
       parties := s.parties + Introductions(n.peers, self))
  }

  /** The node that takes the step; for a loss, the node the lost message was meant for. */
  function Actor(s: Network, step: Step): PeerId
    requires Guard(s, step)
  {
    match step
    case Accept(l) => s.links[l].acceptor
    case DeliverParty(m) => m.to
    case LoseParty(m) => m.to
    case LoseConnection(l) => if l in s.links then s.links[l].acceptor else PeerId("")
    case _ => step.node
  }

  function Effect(s: Network, step: Step): (s': Network)
    requires Guard(s, step)
    ensures ActsAt(s, s', Actor(s, step))
  {
    match step
    case BeginAdd(p, q) => ApplyBeginAdd(s, p, q)
    case DeliverJoined(p, x) => ApplyJoined(s, p, x)
    case Dial(p, l) => ApplyDial(s, p, l)
    case DialFails(p) => SetOp(s, p, Idle)
    case Launch(p) => LaunchAt(s, p, s.nodes[p].op.link, s.nodes[p].op.target)
    case Accept(l) => ApplyAccept(s, l)
    case DeliverParty(m) => ApplyParty(s, m)
    case LoseJoined(p, x) => s.(joined := s.joined - multiset{Joined(p, x)})
    case LoseParty(m) => s.(parties := s.parties - multiset{m})
    case LoseConnection(l) => s.(conns := s.conns - {l})
    case DeletePeer(p, q) => s.(nodes := s.nodes[p := RemovePeer(s.nodes[p], q)])
    case BeginSession(p) => SetOp(s, p, InSession)
    case EndSession(p, holds, marks, index) => ApplyEndSession(s, p, holds, marks, index)
    case EndReshare(p, index, freshKey) => ApplyEndReshare(s, p, index, freshKey)
  }

  /** The state after a step, if it can be taken. */
  function Next(s: Network, step: Step): Option<Network> {
    if Guard(s, step) then Some(Effect(s, step)) else None
  }

  predicate Enabled(s: Network, step: Step) {
    Next(s, step).Some?
  }

  function Apply(s: Network, step: Step): (s': Network)
    requires Enabled(s, step)
    ensures ActsAt(s, s', Actor(s, step))
  {
    Next(s, step).value
  }

  predicate ChangesPeers(step: Step) {
    || step.Launch? || step.Accept? || step.DeliverParty?
    || step.DeletePeer? || step.EndSession? || step.EndReshare?
  }

  lemma OthersUntouched(s: Network, step: Step, p: PeerId)
    requires Enabled(s, step) && p in s.nodes && Actor(s, step) != p
    ensures Apply(s, step).nodes[p] == s.nodes[p]
  {
  }

  lemma CallLeavesPeers(s: Network, p: PeerId, q: PeerId, r: PeerId)
    requires p in s.nodes && r in s.nodes
    ensures ApplyBeginAdd(s, p, q).nodes[r].peers == s.nodes[r].peers
    ensures ApplyJoined(s, p, q).nodes[r].peers == s.nodes[r].peers
  {
  }

  lemma QuietLeavesPeers(s: Network, step: Step, p: PeerId)
    requires Enabled(s, step) && p in s.nodes && !ChangesPeers(step)
    ensures Apply(s, step).nodes[p].peers == s.nodes[p].peers
  {
    match step
    case BeginAdd(a, q) => CallLeavesPeers(s, a, q, p);
    case DeliverJoined(a, x) => CallLeavesPeers(s, a, x, p);
    case _ =>
  }

  lemma PeersUntouched(s: Network, step: Step, p: PeerId)
    requires Enabled(s, step) && p in s.nodes
    requires !ChangesPeers(step) || Actor(s, step) != p
    ensures Apply(s, step).nodes[p].peers == s.nodes[p].peers
  {
    if ChangesPeers(step) {
      OthersUntouched(s, step, p);
    } else {
      QuietLeavesPeers(s, step, p);
    }
  }

  /** A run: every step is enabled where it is taken. */
  predicate ValidRun(s: Network, steps: seq<Step>)
    decreases |steps|
  {
    steps == [] || (Enabled(s, steps[0]) && ValidRun(Apply(s, steps[0]), steps[1..]))
  }

  function RunEnd(s: Network, steps: seq<Step>): Network
    requires ValidRun(s, steps)
    decreases |steps|
  {
    if steps == [] then s else RunEnd(Apply(s, steps[0]), steps[1..])
  }

  lemma FirstStep(s: Network, step: Step, rest: seq<Step>)
    requires Enabled(s, step) && ValidRun(Apply(s, step), rest)
    ensures ValidRun(s, [step] + rest) && RunEnd(s, [step] + rest) == RunEnd(Apply(s, step), rest)
  {
  }

  lemma OneStep(s: Network, step: Step)
    requires Enabled(s, step)
    ensures ValidRun(s, [step]) && RunEnd(s, [step]) == Apply(s, step)
  {
    var s' := Apply(s, step);
    assert ValidRun(s', []) && RunEnd(s', []) == s';
    FirstStep(s, step, []);
    assert [step] + [] == [step];
  }

  lemma ConsAppend<T>(first: seq<T>, second: seq<T>)
    ensures first == [] ==> first + second == second
    ensures first != [] ==> first + second == [first[0]] + (first[1..] + second)
  {
  }

  lemma {:induction false} RunsCompose(s: Network, first: seq<Step>, second: seq<Step>)
    requires ValidRun(s, first) && ValidRun(RunEnd(s, first), second)
    ensures ValidRun(s, first + second)
    ensures RunEnd(s, first + second) == RunEnd(RunEnd(s, first), second)
    decreases |first|
  {
    ConsAppend(first, second);
    if first != [] {
      RunsCompose(Apply(s, first[0]), first[1..], second);
      FirstStep(s, first[0], first[1..] + second);
    }
  }

  /** Nothing is in flight and no node is busy. */
  ghost predicate Quiescent(s: Network) {
    && s.joined == multiset{}
    && s.parties == multiset{}
    && s.conns == {}
    && forall p :: p in s.nodes ==> s.nodes[p].op.Idle?
  }

  /** The steps that carry out what has already been started, with nothing lost. */
  predicate IsDelivery(step: Step) {
    step.DeliverJoined? || step.Dial? || step.Launch? || step.Accept? || step.DeliverParty?
  }

  predicate IsLoss(step: Step) {
    step.LoseJoined? || step.LoseParty? || step.LoseConnection?
  }

  predicate AllDeliveries(steps: seq<Step>) {
    forall k :: 0 <= k < |steps| ==> IsDelivery(steps[k])
  }

  lemma DeliveriesAppend(first: seq<Step>, second: seq<Step>)
    requires AllDeliveries(first) && AllDeliveries(second)
    ensures AllDeliveries(first + second)
  {
  }

  lemma IntroductionsMember(peers: map<PeerId, Record>, self: Party, m: PartyMsg)
    ensures m in Introductions(peers, self) <==>
            m.to in peers && m.link == peers[m.to].link && m.party == self
  {
  }

  lemma AnnouncementsMember(to: set<PeerId>, who: PeerId, m: Joined)
    ensures m in Announcements(to, who) <==> m.to in to && m.who == who
  {
  }
}
