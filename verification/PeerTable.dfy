/** What holds of every node's peer table in every run, with losses, deletions and duplicate links. */
module PeerTable {
  import opened Basics
  import opened Membership
  import opened Gossip

  /** Unset apart from the share flag, or carrying the peer's own ID. */
  predicate PartyFits(party: Party, q: PeerId) {
    party.(haveSharedKey := false) == BLANK || party.id == q
  }

  predicate RecordOk(links: map<nat, Link>, p: PeerId, q: PeerId, r: Record) {
    && r.remote == q
    && r.link in links
    && links[r.link].Joins(p, q)
    && PartyFits(r.party, q)
  }

  predicate OpOk(links: map<nat, Link>, all: set<PeerId>, p: PeerId, op: Operation) {
    match op
    case Dialing(q) => q in all && q != p
    case Launching(q, l) =>
      q in all && q != p && l in links && links[l].opener == p && links[l].acceptor == q
    case _ => true
  }

  predicate NodeOk(links: map<nat, Link>, all: set<PeerId>, p: PeerId, n: NodeState) {
    && n.self.id == p
    && p !in n.peers
    && n.peers.Keys <= all
    && (forall q :: q in n.peers ==> RecordOk(links, p, q, n.peers[q]))
    && OpOk(links, all, p, n.op)
  }

  predicate LinkOk(all: set<PeerId>, l: Link) {
    l.opener != l.acceptor && l.opener in all && l.acceptor in all
  }

  predicate PartyMsgOk(links: map<nat, Link>, m: PartyMsg) {
    && m.link in links
    && (m.to == links[m.link].opener || m.to == links[m.link].acceptor)
    && m.party.id == links[m.link].Other(m.to)
  }

  ghost predicate TableInvariant(s: Network) {
    && (forall p :: p in s.nodes ==> NodeOk(s.links, s.nodes.Keys, p, s.nodes[p]))
    && (forall l :: l in s.links ==> LinkOk(s.nodes.Keys, s.links[l]))
    && (forall l :: l in s.conns ==> l in s.links)
    && (forall m :: m in s.joined ==> m.to in s.nodes && m.who in s.nodes)
    && (forall m :: m in s.parties ==> PartyMsgOk(s.links, m))
  }

  /** Freshly created nodes: no peers, no messages, each party carrying its host's ID. */
  ghost predicate Fresh(s: Network) {
    && Quiescent(s)
    && s.links == map[]
    && forall p :: p in s.nodes ==> s.nodes[p].peers == map[] && s.nodes[p].self.id == p
  }

  /** A node's state stays good when links are only added or raised. */
  lemma NodeOkKept(links: map<nat, Link>, links': map<nat, Link>, all: set<PeerId>, p: PeerId, n: NodeState)
    requires NodeOk(links, all, p, n)
    requires LinksGrow(links, links')
    ensures NodeOk(links', all, p, n)
  {
  }

  /** What a step takes from the invariant about the message or connection it consumes. */
  predicate InputOk(s: Network, step: Step)
    requires Enabled(s, step)
  {
    match step
    case DeliverJoined(p, x) => x in s.nodes
    case Accept(l) => LinkOk(s.nodes.Keys, s.links[l])
    case DeliverParty(m) => PartyMsgOk(s.links, m)
    case _ => true
  }

  lemma InputsAreOk(s: Network, step: Step)
    requires Enabled(s, step) && TableInvariant(s)
    ensures InputOk(s, step)
  {
  }

  lemma LaunchKeepsNode(links: map<nat, Link>, all: set<PeerId>, p: PeerId, n: NodeState, l: nat, q: PeerId)
    requires NodeOk(links, all, p, n) && q in all && q != p && l in links && links[l].Joins(p, q)
    ensures NodeOk(links, all, p, LaunchPeer(n, l, q).(op := Idle))
  {
  }

  lemma RecordPartyKeepsNode(links: map<nat, Link>, all: set<PeerId>, p: PeerId, n: NodeState, from: PeerId,
          party: Party)
    requires NodeOk(links, all, p, n) && party.id == from
    ensures NodeOk(links, all, p, RecordParty(n, from, party))
  {
  }

  lemma SmallerTableKeepsNode(links: map<nat, Link>, all: set<PeerId>, p: PeerId, n: NodeState, n': NodeState)
    requires NodeOk(links, all, p, n) && n'.self.id == p && OpOk(links, all, p, n'.op)
    requires n'.peers.Keys <= n.peers.Keys
    requires forall q :: q in n'.peers ==>
               || n'.peers[q] == n.peers[q]
               || n'.peers[q] == n.peers[q].(party := n.peers[q].party.(haveSharedKey := true))
    ensures NodeOk(links, all, p, n')
  {
  }

  /** The steps that neither launch a peer nor record a party leave no new entry behind. */
  lemma QuietStepKeepsNode(s: Network, step: Step, p: PeerId)
    requires Enabled(s, step) && InputOk(s, step)
    requires !step.Launch? && !step.Accept? && !step.DeliverParty?
    requires p in s.nodes && NodeOk(s.links, s.nodes.Keys, p, s.nodes[p])
    ensures var s' := Apply(s, step);
            p in s'.nodes && NodeOk(s'.links, s'.nodes.Keys, p, s'.nodes[p])
  {
    var s' := Apply(s, step);
    NodeOkKept(s.links, s'.links, s.nodes.Keys, p, s.nodes[p]);
    if s'.nodes[p] != s.nodes[p] {
      SmallerTableKeepsNode(s'.links, s.nodes.Keys, p, s.nodes[p], s'.nodes[p]);
    }
  }

  lemma StepKeepsNodes(s: Network, step: Step, p: PeerId)
    requires Enabled(s, step) && InputOk(s, step)
    requires p in s.nodes && NodeOk(s.links, s.nodes.Keys, p, s.nodes[p])
    ensures var s' := Apply(s, step);
            p in s'.nodes && NodeOk(s'.links, s'.nodes.Keys, p, s'.nodes[p])
  {
    var s', all, n := Apply(s, step), s.nodes.Keys, s.nodes[p];
    if step.Launch? || step.Accept? || step.DeliverParty? {
      NodeOkKept(s.links, s'.links, all, p, n);
      if s'.nodes[p] != n {
        match step
        case Launch(_) => LaunchKeepsNode(s'.links, all, p, n, n.op.link, n.op.target);
        case Accept(l) => LaunchKeepsNode(s'.links, all, p, n, l, s.links[l].opener);
        case DeliverParty(m) =>
          RecordPartyKeepsNode(s'.links, all, p, n, s.links[m.link].Other(m.to), m.party);
      }
    } else {
      QuietStepKeepsNode(s, step, p);
    }
  }

  lemma StepKeepsJoined(s: Network, step: Step, m: Joined)
    requires Enabled(s, step) && InputOk(s, step) && m in Apply(s, step).joined
    requires m in s.joined ==> m.to in s.nodes && m.who in s.nodes
    requires forall p :: p in s.nodes ==> s.nodes[p].peers.Keys <= s.nodes.Keys
    ensures m.to in s.nodes && m.who in s.nodes
  {
    if m !in s.joined {
      match step {
        case BeginAdd(p, q) => AnnouncementsMember(s.nodes[p].peers.Keys, q, m);
        case Accept(l) =>
          AnnouncementsMember(s.nodes[s.links[l].acceptor].peers.Keys, s.links[l].opener, m);
        case _ =>
      }
    }
  }

  lemma StepKeepsParties(s: Network, step: Step, m: PartyMsg)
    requires Enabled(s, step) && InputOk(s, step) && m in Apply(s, step).parties
    requires m in s.parties ==> PartyMsgOk(s.links, m)
    requires forall p :: p in s.nodes ==> NodeOk(s.links, s.nodes.Keys, p, s.nodes[p])
    ensures PartyMsgOk(Apply(s, step).links, m)
  {
    if m !in s.parties {
      match step {
        case Launch(p) => assert NodeOk(s.links, s.nodes.Keys, p, s.nodes[p]);
        case Accept(l) => assert NodeOk(s.links, s.nodes.Keys, s.links[l].acceptor, s.nodes[s.links[l].acceptor]);
        case EndReshare(p, index, freshKey) =>
          var self := Rotate(s.nodes[p].self, freshKey).(index := index);
          IntroductionsMember(s.nodes[p].peers, self, m);
          assert NodeOk(s.links, s.nodes.Keys, p, s.nodes[p]);
          assert RecordOk(s.links, p, m.to, s.nodes[p].peers[m.to]);
        case _ =>
      }
    }
  }

  lemma LinkStaysOk(s: Network, step: Step, l: nat)
    requires Enabled(s, step) && l in Apply(s, step).links
    requires step.Dial? ==> OpOk(s.links, s.nodes.Keys, step.node, s.nodes[step.node].op)
    requires l in s.links ==> LinkOk(s.nodes.Keys, s.links[l])
    ensures LinkOk(s.nodes.Keys, Apply(s, step).links[l])
  {
  }

  lemma StepKeepsLinks(s: Network, step: Step)
    requires Enabled(s, step)
    requires forall p :: p in s.nodes ==> OpOk(s.links, s.nodes.Keys, p, s.nodes[p].op)
    requires forall l :: l in s.links ==> LinkOk(s.nodes.Keys, s.links[l])
    requires forall l :: l in s.conns ==> l in s.links
    ensures var s' := Apply(s, step);
            && (forall l :: l in s'.links ==> LinkOk(s'.nodes.Keys, s'.links[l]))
            && (forall l :: l in s'.conns ==> l in s'.links)
  {
    forall l | l in Apply(s, step).links ensures LinkOk(s.nodes.Keys, Apply(s, step).links[l]) {
      LinkStaysOk(s, step, l);
    }
  }

  lemma StepKeepsTables(s: Network, step: Step)
    requires Enabled(s, step) && TableInvariant(s)
    ensures TableInvariant(Apply(s, step))
  {
    var s' := Apply(s, step);
    InputsAreOk(s, step);
    StepKeepsLinks(s, step);
    forall m | m in s'.joined
      ensures m.to in s'.nodes && m.who in s'.nodes
    {
      StepKeepsJoined(s, step, m);
    }
    forall m | m in s'.parties
      ensures PartyMsgOk(s'.links, m)
    {
      StepKeepsParties(s, step, m);
    }
    forall p | p in s'.nodes
      ensures NodeOk(s'.links, s'.nodes.Keys, p, s'.nodes[p])
    {
      StepKeepsNodes(s, step, p);
    }
  }

  /** The invariant holds in every state any run from fresh nodes can reach. */
  lemma {:induction false} TablesInEveryRun(s: Network, steps: seq<Step>)
    requires ValidRun(s, steps) && TableInvariant(s)
    ensures TableInvariant(RunEnd(s, steps))
    decreases |steps|
  {
    if steps != [] {
      StepKeepsTables(s, steps[0]);
      TablesInEveryRun(Apply(s, steps[0]), steps[1..]);
    }
  }

  lemma FreshTables(s: Network)
    requires Fresh(s)
    ensures TableInvariant(s)
  {
  }

  /**
    In every reachable state, however many messages and connections were lost and peers
    deleted: a node is not its own peer, every entry is filed under its remote's ID, and
    the party recorded there is either still unset or the peer's own.
   */
  lemma PeerTablesAreSound(s: Network, steps: seq<Step>, p: PeerId, q: PeerId)
    requires Fresh(s) && ValidRun(s, steps)
    requires p in RunEnd(s, steps).nodes && q in RunEnd(s, steps).nodes[p].peers
    ensures q != p && q in RunEnd(s, steps).nodes
    ensures RunEnd(s, steps).nodes[p].peers[q].remote == q
    ensures PartyFits(RunEnd(s, steps).nodes[p].peers[q].party, q)
  {
    FreshTables(s);
    TablesInEveryRun(s, steps);
    var s' := RunEnd(s, steps);
    assert NodeOk(s'.links, s'.nodes.Keys, p, s'.nodes[p]);
    assert RecordOk(s'.links, p, q, s'.nodes[p].peers[q]);
  }
}
