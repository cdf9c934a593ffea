/**
  The party directory: what each node records about its peers' parties, although every
  duplicate link resets a record to blank.
 */
module Directory {
  import opened Basics
  import opened Membership
  import opened Gossip
  import opened PeerTable

  /** Some PartyId is on its way to `p` on link `l`. */
  ghost predicate InFlight(parties: multiset<PartyMsg>, l: nat, p: PeerId) {
    exists m :: m in parties && m.link == l && m.to == p
  }

  /** Whoever has not launched a link yet will, and its party is waiting there for it. */
  ghost predicate EndsOk(s: Network, l: nat)
    requires l in s.links
  {
    var k := s.links[l];
    && (l in s.conns <==> !k.acceptorUp)
    && (!k.openerUp ==> k.opener in s.nodes && s.nodes[k.opener].op == Launching(k.acceptor, l))
    && (k.acceptorUp && !k.openerUp ==> InFlight(s.parties, l, k.opener))
    && (k.openerUp && !k.acceptorUp ==> InFlight(s.parties, l, k.acceptor))
  }

  /** A message carries what its sender still is. */
  predicate Current(s: Network, m: PartyMsg) {
    && m.link in s.links
    && s.links[m.link].Other(m.to) in s.nodes
    && m.party.Identity() == s.nodes[s.links[m.link].Other(m.to)].self.Identity()
  }

  /** The record is exact, or the party is in flight on its link, or still to be sent there. */
  ghost predicate EntryOk(s: Network, p: PeerId, q: PeerId)
    requires p in s.nodes && q in s.nodes[p].peers && q in s.nodes
  {
    var r := s.nodes[p].peers[q];
    && r.link in s.links
    && s.links[r.link].Up(p)
    && (|| r.party.Identity() == s.nodes[q].self.Identity()
        || InFlight(s.parties, r.link, p)
        || !s.links[r.link].Up(q))
  }

  predicate LaunchIsNew(links: map<nat, Link>, op: Operation) {
    op.Launching? ==> op.link in links && !links[op.link].openerUp
  }

  ghost predicate DirectoryInvariant(s: Network) {
    && (forall l :: l in s.links ==> EndsOk(s, l))
    && (forall m :: m in s.parties ==> Current(s, m))
    && (forall p :: p in s.nodes ==> LaunchIsNew(s.links, s.nodes[p].op))
    && (forall p, q :: p in s.nodes && q in s.nodes[p].peers ==> q in s.nodes && EntryOk(s, p, q))
  }

  /** The runs the directory is promised for: nothing lost, and nobody's keys change. */
  predicate KeepsParties(step: Step) {
    !IsLoss(step) && !step.EndReshare?
  }

  lemma SelvesKept(s: Network, step: Step, q: PeerId)
    requires Enabled(s, step) && !step.EndReshare? && q in s.nodes
    ensures q in Apply(s, step).nodes
    ensures Apply(s, step).nodes[q].self.Identity() == s.nodes[q].self.Identity()
  {
  }

  lemma PartiesKept(s: Network, step: Step, l: nat, p: PeerId)
    requires Enabled(s, step) && KeepsParties(step) && InFlight(s.parties, l, p)
    requires !(step.DeliverParty? && step.msg.link == l && step.msg.to == p)
    ensures InFlight(Apply(s, step).parties, l, p)
  {
  }

  lemma StepKeepsCurrent(s: Network, step: Step, m: PartyMsg)
    requires Enabled(s, step) && !step.EndReshare? && InputOk(s, step)
    requires m in Apply(s, step).parties
    requires m in s.parties ==> Current(s, m)
    requires forall p :: p in s.nodes ==> OpOk(s.links, s.nodes.Keys, p, s.nodes[p].op)
    ensures Current(Apply(s, step), m)
  {
    if m in s.parties {
      SelvesKept(s, step, s.links[m.link].Other(m.to));
    } else {
      match step
      case Launch(p) => assert OpOk(s.links, s.nodes.Keys, p, s.nodes[p].op);
      case Accept(l) =>
      case _ =>
    }
  }

  /** Launching a link answers for it: what the other end waits for is now in flight. */
  lemma LaunchKeepsEnds(s: Network, step: Step, l: nat)
    requires step.Launch? || step.Accept?
    requires Enabled(s, step) && InputOk(s, step)
    requires l == if step.Launch? then s.nodes[step.node].op.link else step.link
    requires l in s.links && EndsOk(s, l) && LinkOk(s.nodes.Keys, s.links[l])
    requires step.Launch? ==> OpOk(s.links, s.nodes.Keys, step.node, s.nodes[step.node].op)
    ensures EndsOk(Apply(s, step), l)
  {
  }

  /** A node that is launching a link stays at it until it has launched it. */
  lemma LauncherWaits(s: Network, step: Step, p: PeerId)
    requires Enabled(s, step) && KeepsParties(step)
    requires p in s.nodes && s.nodes[p].op.Launching? && !(step.Launch? && step.node == p)
    ensures Apply(s, step).nodes[p].op == s.nodes[p].op
  {
  }

  lemma LinkStays(s: Network, step: Step, l: nat)
    requires Enabled(s, step) && KeepsParties(step) && l in s.links
    requires step.Launch? ==> l != s.nodes[step.node].op.link
    requires step.Accept? ==> l != step.link
    ensures l in Apply(s, step).links && Apply(s, step).links[l] == s.links[l]
    ensures l in Apply(s, step).conns <==> l in s.conns
  {
  }

  lemma QuietStepKeepsEnds(s: Network, step: Step, l: nat)
    requires Enabled(s, step) && KeepsParties(step) && InputOk(s, step)
    requires step.Launch? ==> l != s.nodes[step.node].op.link
    requires step.Accept? ==> l != step.link
    requires l in s.links && EndsOk(s, l) && LinkOk(s.nodes.Keys, s.links[l])
    ensures EndsOk(Apply(s, step), l)
  {
    var k := s.links[l];
    LinkStays(s, step, l);
    if !k.openerUp { LauncherWaits(s, step, k.opener); }
    if InFlight(s.parties, l, k.opener) && !k.openerUp { PartiesKept(s, step, l, k.opener); }
    if InFlight(s.parties, l, k.acceptor) && !k.acceptorUp { PartiesKept(s, step, l, k.acceptor); }
  }

  lemma StepKeepsEnds(s: Network, step: Step, l: nat)
    requires Enabled(s, step) && KeepsParties(step) && InputOk(s, step)
    requires l in Apply(s, step).links
    requires l in s.links ==> EndsOk(s, l) && LinkOk(s.nodes.Keys, s.links[l])
    requires forall p :: p in s.nodes ==> OpOk(s.links, s.nodes.Keys, p, s.nodes[p].op)
    ensures EndsOk(Apply(s, step), l)
  {
    if l in s.links {
      if (step.Launch? && l == s.nodes[step.node].op.link) || (step.Accept? && l == step.link) {
        LaunchKeepsEnds(s, step, l);
      } else {
        QuietStepKeepsEnds(s, step, l);
      }
    }
  }

  lemma StepKeepsLaunches(s: Network, step: Step, p: PeerId)
    requires Enabled(s, step) && KeepsParties(step) && InputOk(s, step) && p in s.nodes
    requires LaunchIsNew(s.links, s.nodes[p].op)
    requires forall q :: q in s.nodes ==> OpOk(s.links, s.nodes.Keys, q, s.nodes[q].op)
    ensures LaunchIsNew(Apply(s, step).links, Apply(s, step).nodes[p].op)
  {
    var s' := Apply(s, step);
    if s'.nodes[p].op.Launching? {
      assert OpOk(s.links, s.nodes.Keys, p, s.nodes[p].op);
      if step.Launch? {
        assert OpOk(s.links, s.nodes.Keys, step.node, s.nodes[step.node].op);
      }
    }
  }

  predicate LaunchesHere(s: Network, step: Step, p: PeerId, q: PeerId)
    requires Enabled(s, step)
  {
    match step
    case Launch(a) => a == p && s.nodes[p].op.target == q
    case Accept(l) => s.links[l].acceptor == p && s.links[l].opener == q
    case _ => false
  }

  predicate DeliversHere(s: Network, step: Step, p: PeerId, q: PeerId)
    requires Enabled(s, step)
  {
    step.DeliverParty? && step.msg.to == p && s.links[step.msg.link].Other(p) == q
  }

  /** The entry a launch has just written: blank, on a link this end had not launched before. */
  lemma LaunchedEntry(s: Network, step: Step, p: PeerId, q: PeerId)
    requires Enabled(s, step) && InputOk(s, step) && p in s.nodes && q in s.nodes
    requires LaunchesHere(s, step, p, q)
    requires OpOk(s.links, s.nodes.Keys, p, s.nodes[p].op) && LaunchIsNew(s.links, s.nodes[p].op)
    requires step.Launch? ==> EndsOk(s, s.nodes[p].op.link)
    requires step.Accept? ==> EndsOk(s, step.link)
    ensures q in Apply(s, step).nodes[p].peers && EntryOk(Apply(s, step), p, q)
  {
  }

  lemma OldEntry(s: Network, step: Step, p: PeerId, q: PeerId)
    requires Enabled(s, step) && KeepsParties(step) && InputOk(s, step)
    requires p in s.nodes && q in s.nodes && q in s.nodes[p].peers && EntryOk(s, p, q)
    requires RecordOk(s.links, p, q, s.nodes[p].peers[q])
    requires SameEntry(s.nodes[p], Apply(s, step).nodes[p], q) && !DeliversHere(s, step, p, q)
    requires step.Accept? ==> step.link != s.nodes[p].peers[q].link
    requires step.Launch? ==> s.nodes[step.node].op.link != s.nodes[p].peers[q].link
    ensures EntryOk(Apply(s, step), p, q)
  {
    var l := s.nodes[p].peers[q].link;
    LinkStays(s, step, l);
    SelvesKept(s, step, q);
    if InFlight(s.parties, l, p) {
      PartiesKept(s, step, l, p);
    }
  }

  /** The other end of an entry's link has just launched it: its party is now in flight there. */
  lemma AnsweredEntry(s: Network, step: Step, p: PeerId, q: PeerId)
    requires Enabled(s, step) && InputOk(s, step)
    requires p in s.nodes && q in s.nodes && q in s.nodes[p].peers && EntryOk(s, p, q)
    requires RecordOk(s.links, p, q, s.nodes[p].peers[q])
    requires p != q
    requires match step
             case Launch(a) => a == q && s.nodes[q].op.link == s.nodes[p].peers[q].link && s.nodes[q].op.target == p
             case Accept(l) => s.links[l].acceptor == q && s.links[l].opener == p && l == s.nodes[p].peers[q].link
             case _ => false
    ensures EntryOk(Apply(s, step), p, q)
  {
  }

  /** Whether `step` is the launch at `p` of the link `l` towards `q`. */
  predicate Launches(s: Network, step: Step, p: PeerId, q: PeerId, l: nat)
    requires Enabled(s, step)
  {
    match step
    case Launch(a) => a == p && s.nodes[p].op == Launching(q, l)
    case Accept(a) => a == l && s.links[l].acceptor == p && s.links[l].opener == q
    case _ => false
  }

  /** The sender's party has just been recorded. */
  lemma DeliveredEntry(s: Network, m: PartyMsg, p: PeerId, q: PeerId)
    requires Enabled(s, DeliverParty(m)) && Current(s, m)
    requires p in s.nodes && q in s.nodes && q in Apply(s, DeliverParty(m)).nodes[p].peers
    requires q in s.nodes[p].peers ==> EntryOk(s, p, q)
    requires DeliversHere(s, DeliverParty(m), p, q)
    ensures EntryOk(Apply(s, DeliverParty(m)), p, q)
  {
  }

  /** The entry keeps its link, and its party up to the share flag. */
  predicate SameEntry(n: NodeState, n': NodeState, q: PeerId) {
    && q in n.peers && q in n'.peers
    && n'.peers[q].link == n.peers[q].link
    && n'.peers[q].party.Identity() == n.peers[q].party.Identity()
  }

  lemma EntryKept(s: Network, step: Step, p: PeerId, q: PeerId)
    requires Enabled(s, step) && p in s.nodes && q in Apply(s, step).nodes[p].peers
    requires !LaunchesHere(s, step, p, q) && !DeliversHere(s, step, p, q)
    ensures SameEntry(s.nodes[p], Apply(s, step).nodes[p], q)
  {
    var n, n' := s.nodes[p], Apply(s, step).nodes[p];
    if Actor(s, step) != p || !ChangesPeers(step) {
      PeersUntouched(s, step, p);
    } else if step.EndSession? || step.EndReshare? {
      MarkingKept(s, step, q);
    } else {
      match step
      case Launch(_) => assert n' == LaunchPeer(n, n.op.link, n.op.target).(op := Idle);
      case Accept(l) => assert n' == LaunchPeer(n, l, s.links[l].opener).(op := Idle);
      case DeliverParty(m) => assert n' == RecordParty(n, s.links[m.link].Other(p), m.party);
      case DeletePeer(_, r) => assert n' == RemovePeer(n, r);
    }
  }

  lemma MarkingKept(s: Network, step: Step, q: PeerId)
    requires step.EndSession? || step.EndReshare?
    requires Enabled(s, step) && q in Apply(s, step).nodes[step.node].peers
    ensures SameEntry(s.nodes[step.node], Apply(s, step).nodes[step.node], q)
  {
  }

  /** The facts about a step's own operation and link that the two lemmas below need. */
  ghost predicate StepFits(s: Network, step: Step)
    requires Enabled(s, step)
  {
    match step
    case Launch(a) =>
      && OpOk(s.links, s.nodes.Keys, a, s.nodes[a].op)
      && LaunchIsNew(s.links, s.nodes[a].op)
      && EndsOk(s, s.nodes[a].op.link)
    case Accept(l) => EndsOk(s, l)
    case DeliverParty(m) => Current(s, m)
    case _ => true
  }

  lemma StepsFit(s: Network, step: Step)
    requires Enabled(s, step) && TableInvariant(s) && DirectoryInvariant(s)
    ensures InputOk(s, step) && StepFits(s, step)
  {
    InputsAreOk(s, step);
    match step
    case Launch(a) => assert NodeOk(s.links, s.nodes.Keys, a, s.nodes[a]);
    case _ =>
  }

  lemma OtherStepKeepsEntry(s: Network, step: Step, p: PeerId, q: PeerId)
    requires Enabled(s, step) && KeepsParties(step) && InputOk(s, step) && StepFits(s, step)
    requires p in s.nodes && q in s.nodes && p != q && q in s.nodes[p].peers
    requires RecordOk(s.links, p, q, s.nodes[p].peers[q]) && EntryOk(s, p, q)
    requires EndsOk(s, s.nodes[p].peers[q].link)
    requires q in Apply(s, step).nodes[p].peers
    requires !LaunchesHere(s, step, p, q) && !DeliversHere(s, step, p, q)
    ensures EntryOk(Apply(s, step), p, q)
  {
    EntryKept(s, step, p, q);
    if Launches(s, step, q, p, s.nodes[p].peers[q].link) {
      AnsweredEntry(s, step, p, q);
    } else {
      OldEntry(s, step, p, q);
    }
  }

  lemma StepKeepsEntry(s: Network, step: Step, p: PeerId, q: PeerId)
    requires Enabled(s, step) && KeepsParties(step) && InputOk(s, step) && StepFits(s, step)
    requires p in s.nodes && NodeOk(s.links, s.nodes.Keys, p, s.nodes[p])
    requires forall l :: l in s.links ==> EndsOk(s, l)
    requires q in s.nodes[p].peers ==> q in s.nodes && EntryOk(s, p, q)
    requires LaunchIsNew(s.links, s.nodes[p].op)
    requires q in Apply(s, step).nodes[p].peers
    ensures q in s.nodes && EntryOk(Apply(s, step), p, q)
  {
    if LaunchesHere(s, step, p, q) {
      LaunchedEntry(s, step, p, q);
    } else if DeliversHere(s, step, p, q) {
      DeliveredEntry(s, step.msg, p, q);
    } else {
      EntryKept(s, step, p, q);
      assert RecordOk(s.links, p, q, s.nodes[p].peers[q]);
      OtherStepKeepsEntry(s, step, p, q);
    }
  }

  lemma StepKeepsDirectory(s: Network, step: Step)
    requires Enabled(s, step) && KeepsParties(step)
    requires TableInvariant(s) && DirectoryInvariant(s)
    ensures TableInvariant(Apply(s, step)) && DirectoryInvariant(Apply(s, step))
  {
    StepKeepsTables(s, step);
    StepsFit(s, step);
    var s' := Apply(s, step);
    assert forall p :: p in s.nodes ==> NodeOk(s.links, s.nodes.Keys, p, s.nodes[p]);
    forall l | l in s'.links ensures EndsOk(s', l) { StepKeepsEnds(s, step, l); }
    forall m | m in s'.parties ensures Current(s', m) { StepKeepsCurrent(s, step, m); }
    forall p | p in s'.nodes ensures LaunchIsNew(s'.links, s'.nodes[p].op) { StepKeepsLaunches(s, step, p); }
    forall p, q | p in s'.nodes && q in s'.nodes[p].peers
      ensures q in s'.nodes && EntryOk(s', p, q)
    {
      StepKeepsEntry(s, step, p, q);
    }
  }

  predicate AllKeepParties(steps: seq<Step>) {
    forall k :: 0 <= k < |steps| ==> KeepsParties(steps[k])
  }

  lemma {:induction false} DirectoryInEveryRun(s: Network, steps: seq<Step>)
    requires ValidRun(s, steps) && AllKeepParties(steps)
    requires TableInvariant(s) && DirectoryInvariant(s)
    ensures TableInvariant(RunEnd(s, steps)) && DirectoryInvariant(RunEnd(s, steps))
    decreases |steps|
  {
    if steps != [] {
      StepKeepsDirectory(s, steps[0]);
      DirectoryInEveryRun(Apply(s, steps[0]), steps[1..]);
    }
  }

  /** Every record agrees with the party its peer runs. */
  ghost predicate ExactDirectories(s: Network) {
    forall p, q :: p in s.nodes && q in s.nodes[p].peers ==>
      q in s.nodes && s.nodes[p].peers[q].party.Identity() == s.nodes[q].self.Identity()
  }

  lemma QuietDirectoriesAreExact(s: Network)
    requires TableInvariant(s) && DirectoryInvariant(s) && Quiescent(s)
    ensures ExactDirectories(s)
  {
    forall p, q | p in s.nodes && q in s.nodes[p].peers
      ensures q in s.nodes && s.nodes[p].peers[q].party.Identity() == s.nodes[q].self.Identity()
    {
      assert EntryOk(s, p, q) && NodeOk(s.links, s.nodes.Keys, p, s.nodes[p]);
      assert RecordOk(s.links, p, q, s.nodes[p].peers[q]);
      assert EndsOk(s, s.nodes[p].peers[q].link);
    }
  }

  /**
    The party directory: in every run that loses nothing and in which no reshare ends, each
    record is exact, or the peer's PartyId is in flight on the latest link, or that link is
    still to be launched by the peer. So at quiescence every record is exact, however many
    duplicate links reset records on the way.
   */
  lemma DirectoriesEndExact(s: Network, steps: seq<Step>)
    requires Fresh(s) && ValidRun(s, steps) && AllKeepParties(steps)
    ensures forall p, q :: p in RunEnd(s, steps).nodes && q in RunEnd(s, steps).nodes[p].peers ==>
              q in RunEnd(s, steps).nodes && EntryOk(RunEnd(s, steps), p, q)
    ensures Quiescent(RunEnd(s, steps)) ==> ExactDirectories(RunEnd(s, steps))
  {
    FreshTables(s);
    DirectoryInEveryRun(s, steps);
    if Quiescent(RunEnd(s, steps)) {
      QuietDirectoriesAreExact(RunEnd(s, steps));
    }
  }

  // ----- With losses -----

  /** The record is blank, apart from its share flag, or exact. */
  predicate BlankOrExact(s: Network, p: PeerId, q: PeerId)
    requires p in s.nodes && q in s.nodes[p].peers && q in s.nodes
  {
    var recorded := s.nodes[p].peers[q].party.Identity();
    recorded == BLANK.Identity() || recorded == s.nodes[q].self.Identity()
  }

  ghost predicate NoFalseRecord(s: Network) {
    && (forall m :: m in s.parties ==> Current(s, m))
    && (forall p, q :: p in s.nodes && q in s.nodes[p].peers && q in s.nodes ==> BlankOrExact(s, p, q))
  }

  lemma StepKeepsRecordTrue(s: Network, step: Step, p: PeerId, q: PeerId)
    requires Enabled(s, step) && !step.EndReshare?
    requires step.DeliverParty? ==> Current(s, step.msg)
    requires p in s.nodes && q in s.nodes && q in Apply(s, step).nodes[p].peers
    requires q in s.nodes[p].peers ==> BlankOrExact(s, p, q)
    ensures BlankOrExact(Apply(s, step), p, q)
  {
    SelvesKept(s, step, q);
    if LaunchesHere(s, step, p, q) {
      assert Apply(s, step).nodes[p].peers[q].party == BLANK;
    } else if DeliversHere(s, step, p, q) {
      assert Apply(s, step).nodes[p] == RecordParty(s.nodes[p], q, step.msg.party);
    } else {
      EntryKept(s, step, p, q);
    }
  }

  lemma StepKeepsAllCurrent(s: Network, step: Step)
    requires Enabled(s, step) && !step.EndReshare? && InputOk(s, step)
    requires forall m :: m in s.parties ==> Current(s, m)
    requires forall p :: p in s.nodes ==> OpOk(s.links, s.nodes.Keys, p, s.nodes[p].op)
    ensures forall m :: m in Apply(s, step).parties ==> Current(Apply(s, step), m)
  {
    forall m | m in Apply(s, step).parties ensures Current(Apply(s, step), m) {
      StepKeepsCurrent(s, step, m);
    }
  }

  lemma StepKeepsNoFalseRecord(s: Network, step: Step)
    requires Enabled(s, step) && !step.EndReshare? && TableInvariant(s) && NoFalseRecord(s)
    ensures NoFalseRecord(Apply(s, step))
  {
    var s' := Apply(s, step);
    InputsAreOk(s, step);
    assert forall p :: p in s.nodes ==> NodeOk(s.links, s.nodes.Keys, p, s.nodes[p]);
    StepKeepsAllCurrent(s, step);
    forall p, q | p in s'.nodes && q in s'.nodes[p].peers && q in s'.nodes
      ensures BlankOrExact(s', p, q)
    {
      StepKeepsRecordTrue(s, step, p, q);
    }
  }

  lemma {:induction false} NoFalseRecordInRun(s: Network, steps: seq<Step>)
    requires ValidRun(s, steps) && TableInvariant(s) && NoFalseRecord(s)
    requires forall k :: 0 <= k < |steps| ==> !steps[k].EndReshare?
    ensures NoFalseRecord(RunEnd(s, steps))
    decreases |steps|
  {
    if steps != [] {
      StepKeepsNoFalseRecord(s, steps[0]);
      StepKeepsTables(s, steps[0]);
      NoFalseRecordInRun(Apply(s, steps[0]), steps[1..]);
    }
  }

  /**
    Losses and deletions can leave a record blank but never wrong: in every run in which no
    reshare ends, what a node has recorded about a peer's keys is nothing, or what they are.
   */
  lemma RecordsAreNeverWrong(s: Network, steps: seq<Step>, p: PeerId, q: PeerId)
    requires Fresh(s) && ValidRun(s, steps)
    requires forall k :: 0 <= k < |steps| ==> !steps[k].EndReshare?
    requires p in RunEnd(s, steps).nodes && q in RunEnd(s, steps).nodes[p].peers
    ensures q in RunEnd(s, steps).nodes && BlankOrExact(RunEnd(s, steps), p, q)
  {
    FreshTables(s);
    NoFalseRecordInRun(s, steps);
    PeerTablesAreSound(s, steps, p, q);
  }
}
