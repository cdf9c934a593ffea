/**
  When AddPeer calls may overlap. A node does not pass on an announcement it receives, so the
  second call must be made by a node that has already recorded the first newcomer: then it
  announces the second newcomer to the first one too. That guard decides, for every order of
  deliveries, whether the network ends as a full mesh.
 */
module Concurrent {
  import opened Basics
  import opened Membership
  import opened Gossip
  import opened Merge

  /**
    Two calls at members of a mesh, for two nodes without peers: `first` adds `b`, and after
    the deliveries `between` and before its gossip has to be over, `second` adds `c`.
   */
  datatype Overlap = Overlap(
    mesh: set<PeerId>, first: PeerId, second: PeerId, b: PeerId, c: PeerId,
    between: seq<Step>, after: seq<Step>)
  {
    function All(): set<PeerId> {
      mesh + {b, c}
    }
  }

  ghost predicate Start(s: Network, o: Overlap) {
    && Quiescent(s) && s.nodes.Keys == o.All()
    && o.first in o.mesh && o.second in o.mesh
    && o.b !in o.mesh && o.c !in o.mesh && o.b != o.c
    && s.nodes[o.b].peers == map[] && s.nodes[o.c].peers == map[]
    && forall p :: p in o.mesh ==> s.nodes[p].peers.Keys == o.mesh - {p}
  }

  /** The network when the second call is made. */
  function AtSecond(s: Network, o: Overlap): Network
    requires Enabled(s, BeginAdd(o.first, o.b)) && ValidRun(Apply(s, BeginAdd(o.first, o.b)), o.between)
  {
    RunEnd(Apply(s, BeginAdd(o.first, o.b)), o.between)
  }

  ghost predicate ValidOverlap(s: Network, o: Overlap) {
    && Start(s, o)
    && AllDeliveries(o.between) && AllDeliveries(o.after)
    && Enabled(s, BeginAdd(o.first, o.b))
    && ValidRun(Apply(s, BeginAdd(o.first, o.b)), o.between)
    && Enabled(AtSecond(s, o), BeginAdd(o.second, o.c))
    && ValidRun(Apply(AtSecond(s, o), BeginAdd(o.second, o.c)), o.after)
  }

  function End(s: Network, o: Overlap): Network
    requires ValidOverlap(s, o)
  {
    RunEnd(Apply(AtSecond(s, o), BeginAdd(o.second, o.c)), o.after)
  }

  /** The guard: the second caller has already recorded the first newcomer. */
  predicate SecondKnowsFirst(s: Network, o: Overlap)
    requires ValidOverlap(s, o)
  {
    o.second in AtSecond(s, o).nodes && o.b in AtSecond(s, o).nodes[o.second].peers
  }

  /** Each node has the other as a peer. */
  predicate Meet(s: Network, p: PeerId, q: PeerId) {
    p in s.nodes && q in s.nodes && q in s.nodes[p].peers && p in s.nodes[q].peers
  }

  /** Neither node has the other as a peer. */
  predicate Strangers(s: Network, p: PeerId, q: PeerId) {
    p in s.nodes && q in s.nodes && q !in s.nodes[p].peers && p !in s.nodes[q].peers
  }

  // ----- What holds in any case -----

  predicate NamesNodes(n: NodeState, p: PeerId, all: set<PeerId>) {
    && n.peers.Keys <= all - {p}
    && (n.op.Dialing? || n.op.Launching? ==> n.op.target in all - {p})
  }

  /** Peers, messages and connections name only nodes of the network. */
  ghost predicate Within(s: Network, all: set<PeerId>) {
    && s.nodes.Keys == all
    && (forall p :: p in all ==> NamesNodes(s.nodes[p], p, all))
    && (forall m :: m in s.joined ==> m.to in all && m.who in all)
    && (forall l :: l in s.conns ==>
          && l in s.links && s.links[l].opener != s.links[l].acceptor
          && s.links[l].opener in all && s.links[l].acceptor in all)
  }

  lemma DialKeepsNames(s: Network, p: PeerId, l: nat, all: set<PeerId>)
    requires Enabled(s, Dial(p, l)) && NamesNodes(s.nodes[p], p, all)
    ensures NamesNodes(Apply(s, Dial(p, l)).nodes[p], p, all)
  {
  }

  lemma LaunchKeepsNames(n: NodeState, p: PeerId, l: nat, q: PeerId, all: set<PeerId>)
    requires NamesNodes(n, p, all) && q in all && q != p
    ensures NamesNodes(LaunchPeer(n, l, q).(op := Idle), p, all)
  {
  }

  lemma JoinedKeepsNames(s: Network, p: PeerId, x: PeerId, all: set<PeerId>)
    requires Enabled(s, DeliverJoined(p, x)) && NamesNodes(s.nodes[p], p, all) && x in all
    ensures NamesNodes(Apply(s, DeliverJoined(p, x)).nodes[p], p, all)
  {
  }

  lemma PartyKeepsNames(s: Network, m: PartyMsg, all: set<PeerId>)
    requires Enabled(s, DeliverParty(m)) && NamesNodes(s.nodes[m.to], m.to, all)
    ensures NamesNodes(Apply(s, DeliverParty(m)).nodes[m.to], m.to, all)
  {
  }

  lemma StepKeepsNames(s: Network, step: Step, p: PeerId, all: set<PeerId>)
    requires Enabled(s, step) && IsDelivery(step) && p in s.nodes && NamesNodes(s.nodes[p], p, all)
    requires step.DeliverJoined? ==> step.who in all
    requires step.Accept? ==>
      s.links[step.link].opener in all && s.links[step.link].opener != s.links[step.link].acceptor
    ensures NamesNodes(Apply(s, step).nodes[p], p, all)
  {
    if Actor(s, step) != p {
      OthersUntouched(s, step, p);
    } else {
      match step
      case Launch(_) => LaunchKeepsNames(s.nodes[p], p, s.nodes[p].op.link, s.nodes[p].op.target, all);
      case Accept(l) => LaunchKeepsNames(s.nodes[p], p, l, s.links[l].opener, all);
      case DeliverParty(m) => PartyKeepsNames(s, m, all);
      case DeliverJoined(_, x) => JoinedKeepsNames(s, p, x, all);
      case Dial(_, l) => DialKeepsNames(s, p, l, all);
    }
  }

  lemma StepKeepsMessagesWithin(s: Network, step: Step, m: Joined, all: set<PeerId>)
    requires Enabled(s, step) && IsDelivery(step) && m in Apply(s, step).joined
    requires m in s.joined ==> m.to in all && m.who in all
    requires step.Accept? ==>
      s.links[step.link].opener in all && s.nodes[s.links[step.link].acceptor].peers.Keys <= all
    ensures m.to in all && m.who in all
  {
    if step.Accept? {
      AnnouncementsMember(s.nodes[s.links[step.link].acceptor].peers.Keys, s.links[step.link].opener, m);
    }
  }

  lemma StepKeepsWithin(s: Network, step: Step, all: set<PeerId>)
    requires Enabled(s, step) && IsDelivery(step) && Within(s, all)
    ensures Within(Apply(s, step), all)
  {
    var s' := Apply(s, step);
    if step.DeliverJoined? { assert Joined(step.node, step.who).who in all; }
    forall p | p in all ensures NamesNodes(s'.nodes[p], p, all) {
      StepKeepsNames(s, step, p, all);
    }
    forall m | m in s'.joined ensures m.to in all && m.who in all {
      StepKeepsMessagesWithin(s, step, m, all);
    }
    if step.Dial? { assert NamesNodes(s.nodes[step.node], step.node, all); }
  }

  lemma StepKeepsPeers(s: Network, step: Step, p: PeerId)
    requires Enabled(s, step) && IsDelivery(step) && p in s.nodes
    ensures s.nodes[p].peers.Keys <= Apply(s, step).nodes[p].peers.Keys
  {
  }

  /** Everything that lasts to the end: the names, who has whom on both sides, and no peer is lost. */
  ghost predicate Lasting(s: Network, all: set<PeerId>) {
    Within(s, all) && Mutual(s, all, all)
  }

  lemma {:induction false} RunLasts(s: Network, steps: seq<Step>, all: set<PeerId>)
    requires ValidRun(s, steps) && AllDeliveries(steps) && Lasting(s, all)
    ensures Lasting(RunEnd(s, steps), all)
    ensures forall p :: p in all ==> s.nodes[p].peers.Keys <= RunEnd(s, steps).nodes[p].peers.Keys
    decreases |steps|
  {
    if steps != [] {
      StepKeepsWithin(s, steps[0], all);
      StepKeepsMutual(s, steps[0], all, all);
      forall p | p in all ensures s.nodes[p].peers.Keys <= Apply(s, steps[0]).nodes[p].peers.Keys {
        StepKeepsPeers(s, steps[0], p);
      }
      RunLasts(Apply(s, steps[0]), steps[1..], all);
    }
  }

  lemma {:induction false} RunKeepsAnnounced(s: Network, steps: seq<Step>, x: PeerId, Y: set<PeerId>)
    requires ValidRun(s, steps) && AllDeliveries(steps)
    requires Y <= s.nodes.Keys && x !in Y && Announced(s, x, Y)
    ensures Y <= RunEnd(s, steps).nodes.Keys && Announced(RunEnd(s, steps), x, Y)
    decreases |steps|
  {
    if steps != [] {
      AnnouncedKept(s, steps[0], x, Y);
      RunKeepsAnnounced(Apply(s, steps[0]), steps[1..], x, Y);
    }
  }

  /** A call that starts to dial: nothing that lasts is touched. */
  lemma CallLasts(s: Network, p: PeerId, q: PeerId, all: set<PeerId>)
    requires IsIdle(s, p) && q in all && q != p && q !in s.nodes[p].peers && Lasting(s, all)
    ensures Lasting(ApplyBeginAdd(s, p, q), all)
    ensures forall r :: r in all ==> ApplyBeginAdd(s, p, q).nodes[r].peers == s.nodes[r].peers
  {
    var s' := ApplyBeginAdd(s, p, q);
    forall m | m in s'.joined ensures m.to in all && m.who in all {
      AnnouncementsMember(s.nodes[p].peers.Keys, q, m);
    }
    forall r, t | r in all && t in all ensures Has(s', r, t) <==> Has(s, r, t) {
      assert Pending(s', t, r) <==> Pending(s, t, r);
    }
  }

  /** It announces `q` to the caller's peers, and the caller itself dials `q`. */
  lemma CallAnnounces(s: Network, p: PeerId, q: PeerId)
    requires IsIdle(s, p) && q != p && q !in s.nodes[p].peers
    requires s.nodes[p].peers.Keys <= s.nodes.Keys
    ensures Announced(ApplyBeginAdd(s, p, q), q, s.nodes[p].peers.Keys + {p})
  {
    forall y | y in s.nodes[p].peers.Keys ensures Joined(y, q) in ApplyBeginAdd(s, p, q).joined {
      AnnouncementsMember(s.nodes[p].peers.Keys, q, Joined(y, q));
    }
  }

  lemma CallKeepsAnnounced(s: Network, p: PeerId, q: PeerId, x: PeerId, Y: set<PeerId>)
    requires IsIdle(s, p) && Y <= s.nodes.Keys && Announced(s, x, Y)
    ensures Announced(ApplyBeginAdd(s, p, q), x, Y)
  {
    forall y | y in Y ensures Reached(ApplyBeginAdd(s, p, q), x, y) {
      assert Reached(s, x, y);
    }
  }

  // ----- While nobody has told a newcomer of the other -----

  /** The newcomers know only the mesh, and are not about to dial anybody. */
  predicate Waits(n: NodeState, mesh: set<PeerId>) {
    n.op.Idle? && n.peers.Keys <= mesh
  }

  /** A member of the mesh knows the others, and dials only newcomers. */
  predicate Serves(s: Network, p: PeerId, mesh: set<PeerId>)
    requires p in s.nodes
  {
    var n := s.nodes[p];
    && mesh - {p} <= n.peers.Keys
    && (n.op.Dialing? || n.op.Launching? ==> n.op.target !in mesh)
  }

  predicate FromMesh(s: Network, l: nat, mesh: set<PeerId>) {
    l in s.links ==> s.links[l].opener in mesh && s.links[l].acceptor !in mesh
  }

  ghost predicate Apart(s: Network, mesh: set<PeerId>) {
    && mesh <= s.nodes.Keys
    && (forall p :: p in s.nodes && p !in mesh ==> Waits(s.nodes[p], mesh))
    && (forall p :: p in mesh ==> Serves(s, p, mesh))
    && (forall m :: m in s.joined ==> m.to in mesh)
    && (forall l :: l in s.conns ==> FromMesh(s, l, mesh))
  }

  lemma MeshKept(s: Network, step: Step, mesh: set<PeerId>, p: PeerId)
    requires Enabled(s, step) && IsDelivery(step) && p in mesh && p in s.nodes && Serves(s, p, mesh)
    requires step.Accept? ==> FromMesh(s, step.link, mesh)
    ensures Serves(Apply(s, step), p, mesh)
  {
  }

  lemma NewcomerKept(s: Network, step: Step, mesh: set<PeerId>, p: PeerId)
    requires Enabled(s, step) && IsDelivery(step) && p !in mesh && p in s.nodes && Waits(s.nodes[p], mesh)
    requires step.DeliverJoined? ==> step.node in mesh
    requires step.Accept? ==> FromMesh(s, step.link, mesh)
    ensures Waits(Apply(s, step).nodes[p], mesh)
  {
  }

  lemma MessagesKept(s: Network, step: Step, mesh: set<PeerId>, m: Joined)
    requires Enabled(s, step) && IsDelivery(step)
    requires m in s.joined ==> m.to in mesh
    requires step.Accept? ==>
               && FromMesh(s, step.link, mesh)
               && Waits(s.nodes[s.links[step.link].acceptor], mesh)
    ensures m in Apply(s, step).joined ==> m.to in mesh
  {
  }

  lemma ConnectionsKept(s: Network, step: Step, mesh: set<PeerId>, l: nat)
    requires Enabled(s, step) && IsDelivery(step)
    requires l in s.conns ==> FromMesh(s, l, mesh)
    requires step.Dial? ==> step.node in mesh && Serves(s, step.node, mesh)
    requires l in Apply(s, step).conns
    ensures FromMesh(Apply(s, step), l, mesh)
  {
  }

  lemma StepKeepsApart(s: Network, step: Step, mesh: set<PeerId>)
    requires Enabled(s, step) && IsDelivery(step) && Apart(s, mesh)
    ensures Apart(Apply(s, step), mesh)
  {
    var s' := Apply(s, step);
    forall p | p in s'.nodes && p !in mesh ensures Waits(s'.nodes[p], mesh) {
      NewcomerKept(s, step, mesh, p);
    }
    forall p | p in mesh ensures Serves(s', p, mesh) {
      MeshKept(s, step, mesh, p);
    }
    forall m | m in s'.joined ensures m.to in mesh {
      MessagesKept(s, step, mesh, m);
    }
    forall l | l in s'.conns ensures FromMesh(s', l, mesh) {
      ConnectionsKept(s, step, mesh, l);
    }
  }

  lemma {:induction false} RunKeepsApart(s: Network, steps: seq<Step>, mesh: set<PeerId>)
    requires ValidRun(s, steps) && AllDeliveries(steps) && Apart(s, mesh)
    ensures Apart(RunEnd(s, steps), mesh)
    decreases |steps|
  {
    if steps != [] {
      StepKeepsApart(s, steps[0], mesh);
      RunKeepsApart(Apply(s, steps[0]), steps[1..], mesh);
    }
  }

  lemma CallKeepsApart(s: Network, p: PeerId, q: PeerId, mesh: set<PeerId>)
    requires IsIdle(s, p) && q in s.nodes && p in mesh && q !in mesh && q !in s.nodes[p].peers
    requires s.nodes[p].peers.Keys == mesh - {p} && Apart(s, mesh)
    ensures Apart(ApplyBeginAdd(s, p, q), mesh)
  {
  }

  lemma {:induction false} RunKeepsSilent(s: Network, steps: seq<Step>, mesh: set<PeerId>, x: PeerId, Y: set<PeerId>)
    requires ValidRun(s, steps) && AllDeliveries(steps) && Apart(s, mesh) && x !in mesh
    requires Y <= s.nodes.Keys && Silent(s, x, Y) && forall l :: l in s.conns ==> l in s.links
    ensures Y <= RunEnd(s, steps).nodes.Keys && Silent(RunEnd(s, steps), x, Y)
    decreases |steps|
  {
    if steps != [] {
      StepKeepsApart(s, steps[0], mesh);
      StepKeepsSilent(s, steps[0], x, Y);
      RunKeepsSilent(Apply(s, steps[0]), steps[1..], mesh, x, Y);
    }
  }

  // ----- The two calls -----

  lemma FirstCallRuns(s: Network, o: Overlap)
    requires Start(s, o)
    ensures IsIdle(s, o.first) && o.b !in s.nodes[o.first].peers && o.b != o.first && o.b in o.All()
    ensures s.nodes[o.first].peers.Keys == o.mesh - {o.first}
    ensures Enabled(s, BeginAdd(o.first, o.b))
    ensures Apply(s, BeginAdd(o.first, o.b)) == ApplyBeginAdd(s, o.first, o.b)
  {
  }

  /** The network at rest before the first call. */
  lemma RestLasts(s: Network, o: Overlap)
    requires Start(s, o)
    ensures Lasting(s, o.All())
  {
    forall p, q | p in o.All() && q in o.All() ensures Has(s, p, q) <==> Has(s, q, p) {
      QuietHas(s, p, q);
      QuietHas(s, q, p);
    }
  }

  lemma RestIsApart(s: Network, o: Overlap)
    requires Start(s, o)
    ensures Apart(s, o.mesh)
  {
  }

  lemma FirstCallMentions(s: Network, o: Overlap, m: Joined)
    requires Start(s, o) && m in ApplyBeginAdd(s, o.first, o.b).joined
    ensures m.who == o.b
  {
    AnnouncementsMember(s.nodes[o.first].peers.Keys, o.b, m);
  }

  lemma FirstCallNodes(s: Network, o: Overlap)
    requires Start(s, o)
    ensures ApplyBeginAdd(s, o.first, o.b).nodes == s.nodes[o.first := s.nodes[o.first].(op := Dialing(o.b))]
    ensures forall p :: p in s.nodes ==> o.c !in s.nodes[p].peers
  {
    FirstCallRuns(s, o);
  }

  lemma FirstCallIsSilent(s: Network, o: Overlap)
    requires Start(s, o)
    ensures ApplyBeginAdd(s, o.first, o.b).nodes.Keys == o.All()
    ensures Silent(ApplyBeginAdd(s, o.first, o.b), o.c, o.All())
  {
    FirstCallNodes(s, o);
    forall m | m in ApplyBeginAdd(s, o.first, o.b).joined ensures m.who != o.c {
      FirstCallMentions(s, o, m);
    }
  }

  lemma FirstCallAnnounces(s: Network, o: Overlap)
    requires Start(s, o)
    ensures o.mesh <= ApplyBeginAdd(s, o.first, o.b).nodes.Keys
    ensures Announced(ApplyBeginAdd(s, o.first, o.b), o.b, o.mesh)
  {
    FirstCallRuns(s, o);
    CallAnnounces(s, o.first, o.b);
    assert o.mesh == s.nodes[o.first].peers.Keys + {o.first};
  }

  /** What is known when the second call is made. */
  ghost predicate Between(s: Network, s1: Network, o: Overlap) {
    && Lasting(s1, o.All()) && Apart(s1, o.mesh) && Silent(s1, o.c, o.All())
    && Announced(s1, o.b, o.mesh)
    && forall p :: p in o.mesh ==> o.mesh - {p} <= s1.nodes[p].peers.Keys
  }

  lemma SecondCallMeets(s: Network, o: Overlap)
    requires ValidOverlap(s, o)
    ensures Between(s, AtSecond(s, o), o)
  {
    var begun := ApplyBeginAdd(s, o.first, o.b);
    FirstCallRuns(s, o);
    RestLasts(s, o);
    RestIsApart(s, o);
    CallLasts(s, o.first, o.b, o.All());
    CallKeepsApart(s, o.first, o.b, o.mesh);
    FirstCallIsSilent(s, o);
    FirstCallAnnounces(s, o);
    RunLasts(begun, o.between, o.All());
    RunKeepsApart(begun, o.between, o.mesh);
    RunKeepsSilent(begun, o.between, o.mesh, o.c, o.All());
    RunKeepsAnnounced(begun, o.between, o.b, o.mesh);
    forall p | p in o.mesh ensures o.mesh - {p} <= AtSecond(s, o).nodes[p].peers.Keys {
      assert begun.nodes[p].peers == s.nodes[p].peers;
    }
  }

  lemma SecondCallStarts(s1: Network, s: Network, o: Overlap)
    requires Between(s, s1, o) && Start(s, o) && IsIdle(s1, o.second)
    ensures Apply(s1, BeginAdd(o.second, o.c)) == ApplyBeginAdd(s1, o.second, o.c)
    ensures o.c !in s1.nodes[o.second].peers && o.c != o.second && o.c in o.All()
    ensures o.second in o.All() && o.mesh <= s1.nodes[o.second].peers.Keys + {o.second}
    ensures s1.nodes[o.second].peers.Keys <= o.mesh + {o.b}
  {
    assert NamesNodes(s1.nodes[o.second], o.second, o.All());
  }

  /** Without the guard the newcomers never hear of each other, whatever is delivered. */
  lemma NewcomersStayApart(s: Network, o: Overlap)
    requires ValidOverlap(s, o) && !SecondKnowsFirst(s, o)
    ensures Strangers(End(s, o), o.b, o.c)
  {
    var s1 := AtSecond(s, o);
    SecondCallMeets(s, o);
    SecondCallStarts(s1, s, o);
    assert s1.nodes[o.second].peers.Keys == o.mesh - {o.second} by {
      assert NamesNodes(s1.nodes[o.second], o.second, o.All());
    }
    CallKeepsApart(s1, o.second, o.c, o.mesh);
    CallLasts(s1, o.second, o.c, o.All());
    RunKeepsApart(ApplyBeginAdd(s1, o.second, o.c), o.after, o.mesh);
    RunLasts(ApplyBeginAdd(s1, o.second, o.c), o.after, o.All());
  }

  /** What is known of the end: both newcomers were announced to the whole mesh. */
  ghost predicate Ended(e: Network, o: Overlap) {
    && Lasting(e, o.All())
    && Announced(e, o.b, o.mesh) && Announced(e, o.c, o.mesh)
    && forall p :: p in o.mesh ==> o.mesh - {p} <= e.nodes[p].peers.Keys
  }

  lemma SecondCallLasts(s: Network, o: Overlap)
    requires ValidOverlap(s, o)
    ensures Ended(End(s, o), o)
    ensures SecondKnowsFirst(s, o) ==> Reached(End(s, o), o.c, o.b)
  {
    var s1 := AtSecond(s, o);
    SecondCallMeets(s, o);
    SecondCallStarts(s1, s, o);
    var called, told := ApplyBeginAdd(s1, o.second, o.c), s1.nodes[o.second].peers.Keys + {o.second};
    CallLasts(s1, o.second, o.c, o.All());
    CallAnnounces(s1, o.second, o.c);
    CallKeepsAnnounced(s1, o.second, o.c, o.b, o.mesh);
    RunLasts(called, o.after, o.All());
    RunKeepsAnnounced(called, o.after, o.c, told);
    RunKeepsAnnounced(called, o.after, o.b, o.mesh);
  }

  /** At rest, whoever has heard of a node has it as a peer, and is its peer. */
  lemma QuietMeets(s: Network, all: set<PeerId>, x: PeerId, y: PeerId)
    requires Lasting(s, all) && Quiescent(s) && x in all && y in all && Reached(s, x, y)
    ensures x in s.nodes[y].peers && y in s.nodes[x].peers
  {
    QuietHas(s, x, y);
    QuietHas(s, y, x);
    assert Has(s, x, y) <==> Has(s, y, x);
  }

  /** A member of the mesh and any other node have each other at the end. */
  lemma MeshMeets(e: Network, o: Overlap, p: PeerId, q: PeerId)
    requires Ended(e, o) && Quiescent(e) && p in o.mesh && q in o.All() && p != q
    ensures Meet(e, p, q)
  {
    if q in o.mesh {
      assert q in o.mesh - {p} && p in o.mesh - {q};
    } else {
      assert Reached(e, q, p);
      QuietMeets(e, o.All(), q, p);
    }
  }

  lemma NewcomersMeet(s: Network, o: Overlap)
    requires ValidOverlap(s, o) && Quiescent(End(s, o)) && SecondKnowsFirst(s, o)
    ensures Meet(End(s, o), o.b, o.c)
  {
    SecondCallLasts(s, o);
    QuietMeets(End(s, o), o.All(), o.c, o.b);
  }

  /**
    For every mesh, all deliveries before the second call and all deliveries after it: when
    nothing is left in flight, any two nodes are recorded at each other, except that the two
    newcomers are if and only if the second caller had recorded the first newcomer before its
    call; otherwise they are strangers (and by NewcomersStayApart have been all the time).
   */
  lemma OverlapMeshesIffSecondKnowsFirst(s: Network, o: Overlap)
    requires ValidOverlap(s, o) && Quiescent(End(s, o))
    ensures forall p, q :: p in o.All() && q in o.All() && p != q && (p in o.mesh || q in o.mesh) ==>
              Meet(End(s, o), p, q)
    ensures Meet(End(s, o), o.b, o.c) <==> SecondKnowsFirst(s, o)
    ensures Strangers(End(s, o), o.b, o.c) <==> !SecondKnowsFirst(s, o)
  {
    SecondCallLasts(s, o);
    forall p, q | p in o.All() && q in o.All() && p != q && (p in o.mesh || q in o.mesh)
      ensures Meet(End(s, o), p, q)
    {
      if p in o.mesh { MeshMeets(End(s, o), o, p, q); } else { MeshMeets(End(s, o), o, q, p); }
    }
    if SecondKnowsFirst(s, o) {
      NewcomersMeet(s, o);
    } else {
      NewcomersStayApart(s, o);
    }
  }
}
