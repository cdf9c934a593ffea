/**
  One AddPeer merges two full meshes into one, for every order of deliveries.

  The run below starts from a quiescent network whose nodes form disjoint full meshes of any
  sizes. `A` is the mesh of the node that calls AddPeer and `B` the mesh of the node it names.
 */
module Merge {
  import opened Basics
  import opened Membership
  import opened Gossip

  /** The network is a disjoint union of full meshes: `peers` is symmetric and transitive. */
  ghost predicate Clustered(s: Network) {
    && (forall p, q :: p in s.nodes && q in s.nodes[p].peers ==>
          q in s.nodes && q != p && p in s.nodes[q].peers)
    && (forall p, q, r :: p in s.nodes && q in s.nodes[p].peers && q in s.nodes && r in s.nodes[q].peers && r != p ==>
          r in s.nodes[p].peers)
  }

  /** `p` together with its peers. */
  function Cluster(s: Network, p: PeerId): set<PeerId>
    requires p in s.nodes
  {
    {p} + s.nodes[p].peers.Keys
  }

  /** A stream opened by `from` waits in `to`'s channel. */
  ghost predicate Pending(s: Network, from: PeerId, to: PeerId) {
    exists l :: l in s.conns && l in s.links && s.links[l].opener == from && s.links[l].acceptor == to
  }

  /** `p` has `q` as a peer, or holds an open stream with it that it is about to launch. */
  ghost predicate Has(s: Network, p: PeerId, q: PeerId)
    requires p in s.nodes
  {
    || q in s.nodes[p].peers
    || (s.nodes[p].op.Launching? && s.nodes[p].op.target == q)
    || Pending(s, q, p)
  }

  /** `y` knows of `x`, or is about to. */
  predicate Reached(s: Network, x: PeerId, y: PeerId)
    requires y in s.nodes
  {
    x in s.nodes[y].peers || Targets(s.nodes[y].op, x) || Joined(y, x) in s.joined
  }

  ghost predicate Announced(s: Network, x: PeerId, Y: set<PeerId>)
    requires Y <= s.nodes.Keys
  {
    forall y :: y in Y ==> Reached(s, x, y)
  }

  /** Nobody in `Y` has heard of `x`, and no message mentions it. */
  ghost predicate Silent(s: Network, x: PeerId, Y: set<PeerId>)
    requires Y <= s.nodes.Keys
  {
    && (forall y :: y in Y ==> x !in s.nodes[y].peers && !Targets(s.nodes[y].op, x))
    && (forall m :: m in s.joined ==> m.who != x)
  }

  /** Inside a side everybody is meshed, and new peers come only from the other side. */
  predicate NodeMeshed(n: NodeState, p: PeerId, X: set<PeerId>, Y: set<PeerId>) {
    && X - {p} <= n.peers.Keys <= (X + Y) - {p}
    && !n.op.InSession?
    && (n.op.Dialing? || n.op.Launching? ==> n.op.target in Y)
  }

  ghost predicate SideMeshed(s: Network, X: set<PeerId>, Y: set<PeerId>) {
    && X <= s.nodes.Keys
    && forall p :: p in X ==> NodeMeshed(s.nodes[p], p, X, Y)
  }

  predicate Crosses(l: Link, X: set<PeerId>, Y: set<PeerId>) {
    (l.opener in X && l.acceptor in Y) || (l.opener in Y && l.acceptor in X)
  }

  ghost predicate ConnectionsCross(s: Network, X: set<PeerId>, Y: set<PeerId>) {
    forall l :: l in s.conns ==> l in s.links && Crosses(s.links[l], X, Y)
  }

  ghost predicate Mutual(s: Network, X: set<PeerId>, Y: set<PeerId>)
    requires X <= s.nodes.Keys && Y <= s.nodes.Keys
  {
    forall p, q :: p in X && q in Y ==> (Has(s, p, q) <==> Has(s, q, p))
  }

  ghost predicate AllTold(s: Network, X: set<PeerId>, Y: set<PeerId>)
    requires X <= s.nodes.Keys && Y <= s.nodes.Keys
  {
    forall x :: x in X ==> Announced(s, x, Y) || Silent(s, x, Y)
  }

  ghost predicate MessagesInside(s: Network, X: set<PeerId>) {
    forall m :: m in s.joined ==> m.to in X && m.who in X
  }

  /** The nodes of the other meshes take no part. */
  ghost predicate OutsideUntouched(base: Network, s: Network, X: set<PeerId>) {
    && s.nodes.Keys == base.nodes.Keys
    && forall p :: p in s.nodes && p !in X ==>
         s.nodes[p].op.Idle? && s.nodes[p].peers.Keys == base.nodes[p].peers.Keys
  }

  ghost predicate MergeInvariant(base: Network, s: Network, A: set<PeerId>, B: set<PeerId>, b: PeerId) {
    && SideMeshed(s, A, B) && SideMeshed(s, B, A)
    && A !! B && b in B
    && ConnectionsCross(s, A, B)
    && Mutual(s, A, B)
    && AllTold(s, A, B) && AllTold(s, B, A)
    && Announced(s, b, A)
    && MessagesInside(s, A + B)
    && OutsideUntouched(base, s, A + B)
  }

  // ----- One step -----

  lemma StepKeepsPending(s: Network, step: Step, from: PeerId, to: PeerId)
    requires Enabled(s, step) && IsDelivery(step)
    requires step.Dial? ==> step.node != from || s.nodes[from].op.target != to
    requires Pending(s, from, to)
    ensures Pending(Apply(s, step), from, to) ||
            (step.Accept? && s.links[step.link].opener == from && s.links[step.link].acceptor == to)
  {
  }

  lemma NoNewPending(s: Network, step: Step, from: PeerId, to: PeerId)
    requires Enabled(s, step) && IsDelivery(step)
    requires step.Dial? ==> step.node != from || s.nodes[from].op.target != to
    requires Pending(Apply(s, step), from, to)
    requires forall l :: l in s.conns ==> l in s.links
    ensures Pending(s, from, to)
  {
  }

  /** Who has recorded a peer, or is about to launch it, only gains by accepting it. */
  predicate Takes(n: NodeState, q: PeerId) {
    q in n.peers || (n.op.Launching? && n.op.target == q)
  }

  predicate AcceptsFrom(s: Network, step: Step, p: PeerId, q: PeerId)
    requires Enabled(s, step)
  {
    step.Accept? && s.links[step.link].opener == q && s.links[step.link].acceptor == p
  }

  lemma StepKeepsTakes(s: Network, step: Step, p: PeerId, q: PeerId)
    requires Enabled(s, step) && IsDelivery(step) && p in s.nodes
    requires step.Dial? ==> step.node != p || s.nodes[p].op.target != q
    ensures Takes(Apply(s, step).nodes[p], q) <==> Takes(s.nodes[p], q) || AcceptsFrom(s, step, p, q)
  {
  }

  /** Having a peer is never undone, and only a dial creates it. */
  lemma StepKeepsHas(s: Network, step: Step, p: PeerId, q: PeerId)
    requires Enabled(s, step) && IsDelivery(step) && p in s.nodes && q in s.nodes
    requires step.Dial? ==>
      (step.node != p || s.nodes[p].op.target != q) && (step.node != q || s.nodes[q].op.target != p)
    requires forall l :: l in s.conns ==> l in s.links
    ensures Has(Apply(s, step), p, q) <==> Has(s, p, q)
  {
    var s' := Apply(s, step);
    StepKeepsTakes(s, step, p, q);
    if Pending(s, q, p) { StepKeepsPending(s, step, q, p); }
    if Pending(s', q, p) { NoNewPending(s, step, q, p); }
    assert AcceptsFrom(s, step, p, q) ==> Pending(s, q, p);
  }

  lemma DialGivesHas(s: Network, p: PeerId, l: nat)
    requires Enabled(s, Dial(p, l)) && s.nodes[p].op.target in s.nodes
    ensures Has(Apply(s, Dial(p, l)), p, s.nodes[p].op.target)
    ensures Has(Apply(s, Dial(p, l)), s.nodes[p].op.target, p)
  {
  }

  lemma StepKeepsMutual(s: Network, step: Step, A: set<PeerId>, B: set<PeerId>)
    requires Enabled(s, step) && IsDelivery(step)
    requires A <= s.nodes.Keys && B <= s.nodes.Keys && Mutual(s, A, B)
    requires forall l :: l in s.conns ==> l in s.links
    ensures A <= Apply(s, step).nodes.Keys && B <= Apply(s, step).nodes.Keys
    ensures Mutual(Apply(s, step), A, B)
  {
    forall p, q | p in A && q in B
      ensures Has(Apply(s, step), p, q) <==> Has(Apply(s, step), q, p)
    {
      if step.Dial? && ((step.node == p && s.nodes[p].op.target == q)
                        || (step.node == q && s.nodes[q].op.target == p)) {
        DialGivesHas(s, step.node, step.link);
      } else {
        StepKeepsHas(s, step, p, q);
        StepKeepsHas(s, step, q, p);
      }
    }
  }

  lemma StepKeepsReached(s: Network, step: Step, x: PeerId, y: PeerId)
    requires Enabled(s, step) && IsDelivery(step) && y in s.nodes && x != y
    requires Reached(s, x, y)
    ensures Reached(Apply(s, step), x, y)
  {
    var s' := Apply(s, step);
    if Actor(s, step) != y {
      assert s'.nodes[y] == s.nodes[y];
    }
  }

  /** Announcing: the node that accepts `x` tells its whole mesh, and records `x` itself. */
  lemma AcceptAnnounces(s: Network, l: nat, X: set<PeerId>, Y: set<PeerId>)
    requires Enabled(s, Accept(l)) && SideMeshed(s, Y, X)
    requires s.links[l].acceptor in Y
    ensures Y <= Apply(s, Accept(l)).nodes.Keys && Announced(Apply(s, Accept(l)), s.links[l].opener, Y)
  {
  }

  lemma StepKeepsSilent(s: Network, step: Step, x: PeerId, Y: set<PeerId>)
    requires Enabled(s, step) && IsDelivery(step)
    requires Y <= s.nodes.Keys && Silent(s, x, Y)
    requires step.Accept? ==> s.links[step.link].opener != x
    ensures Y <= Apply(s, step).nodes.Keys && Silent(Apply(s, step), x, Y)
  {
    var s' := Apply(s, step);
    forall m | m in s'.joined
      ensures m.who != x
    {
      if step.Accept? {
        AnnouncementsMember(s.nodes[s.links[step.link].acceptor].peers.Keys, s.links[step.link].opener, m);
      }
    }
    forall y | y in Y
      ensures x !in s'.nodes[y].peers && !Targets(s'.nodes[y].op, x)
    {
      SilentNodeKept(s, step, x, y);
    }
  }

  lemma SilentNodeKept(s: Network, step: Step, x: PeerId, y: PeerId)
    requires Enabled(s, step) && IsDelivery(step) && y in s.nodes
    requires x !in s.nodes[y].peers && !Targets(s.nodes[y].op, x)
    requires step.DeliverJoined? ==> step.who != x
    requires step.Accept? ==> s.links[step.link].opener != x
    ensures x !in Apply(s, step).nodes[y].peers && !Targets(Apply(s, step).nodes[y].op, x)
  {
  }

  lemma StepKeepsTold(s: Network, step: Step, X: set<PeerId>, Y: set<PeerId>)
    requires Enabled(s, step) && IsDelivery(step)
    requires SideMeshed(s, X, Y) && SideMeshed(s, Y, X) && X !! Y
    requires ConnectionsCross(s, X, Y) && AllTold(s, X, Y)
    ensures X <= Apply(s, step).nodes.Keys && Y <= Apply(s, step).nodes.Keys
    ensures AllTold(Apply(s, step), X, Y)
  {
    forall x | x in X
      ensures Announced(Apply(s, step), x, Y) || Silent(Apply(s, step), x, Y)
    {
      if Announced(s, x, Y) {
        AnnouncedKept(s, step, x, Y);
      } else if step.Accept? && s.links[step.link].opener == x {
        AcceptAnnounces(s, step.link, X, Y);
      } else {
        StepKeepsSilent(s, step, x, Y);
      }
    }
  }

  lemma AnnouncedKept(s: Network, step: Step, x: PeerId, Y: set<PeerId>)
    requires Enabled(s, step) && IsDelivery(step)
    requires Y <= s.nodes.Keys && Announced(s, x, Y) && x !in Y
    ensures Y <= Apply(s, step).nodes.Keys && Announced(Apply(s, step), x, Y)
  {
    forall y | y in Y
      ensures Reached(Apply(s, step), x, y)
    {
      StepKeepsReached(s, step, x, y);
    }
  }

  lemma LaunchStaysMeshed(n: NodeState, p: PeerId, X: set<PeerId>, Y: set<PeerId>, l: nat, q: PeerId)
    requires NodeMeshed(n, p, X, Y) && p in X && q in Y && X !! Y
    ensures NodeMeshed(LaunchPeer(n, l, q).(op := Idle), p, X, Y)
  {
  }

  lemma NodeStaysMeshed(s: Network, step: Step, p: PeerId, X: set<PeerId>, Y: set<PeerId>)
    requires Enabled(s, step) && IsDelivery(step)
    requires p in X && p in s.nodes && NodeMeshed(s.nodes[p], p, X, Y) && X !! Y
    requires step.DeliverJoined? ==> step.who in X + Y
    requires step.Accept? ==> Crosses(s.links[step.link], X, Y)
    ensures NodeMeshed(Apply(s, step).nodes[p], p, X, Y)
  {
    var n, n' := s.nodes[p], Apply(s, step).nodes[p];
    if Actor(s, step) == p {
      match step
      case Launch(_) => LaunchStaysMeshed(n, p, X, Y, n.op.link, n.op.target);
      case Accept(l) => LaunchStaysMeshed(n, p, X, Y, l, s.links[l].opener);
      case DeliverParty(m) => assert n'.peers.Keys == n.peers.Keys && n'.op == n.op;
      case DeliverJoined(_, x) => assert n' == n || (x !in n.peers && n' == n.(op := Dialing(x)));
      case Dial(_, l) => assert n' == n.(op := Launching(n.op.target, l));
    }
  }

  lemma StepKeepsSide(s: Network, step: Step, X: set<PeerId>, Y: set<PeerId>)
    requires Enabled(s, step) && IsDelivery(step)
    requires SideMeshed(s, X, Y) && X !! Y
    requires step.DeliverJoined? ==> step.who in X + Y
    requires step.Accept? ==> Crosses(s.links[step.link], X, Y)
    ensures SideMeshed(Apply(s, step), X, Y)
  {
    forall p | p in X
      ensures NodeMeshed(Apply(s, step).nodes[p], p, X, Y)
    {
      NodeStaysMeshed(s, step, p, X, Y);
    }
  }

  lemma StepKeepsCrossing(s: Network, step: Step, A: set<PeerId>, B: set<PeerId>)
    requires Enabled(s, step) && IsDelivery(step) && ConnectionsCross(s, A, B)
    requires step.Dial? ==> Crosses(Link(step.node, s.nodes[step.node].op.target, false, false), A, B)
    ensures ConnectionsCross(Apply(s, step), A, B)
  {
  }

  lemma MessagesStayInside(s: Network, step: Step, X: set<PeerId>)
    requires Enabled(s, step) && IsDelivery(step) && MessagesInside(s, X)
    requires step.Accept? ==>
               && s.links[step.link].opener in X
               && s.nodes[s.links[step.link].acceptor].peers.Keys <= X
    ensures MessagesInside(Apply(s, step), X)
  {
  }

  lemma OutsideStaysUntouched(base: Network, s: Network, step: Step, X: set<PeerId>)
    requires Enabled(s, step) && IsDelivery(step)
    requires OutsideUntouched(base, s, X)
    requires step.DeliverParty? || Actor(s, step) in X
    ensures OutsideUntouched(base, Apply(s, step), X)
  {
  }

  lemma StepKeepsMerge(base: Network, s: Network, step: Step, A: set<PeerId>, B: set<PeerId>, b: PeerId)
    requires Enabled(s, step) && IsDelivery(step)
    requires MergeInvariant(base, s, A, B, b)
    ensures MergeInvariant(base, Apply(s, step), A, B, b)
  {
    if step.DeliverJoined? { assert Joined(step.node, step.who).who in A + B; }
    if step.Accept? { assert Crosses(s.links[step.link], A, B); }
    if step.Dial? { DialCrosses(base, s, step.node, A, B); }
    StepKeepsSide(s, step, A, B);
    StepKeepsSide(s, step, B, A);
    StepKeepsCrossing(s, step, A, B);
    StepKeepsMutual(s, step, A, B);
    StepKeepsTold(s, step, A, B);
    ConnectionsCrossBack(s, A, B);
    StepKeepsTold(s, step, B, A);
    AnnouncedKept(s, step, b, A);
    MessagesStayInside(s, step, A + B);
    OutsideStaysUntouched(base, s, step, A + B);
  }

  lemma ConnectionsCrossBack(s: Network, A: set<PeerId>, B: set<PeerId>)
    requires ConnectionsCross(s, A, B)
    ensures ConnectionsCross(s, B, A)
  {
  }

  lemma DialCrosses(base: Network, s: Network, p: PeerId, A: set<PeerId>, B: set<PeerId>)
    requires p in s.nodes && s.nodes[p].op.Dialing?
    requires SideMeshed(s, A, B) && SideMeshed(s, B, A) && OutsideUntouched(base, s, A + B)
    ensures Crosses(Link(p, s.nodes[p].op.target, false, false), A, B)
  {
    assert p in A ==> NodeMeshed(s.nodes[p], p, A, B);
    assert p in B ==> NodeMeshed(s.nodes[p], p, B, A);
  }

  // ----- The start of a merge -----

  /** No node of one mesh has a peer in the other. */
  lemma MeshesAreApart(s: Network, a: PeerId, b: PeerId, x: PeerId, y: PeerId)
    requires Clustered(s) && a in s.nodes && b in s.nodes
    requires Cluster(s, a) !! Cluster(s, b) && x in Cluster(s, a) && y in Cluster(s, b)
    ensures x in s.nodes && y in s.nodes && x != y
    ensures y !in s.nodes[x].peers && x !in s.nodes[y].peers
  {
  }

  lemma FirstAnnouncement(s: Network, a: PeerId, b: PeerId, m: Joined)
    requires Quiescent(s) && Enabled(s, BeginAdd(a, b)) && CheckNewPeer(s.nodes[a], a, b).None?
    ensures m in Apply(s, BeginAdd(a, b)).joined <==> m.to in s.nodes[a].peers && m.who == b
  {
  }

  /** No node of one side has, or dials, a node of the other, save `a` dialling `b`. */
  ghost predicate Apart(s: Network, a: PeerId, b: PeerId, A: set<PeerId>, B: set<PeerId>)
    requires A <= s.nodes.Keys && B <= s.nodes.Keys
  {
    && s.conns == {}
    && (forall p :: p in A ==> s.nodes[p].op.Idle? || (p == a && s.nodes[p].op == Dialing(b)))
    && (forall q :: q in B ==> s.nodes[q].op.Idle?)
    && (forall p, q :: p in A && q in B ==> q !in s.nodes[p].peers && p !in s.nodes[q].peers)
  }

  lemma MergeStartsApart(s: Network, a: PeerId, b: PeerId, A: set<PeerId>, B: set<PeerId>)
    requires Clustered(s) && Quiescent(s)
    requires Enabled(s, BeginAdd(a, b)) && CheckNewPeer(s.nodes[a], a, b).None?
    requires A == Cluster(s, a) && B == Cluster(s, b) && A !! B
    requires A <= s.nodes.Keys && B <= s.nodes.Keys
    ensures Apart(Apply(s, BeginAdd(a, b)), a, b, A, B)
  {
    forall p, q | p in A && q in B
      ensures q !in s.nodes[p].peers && p !in s.nodes[q].peers
    {
      MeshesAreApart(s, a, b, p, q);
    }
  }

  /** The first announcement goes to the mesh of `a`, and `a` itself dials `b`. */
  lemma FirstAnnouncementTells(s: Network, a: PeerId, b: PeerId, A: set<PeerId>, B: set<PeerId>)
    requires A !! B && A <= s.nodes.Keys && B <= s.nodes.Keys && b in B
    requires Apart(s, a, b, A, B)
    requires forall m :: m in s.joined ==> m.to in A && m.who == b
    requires Announced(s, b, A)
    ensures AllTold(s, A, B) && AllTold(s, B, A) && Mutual(s, A, B)
  {
  }

  lemma MergeStartsTold(s: Network, a: PeerId, b: PeerId, A: set<PeerId>)
    requires Quiescent(s) && Enabled(s, BeginAdd(a, b)) && CheckNewPeer(s.nodes[a], a, b).None?
    requires A == Cluster(s, a) && A <= s.nodes.Keys
    ensures var s' := Apply(s, BeginAdd(a, b));
            Announced(s', b, A) && forall m :: m in s'.joined ==> m.to in A && m.who == b
  {
    var s' := Apply(s, BeginAdd(a, b));
    forall m | m in s'.joined ensures m.to in A && m.who == b { FirstAnnouncement(s, a, b, m); }
    forall x | x in A ensures Reached(s', b, x) { FirstAnnouncement(s, a, b, Joined(x, b)); }
  }

  lemma MergeStartsOutside(s: Network, a: PeerId, b: PeerId, X: set<PeerId>)
    requires Quiescent(s) && Enabled(s, BeginAdd(a, b)) && a in X
    ensures OutsideUntouched(s, Apply(s, BeginAdd(a, b)), X)
    ensures Apply(s, BeginAdd(a, b)).conns == {}
  {
  }

  /** The state right after a valid AddPeer call satisfies the invariant. */
  lemma MergeStarts(s: Network, a: PeerId, b: PeerId)
    requires Clustered(s) && Quiescent(s)
    requires Enabled(s, BeginAdd(a, b)) && CheckNewPeer(s.nodes[a], a, b).None?
    ensures MergeInvariant(s, Apply(s, BeginAdd(a, b)), Cluster(s, a), Cluster(s, b), b)
  {
    var A, B := Cluster(s, a), Cluster(s, b);
    SidesAreDisjoint(s, a, b);
    ClusterIsMeshed(s, a, a);
    ClusterIsMeshed(s, b, b);
    MergeStartsMeshed(s, a, b, A, B);
    MergeStartsApart(s, a, b, A, B);
    MergeStartsTold(s, a, b, A);
    MergeStartsOutside(s, a, b, A + B);
    FirstAnnouncementTells(Apply(s, BeginAdd(a, b)), a, b, A, B);
  }

  lemma SidesAreDisjoint(s: Network, a: PeerId, b: PeerId)
    requires Clustered(s) && a in s.nodes && b in s.nodes && b !in Cluster(s, a)
    ensures Cluster(s, a) !! Cluster(s, b)
  {
    forall z | z in Cluster(s, a)
      ensures z !in Cluster(s, b)
    {
      ClusterIsMeshed(s, a, z);
      assert b !in s.nodes[z].peers;
    }
  }

  /** Everybody in a cluster has the same cluster. */
  lemma ClusterIsMeshed(s: Network, a: PeerId, p: PeerId)
    requires Clustered(s) && a in s.nodes && p in Cluster(s, a)
    ensures Cluster(s, a) <= s.nodes.Keys
    ensures s.nodes[p].peers.Keys == Cluster(s, a) - {p}
  {
    assert p != a ==> p in s.nodes[a].peers && a in s.nodes[p].peers;
  }

  lemma MergeStartsMeshed(s: Network, a: PeerId, b: PeerId, A: set<PeerId>, B: set<PeerId>)
    requires Clustered(s) && Quiescent(s)
    requires Enabled(s, BeginAdd(a, b)) && CheckNewPeer(s.nodes[a], a, b).None?
    requires A == Cluster(s, a) && B == Cluster(s, b) && A !! B
    ensures var s' := Apply(s, BeginAdd(a, b));
            SideMeshed(s', A, B) && SideMeshed(s', B, A)
  {
    var s' := Apply(s, BeginAdd(a, b));
    ClusterIsMeshed(s, a, a);
    ClusterIsMeshed(s, b, b);
    forall p | p in A ensures NodeMeshed(s'.nodes[p], p, A, B) { ClusterIsMeshed(s, a, p); }
    forall p | p in B ensures NodeMeshed(s'.nodes[p], p, B, A) { ClusterIsMeshed(s, b, p); }
  }

  // ----- The end of a merge -----

  lemma {:induction false} MergeInEveryRun(base: Network, s: Network, steps: seq<Step>, A: set<PeerId>,
          B: set<PeerId>, b: PeerId)
    requires ValidRun(s, steps) && AllDeliveries(steps)
    requires MergeInvariant(base, s, A, B, b)
    ensures MergeInvariant(base, RunEnd(s, steps), A, B, b)
    decreases |steps|
  {
    if steps != [] {
      StepKeepsMerge(base, s, steps[0], A, B, b);
      MergeInEveryRun(base, Apply(s, steps[0]), steps[1..], A, B, b);
    }
  }

  /** With nothing in flight, having a peer is the same as recording it. */
  lemma QuietHas(s: Network, p: PeerId, q: PeerId)
    requires Quiescent(s) && p in s.nodes && q in s.nodes
    ensures Has(s, p, q) <==> q in s.nodes[p].peers
    ensures Reached(s, p, q) <==> p in s.nodes[q].peers
  {
  }

  /** At quiescence the two sides record each other on both ends of every link. */
  lemma QuietSidesMeet(base: Network, s: Network, A: set<PeerId>, B: set<PeerId>, b: PeerId, x: PeerId, y: PeerId)
    requires MergeInvariant(base, s, A, B, b) && Quiescent(s)
    requires x in A && y in B
    ensures y in s.nodes[x].peers && x in s.nodes[y].peers
  {
    QuietHas(s, b, x);
    QuietHas(s, x, b);
    assert Reached(s, b, x);
    assert Has(s, x, b) <==> Has(s, b, x);
    assert !Silent(s, x, B);
    assert Reached(s, x, y);
    QuietHas(s, x, y);
    QuietHas(s, y, x);
    assert Has(s, x, y) <==> Has(s, y, x);
  }

  /** `s'` is `s` with the clusters of `a` and `b` made one, and nothing else changed. */
  ghost predicate Merged(s: Network, s': Network, a: PeerId, b: PeerId)
    requires a in s.nodes && b in s.nodes
  {
    && s'.nodes.Keys == s.nodes.Keys
    && forall p :: p in s.nodes ==>
         s'.nodes[p].peers.Keys ==
           if p in Cluster(s, a) + Cluster(s, b) then (Cluster(s, a) + Cluster(s, b)) - {p}
           else s.nodes[p].peers.Keys
  }

  lemma MergeEnds(base: Network, s: Network, a: PeerId, b: PeerId)
    requires Clustered(base) && a in base.nodes && b in base.nodes
    requires MergeInvariant(base, s, Cluster(base, a), Cluster(base, b), b) && Quiescent(s)
    ensures Merged(base, s, a, b)
  {
    var A, B := Cluster(base, a), Cluster(base, b);
    forall p | p in A
      ensures s.nodes[p].peers.Keys == (A + B) - {p}
    {
      assert NodeMeshed(s.nodes[p], p, A, B);
      forall y | y in B ensures y in s.nodes[p].peers { QuietSidesMeet(base, s, A, B, b, p, y); }
    }
    forall p | p in B
      ensures s.nodes[p].peers.Keys == (A + B) - {p}
    {
      assert NodeMeshed(s.nodes[p], p, B, A);
      forall x | x in A ensures x in s.nodes[p].peers { QuietSidesMeet(base, s, A, B, b, x, p); }
    }
  }

  /** Nobody outside the two clusters is a peer of somebody inside them. */
  lemma ClustersAreClosed(s: Network, a: PeerId, b: PeerId, p: PeerId, q: PeerId)
    requires Clustered(s) && Quiescent(s) && a in s.nodes && b in s.nodes
    requires p in s.nodes && q in s.nodes[p].peers
    ensures q in s.nodes && p != q && (p in Cluster(s, a) + Cluster(s, b) <==> q in Cluster(s, a) + Cluster(s, b))
  {
  }

  lemma MergedIsClustered(s: Network, s': Network, a: PeerId, b: PeerId)
    requires Clustered(s) && Quiescent(s) && a in s.nodes && b in s.nodes && Merged(s, s', a, b)
    ensures Clustered(s')
  {
    var M := Cluster(s, a) + Cluster(s, b);
    ClusterIsMeshed(s, a, a);
    ClusterIsMeshed(s, b, b);
    forall p, q | p in s'.nodes && q in s'.nodes[p].peers
      ensures q in s'.nodes && q != p && p in s'.nodes[q].peers && (p in M <==> q in M)
    {
      if p !in M { ClustersAreClosed(s, a, b, p, q); }
    }
    forall p, q, r | p in s'.nodes && q in s'.nodes[p].peers && q in s'.nodes && r in s'.nodes[q].peers && r != p
      ensures r in s'.nodes[p].peers
    {
      assert p in M <==> q in M;
      assert q in M <==> r in M;
    }
  }

  /**
    Mesh merge. From any quiescent union of disjoint full meshes, one AddPeer from a node of
    one mesh to a node of another, with every message and connection delivered in any order,
    ends, once nothing is left in flight, with exactly these two meshes made into one; every
    pair is recorded on both sides, and the other meshes are as they were.
   */
  lemma AddPeerMergesMeshes(s: Network, a: PeerId, b: PeerId, steps: seq<Step>)
    requires Clustered(s) && Quiescent(s)
    requires Enabled(s, BeginAdd(a, b)) && CheckNewPeer(s.nodes[a], a, b).None?
    requires ValidRun(Apply(s, BeginAdd(a, b)), steps) && AllDeliveries(steps)
    requires Quiescent(RunEnd(Apply(s, BeginAdd(a, b)), steps))
    ensures Merged(s, RunEnd(Apply(s, BeginAdd(a, b)), steps), a, b)
    ensures Clustered(RunEnd(Apply(s, BeginAdd(a, b)), steps))
  {
    var s1 := Apply(s, BeginAdd(a, b));
    MergeStarts(s, a, b);
    MergeInEveryRun(s, s1, steps, Cluster(s, a), Cluster(s, b), b);
    MergeEnds(s, RunEnd(s1, steps), a, b);
    MergedIsClustered(s, RunEnd(s1, steps), a, b);
  }
}
