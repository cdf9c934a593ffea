/**
  The gossip stops: a weight that every step but a new call, a deletion or a session lowers,
  and a step that can be taken whenever something is left to do.
 */
module Quiescence {
  import opened Basics
  import opened Membership
  import opened Gossip
  import opened PeerTable

  /** `p` neither has `q` as a peer nor is on its way to it. */
  predicate Uncovered(s: Network, p: PeerId, q: PeerId)
    requires p in s.nodes
  {
    p != q && q !in s.nodes[p].peers && !Targets(s.nodes[p].op, q)
  }

  function UncoveredPairs(s: Network): set<(PeerId, PeerId)> {
    set p, q | p in s.nodes.Keys && q in s.nodes.Keys && Uncovered(s, p, q) :: (p, q)
  }

  function Dialers(s: Network): set<PeerId> {
    set p | p in s.nodes.Keys && s.nodes[p].op.Dialing?
  }

  function Launchers(s: Network): set<PeerId> {
    set p | p in s.nodes.Keys && s.nodes[p].op.Launching?
  }

  /** How much of each kind of work is still open. */
  datatype Work = Work(pairs: nat, dialers: nat, launchers: nat, conns: nat, joined: nat, parties: nat)

  function OpenWork(s: Network): Work {
    Work(|UncoveredPairs(s)|, |Dialers(s)|, |Launchers(s)|, |s.conns|, |s.joined|, |s.parties|)
  }

  function Times(k: nat, x: nat): nat {
    k * x
  }

  /** The most that a network of `n` nodes can still do about this work. */
  function Total(n: nat, w: Work): nat {
    Times(2 * n + 3, w.pairs) + Times(2 * n + 4, w.dialers) + 2 * w.launchers
      + Times(2 * n + 1, w.conns) + 2 * w.joined + w.parties
  }

  function Weight(s: Network): nat {
    Total(|s.nodes.Keys|, OpenWork(s))
  }

  /** The steps that carry on, or give up, what has been started. */
  predicate Settles(step: Step) {
    IsDelivery(step) || IsLoss(step) || step.DialFails?
  }

  lemma AnnouncementsCount(dests: set<PeerId>, who: PeerId)
    ensures |Announcements(dests, who)| == |dests|
  {
    var announced := set q | q in dests :: Joined(q, who);
    SameSize(dests, announced, who);
    assert |multiset(announced)| == |announced|;
  }

  lemma {:induction false} SameSize(dests: set<PeerId>, announced: set<Joined>, who: PeerId)
    requires announced == set q | q in dests :: Joined(q, who)
    ensures |announced| == |dests|
    decreases dests
  {
    if dests != {} {
      var q :| q in dests;
      var rest := set r | r in dests - {q} :: Joined(r, who);
      SameSize(dests - {q}, rest, who);
      assert announced == rest + {Joined(q, who)};
    }
  }

  lemma TimesMonotone(k: nat, x: nat, y: nat)
    requires x <= y
    ensures Times(k, x) <= Times(k, y)
  {
    assert Times(k, y) == Times(k, x) + k * (y - x);
  }

  lemma TimesNext(k: nat, x: nat)
    ensures Times(k, x + 1) == Times(k, x) + k
  {
  }

  lemma SmallerSet<T>(small: set<T>, large: set<T>)
    requires small <= large
    ensures |small| <= |large|
  {
    assert large == small + (large - small);
  }

  lemma Another<T>(all: set<T>, p: T) returns (q: T)
    requires |all| > 1 && p in all
    ensures q in all && q != p
  {
    assert |all - {p}| == |all| - 1;
    q :| q in all - {p};
  }

  // ----- How a step changes each part -----

  lemma CoverageKept(s: Network, step: Step)
    requires Enabled(s, step) && Settles(step) && !step.DialFails?
    ensures UncoveredPairs(Apply(s, step)) <= UncoveredPairs(s)
    ensures |UncoveredPairs(Apply(s, step))| <= |UncoveredPairs(s)|
  {
    var s' := Apply(s, step);
    forall p, q | p in s.nodes && q in s.nodes && Uncovered(s', p, q)
      ensures Uncovered(s, p, q)
    {
      if Actor(s, step) == p {
        var n, n' := s.nodes[p], s'.nodes[p];
        match step
        case Launch(_) => assert n' == LaunchPeer(n, n.op.link, n.op.target).(op := Idle);
        case Accept(l) => assert n' == LaunchPeer(n, l, s.links[l].opener).(op := Idle);
        case DeliverParty(m) => assert n' == RecordParty(n, s.links[m.link].Other(p), m.party);
        case Dial(_, l) => assert n' == n.(op := Launching(n.op.target, l));
        case _ =>
      }
    }
    SmallerSet(UncoveredPairs(s'), UncoveredPairs(s));
  }

  /** The nodes that dial or launch, after a step that only changes the operation of `p`. */
  lemma OperationsChange(s: Network, s': Network, p: PeerId)
    requires ActsAt(s, s', p) && p in s.nodes
    ensures Dialers(s') == if s'.nodes[p].op.Dialing? then Dialers(s) + {p} else Dialers(s) - {p}
    ensures Launchers(s') == if s'.nodes[p].op.Launching? then Launchers(s) + {p} else Launchers(s) - {p}
  {
  }

  // ----- What each kind of change does to the total -----

  lemma LessIsLess(n: nat, w: Work, w': Work)
    requires w'.pairs <= w.pairs && w'.dialers == w.dialers && w'.launchers <= w.launchers
    requires w'.conns <= w.conns && w'.joined <= w.joined && w'.parties <= w.parties
    requires w'.conns < w.conns || w'.joined < w.joined || w'.parties < w.parties
    ensures Total(n, w') < Total(n, w)
  {
    TimesMonotone(2 * n + 3, w'.pairs, w.pairs);
    if w'.conns < w.conns {
      TimesMonotone(2 * n + 1, w'.conns + 1, w.conns);
      TimesNext(2 * n + 1, w'.conns);
    }
  }

  lemma StartingToDial(n: nat, w: Work, w': Work)
    requires w'.pairs < w.pairs && w'.dialers == w.dialers + 1 && w'.joined + 1 == w.joined
    requires w'.launchers == w.launchers && w'.conns == w.conns && w'.parties == w.parties
    ensures Total(n, w') < Total(n, w)
  {
    TimesMonotone(2 * n + 3, w'.pairs + 1, w.pairs);
    TimesNext(2 * n + 3, w'.pairs);
    TimesNext(2 * n + 4, w.dialers);
  }

  lemma OpeningAStream(n: nat, w: Work, w': Work)
    requires w'.pairs <= w.pairs && w'.dialers + 1 == w.dialers && w'.launchers == w.launchers + 1
    requires w'.conns == w.conns + 1 && w'.joined == w.joined && w'.parties == w.parties
    ensures Total(n, w') < Total(n, w)
  {
    TimesMonotone(2 * n + 3, w'.pairs, w.pairs);
    TimesNext(2 * n + 4, w'.dialers);
    TimesNext(2 * n + 1, w.conns);
  }

  lemma GivingUp(n: nat, w: Work, w': Work)
    requires w'.pairs <= w.pairs + 1 && w'.dialers + 1 == w.dialers && w'.launchers == w.launchers
    requires w'.conns == w.conns && w'.joined == w.joined && w'.parties == w.parties
    ensures Total(n, w') < Total(n, w)
  {
    TimesMonotone(2 * n + 3, w'.pairs, w.pairs + 1);
    TimesNext(2 * n + 3, w.pairs);
    TimesNext(2 * n + 4, w'.dialers);
  }

  lemma Accepting(n: nat, w: Work, w': Work)
    requires w'.pairs <= w.pairs && w'.dialers == w.dialers && w'.launchers == w.launchers
    requires w'.conns + 1 == w.conns && w'.joined <= w.joined + n - 1 && w'.parties == w.parties + 1
    ensures Total(n, w') < Total(n, w)
  {
    TimesMonotone(2 * n + 3, w'.pairs, w.pairs);
    TimesNext(2 * n + 1, w'.conns);
  }

  lemma RaisingAnEnd(n: nat, w: Work, w': Work)
    requires w'.pairs <= w.pairs && w'.dialers == w.dialers && w'.launchers + 1 == w.launchers
    requires w'.conns == w.conns && w'.joined == w.joined && w'.parties == w.parties + 1
    ensures Total(n, w') < Total(n, w)
  {
    TimesMonotone(2 * n + 3, w'.pairs, w.pairs);
  }

  // ----- Each step lowers the weight -----

  lemma SameNodesSameWork(s: Network, s': Network)
    requires s'.nodes == s.nodes
    ensures UncoveredPairs(s') == UncoveredPairs(s) && Dialers(s') == Dialers(s) && Launchers(s') == Launchers(s)
  {
  }

  lemma IgnoredSettles(s: Network, p: PeerId, x: PeerId)
    requires Enabled(s, DeliverJoined(p, x))
    requires x == p || x in s.nodes[p].peers
    ensures Weight(Apply(s, DeliverJoined(p, x))) < Weight(s)
  {
    var s' := Apply(s, DeliverJoined(p, x));
    SameNodesSameWork(s, s');
    LessIsLess(|s.nodes.Keys|, OpenWork(s), OpenWork(s'));
  }

  /** Starting to dial covers a pair that was not covered before. */
  lemma StartedPair(s: Network, p: PeerId, x: PeerId)
    requires Enabled(s, DeliverJoined(p, x)) && x in s.nodes
    requires x != p && x !in s.nodes[p].peers
    ensures |UncoveredPairs(Apply(s, DeliverJoined(p, x)))| < |UncoveredPairs(s)|
  {
    var s' := Apply(s, DeliverJoined(p, x));
    CoverageKept(s, DeliverJoined(p, x));
    assert (p, x) in UncoveredPairs(s) && (p, x) !in UncoveredPairs(s');
    SmallerSet(UncoveredPairs(s'), UncoveredPairs(s) - {(p, x)});
  }

  lemma DeliverJoinedSettles(s: Network, p: PeerId, x: PeerId)
    requires Enabled(s, DeliverJoined(p, x)) && x in s.nodes
    ensures Weight(Apply(s, DeliverJoined(p, x))) < Weight(s)
  {
    if x == p || x in s.nodes[p].peers {
      IgnoredSettles(s, p, x);
    } else {
      var s' := Apply(s, DeliverJoined(p, x));
      StartedPair(s, p, x);
      OperationsChange(s, s', p);
      assert Dialers(s') == Dialers(s) + {p} && Launchers(s') == Launchers(s);
      StartingToDial(|s.nodes.Keys|, OpenWork(s), OpenWork(s'));
    }
  }

  lemma DialSettles(s: Network, p: PeerId, l: nat)
    requires Enabled(s, Dial(p, l)) && l !in s.conns
    ensures Weight(Apply(s, Dial(p, l))) < Weight(s)
  {
    var s' := Apply(s, Dial(p, l));
    CoverageKept(s, Dial(p, l));
    OperationsChange(s, s', p);
    assert Dialers(s) == Dialers(s') + {p} && Launchers(s') == Launchers(s) + {p};
    OpeningAStream(|s.nodes.Keys|, OpenWork(s), OpenWork(s'));
  }

  lemma DialFailsSettles(s: Network, p: PeerId)
    requires Enabled(s, DialFails(p))
    ensures Weight(Apply(s, DialFails(p))) < Weight(s)
  {
    var s' := Apply(s, DialFails(p));
    var given := UncoveredPairs(s) + {(p, s.nodes[p].op.target)};
    forall r, q | r in s.nodes && q in s.nodes && Uncovered(s', r, q)
      ensures (r, q) in given
    {
    }
    SmallerSet(UncoveredPairs(s'), given);
    OperationsChange(s, s', p);
    assert Dialers(s) == Dialers(s') + {p} && Launchers(s') == Launchers(s);
    GivingUp(|s.nodes.Keys|, OpenWork(s), OpenWork(s'));
  }

  lemma LaunchSettles(s: Network, p: PeerId)
    requires Enabled(s, Launch(p))
    ensures Weight(Apply(s, Launch(p))) < Weight(s)
  {
    var s' := Apply(s, Launch(p));
    CoverageKept(s, Launch(p));
    OperationsChange(s, s', p);
    assert Dialers(s') == Dialers(s) && Launchers(s) == Launchers(s') + {p};
    RaisingAnEnd(|s.nodes.Keys|, OpenWork(s), OpenWork(s'));
  }

  lemma AcceptedWork(s: Network, l: nat)
    requires Enabled(s, Accept(l))
    requires s.nodes[s.links[l].acceptor].peers.Keys <= s.nodes.Keys - {s.links[l].acceptor}
    ensures var s' := Apply(s, Accept(l));
            && |s'.conns| + 1 == |s.conns|
            && |s'.joined| <= |s.joined| + |s.nodes.Keys| - 1
            && |s'.parties| == |s.parties| + 1
  {
    var p, s' := s.links[l].acceptor, Apply(s, Accept(l));
    var told := s.nodes[p].peers.Keys;
    SmallerSet(told, s.nodes.Keys - {p});
    AnnouncementsCount(told, s.links[l].opener);
    assert s.conns == s'.conns + {l};
  }

  lemma AcceptSettles(s: Network, l: nat)
    requires Enabled(s, Accept(l))
    requires s.nodes[s.links[l].acceptor].peers.Keys <= s.nodes.Keys - {s.links[l].acceptor}
    ensures Weight(Apply(s, Accept(l))) < Weight(s)
  {
    var p, s' := s.links[l].acceptor, Apply(s, Accept(l));
    CoverageKept(s, Accept(l));
    AcceptedWork(s, l);
    OperationsChange(s, s', p);
    assert Dialers(s') == Dialers(s) && Launchers(s') == Launchers(s);
    Accepting(|s.nodes.Keys|, OpenWork(s), OpenWork(s'));
  }

  lemma DeliverPartySettles(s: Network, m: PartyMsg)
    requires Enabled(s, DeliverParty(m))
    ensures Weight(Apply(s, DeliverParty(m))) < Weight(s)
  {
    var s' := Apply(s, DeliverParty(m));
    CoverageKept(s, DeliverParty(m));
    OperationsChange(s, s', m.to);
    assert Dialers(s') == Dialers(s) && Launchers(s') == Launchers(s);
    LessIsLess(|s.nodes.Keys|, OpenWork(s), OpenWork(s'));
  }

  lemma LossSettles(s: Network, step: Step)
    requires Enabled(s, step) && IsLoss(step)
    ensures Weight(Apply(s, step)) < Weight(s)
  {
    var s' := Apply(s, step);
    SameNodesSameWork(s, s');
    assert step.LoseConnection? ==> s.conns == s'.conns + {step.link};
    LessIsLess(|s.nodes.Keys|, OpenWork(s), OpenWork(s'));
  }

  /** The facts about the peer tables that the weight argument uses. */
  predicate TablesFit(s: Network, step: Step)
    requires Enabled(s, step)
  {
    match step
    case DeliverJoined(p, x) => x in s.nodes
    case Dial(p, l) => l !in s.conns
    case Accept(l) => s.nodes[s.links[l].acceptor].peers.Keys <= s.nodes.Keys - {s.links[l].acceptor}
    case _ => true
  }

  lemma TablesDoFit(s: Network, step: Step)
    requires Enabled(s, step) && TableInvariant(s)
    ensures TablesFit(s, step)
  {
  }

  /** Every delivery, acceptance, loss or failed dial lowers the weight. */
  lemma StepSettles(s: Network, step: Step)
    requires Enabled(s, step) && Settles(step) && TablesFit(s, step)
    ensures Weight(Apply(s, step)) < Weight(s)
  {
    match step
    case DeliverJoined(p, x) => DeliverJoinedSettles(s, p, x);
    case Dial(p, l) => DialSettles(s, p, l);
    case DialFails(p) => DialFailsSettles(s, p);
    case Launch(p) => LaunchSettles(s, p);
    case Accept(l) => AcceptSettles(s, l);
    case DeliverParty(m) => DeliverPartySettles(s, m);
    case LoseJoined(_, _) => LossSettles(s, step);
    case LoseParty(_) => LossSettles(s, step);
    case LoseConnection(_) => LossSettles(s, step);
  }

  /**
    The flood stops: from any reachable state, a run in which nobody starts anything new has
    at most as many steps, and so delivers at most as many messages, as the weight says.
   */
  lemma {:induction false} GossipQuiesces(s: Network, steps: seq<Step>)
    requires ValidRun(s, steps) && TableInvariant(s)
    requires forall k :: 0 <= k < |steps| ==> Settles(steps[k])
    ensures |steps| + Weight(RunEnd(s, steps)) <= Weight(s)
    decreases |steps|
  {
    if steps != [] {
      TablesDoFit(s, steps[0]);
      StepSettles(s, steps[0]);
      StepKeepsTables(s, steps[0]);
      GossipQuiesces(Apply(s, steps[0]), steps[1..]);
    }
  }
}
