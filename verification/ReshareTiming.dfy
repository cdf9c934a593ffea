/**
  Which parties a reshare drops, by the order of events (start.go, reshare.go): a PartyId that
  reaches a node before the node's own end meets the busy flag and is lost for good.
 */
module ReshareTiming {
  import opened Basics
  import opened Membership
  import opened Gossip
  import opened PeerTable
  import opened Directory
  import opened KeyGenCommittee
  import opened Rotation
  import opened NextCommittee

  // ----- The runs that the flag and the library allow -----

  /**
    Nobody begins again after its end, nobody ends before all have begun, since the library needs
    every party, and a PartyId is lost only at a node whose flag is set.
   */
  predicate InTime(s: Network, g: Progress, step: Step) {
    match step
    case BeginSession(p) => p !in g.done
    case EndReshare(_, _, _) => forall q :: q in s.nodes && q !in g.done ==> s.nodes[q].op.InSession?
    case LoseParty(m) => !IsIdle(s, m.to)
    case _ => true
  }

  predicate Timely(s: Network, g: Progress, steps: seq<Step>)
    decreases |steps|
  {
    steps == [] ||
    (&& Enabled(s, steps[0]) && InTime(s, g, steps[0])
     && Timely(Apply(s, steps[0]), After(s.links, g, steps[0]), steps[1..]))
  }

  /** A reshare of all nodes in such a run. */
  ghost predicate TimelyReshare(s: Network, steps: seq<Step>) {
    Reshare(s, steps) && Timely(s, BEGUN, steps)
  }

  // ----- The order of events -----

  /** `q`'s party reaches `p`, whatever `p` does with it. */
  predicate Arrives(links: map<nat, Link>, step: Step, p: PeerId, q: PeerId) {
    && (step.DeliverParty? || step.LoseParty?)
    && step.msg.to == p && step.msg.link in links && links[step.msg.link].Other(p) == q
  }

  predicate Ends(step: Step, p: PeerId) {
    step.EndReshare? && step.node == p
  }

  predicate EndsIn(steps: seq<Step>, p: PeerId) {
    exists j :: 0 <= j < |steps| && Ends(steps[j], p)
  }

  /** `q`'s party reaches `p` before `p`'s own end. */
  predicate Early(links: map<nat, Link>, steps: seq<Step>, p: PeerId, q: PeerId) {
    exists i, j :: 0 <= i < j < |steps| && Arrives(links, steps[i], p, q) && Ends(steps[j], p)
  }

  /** `p` ends before `q` does. */
  predicate EndsBefore(steps: seq<Step>, p: PeerId, q: PeerId) {
    exists i, j :: 0 <= i < j < |steps| && Ends(steps[i], p) && Ends(steps[j], q)
  }

  lemma EndsInUnfolds(steps: seq<Step>, p: PeerId)
    requires steps != []
    ensures EndsIn(steps, p) <==> Ends(steps[0], p) || EndsIn(steps[1..], p)
  {
    if j :| 0 <= j < |steps| && Ends(steps[j], p) {
      assert j > 0 ==> steps[1..][j - 1] == steps[j];
    }
    if j :| 0 <= j < |steps[1..]| && Ends(steps[1..][j], p) {
      assert steps[j + 1] == steps[1..][j];
    }
  }

  lemma EarlyUnfolds(links: map<nat, Link>, steps: seq<Step>, p: PeerId, q: PeerId)
    requires steps != []
    ensures Early(links, steps, p, q) <==>
            (Arrives(links, steps[0], p, q) && EndsIn(steps[1..], p)) || Early(links, steps[1..], p, q)
  {
    if i, j :| 0 <= i < j < |steps| && Arrives(links, steps[i], p, q) && Ends(steps[j], p) {
      assert steps[1..][j - 1] == steps[j];
      assert i > 0 ==> steps[1..][i - 1] == steps[i];
    }
    if Arrives(links, steps[0], p, q) && EndsIn(steps[1..], p) {
      var j :| 0 <= j < |steps[1..]| && Ends(steps[1..][j], p);
      assert steps[j + 1] == steps[1..][j];
    }
    if i, j :| 0 <= i < j < |steps[1..]| && Arrives(links, steps[1..][i], p, q) && Ends(steps[1..][j], p) {
      assert steps[i + 1] == steps[1..][i] && steps[j + 1] == steps[1..][j];
    }
  }

  lemma EndsBeforeUnfolds(steps: seq<Step>, p: PeerId, q: PeerId)
    requires steps != []
    ensures EndsBefore(steps, p, q) <==> (Ends(steps[0], p) && EndsIn(steps[1..], q)) || EndsBefore(steps[1..], p, q)
  {
    if i, j :| 0 <= i < j < |steps| && Ends(steps[i], p) && Ends(steps[j], q) {
      assert steps[1..][j - 1] == steps[j];
      assert i > 0 ==> steps[1..][i - 1] == steps[i];
    }
    if Ends(steps[0], p) && EndsIn(steps[1..], q) {
      var j :| 0 <= j < |steps[1..]| && Ends(steps[1..][j], q);
      assert steps[j + 1] == steps[1..][j];
    }
    if i, j :| 0 <= i < j < |steps[1..]| && Ends(steps[1..][i], p) && Ends(steps[1..][j], q) {
      assert steps[i + 1] == steps[1..][i] && steps[j + 1] == steps[1..][j];
    }
  }

  /** A node ends in the rest of a run exactly if it is done at the end and is not yet. */
  lemma {:induction false} EndsExactlyOnce(links: map<nat, Link>, g: Progress, steps: seq<Step>, p: PeerId)
    requires ReshareRun(links, g, steps)
    ensures p in AtEnd(links, g, steps).done <==> p in g.done || EndsIn(steps, p)
    ensures p in g.done ==> !EndsIn(steps, p)
    decreases |steps|
  {
    if steps != [] {
      EndsInUnfolds(steps, p);
      EndsExactlyOnce(links, After(links, g, steps[0]), steps[1..], p);
    }
  }

  // ----- The flag while the run goes on -----

  /** Until the first end nothing is sent; from then on a node's flag is set until its own end. */
  ghost predicate Phase(s: Network, g: Progress) {
    && g.done <= s.nodes.Keys
    && (g.done == {} ==> s.parties == multiset{})
    && (g.done != {} ==> forall p :: p in s.nodes ==> s.nodes[p].op == if p in g.done then Idle else InSession)
  }

  lemma BeginKeepsPhase(s: Network, g: Progress, p: PeerId)
    requires Enabled(s, BeginSession(p)) && Phase(s, g) && p !in g.done
    ensures Phase(Apply(s, BeginSession(p)), g)
  {
  }

  lemma EndKeepsPhase(s: Network, g: Progress, step: Step)
    requires step.EndReshare? && Enabled(s, step) && InTime(s, g, step) && Phase(s, g) && step.node !in g.done
    ensures Phase(Apply(s, step), After(s.links, g, step))
  {
  }

  lemma ArrivalKeepsPhase(s: Network, g: Progress, step: Step)
    requires step.DeliverParty? || step.LoseParty?
    requires Enabled(s, step) && InTime(s, g, step) && Phase(s, g)
    ensures Phase(Apply(s, step), After(s.links, g, step))
    ensures step.msg.to in g.done <==> step.DeliverParty?
  {
  }

  lemma StepKeepsPhase(s: Network, g: Progress, step: Step)
    requires Enabled(s, step) && IsReshareStep(step) && InTime(s, g, step) && Phase(s, g)
    requires step.EndReshare? ==> step.node !in g.done
    ensures Phase(Apply(s, step), After(s.links, g, step))
    ensures step.LoseParty? ==> step.msg.to !in g.done
    ensures step.DeliverParty? ==> step.msg.to in g.done
  {
    match step
    case BeginSession(p) => BeginKeepsPhase(s, g, p);
    case EndReshare(_, _, _) => EndKeepsPhase(s, g, step);
    case _ => ArrivalKeepsPhase(s, g, step);
  }

  lemma {:induction false} LostIffEarlyFrom(s: Network, g: Progress, steps: seq<Step>, p: PeerId, q: PeerId)
    requires ValidRun(s, steps) && ReshareRun(s.links, g, steps) && Timely(s, g, steps) && Phase(s, g)
    requires p in AtEnd(s.links, g, steps).done
    ensures (p, q) in AtEnd(s.links, g, steps).lost <==> (p, q) in g.lost || Early(s.links, steps, p, q)
    decreases |steps|
  {
    if steps != [] {
      EarlyUnfolds(s.links, steps, p, q);
      StepKeepsPhase(s, g, steps[0]);
      LinksUntouched(s, steps[0]);
      EndsExactlyOnce(s.links, After(s.links, g, steps[0]), steps[1..], p);
      LostIffEarlyFrom(Apply(s, steps[0]), After(s.links, g, steps[0]), steps[1..], p, q);
    }
  }

  /**
    What was dropped, from the order of events alone: `p` dropped `q`'s party if and only if it
    reached `p` before `p`'s own end.
   */
  lemma DroppedIffEarly(s: Network, steps: seq<Step>, p: PeerId, q: PeerId)
    requires TimelyReshare(s, steps) && p in s.nodes
    ensures (p, q) in Lost(s, steps) <==> Early(s.links, steps, p, q)
  {
    LostIffEarlyFrom(s, BEGUN, steps, p, q);
  }

  // ----- The directories and the committee, by the order of events -----

  /** No party of another node reached `p` before its end. */
  ghost predicate NoneEarly(s: Network, steps: seq<Step>, p: PeerId) {
    forall q :: q in s.nodes ==> !Early(s.links, steps, p, q)
  }

  lemma NothingDroppedIffNoneEarly(s: Network, steps: seq<Step>, p: PeerId)
    requires TimelyReshare(s, steps) && p in s.nodes
    ensures NoneEarly(s, steps, p) <==> forall q :: (p, q) !in Lost(s, steps)
  {
    ReshareRefreshes(s, steps);
    forall q | (p, q) in Lost(s, steps) ensures q in s.nodes && Early(s.links, steps, p, q) {
      LostPair(s, RunEnd(s, steps), Lost(s, steps), (p, q));
      DroppedIffEarly(s, steps, p, q);
    }
    forall q | Early(s.links, steps, p, q) ensures (p, q) in Lost(s, steps) {
      DroppedIffEarly(s, steps, p, q);
    }
  }

  /** The record is exact exactly if the party came in time, and else carries the old keys. */
  predicate RecordFollows(s: Network, s': Network, steps: seq<Step>, p: PeerId, q: PeerId)
    requires q in s.nodes
  {
    && p in s'.nodes && q in s'.nodes && q in s'.nodes[p].peers
    && (ExactRecord(s', p, q) <==> !Early(s.links, steps, p, q))
    && (Early(s.links, steps, p, q) ==> s'.nodes[p].peers[q].party.Identity() == s.nodes[q].self.Identity())
  }

  ghost predicate RecordsFollowTheOrder(s: Network, s': Network, steps: seq<Step>) {
    forall p, q :: p in s.nodes && q in s.nodes && p != q ==> RecordFollows(s, s', steps, p, q)
  }

  lemma RecordFollowsTheOrder(s: Network, steps: seq<Step>, p: PeerId, q: PeerId)
    requires TimelyReshare(s, steps) && KeysChange(s) && p in s.nodes && q in s.nodes && p != q
    ensures RecordFollows(s, RunEnd(s, steps), steps, p, q)
  {
    RecordsAreExactIffNotDropped(s, steps);
    DroppedIffEarly(s, steps, p, q);
  }

  lemma AllRecordsFollow(s: Network, steps: seq<Step>)
    requires TimelyReshare(s, steps) && KeysChange(s)
    ensures RecordsFollowTheOrder(s, RunEnd(s, steps), steps)
  {
    forall p, q | p in s.nodes && q in s.nodes && p != q ensures RecordFollows(s, RunEnd(s, steps), steps, p, q) {
      RecordFollowsTheOrder(s, steps, p, q);
    }
  }

  /**
    A record is exact after a reshare if and only if the party of its peer reached the node after
    the node's own end, and otherwise still carries the old keys; so all directories are
    exact if and only if no party reached anybody early.
   */
  lemma RecordsAreExactIffNoneWasEarly(s: Network, steps: seq<Step>)
    requires TimelyReshare(s, steps) && KeysChange(s)
    ensures RecordsFollowTheOrder(s, RunEnd(s, steps), steps)
    ensures ExactDirectories(RunEnd(s, steps)) <==> forall p :: p in s.nodes ==> NoneEarly(s, steps, p)
  {
    AllRecordsFollow(s, steps);
    RecordsAreExactIffNotDropped(s, steps);
    NothingLostIffNoneEarly(s, steps);
  }

  lemma NothingLostIffNoneEarly(s: Network, steps: seq<Step>)
    requires TimelyReshare(s, steps)
    ensures Lost(s, steps) == {} <==> forall p :: p in s.nodes ==> NoneEarly(s, steps, p)
  {
    ReshareRefreshes(s, steps);
    forall p | p in s.nodes ensures NoneEarly(s, steps, p) <==> forall q :: (p, q) !in Lost(s, steps) {
      NothingDroppedIffNoneEarly(s, steps, p);
    }
    if pair :| pair in Lost(s, steps) {
      LostPair(s, RunEnd(s, steps), Lost(s, steps), pair);
    }
  }

  /** And a node keeps the order of its committee if and only if no party reached it before its end. */
  lemma OrderIsKeptIffNoneWasEarly(s: Network, steps: seq<Step>, p: PeerId, order: seq<PeerId>,
          order': seq<PeerId>, threshold: nat)
    requires TimelyReshare(s, steps) && Aligned(s, true) && MagnitudesChange(s)
    requires p in s.nodes && p in RunEnd(s, steps).nodes
    requires IsOrder(order, s.nodes[p].peers.Keys) && IsOrder(order', RunEnd(s, steps).nodes[p].peers.Keys)
    requires threshold <= |s.nodes[p].peers|
    ensures KeepsCommittee(s, RunEnd(s, steps), p, order, order', threshold) <==> NoneEarly(s, steps, p)
  {
    OrderIsKeptIffNothingDropped(s, steps, p, order, order', threshold);
    NothingDroppedIffNoneEarly(s, steps, p);
  }

  // ----- Who can be early -----

  /** What is in flight was sent by a node that is done. */
  ghost predicate SendersDone(s: Network, g: Progress) {
    forall m :: m in s.parties && m.link in s.links ==> s.links[m.link].Other(m.to) in g.done
  }

  lemma SentFrom(s: Network, step: Step, m: PartyMsg)
    requires Enabled(s, step) && step.EndReshare? && NodeOk(s.links, s.nodes.Keys, step.node, s.nodes[step.node])
    requires m in Apply(s, step).parties && m !in s.parties
    ensures m.link in s.links && s.links[m.link].Other(m.to) == step.node
  {
    var self := Rotate(s.nodes[step.node].self, step.freshKey).(index := step.index);
    IntroductionsMember(s.nodes[step.node].peers, self, m);
    assert RecordOk(s.links, step.node, m.to, s.nodes[step.node].peers[m.to]);
  }

  lemma SenderIsDone(s: Network, g: Progress, step: Step, m: PartyMsg)
    requires Enabled(s, step) && IsReshareStep(step) && m in Apply(s, step).parties && m.link in s.links
    requires m in s.parties ==> s.links[m.link].Other(m.to) in g.done
    requires step.EndReshare? ==> NodeOk(s.links, s.nodes.Keys, step.node, s.nodes[step.node])
    ensures s.links[m.link].Other(m.to) in After(s.links, g, step).done
  {
    if m !in s.parties {
      SentFrom(s, step, m);
    }
  }

  lemma StepKeepsSendersDone(s: Network, g: Progress, step: Step)
    requires Enabled(s, step) && IsReshareStep(step) && SendersDone(s, g)
    requires step.EndReshare? ==> NodeOk(s.links, s.nodes.Keys, step.node, s.nodes[step.node])
    ensures SendersDone(Apply(s, step), After(s.links, g, step))
  {
    LinksUntouched(s, step);
    forall m | m in Apply(s, step).parties && m.link in s.links
      ensures s.links[m.link].Other(m.to) in After(s.links, g, step).done
    {
      SenderIsDone(s, g, step, m);
    }
  }

  lemma EarlyEnds(links: map<nat, Link>, steps: seq<Step>, p: PeerId, q: PeerId)
    requires Early(links, steps, p, q)
    ensures EndsIn(steps, p)
  {
  }

  lemma ArrivalIsFromDone(s: Network, g: Progress, step: Step, p: PeerId, q: PeerId)
    requires Enabled(s, step) && SendersDone(s, g) && Arrives(s.links, step, p, q)
    ensures q in g.done
  {
  }

  lemma NewlyDone(links: map<nat, Link>, g: Progress, step: Step, q: PeerId)
    requires q in After(links, g, step).done
    ensures q in g.done || Ends(step, q)
  {
  }

  ghost predicate SoundSenders(s: Network, g: Progress) {
    TableInvariant(s) && SendersDone(s, g)
  }

  lemma StepKeepsSenders(s: Network, g: Progress, step: Step)
    requires Enabled(s, step) && IsReshareStep(step) && SoundSenders(s, g)
    ensures SoundSenders(Apply(s, step), After(s.links, g, step))
  {
    StepKeepsSendersDone(s, g, step);
    StepKeepsTables(s, step);
  }

  lemma {:induction false} EarlyIsFromDone(s: Network, g: Progress, steps: seq<Step>, p: PeerId, q: PeerId)
    requires ValidRun(s, steps) && ReshareRun(s.links, g, steps) && SoundSenders(s, g)
    requires Early(s.links, steps, p, q)
    ensures q in g.done || EndsBefore(steps, q, p)
    decreases |steps|
  {
    EarlyUnfolds(s.links, steps, p, q);
    if Early(s.links, steps[1..], p, q) {
      EndsBeforeUnfolds(steps, q, p);
      EarlyEnds(s.links, steps[1..], p, q);
      LinksUntouched(s, steps[0]);
      StepKeepsSenders(s, g, steps[0]);
      EarlyIsFromDone(Apply(s, steps[0]), After(s.links, g, steps[0]), steps[1..], p, q);
      if q in After(s.links, g, steps[0]).done {
        NewlyDone(s.links, g, steps[0], q);
      }
    } else {
      ArrivalIsFromDone(s, g, steps[0], p, q);
    }
  }

  /** A party can only be early at a node that ends later than its sender. */
  lemma EarlyMeansLater(s: Network, steps: seq<Step>, p: PeerId, q: PeerId)
    requires Reshare(s, steps) && Early(s.links, steps, p, q)
    ensures EndsBefore(steps, q, p)
  {
    EarlyIsFromDone(s, BEGUN, steps, p, q);
  }

  lemma SecondEnds(steps: seq<Step>, p: PeerId, q: PeerId)
    requires EndsBefore(steps, p, q)
    ensures EndsIn(steps, q)
  {
  }

  /** Of two nodes one ends first. */
  lemma {:induction false} OneEndsFirst(links: map<nat, Link>, g: Progress, steps: seq<Step>, p: PeerId, q: PeerId)
    requires ReshareRun(links, g, steps) && p != q && p !in g.done && q !in g.done
    requires p in AtEnd(links, g, steps).done && q in AtEnd(links, g, steps).done
    ensures EndsBefore(steps, p, q) <==> !EndsBefore(steps, q, p)
    decreases |steps|
  {
    if steps != [] {
      var g', rest := After(links, g, steps[0]), steps[1..];
      EndsBeforeUnfolds(steps, p, q);
      EndsBeforeUnfolds(steps, q, p);
      EndsExactlyOnce(links, g', rest, p);
      EndsExactlyOnce(links, g', rest, q);
      if Ends(steps[0], p) || Ends(steps[0], q) {
        if EndsBefore(rest, p, q) { SecondEnds(rest, p, q); FirstEnds(rest, p, q); }
        if EndsBefore(rest, q, p) { SecondEnds(rest, q, p); FirstEnds(rest, q, p); }
      } else {
        OneEndsFirst(links, g', rest, p, q);
      }
    }
  }

  lemma FirstEnds(steps: seq<Step>, p: PeerId, q: PeerId)
    requires EndsBefore(steps, p, q)
    ensures EndsIn(steps, p)
  {
  }

  lemma NotBothAreEarly(s: Network, steps: seq<Step>, p: PeerId, q: PeerId)
    requires Reshare(s, steps) && p in s.nodes && q in s.nodes && p != q
    ensures !Early(s.links, steps, p, q) || !Early(s.links, steps, q, p)
  {
    OneEndsFirst(s.links, BEGUN, steps, p, q);
    if Early(s.links, steps, p, q) {
      EarlyMeansLater(s, steps, p, q);
    }
    if Early(s.links, steps, q, p) {
      EarlyMeansLater(s, steps, q, p);
    }
  }

  /** In every reshare, then, at least one of any two nodes has the other's new keys. */
  lemma AtMostOneOfTwoIsStale(s: Network, steps: seq<Step>, p: PeerId, q: PeerId)
    requires TimelyReshare(s, steps) && KeysChange(s) && p in s.nodes && q in s.nodes && p != q
    ensures var s' := RunEnd(s, steps);
            && p in s'.nodes && q in s'.nodes && q in s'.nodes[p].peers && p in s'.nodes[q].peers
            && (ExactRecord(s', p, q) || ExactRecord(s', q, p))
  {
    RecordFollowsTheOrder(s, steps, p, q);
    RecordFollowsTheOrder(s, steps, q, p);
    NotBothAreEarly(s, steps, p, q);
  }

  // ----- Parties that arrive at once -----

  /** Whenever a node ends, every party sent before has reached its receiver. */
  predicate Prompt(s: Network, steps: seq<Step>)
    decreases |steps|
  {
    steps == [] ||
    (&& Enabled(s, steps[0]) && (steps[0].EndReshare? ==> s.parties == multiset{})
     && Prompt(Apply(s, steps[0]), steps[1..]))
  }

  lemma StaysUntilItArrives(s: Network, step: Step, m: PartyMsg)
    requires Enabled(s, step) && IsReshareStep(step) && m in s.parties && m.link in s.links
    ensures m in Apply(s, step).parties || Arrives(s.links, step, m.to, s.links[m.link].Other(m.to))
  {
  }

  /** A party in flight arrives before anybody ends, so before its receiver does. */
  lemma {:induction false} SentArrives(s: Network, g: Progress, steps: seq<Step>, m: PartyMsg)
    requires ValidRun(s, steps) && ReshareRun(s.links, g, steps) && Prompt(s, steps)
    requires m in s.parties && m.link in s.links && EndsIn(steps, m.to)
    ensures Early(s.links, steps, m.to, s.links[m.link].Other(m.to))
    decreases |steps|
  {
    var q := s.links[m.link].Other(m.to);
    EndsInUnfolds(steps, m.to);
    EarlyUnfolds(s.links, steps, m.to, q);
    LinksUntouched(s, steps[0]);
    if !Arrives(s.links, steps[0], m.to, q) {
      StaysUntilItArrives(s, steps[0], m);
      SentArrives(Apply(s, steps[0]), After(s.links, g, steps[0]), steps[1..], m);
    }
  }

  lemma EndSendsTo(s: Network, step: Step, p: PeerId) returns (m: PartyMsg)
    requires Enabled(s, step) && step.EndReshare? && NodeOk(s.links, s.nodes.Keys, step.node, s.nodes[step.node])
    requires p in s.nodes[step.node].peers
    ensures m in Apply(s, step).parties && m.to == p && m.link in s.links && s.links[m.link].Other(p) == step.node
  {
    var n := s.nodes[step.node];
    var self := Rotate(n.self, step.freshKey).(index := step.index);
    m := PartyMsg(n.peers[p].link, p, self);
    IntroductionsMember(n.peers, self, m);
    assert RecordOk(s.links, step.node, p, n.peers[p]);
  }

  lemma {:induction false} LaterIsEarlyFrom(s: Network, g: Progress, steps: seq<Step>, p: PeerId, q: PeerId)
    requires ValidRun(s, steps) && ReshareRun(s.links, g, steps) && Prompt(s, steps) && TableInvariant(s)
    requires q in s.nodes && p in s.nodes[q].peers && EndsBefore(steps, q, p)
    ensures Early(s.links, steps, p, q)
    decreases |steps|
  {
    var s', g', rest := Apply(s, steps[0]), After(s.links, g, steps[0]), steps[1..];
    EndsBeforeUnfolds(steps, q, p);
    EarlyUnfolds(s.links, steps, p, q);
    LinksUntouched(s, steps[0]);
    if Ends(steps[0], q) && EndsIn(rest, p) {
      var m := EndSendsTo(s, steps[0], p);
      SentArrives(s', g', rest, m);
    } else {
      PeersStay(s, steps[0], q);
      StepKeepsTables(s, steps[0]);
      LaterIsEarlyFrom(s', g', rest, p, q);
    }
  }

  lemma EarlyIffLater(s: Network, steps: seq<Step>, p: PeerId, q: PeerId)
    requires Reshare(s, steps) && Prompt(s, steps) && p in s.nodes && q in s.nodes && p != q
    ensures Early(s.links, steps, p, q) <==> EndsBefore(steps, q, p)
    ensures EndsBefore(steps, q, p) <==> !EndsBefore(steps, p, q)
  {
    OneEndsFirst(s.links, BEGUN, steps, p, q);
    if Early(s.links, steps, p, q) {
      EarlyMeansLater(s, steps, p, q);
    }
    if EndsBefore(steps, q, p) {
      LaterIsEarlyFrom(s, BEGUN, steps, p, q);
    }
  }

  /**
    When every party arrives before the next node ends, exactly one of any two nodes is left with
    a stale record of the other: the one that ended later.
   */
  lemma OneOfTwoIsStale(s: Network, steps: seq<Step>, p: PeerId, q: PeerId)
    requires TimelyReshare(s, steps) && Prompt(s, steps) && KeysChange(s)
    requires p in s.nodes && q in s.nodes && p != q
    ensures var s' := RunEnd(s, steps);
            && p in s'.nodes && q in s'.nodes && q in s'.nodes[p].peers && p in s'.nodes[q].peers
            && (ExactRecord(s', p, q) <==> !ExactRecord(s', q, p))
            && (ExactRecord(s', p, q) <==> EndsBefore(steps, p, q))
  {
    RecordFollowsTheOrder(s, steps, p, q);
    RecordFollowsTheOrder(s, steps, q, p);
    EarlyIffLater(s, steps, p, q);
    EarlyIffLater(s, steps, q, p);
  }

  /** Then only the node that ends first keeps the order of its committee. */
  lemma OnlyTheFirstKeepsItsCommittee(s: Network, steps: seq<Step>, p: PeerId, order: seq<PeerId>,
          order': seq<PeerId>, threshold: nat)
    requires TimelyReshare(s, steps) && Prompt(s, steps) && Aligned(s, true) && MagnitudesChange(s)
    requires p in s.nodes && p in RunEnd(s, steps).nodes
    requires IsOrder(order, s.nodes[p].peers.Keys) && IsOrder(order', RunEnd(s, steps).nodes[p].peers.Keys)
    requires threshold <= |s.nodes[p].peers|
    ensures KeepsCommittee(s, RunEnd(s, steps), p, order, order', threshold) <==>
            forall q :: q in s.nodes && q != p ==> EndsBefore(steps, p, q)
  {
    OrderIsKeptIffNoneWasEarly(s, steps, p, order, order', threshold);
    NoneEarlyIffFirst(s, steps, p);
  }

  lemma NoneEarlyIffFirst(s: Network, steps: seq<Step>, p: PeerId)
    requires Reshare(s, steps) && Prompt(s, steps) && p in s.nodes
    ensures NoneEarly(s, steps, p) <==> forall q :: q in s.nodes && q != p ==> EndsBefore(steps, p, q)
  {
    forall q | q in s.nodes && q != p ensures Early(s.links, steps, p, q) <==> !EndsBefore(steps, p, q) {
      EarlyIffLater(s, steps, p, q);
    }
    if Early(s.links, steps, p, p) {
      EarlyMeansLater(s, steps, p, p);
      NobodyEndsTwice(s.links, BEGUN, steps, p);
    }
  }

  lemma {:induction false} NobodyEndsTwice(links: map<nat, Link>, g: Progress, steps: seq<Step>, p: PeerId)
    requires ReshareRun(links, g, steps)
    ensures !EndsBefore(steps, p, p)
    decreases |steps|
  {
    if steps != [] {
      EndsBeforeUnfolds(steps, p, p);
      EndsExactlyOnce(links, After(links, g, steps[0]), steps[1..], p);
      NobodyEndsTwice(links, After(links, g, steps[0]), steps[1..], p);
    }
  }
}
