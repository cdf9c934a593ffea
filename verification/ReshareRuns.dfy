/**
  Reshares that exist (reshare.go): from every mesh at rest one in which each party arrives at
  once, which leaves stale records, and one in which all arrive at the end, which leaves none.
 */
module ReshareRuns {
  import opened Basics
  import opened Gossip
  import opened PeerTable
  import opened Directory
  import opened Quiescence
  import opened Joining
  import opened Rotation
  import opened NextCommittee
  import opened ReshareTiming

  predicate AllUp(links: map<nat, Link>) {
    forall l :: l in links ==> links[l].openerUp && links[l].acceptorUp
  }

  /** A reshare under way, in which nothing but parties is in flight. */
  ghost predicate Ready(s: Network, g: Progress) {
    && TableInvariant(s) && AllUp(s.links) && Phase(s, g)
    && s.joined == multiset{} && s.conns == {}
    && forall p :: p in s.nodes ==> s.nodes[p].op.Idle? || s.nodes[p].op.InSession?
  }

  /** The nodes that have still to begin. */
  function Waiting(s: Network, g: Progress): set<PeerId> {
    set p | p in s.nodes.Keys && s.nodes[p].op.Idle? && p !in g.done
  }

  /** The rest of a reshare, up to the point where nothing is left to do. */
  ghost predicate Finishes(s: Network, g: Progress, steps: seq<Step>, prompt: bool) {
    && ValidRun(s, steps) && ReshareRun(s.links, g, steps) && Timely(s, g, steps)
    && AtEnd(s.links, g, steps).done == s.nodes.Keys && Quiescent(RunEnd(s, steps))
    && if prompt then Prompt(s, steps) else AtEnd(s.links, g, steps).lost == g.lost
  }

  /** A step that such a run may take next. */
  predicate Takes(s: Network, g: Progress, step: Step, prompt: bool) {
    && Enabled(s, step) && IsReshareStep(step) && InTime(s, g, step)
    && (step.EndReshare? ==> step.node !in g.done && (prompt ==> s.parties == multiset{}))
    && (step.LoseParty? ==> prompt)
  }

  lemma StepThenRest(s: Network, g: Progress, step: Step, rest: seq<Step>, prompt: bool)
    requires Takes(s, g, step, prompt)
    requires Finishes(Apply(s, step), After(s.links, g, step), rest, prompt)
    ensures Finishes(s, g, [step] + rest, prompt)
  {
    FirstStep(s, step, rest);
    LinksUntouched(s, step);
    assert ([step] + rest)[1..] == rest;
  }

  lemma StepKeepsOperations(s: Network, step: Step)
    requires Enabled(s, step) && IsReshareStep(step)
    requires forall p :: p in s.nodes ==> s.nodes[p].op.Idle? || s.nodes[p].op.InSession?
    ensures var s' := Apply(s, step);
            && (forall p :: p in s'.nodes ==> s'.nodes[p].op.Idle? || s'.nodes[p].op.InSession?)
            && s'.joined == s.joined && s'.conns == s.conns
  {
  }

  lemma StepKeepsReady(s: Network, g: Progress, step: Step, prompt: bool)
    requires Ready(s, g) && Takes(s, g, step, prompt)
    ensures Ready(Apply(s, step), After(s.links, g, step))
  {
    StepKeepsTables(s, step);
    StepKeepsPhase(s, g, step);
    StepKeepsOperations(s, step);
    LinksUntouched(s, step);
  }

  /** What is left to do: nodes that have to begin, then nodes that have to end, then parties. */
  ghost predicate Lowers(s: Network, g: Progress, step: Step)
    requires Enabled(s, step)
  {
    var s', g' := Apply(s, step), After(s.links, g, step);
    || Waiting(s', g') < Waiting(s, g)
    || (Waiting(s', g') == Waiting(s, g)
        && (|| s'.nodes.Keys - g'.done < s.nodes.Keys - g.done
            || (s'.nodes.Keys - g'.done == s.nodes.Keys - g.done && |s'.parties| < |s.parties|)))
  }

  lemma BeginLowers(s: Network, g: Progress, p: PeerId, prompt: bool)
    requires p in Waiting(s, g)
    ensures Takes(s, g, BeginSession(p), prompt) && Lowers(s, g, BeginSession(p))
  {
    assert Waiting(Apply(s, BeginSession(p)), g) == Waiting(s, g) - {p} && p in Waiting(s, g);
  }

  lemma EndLowers(s: Network, g: Progress, p: PeerId, prompt: bool)
    requires p in s.nodes && p !in g.done && (prompt ==> s.parties == multiset{})
    requires forall q :: q in s.nodes && q !in g.done ==> s.nodes[q].op.InSession?
    ensures Takes(s, g, EndReshare(p, 0, 0), prompt) && Lowers(s, g, EndReshare(p, 0, 0))
  {
    var s', g' := Apply(s, EndReshare(p, 0, 0)), After(s.links, g, EndReshare(p, 0, 0));
    assert Waiting(s', g') == Waiting(s, g);
    assert s'.nodes.Keys - g'.done == (s.nodes.Keys - g.done) - {p};
  }

  lemma ArrivalLowers(s: Network, g: Progress, step: Step)
    requires Enabled(s, step) && (step.DeliverParty? || step.LoseParty?)
    ensures Lowers(s, g, step)
  {
    assert Waiting(Apply(s, step), After(s.links, g, step)) == Waiting(s, g);
  }

  /** What to do about a party in flight: its receiver reads it, or turns it away. */
  lemma Arrival(s: Network, g: Progress, m: PartyMsg, prompt: bool) returns (step: Step)
    requires Ready(s, g) && m in s.parties && (prompt || g.done == s.nodes.Keys)
    ensures Takes(s, g, step, prompt) && Lowers(s, g, step)
  {
    assert PartyMsgOk(s.links, m) && LinkOk(s.nodes.Keys, s.links[m.link]);
    step := if IsIdle(s, m.to) then DeliverParty(m) else LoseParty(m);
    ArrivalLowers(s, g, step);
  }

  /** When all have begun, those who have not ended are in their session. */
  lemma AllBegun(s: Network, g: Progress)
    requires Ready(s, g) && Waiting(s, g) == {}
    ensures forall q :: q in s.nodes && q !in g.done ==> s.nodes[q].op.InSession?
  {
    forall q | q in s.nodes && q !in g.done ensures s.nodes[q].op.InSession? {
      assert q !in Waiting(s, g);
    }
  }

  /** Everybody begins, then all end, each after what was sent before has arrived, if `prompt`. */
  lemma NextStep(s: Network, g: Progress, prompt: bool) returns (next: Option<Step>)
    requires Ready(s, g)
    ensures next.None? ==> g.done == s.nodes.Keys && s.parties == multiset{}
    ensures next.Some? ==> Takes(s, g, next.value, prompt) && Lowers(s, g, next.value)
  {
    if p :| p in Waiting(s, g) {
      BeginLowers(s, g, p, prompt);
      return Some(BeginSession(p));
    }
    AllBegun(s, g);
    if m :| m in s.parties && (prompt || g.done == s.nodes.Keys) {
      var step := Arrival(s, g, m, prompt);
      return Some(step);
    }
    if p :| p in s.nodes && p !in g.done {
      EndLowers(s, g, p, prompt);
      return Some(EndReshare(p, 0, 0));
    }
    return None;
  }

  lemma {:induction false} Finish(s: Network, g: Progress, prompt: bool) returns (steps: seq<Step>)
    requires Ready(s, g)
    ensures Finishes(s, g, steps, prompt)
    decreases Waiting(s, g), s.nodes.Keys - g.done, |s.parties|
  {
    var next := NextStep(s, g, prompt);
    if next.None? {
      AtRest(s, g, prompt);
      return [];
    }
    StepKeepsReady(s, g, next.value, prompt);
    var rest := Finish(Apply(s, next.value), After(s.links, g, next.value), prompt);
    StepThenRest(s, g, next.value, rest, prompt);
    return [next.value] + rest;
  }

  lemma AtRest(s: Network, g: Progress, prompt: bool)
    requires Ready(s, g) && g.done == s.nodes.Keys && s.parties == multiset{}
    ensures Finishes(s, g, [], prompt)
  {
  }

  // ----- From a mesh at rest -----

  ghost predicate MeshAtRest(s: Network) {
    Quiescent(s) && TableInvariant(s) && DirectoryInvariant(s) && FullMesh(s)
  }

  lemma RestIsReady(s: Network)
    requires Quiescent(s) && TableInvariant(s) && DirectoryInvariant(s)
    ensures Ready(s, BEGUN)
  {
    forall l | l in s.links ensures s.links[l].openerUp && s.links[l].acceptorUp {
      assert EndsOk(s, l);
    }
  }

  lemma FinishedIsReshare(s: Network, steps: seq<Step>, prompt: bool)
    requires MeshAtRest(s) && Finishes(s, BEGUN, steps, prompt)
    ensures TimelyReshare(s, steps) && if prompt then Prompt(s, steps) else Lost(s, steps) == {}
  {
    QuietDirectoriesAreExact(s);
  }

  /** From every mesh at rest there is a reshare in which each party arrives before the next end. */
  lemma PromptReshareExists(s: Network) returns (steps: seq<Step>)
    requires MeshAtRest(s)
    ensures TimelyReshare(s, steps) && Prompt(s, steps)
  {
    RestIsReady(s);
    steps := Finish(s, BEGUN, true);
    FinishedIsReshare(s, steps, true);
  }

  lemma StaleAfter(s: Network, steps: seq<Step>, p: PeerId, q: PeerId)
    requires TimelyReshare(s, steps) && Prompt(s, steps) && KeysChange(s)
    requires p in s.nodes && q in s.nodes && p != q
    ensures !ExactDirectories(RunEnd(s, steps))
  {
    OneOfTwoIsStale(s, steps, p, q);
  }

  lemma DroppedSomething(s: Network, steps: seq<Step>)
    requires Reshare(s, steps) && KeysChange(s) && !ExactDirectories(RunEnd(s, steps))
    ensures Lost(s, steps) != {}
  {
    RecordsAreExactIffNotDropped(s, steps);
  }

  /** And with two or more nodes it leaves a stale record behind. */
  lemma StaleRecordExample(s: Network) returns (steps: seq<Step>)
    requires MeshAtRest(s) && KeysChange(s) && |s.nodes.Keys| > 1
    ensures TimelyReshare(s, steps) && Lost(s, steps) != {} && !ExactDirectories(RunEnd(s, steps))
  {
    steps := PromptReshareExists(s);
    var p :| p in s.nodes;
    var q := Another(s.nodes.Keys, p);
    StaleAfter(s, steps, p, q);
    DroppedSomething(s, steps);
  }

  /** There is also one that drops nothing, and leaves all directories exact. */
  lemma CleanReshareExample(s: Network) returns (steps: seq<Step>)
    requires MeshAtRest(s) && KeysChange(s)
    ensures TimelyReshare(s, steps) && Lost(s, steps) == {} && ExactDirectories(RunEnd(s, steps))
  {
    RestIsReady(s);
    steps := Finish(s, BEGUN, false);
    FinishedIsReshare(s, steps, false);
    RecordsAreExactIffNotDropped(s, steps);
  }
}
