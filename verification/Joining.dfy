/**
  Building a network by any number of AddPeer calls, each started when the previous one has
  quiesced: every round can be completed, ends in meshes, and leaves exact directories.
 */
module Joining {
  import opened Basics
  import opened Membership
  import opened Gossip
  import opened PeerTable
  import opened Directory
  import opened Merge
  import opened Quiescence

  // ----- Something can always be done -----

  predicate NoSessions(s: Network) {
    forall p :: p in s.nodes ==> !s.nodes[p].op.InSession?
  }

  lemma {:induction false} FreshLink(used: set<nat>) returns (l: nat)
    ensures forall k :: k in used ==> k < l
    decreases used
  {
    if used == {} {
      l := 0;
    } else {
      var k :| k in used;
      var m := FreshLink(used - {k});
      l := if k < m then m else k + 1;
      assert forall j :: j in used ==> j == k || j in used - {k};
    }
  }

  /** With every node idle and every connection accepted, each message can be read. */
  lemma PartyCanBeRead(s: Network, m: PartyMsg)
    requires m in s.parties && PartyMsgOk(s.links, m)
    requires LinkOk(s.nodes.Keys, s.links[m.link]) && EndsOk(s, m.link)
    requires s.conns == {} && forall p :: p in s.nodes ==> s.nodes[p].op.Idle?
    ensures Guard(s, DeliverParty(m))
  {
  }

  lemma IdleProgress(s: Network) returns (step: Step)
    requires TableInvariant(s) && DirectoryInvariant(s) && !Quiescent(s)
    requires forall p :: p in s.nodes ==> s.nodes[p].op.Idle?
    ensures IsDelivery(step) && Guard(s, step)
  {
    if s.joined != multiset{} {
      var m :| m in s.joined;
      assert m == Joined(m.to, m.who);
      step := DeliverJoined(m.to, m.who);
    } else if s.conns != {} {
      var l :| l in s.conns;
      assert LinkOk(s.nodes.Keys, s.links[l]);
      step := Accept(l);
    } else {
      var m :| m in s.parties;
      PartyCanBeRead(s, m);
      step := DeliverParty(m);
    }
  }

  /** While anything is in flight or under way, some delivery step can be taken. */
  lemma Progress(s: Network) returns (step: Step)
    requires TableInvariant(s) && DirectoryInvariant(s) && NoSessions(s) && !Quiescent(s)
    ensures IsDelivery(step) && Enabled(s, step)
  {
    if p :| p in s.nodes && s.nodes[p].op.Dialing? {
      var l := FreshLink(s.links.Keys);
      step := Dial(p, l);
    } else if p :| p in s.nodes && s.nodes[p].op.Launching? {
      assert NodeOk(s.links, s.nodes.Keys, p, s.nodes[p]);
      step := Launch(p);
    } else {
      step := IdleProgress(s);
    }
    assert Guard(s, step);
  }

  lemma DeliveriesStartNoSession(s: Network, step: Step)
    requires Enabled(s, step) && IsDelivery(step) && NoSessions(s)
    ensures NoSessions(Apply(s, step))
  {
  }

  /** What lets a run go on. */
  ghost predicate Live(s: Network) {
    TableInvariant(s) && DirectoryInvariant(s) && NoSessions(s)
  }

  lemma DeliverySettles(s: Network, step: Step)
    requires TableInvariant(s) && Enabled(s, step) && IsDelivery(step)
    ensures Weight(Apply(s, step)) < Weight(s)
  {
    DeliveryKeepsParties(step);
    TablesDoFit(s, step);
    StepSettles(s, step);
  }

  lemma DeliveryKeepsParties(step: Step)
    requires IsDelivery(step)
    ensures KeepsParties(step) && Settles(step)
  {
  }

  lemma DeliveryStaysLive(s: Network, step: Step)
    requires Live(s) && Enabled(s, step) && IsDelivery(step)
    ensures Live(Apply(s, step))
  {
    DeliveryKeepsParties(step);
    StepKeepsDirectory(s, step);
    DeliveriesStartNoSession(s, step);
  }

  lemma ProgressSettles(s: Network) returns (step: Step)
    requires Live(s) && !Quiescent(s)
    ensures IsDelivery(step) && Enabled(s, step)
    ensures Live(Apply(s, step)) && Weight(Apply(s, step)) < Weight(s)
  {
    step := Progress(s);
    DeliverySettles(s, step);
    DeliveryStaysLive(s, step);
  }

  lemma OneMoreDelivery(s: Network, step: Step, rest: seq<Step>)
    requires IsDelivery(step) && AllDeliveries(rest)
    requires Enabled(s, step) && ValidRun(Apply(s, step), rest) && Quiescent(RunEnd(Apply(s, step), rest))
    ensures AllDeliveries([step] + rest) && ValidRun(s, [step] + rest) && Quiescent(RunEnd(s, [step] + rest))
  {
  }

  /** Whatever has been delivered so far, the rest can be delivered. */
  lemma {:induction false} CanSettle(s: Network) returns (steps: seq<Step>)
    requires Live(s)
    ensures ValidRun(s, steps) && AllDeliveries(steps) && Quiescent(RunEnd(s, steps))
    decreases Weight(s)
  {
    if Quiescent(s) {
      steps := [];
    } else {
      var step := ProgressSettles(s);
      var rest := CanSettle(Apply(s, step));
      OneMoreDelivery(s, step, rest);
      steps := [step] + rest;
    }
  }

  // ----- Rounds -----

  /** One AddPeer call together with everything delivered because of it. */
  datatype Round = Round(caller: PeerId, target: PeerId, deliveries: seq<Step>)

  ghost predicate ValidRound(s: Network, r: Round) {
    && Enabled(s, BeginAdd(r.caller, r.target))
    && ValidRun(Apply(s, BeginAdd(r.caller, r.target)), r.deliveries)
    && AllDeliveries(r.deliveries)
    && Quiescent(RunEnd(Apply(s, BeginAdd(r.caller, r.target)), r.deliveries))
  }

  function AfterRound(s: Network, r: Round): Network
    requires ValidRound(s, r)
  {
    RunEnd(Apply(s, BeginAdd(r.caller, r.target)), r.deliveries)
  }

  ghost predicate ValidRounds(s: Network, rounds: seq<Round>)
    decreases |rounds|
  {
    rounds == [] || (ValidRound(s, rounds[0]) && ValidRounds(AfterRound(s, rounds[0]), rounds[1..]))
  }

  function AfterRounds(s: Network, rounds: seq<Round>): Network
    requires ValidRounds(s, rounds)
    decreases |rounds|
  {
    if rounds == [] then s else AfterRounds(AfterRound(s, rounds[0]), rounds[1..])
  }

  /** A network at rest between two calls. */
  ghost predicate Settled(s: Network) {
    Quiescent(s) && Clustered(s) && TableInvariant(s) && DirectoryInvariant(s)
  }

  /** No node loses a peer. */
  ghost predicate PeersGrow(s: Network, s': Network) {
    && s'.nodes.Keys == s.nodes.Keys
    && forall p :: p in s.nodes ==> s.nodes[p].peers.Keys <= s'.nodes[p].peers.Keys
  }

  lemma NothingToDeliver(s: Network, step: Step)
    requires Quiescent(s) && IsDelivery(step)
    ensures !Enabled(s, step)
  {
  }

  /** A call that isValidNewPeer rejects leaves the network as it is. */
  lemma RejectedCall(s: Network, r: Round)
    requires Settled(s) && ValidRound(s, r)
    requires CheckNewPeer(s.nodes[r.caller], r.caller, r.target).Some?
    ensures AfterRound(s, r) == s
  {
    if r.deliveries != [] {
      NothingToDeliver(s, r.deliveries[0]);
    }
  }

  lemma MergedGrows(s: Network, s': Network, a: PeerId, b: PeerId)
    requires Clustered(s) && a in s.nodes && b in s.nodes && Merged(s, s', a, b)
    ensures PeersGrow(s, s') && (a != b ==> b in s'.nodes[a].peers)
  {
    forall p | p in s.nodes
      ensures s.nodes[p].peers.Keys <= s'.nodes[p].peers.Keys
    {
      if p in Cluster(s, a) { ClusterIsMeshed(s, a, p); }
      if p in Cluster(s, b) { ClusterIsMeshed(s, b, p); }
    }
    assert b in Cluster(s, b) && a in Cluster(s, a);
  }

  lemma DeliveriesKeepDirectories(s: Network, steps: seq<Step>)
    requires TableInvariant(s) && DirectoryInvariant(s) && ValidRun(s, steps) && AllDeliveries(steps)
    ensures TableInvariant(RunEnd(s, steps)) && DirectoryInvariant(RunEnd(s, steps))
  {
    forall k | 0 <= k < |steps| ensures KeepsParties(steps[k]) {
      DeliveryKeepsParties(steps[k]);
    }
    DirectoryInEveryRun(s, steps);
  }

  lemma RoundKeepsDirectories(s: Network, r: Round)
    requires TableInvariant(s) && DirectoryInvariant(s) && ValidRound(s, r)
    ensures TableInvariant(AfterRound(s, r)) && DirectoryInvariant(AfterRound(s, r))
  {
    StepKeepsDirectory(s, BeginAdd(r.caller, r.target));
    DeliveriesKeepDirectories(Apply(s, BeginAdd(r.caller, r.target)), r.deliveries);
  }

  lemma RoundSettles(s: Network, r: Round)
    requires Settled(s) && ValidRound(s, r)
    ensures Settled(AfterRound(s, r)) && PeersGrow(s, AfterRound(s, r))
    ensures r.caller != r.target ==> r.target in AfterRound(s, r).nodes[r.caller].peers
  {
    if CheckNewPeer(s.nodes[r.caller], r.caller, r.target).Some? {
      RejectedCall(s, r);
    } else {
      RoundKeepsDirectories(s, r);
      AddPeerMergesMeshes(s, r.caller, r.target, r.deliveries);
      MergedGrows(s, AfterRound(s, r), r.caller, r.target);
    }
  }

  /** Whether some round connects the two nodes directly. */
  predicate CalledBetween(rounds: seq<Round>, p: PeerId, q: PeerId) {
    exists k :: 0 <= k < |rounds| &&
      ((rounds[k].caller == p && rounds[k].target == q) || (rounds[k].caller == q && rounds[k].target == p))
  }

  ghost predicate RoundsMet(s: Network, rounds: seq<Round>) {
    forall k :: 0 <= k < |rounds| && rounds[k].caller != rounds[k].target ==>
      rounds[k].caller in s.nodes && rounds[k].target in s.nodes[rounds[k].caller].peers
  }

  lemma RoundsMeetLater(s: Network, s': Network, rounds: seq<Round>)
    requires rounds != [] && PeersGrow(s, s') && RoundsMet(s', rounds[1..])
    requires rounds[0].caller in s.nodes
    requires rounds[0].caller != rounds[0].target ==> rounds[0].target in s.nodes[rounds[0].caller].peers
    ensures RoundsMet(s', rounds)
  {
  }

  lemma {:induction false} RoundsSettle(s: Network, rounds: seq<Round>)
    requires Settled(s) && ValidRounds(s, rounds)
    ensures Settled(AfterRounds(s, rounds)) && PeersGrow(s, AfterRounds(s, rounds))
    ensures RoundsMet(AfterRounds(s, rounds), rounds)
    decreases |rounds|
  {
    if rounds != [] {
      var s1 := AfterRound(s, rounds[0]);
      RoundSettles(s, rounds[0]);
      RoundsSettle(s1, rounds[1..]);
      RoundsMeetLater(s1, AfterRounds(s, rounds), rounds);
    }
  }

  // ----- What a sequence of calls builds -----

  /** Consecutive nodes of the path were connected by some call. */
  predicate Chain(rounds: seq<Round>, path: seq<PeerId>) {
    |path| > 0 && forall k :: 0 <= k < |path| - 1 ==> CalledBetween(rounds, path[k], path[k + 1])
  }

  predicate ChainBetween(rounds: seq<Round>, path: seq<PeerId>, p: PeerId, q: PeerId) {
    Chain(rounds, path) && path[0] == p && path[|path| - 1] == q
  }

  ghost predicate AllChained(nodes: set<PeerId>, rounds: seq<Round>) {
    forall p, q :: p in nodes && q in nodes ==> exists path :: ChainBetween(rounds, path, p, q)
  }

  ghost predicate FullMesh(s: Network) {
    forall p :: p in s.nodes ==> s.nodes[p].peers.Keys == s.nodes.Keys - {p}
  }

  lemma {:induction false} ChainMeets(s: Network, rounds: seq<Round>, path: seq<PeerId>)
    requires Clustered(s) && RoundsMet(s, rounds) && Chain(rounds, path) && path[0] in s.nodes
    ensures path[|path| - 1] in s.nodes
    ensures path[|path| - 1] in Cluster(s, path[0])
    decreases |path|
  {
    if |path| > 1 {
      var init := path[..|path| - 1];
      var p, q := path[|path| - 2], path[|path| - 1];
      assert forall k :: 0 <= k < |init| - 1 ==> CalledBetween(rounds, path[k], path[k + 1]);
      ChainMeets(s, rounds, init);
      assert CalledBetween(rounds, path[|path| - 2], path[|path| - 2 + 1]);
      var k :| 0 <= k < |rounds| &&
        ((rounds[k].caller == p && rounds[k].target == q) || (rounds[k].caller == q && rounds[k].target == p));
      ClusterIsMeshed(s, path[0], p);
      assert q == p || q in s.nodes[p].peers;
    }
  }

  lemma ChainsMeshAll(s: Network, rounds: seq<Round>)
    requires Clustered(s) && RoundsMet(s, rounds) && AllChained(s.nodes.Keys, rounds)
    ensures FullMesh(s)
  {
    forall p, q | p in s.nodes && q in s.nodes
      ensures q in Cluster(s, p)
    {
      var path :| ChainBetween(rounds, path, p, q);
      ChainMeets(s, rounds, path);
    }
    forall p | p in s.nodes
      ensures s.nodes[p].peers.Keys == s.nodes.Keys - {p}
    {
      ClusterIsMeshed(s, p, p);
    }
  }

  lemma FreshIsSettled(s: Network)
    requires Fresh(s)
    ensures Settled(s)
  {
  }

  lemma SettledIsExact(s: Network)
    requires Settled(s)
    ensures ExactDirectories(s) && Quiescent(s) && Clustered(s)
  {
    QuietDirectoriesAreExact(s);
  }

  /**
    Any number of AddPeer calls, each made when the one before has quiesced, and delivered in
    any order: if the calls connect all nodes, directly or through other nodes, the network
    ends as one full mesh with exact directories, whichever node made each call.
   */
  lemma CallsBuildAFullMesh(s: Network, rounds: seq<Round>)
    requires Fresh(s) && ValidRounds(s, rounds)
    requires AllChained(s.nodes.Keys, rounds)
    ensures FullMesh(AfterRounds(s, rounds)) && ExactDirectories(AfterRounds(s, rounds))
    ensures Quiescent(AfterRounds(s, rounds))
    ensures AfterRounds(s, rounds).nodes.Keys == s.nodes.Keys
  {
    FreshIsSettled(s);
    RoundsSettle(s, rounds);
    SettledIsExact(AfterRounds(s, rounds));
    ChainsMeshAll(AfterRounds(s, rounds), rounds);
  }

  lemma CallKeepsParties(a: PeerId, b: PeerId)
    ensures KeepsParties(BeginAdd(a, b))
  {
  }

  lemma CallIsLive(s: Network, a: PeerId, b: PeerId)
    requires Settled(s) && Enabled(s, BeginAdd(a, b))
    ensures Live(Apply(s, BeginAdd(a, b)))
  {
    CallKeepsParties(a, b);
    StepKeepsDirectory(s, BeginAdd(a, b));
  }

  lemma {:induction false} RunStartsNoSession(s: Network, steps: seq<Step>)
    requires NoSessions(s) && ValidRun(s, steps) && AllDeliveries(steps)
    ensures NoSessions(RunEnd(s, steps))
    decreases |steps|
  {
    if steps != [] {
      DeliveriesStartNoSession(s, steps[0]);
      RunStartsNoSession(Apply(s, steps[0]), steps[1..]);
    }
  }

  lemma RunStaysLive(s: Network, steps: seq<Step>)
    requires Live(s) && ValidRun(s, steps) && AllDeliveries(steps)
    ensures Live(RunEnd(s, steps))
  {
    DeliveriesKeepDirectories(s, steps);
    RunStartsNoSession(s, steps);
  }

  /** And every call can be carried to its end: no order of deliveries gets stuck on the way. */
  lemma EveryRoundCanFinish(s: Network, a: PeerId, b: PeerId, begun: seq<Step>) returns (rest: seq<Step>)
    requires Settled(s) && Enabled(s, BeginAdd(a, b))
    requires ValidRun(Apply(s, BeginAdd(a, b)), begun) && AllDeliveries(begun)
    ensures ValidRound(s, Round(a, b, begun + rest))
  {
    var s1 := Apply(s, BeginAdd(a, b));
    CallIsLive(s, a, b);
    RunStaysLive(s1, begun);
    rest := CanSettle(RunEnd(s1, begun));
    RunsCompose(s1, begun, rest);
    DeliveriesAppend(begun, rest);
  }

  // ----- Every fresh network can become one mesh -----

  /** One round from `a` to `q`, carried to its end. */
  lemma OneRound(s: Network, a: PeerId, q: PeerId) returns (r: Round)
    requires Settled(s) && a in s.nodes && q in s.nodes
    ensures ValidRound(s, r) && r.caller == a && r.target == q
    ensures Settled(AfterRound(s, r)) && AfterRound(s, r).nodes.Keys == s.nodes.Keys
  {
    var rest := EveryRoundCanFinish(s, a, q, []);
    r := Round(a, q, [] + rest);
    RoundSettles(s, r);
  }

  predicate CallsTo(rounds: seq<Round>, a: PeerId, q: PeerId) {
    exists k :: 0 <= k < |rounds| && rounds[k].caller == a && rounds[k].target == q
  }

  ghost predicate CallsToAll(rounds: seq<Round>, a: PeerId, all: set<PeerId>) {
    forall q :: q in all ==> CallsTo(rounds, a, q)
  }

  lemma OneMoreRound(s: Network, r: Round, later: seq<Round>, a: PeerId, rest: set<PeerId>)
    requires ValidRound(s, r) && ValidRounds(AfterRound(s, r), later) && r.caller == a
    requires CallsToAll(later, a, rest - {r.target})
    ensures ValidRounds(s, [r] + later) && CallsToAll([r] + later, a, rest)
  {
    var rounds := [r] + later;
    assert rounds[1..] == later;
    forall q | q in rest ensures CallsTo(rounds, a, q) {
      if q == r.target {
        assert rounds[0] == r;
      } else {
        assert CallsTo(later, a, q);
        var k :| 0 <= k < |later| && later[k].caller == a && later[k].target == q;
        assert rounds[k + 1] == later[k];
      }
    }
  }

  /** Rounds from `a` to each of the given nodes. */
  lemma {:induction false} StarRounds(s: Network, a: PeerId, rest: set<PeerId>) returns (rounds: seq<Round>)
    requires Settled(s) && a in s.nodes && rest <= s.nodes.Keys
    ensures ValidRounds(s, rounds)
    ensures CallsToAll(rounds, a, rest)
    decreases rest
  {
    if rest == {} {
      rounds := [];
    } else {
      var q :| q in rest;
      var r := OneRound(s, a, q);
      var later := StarRounds(AfterRound(s, r), a, rest - {q});
      OneMoreRound(s, r, later, a, rest);
      rounds := [r] + later;
    }
  }

  lemma StarChains(nodes: set<PeerId>, rounds: seq<Round>, a: PeerId)
    requires a in nodes && CallsToAll(rounds, a, nodes)
    ensures AllChained(nodes, rounds)
  {
    forall p, q | p in nodes && q in nodes
      ensures exists path :: ChainBetween(rounds, path, p, q)
    {
      assert CallsTo(rounds, a, p) && CallsTo(rounds, a, q);
      assert CalledBetween(rounds, p, a) && CalledBetween(rounds, a, q);
      assert ChainBetween(rounds, [p, a, q], p, q);
    }
  }

  /** Any node of a fresh network can build the mesh: some run of its calls ends in the full mesh. */
  lemma AnyNodeCanBuildTheMesh(s: Network, a: PeerId) returns (rounds: seq<Round>)
    requires Fresh(s) && a in s.nodes
    ensures ValidRounds(s, rounds) && FullMesh(AfterRounds(s, rounds)) && ExactDirectories(AfterRounds(s, rounds))
  {
    FreshIsSettled(s);
    rounds := StarRounds(s, a, s.nodes.Keys);
    StarChains(s.nodes.Keys, rounds, a);
    CallsBuildAFullMesh(s, rounds);
  }
}
