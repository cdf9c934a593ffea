/**
  The committee of a key generation or a reshare: every node builds it on its own, from its
  peer map, whose iteration order is arbitrary (keygen.go, reshare.go, commons.go).
 */
module KeyGenCommittee {
  import opened Basics
  import opened Membership
  import opened Gossip
  import opened PeerTable
  import opened Directory
  import opened Joining
  import opened Committee

  /** An order in which Go may walk a map with these keys. */
  ghost predicate IsOrder(order: seq<PeerId>, keys: set<PeerId>) {
    && (forall i, j :: 0 <= i < j < |order| ==> order[i] != order[j])
    && (forall q :: q in order <==> q in keys)
  }

  /** getPeersAsParties, walking the map in the given order. */
  function PeersAsParties(peers: map<PeerId, Record>, order: seq<PeerId>, checkKey: bool): seq<Party>
    requires forall q :: q in order ==> q in peers
  {
    if order == [] then []
    else
      var rest := PeersAsParties(peers, order[1..], checkKey);
      var party := peers[order[0]].party;
      if !checkKey || party.haveSharedKey then [party] + rest else rest
  }

  datatype CommitteeError = NotEnoughPeer | NilKey

  /** The parties of a session: every peer, and this node last. */
  function SessionParties(n: NodeState, order: seq<PeerId>): seq<Party>
    requires forall q :: q in order ==> q in n.peers
  {
    PeersAsParties(n.peers, order, false) + [n.self]
  }

  /** doKeyGen and GenerateKey up to the sorted parties; `newKey` gives a reshare's new committee. */
  function SessionCommittee(n: NodeState, order: seq<PeerId>, threshold: nat,
          newKey: bool): Result<seq<PartyID>, CommitteeError>
    requires forall q :: q in order ==> q in n.peers
  {
    if |n.peers| < threshold then Err(NotEnoughPeer)
    else
      match SortParties(SessionParties(n, order), newKey)
      case None => Err(NilKey)
      case Some(sorted) => Ok(sorted)
  }

  /** Every node carries its own ID and a key, and no two keys are equal. */
  ghost predicate Keyed(s: Network, newKey: bool) {
    && (forall p :: p in s.nodes ==> s.nodes[p].self.id == p && ToPartyID(s.nodes[p].self, newKey).Some?)
    && (forall p, q :: p in s.nodes && q in s.nodes && p != q ==> IdOf(s, p, newKey).key != IdOf(s, q, newKey).key)
  }

  /** A full mesh at rest: exact directories, every key set, no two keys equal. */
  ghost predicate Aligned(s: Network, newKey: bool) {
    FullMesh(s) && ExactDirectories(s) && Keyed(s, newKey)
  }

  /** The party ID that `p` stands for. */
  function IdOf(s: Network, p: PeerId, newKey: bool): PartyID {
    if p in s.nodes && ToPartyID(s.nodes[p].self, newKey).Some? then ToPartyID(s.nodes[p].self, newKey).value
    else PartyID(p, 0, -1)
  }

  lemma {:induction false} AllPeersAsParties(peers: map<PeerId, Record>, order: seq<PeerId>)
    requires forall q :: q in order ==> q in peers
    ensures |PeersAsParties(peers, order, false)| == |order|
    ensures forall k :: 0 <= k < |order| ==> PeersAsParties(peers, order, false)[k] == peers[order[k]].party
  {
    if order != [] {
      AllPeersAsParties(peers, order[1..]);
    }
  }

  /** The IDs of the given nodes. */
  function IdsOf(s: Network, all: seq<PeerId>, newKey: bool): (ids: seq<PartyID>)
    ensures |ids| == |all| && forall k :: 0 <= k < |all| ==> ids[k] == IdOf(s, all[k], newKey)
  {
    seq(|all|, k requires 0 <= k < |all| => IdOf(s, all[k], newKey))
  }

  lemma ConvertsTo(parties: seq<Party>, ids: seq<PartyID>, newKey: bool)
    requires |parties| == |ids|
    requires forall k :: 0 <= k < |ids| ==> ToPartyID(parties[k], newKey) == Some(ids[k])
    ensures ToPartyIDs(parties, newKey) == Some(ids)
  {
    var converted := ToPartyIDs(parties, newKey);
    assert converted.Some?;
    assert forall k :: 0 <= k < |ids| ==> ToPartyID(parties[k], newKey) == Some(converted.value[k]);
    assert converted.value == ids;
  }

  lemma RecordGivesId(s: Network, p: PeerId, q: PeerId, newKey: bool)
    requires Aligned(s, newKey) && p in s.nodes && q in s.nodes[p].peers
    ensures q in s.nodes && ToPartyID(s.nodes[p].peers[q].party, newKey) == Some(IdOf(s, q, newKey))
  {
  }

  lemma PeersGiveIds(s: Network, p: PeerId, order: seq<PeerId>, newKey: bool, k: nat)
    requires Aligned(s, newKey) && p in s.nodes && IsOrder(order, s.nodes[p].peers.Keys) && k < |order|
    ensures |PeersAsParties(s.nodes[p].peers, order, false)| == |order|
    ensures ToPartyID(PeersAsParties(s.nodes[p].peers, order, false)[k], newKey) == Some(IdOf(s, order[k], newKey))
  {
    AllPeersAsParties(s.nodes[p].peers, order);
    assert order[k] in order;
    RecordGivesId(s, p, order[k], newKey);
  }

  /** The list a node sorts holds the ID of every node, once, in its own order. */
  lemma SessionIds(s: Network, p: PeerId, order: seq<PeerId>, newKey: bool)
    requires Aligned(s, newKey) && p in s.nodes && IsOrder(order, s.nodes[p].peers.Keys)
    ensures ToPartyIDs(SessionParties(s.nodes[p], order), newKey) == Some(IdsOf(s, order + [p], newKey))
  {
    var parties := SessionParties(s.nodes[p], order);
    AllPeersAsParties(s.nodes[p].peers, order);
    forall k | 0 <= k < |order|
      ensures ToPartyID(parties[k], newKey) == Some(IdOf(s, order[k], newKey))
    {
      PeersGiveIds(s, p, order, newKey, k);
    }
    ConvertsTo(parties, IdsOf(s, order + [p], newKey), newKey);
  }

  /** A node's peers in any order, and the node itself, are an order of all nodes. */
  lemma OrderOfAll(s: Network, p: PeerId, order: seq<PeerId>)
    requires FullMesh(s) && p in s.nodes && IsOrder(order, s.nodes[p].peers.Keys)
    ensures IsOrder(order + [p], s.nodes.Keys)
  {
  }

  /** In an aligned network the IDs of all nodes have distinct keys, in whatever order. */
  lemma IdsContents(s: Network, all: seq<PeerId>, newKey: bool)
    requires Aligned(s, newKey) && IsOrder(all, s.nodes.Keys)
    ensures var ids := IdsOf(s, all, newKey);
            && DistinctKeys(ids)
            && forall id :: id in ids <==> exists r :: r in s.nodes && id == IdOf(s, r, newKey)
  {
  }

  /**
    Committee agreement: on a full mesh with exact directories and distinct keys, any two
    nodes, whatever order their maps are walked in, derive the same sorted committee.
   */
  lemma CommitteesAgree(s: Network, p: PeerId, q: PeerId, orderP: seq<PeerId>, orderQ: seq<PeerId>,
          threshold: nat, newKey: bool)
    requires Aligned(s, newKey) && p in s.nodes && q in s.nodes
    requires IsOrder(orderP, s.nodes[p].peers.Keys) && IsOrder(orderQ, s.nodes[q].peers.Keys)
    ensures SessionCommittee(s.nodes[p], orderP, threshold, newKey) ==
            SessionCommittee(s.nodes[q], orderQ, threshold, newKey)
  {
    SessionIds(s, p, orderP, newKey);
    SessionIds(s, q, orderQ, newKey);
    OrderOfAll(s, p, orderP);
    OrderOfAll(s, q, orderQ);
    IdsContents(s, orderP + [p], newKey);
    IdsContents(s, orderQ + [q], newKey);
    SortIgnoresOrder(IdsOf(s, orderP + [p], newKey), IdsOf(s, orderQ + [q], newKey));
    MeshSize(s, p);
    MeshSize(s, q);
  }

  lemma MeshSize(s: Network, p: PeerId)
    requires FullMesh(s) && p in s.nodes
    ensures |s.nodes[p].peers| == |s.nodes| - 1
  {
  }

  lemma {:induction false} OrderSize(order: seq<PeerId>, keys: set<PeerId>)
    requires IsOrder(order, keys)
    ensures |order| == |keys|
    decreases |order|
  {
    if order == [] {
      assert keys == {};
    } else {
      var rest := order[1..];
      assert order == [order[0]] + rest;
      assert IsOrder(rest, keys - {order[0]}) by {
        forall q | q in keys - {order[0]} ensures q in rest {
          assert q in order;
        }
        forall q | q in rest ensures q in keys - {order[0]} {
          assert q in order;
          var k :| 0 <= k < |rest| && rest[k] == q;
          assert order[k + 1] == q;
        }
      }
      OrderSize(rest, keys - {order[0]});
    }
  }

  /** The sorted list: one entry per node, in key order, numbered from 0, with `p` where it looks. */
  lemma SortedSession(s: Network, p: PeerId, order: seq<PeerId>, newKey: bool) returns (sorted: seq<PartyID>)
    requires Aligned(s, newKey) && p in s.nodes && IsOrder(order, s.nodes[p].peers.Keys)
    ensures SortParties(SessionParties(s.nodes[p], order), newKey) == Some(sorted)
    ensures |sorted| == |s.nodes| && StrictlySorted(sorted)
    ensures forall k :: 0 <= k < |sorted| ==> sorted[k].index == k && sorted[k].id in s.nodes
    ensures FoundIn(sorted, IdOf(s, p, newKey))
  {
    SessionIds(s, p, order, newKey);
    OrderOfAll(s, p, order);
    assert (order + [p])[|order|] == p;
    sorted := SortPartyIDs(IdsOf(s, order + [p], newKey));
    SortedOrder(s, order + [p], p, newKey);
  }

  lemma SortedOrder(s: Network, all: seq<PeerId>, p: PeerId, newKey: bool)
    requires Aligned(s, newKey) && IsOrder(all, s.nodes.Keys) && p in all
    ensures var sorted := SortPartyIDs(IdsOf(s, all, newKey));
            && |sorted| == |s.nodes| && StrictlySorted(sorted) && FoundIn(sorted, IdOf(s, p, newKey))
            && forall k :: 0 <= k < |sorted| ==> sorted[k].index == k && sorted[k].id in s.nodes
  {
    IdsContents(s, all, newKey);
    OrderSize(all, s.nodes.Keys);
    SortedIds(s, IdsOf(s, all, newKey), IdOf(s, p, newKey), newKey);
  }

  lemma SortedIds(s: Network, ids: seq<PartyID>, mine: PartyID, newKey: bool)
    requires DistinctKeys(ids) && mine in ids
    requires forall id :: id in ids ==> exists r :: r in s.nodes && id == IdOf(s, r, newKey)
    requires forall r :: r in s.nodes ==> IdOf(s, r, newKey).id == r
    ensures var sorted := SortPartyIDs(ids);
            && |sorted| == |ids| && StrictlySorted(sorted) && FoundIn(sorted, mine)
            && forall k :: 0 <= k < |sorted| ==> sorted[k].index == k && sorted[k].id in s.nodes
  {
    SortContents(ids);
    SortSorts(ids);
    SortedPartyFindsItself(ids, mine);
    var sorted := SortPartyIDs(ids);
    forall k | 0 <= k < |sorted|
      ensures sorted[k].index == k && sorted[k].id in s.nodes
    {
      assert Sort(ids)[k] in Sort(ids);
    }
  }

  /** updateIndex finds the ID, and the index it takes is the position of the ID. */
  predicate FoundIn(sorted: seq<PartyID>, id: PartyID) {
    var me := FindByKey(sorted, id.key);
    && me.Some? && me.value.id == id.id && me.value.key == id.key
    && 0 <= me.value.index < |sorted| && sorted[me.value.index] == me.value
  }

  /** When there is no committee: too few peers, or a party without the key to sort by. */
  lemma CommitteeFails(n: NodeState, order: seq<PeerId>, threshold: nat, newKey: bool)
    requires forall q :: q in order ==> q in n.peers
    ensures var committee := SessionCommittee(n, order, threshold, newKey);
            && (committee == Err(NotEnoughPeer) <==> |n.peers| < threshold)
            && (committee == Err(NilKey) <==>
                && |n.peers| >= threshold
                && exists k :: 0 <= k < |SessionParties(n, order)| && (
                     var party := SessionParties(n, order)[k];
                     (if newKey then party.newPartyKey else party.partyKey).None?))
  {
    var parties := SessionParties(n, order);
    forall k | 0 <= k < |parties|
      ensures ToPartyID(parties[k], newKey).None? <==>
              (if newKey then parties[k].newPartyKey else parties[k].partyKey).None?
    {
    }
  }

  /** The committee is the sorted list, unless there are too few peers. */
  lemma CommitteeIs(n: NodeState, order: seq<PeerId>, threshold: nat, newKey: bool, sorted: seq<PartyID>)
    requires forall q :: q in order ==> q in n.peers
    requires SortParties(SessionParties(n, order), newKey) == Some(sorted)
    ensures SessionCommittee(n, order, threshold, newKey) ==
            if |n.peers| < threshold then Err(NotEnoughPeer) else Ok(sorted)
  {
  }

  /**
    A session is refused exactly when there are fewer peers than the threshold. Otherwise the
    committee has more members than the threshold, and updateIndex finds the node itself, at
    the position it then takes as its index; so the indices are a bijection onto 0..m-1.
   */
  lemma CommitteeIndices(s: Network, p: PeerId, order: seq<PeerId>, threshold: nat, newKey: bool)
    returns (sorted: seq<PartyID>)
    requires Aligned(s, newKey) && p in s.nodes && IsOrder(order, s.nodes[p].peers.Keys)
    ensures SessionCommittee(s.nodes[p], order, threshold, newKey) ==
            if |s.nodes| <= threshold then Err(NotEnoughPeer) else Ok(sorted)
    ensures |sorted| == |s.nodes| && StrictlySorted(sorted)
    ensures forall k :: 0 <= k < |sorted| ==> sorted[k].index == k && sorted[k].id in s.nodes
    ensures FoundIn(sorted, IdOf(s, p, newKey))
  {
    MeshSize(s, p);
    sorted := SortedSession(s, p, order, newKey);
    CommitteeIs(s.nodes[p], order, threshold, newKey, sorted);
  }

  // ----- From fresh nodes to the committee -----

  /** The nodes are the same, with the same keys. */
  ghost predicate SameSelves(s: Network, s': Network) {
    && s'.nodes.Keys == s.nodes.Keys
    && forall p :: p in s.nodes ==> s'.nodes[p].self.Identity() == s.nodes[p].self.Identity()
  }

  lemma StepKeepsSelves(s: Network, step: Step)
    requires Enabled(s, step) && !step.EndReshare?
    ensures SameSelves(s, Apply(s, step))
  {
    forall p | p in s.nodes
      ensures Apply(s, step).nodes[p].self.Identity() == s.nodes[p].self.Identity()
    {
      SelvesKept(s, step, p);
    }
  }

  lemma {:induction false} RunKeepsSelves(s: Network, steps: seq<Step>)
    requires ValidRun(s, steps) && AllDeliveries(steps)
    ensures SameSelves(s, RunEnd(s, steps))
    decreases |steps|
  {
    if steps != [] {
      StepKeepsSelves(s, steps[0]);
      RunKeepsSelves(Apply(s, steps[0]), steps[1..]);
    }
  }

  lemma {:induction false} RoundsKeepSelves(s: Network, rounds: seq<Round>)
    requires ValidRounds(s, rounds)
    ensures SameSelves(s, AfterRounds(s, rounds))
    decreases |rounds|
  {
    if rounds != [] {
      StepKeepsSelves(s, BeginAdd(rounds[0].caller, rounds[0].target));
      RunKeepsSelves(Apply(s, BeginAdd(rounds[0].caller, rounds[0].target)), rounds[0].deliveries);
      RoundsKeepSelves(AfterRound(s, rounds[0]), rounds[1..]);
    }
  }

  lemma SelvesKeepIds(s: Network, s': Network, newKey: bool)
    requires Keyed(s, newKey) && SameSelves(s, s')
    ensures Keyed(s', newKey)
  {
    forall p | p in s'.nodes
      ensures s'.nodes[p].self.id == p && ToPartyID(s'.nodes[p].self, newKey).Some?
      ensures IdOf(s', p, newKey) == IdOf(s, p, newKey)
    {
      assert s'.nodes[p].self.Identity() == s.nodes[p].self.Identity();
    }
  }

  /**
    End to end: fresh nodes with distinct keys, any number of AddPeer calls at any nodes that
    connect them all, any delivery orders, any map orders: all nodes derive the same committee.
   */
  lemma JoinedNodesAgree(s: Network, rounds: seq<Round>, p: PeerId, q: PeerId, orderP: seq<PeerId>,
          orderQ: seq<PeerId>, threshold: nat, newKey: bool)
    requires Fresh(s) && Keyed(s, newKey) && ValidRounds(s, rounds) && AllChained(s.nodes.Keys, rounds)
    requires p in AfterRounds(s, rounds).nodes && q in AfterRounds(s, rounds).nodes
    requires IsOrder(orderP, AfterRounds(s, rounds).nodes[p].peers.Keys)
    requires IsOrder(orderQ, AfterRounds(s, rounds).nodes[q].peers.Keys)
    ensures var end := AfterRounds(s, rounds);
            && Aligned(end, newKey)
            && SessionCommittee(end.nodes[p], orderP, threshold, newKey) ==
               SessionCommittee(end.nodes[q], orderQ, threshold, newKey)
  {
    CallsBuildAFullMesh(s, rounds);
    RoundsKeepSelves(s, rounds);
    SelvesKeepIds(s, AfterRounds(s, rounds), newKey);
    CommitteesAgree(AfterRounds(s, rounds), p, q, orderP, orderQ, threshold, newKey);
  }
}
