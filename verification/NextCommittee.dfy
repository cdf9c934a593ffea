/**
  The directories and the committee after a reshare (reshare.go, tss/reshare.go): they are what
  the reshare made them, exactly where no PartyId was dropped.
 */
module NextCommittee {
  import opened Basics
  import opened Membership
  import opened Gossip
  import opened Directory
  import opened Joining
  import opened Committee
  import opened KeyGenCommittee
  import opened Rotation

  // ----- Directories -----

  /** A reshare that replaces every key. */
  ghost predicate KeysChange(s: Network) {
    forall q :: q in s.nodes ==> s.nodes[q].self.partyKey != s.nodes[q].self.newPartyKey
  }

  predicate ExactRecord(s: Network, p: PeerId, q: PeerId)
    requires p in s.nodes && q in s.nodes[p].peers && q in s.nodes
  {
    s.nodes[p].peers[q].party.Identity() == s.nodes[q].self.Identity()
  }

  lemma RefreshedRecord(s: Network, s': Network, lost: set<(PeerId, PeerId)>, p: PeerId, q: PeerId)
    requires Refreshed(s, s', lost) && KeysChange(s) && p in s.nodes && q in s.nodes && p != q
    ensures p in s'.nodes && q in s'.nodes && q in s'.nodes[p].peers
    ensures ExactRecord(s', p, q) <==> (p, q) !in lost
    ensures (p, q) in lost ==> s'.nodes[p].peers[q].party.Identity() == s.nodes[q].self.Identity()
  {
    assert s'.nodes[q].self.partyKey == s.nodes[q].self.newPartyKey;
    assert RecordAfter(s, s', lost, p, q);
  }

  lemma NotLostIsExact(s: Network, s': Network, lost: set<(PeerId, PeerId)>, p: PeerId, q: PeerId)
    requires p in s'.nodes && q in s'.nodes[p].peers && RecordAfter(s, s', lost, p, q) && (p, q) !in lost
    ensures q in s'.nodes && ExactRecord(s', p, q)
  {
  }

  lemma NothingLostIsExact(s: Network, s': Network, lost: set<(PeerId, PeerId)>)
    requires RecordsAfter(s, s', lost) && forall pair :: pair !in lost
    ensures ExactDirectories(s')
  {
    forall p, q | p in s'.nodes && q in s'.nodes[p].peers ensures q in s'.nodes && ExactRecord(s', p, q) {
      NotLostIsExact(s, s', lost, p, q);
    }
  }

  lemma LossIsNotExact(s: Network, s': Network, lost: set<(PeerId, PeerId)>, p: PeerId, q: PeerId)
    requires Refreshed(s, s', lost) && KeysChange(s) && p in s.nodes && q in s.nodes && p != q && (p, q) in lost
    ensures !ExactDirectories(s')
  {
    RefreshedRecord(s, s', lost, p, q);
  }

  lemma LostPair(s: Network, s': Network, lost: set<(PeerId, PeerId)>, pair: (PeerId, PeerId))
    requires Refreshed(s, s', lost) && pair in lost
    ensures pair.0 in s.nodes && pair.1 in s.nodes && pair.0 != pair.1 && (pair.0, pair.1) in lost
  {
    assert pair == (pair.0, pair.1);
  }

  lemma ExactIffNothingLost(s: Network, s': Network, lost: set<(PeerId, PeerId)>)
    requires Refreshed(s, s', lost) && KeysChange(s)
    ensures ExactDirectories(s') <==> lost == {}
  {
    if pair :| pair in lost {
      LostPair(s, s', lost, pair);
      LossIsNotExact(s, s', lost, pair.0, pair.1);
    } else {
      NothingLostIsExact(s, s', lost);
    }
  }

  /** Each record is exact exactly if its pair is not among the lost, and else carries the old keys. */
  ghost predicate RecordsFollow(s: Network, s': Network, lost: set<(PeerId, PeerId)>) {
    forall p, q :: p in s.nodes && q in s.nodes && p != q ==>
      && p in s'.nodes && q in s'.nodes && q in s'.nodes[p].peers
      && (ExactRecord(s', p, q) <==> (p, q) !in lost)
      && ((p, q) in lost ==> s'.nodes[p].peers[q].party.Identity() == s.nodes[q].self.Identity())
  }

  lemma RefreshedRecords(s: Network, s': Network, lost: set<(PeerId, PeerId)>)
    requires Refreshed(s, s', lost) && KeysChange(s)
    ensures RecordsFollow(s, s', lost)
  {
    forall p, q | p in s.nodes && q in s.nodes && p != q
      ensures p in s'.nodes && q in s'.nodes && q in s'.nodes[p].peers
      ensures ExactRecord(s', p, q) <==> (p, q) !in lost
      ensures (p, q) in lost ==> s'.nodes[p].peers[q].party.Identity() == s.nodes[q].self.Identity()
    {
      RefreshedRecord(s, s', lost, p, q);
    }
  }

  /**
    A record is exact after a reshare if and only if the party that its peer sent at its end was
    not dropped, and otherwise still carries the old keys; so all directories are exact if
    and only if no node dropped a party.
   */
  lemma RecordsAreExactIffNotDropped(s: Network, steps: seq<Step>)
    requires Reshare(s, steps) && KeysChange(s)
    ensures RecordsFollow(s, RunEnd(s, steps), Lost(s, steps))
    ensures ExactDirectories(RunEnd(s, steps)) <==> Lost(s, steps) == {}
  {
    ReshareRefreshes(s, steps);
    RefreshedRecords(s, RunEnd(s, steps), Lost(s, steps));
    ExactIffNothingLost(s, RunEnd(s, steps), Lost(s, steps));
  }

  // ----- Sorting with another key -----

  predicate StandsIn(sorted: seq<PartyID>, id: PeerId, key: nat) {
    exists k :: 0 <= k < |sorted| && sorted[k].id == id && sorted[k].key == key
  }

  /** What is sorted is what was given, up to the index. */
  lemma SortedEntries(ids: seq<PartyID>, id: PeerId, key: nat)
    ensures StandsIn(SortPartyIDs(ids), id, key) <==> StandsIn(ids, id, key)
  {
    SortContents(ids);
    var sorted := SortPartyIDs(ids);
    if k :| 0 <= k < |sorted| && sorted[k].id == id && sorted[k].key == key {
      assert Sort(ids)[k] in Sort(ids);
      var j :| 0 <= j < |ids| && ids[j] == Sort(ids)[k];
    }
    if j :| 0 <= j < |ids| && ids[j].id == id && ids[j].key == key {
      assert ids[j] in ids;
      var k :| 0 <= k < |Sort(ids)| && Sort(ids)[k] == ids[j];
      assert sorted[k].id == id && sorted[k].key == key;
    }
  }

  lemma AnotherKeySortsElsewhere(a: seq<PartyID>, b: seq<PartyID>, id: PeerId, key: nat)
    requires StandsIn(a, id, key) && !StandsIn(b, id, key)
    ensures SortPartyIDs(a) != SortPartyIDs(b)
  {
    SortedEntries(a, id, key);
    SortedEntries(b, id, key);
  }

  // ----- The next committee of one node -----

  /** The old key and the new one of a node do not have the same magnitude. */
  ghost predicate MagnitudesChange(s: Network) {
    forall q :: q in s.nodes && ToPartyID(s.nodes[q].self, false).Some? ==>
      ToPartyID(s.nodes[q].self, false).value.key != IdOf(s, q, true).key
  }

  /** What `p` has recorded about `q` converts to the new ID, or to the old one. */
  lemma RecordConverts(s: Network, s': Network, lost: set<(PeerId, PeerId)>, p: PeerId, q: PeerId)
    requires Refreshed(s, s', lost) && Keyed(s, true) && p in s.nodes && q in s.nodes && p != q
    ensures p in s'.nodes && q in s'.nodes[p].peers
    ensures ToPartyID(s'.nodes[p].peers[q].party, false) ==
            if (p, q) in lost then ToPartyID(s.nodes[q].self, false) else Some(IdOf(s, q, true))
  {
    var party := s'.nodes[p].peers[q].party;
    assert RecordAfter(s, s', lost, p, q);
    assert party.Identity() == if (p, q) in lost then s.nodes[q].self.Identity() else s'.nodes[q].self.Identity();
    assert s'.nodes[q].self.partyKey == s.nodes[q].self.newPartyKey;
  }

  lemma SelfConverts(s: Network, s': Network, p: PeerId)
    requires Rotated(s, s') && Keyed(s, true) && p in s.nodes
    ensures p in s'.nodes && ToPartyID(s'.nodes[p].self, false) == Some(IdOf(s, p, true))
  {
  }

  /** The order in which `s'` walks its map is one in which `s` could. */
  lemma SameOrders(s: Network, s': Network, p: PeerId, order: seq<PeerId>)
    requires FullMesh(s) && FullMesh(s') && s'.nodes.Keys == s.nodes.Keys && p in s.nodes
    requires IsOrder(order, s'.nodes[p].peers.Keys)
    ensures IsOrder(order, s.nodes[p].peers.Keys)
    ensures forall k :: 0 <= k < |order| ==> order[k] in s.nodes && order[k] != p && order[k] in s'.nodes[p].peers
  {
    forall k | 0 <= k < |order| ensures order[k] in s.nodes && order[k] != p && order[k] in s'.nodes[p].peers {
      assert order[k] in order;
    }
  }

  /** The IDs `p` sorts next, when it has dropped nothing. */
  lemma NextIds(s: Network, s': Network, lost: set<(PeerId, PeerId)>, p: PeerId, order: seq<PeerId>)
    requires Refreshed(s, s', lost) && Keyed(s, true) && p in s.nodes
    requires p in s'.nodes && IsOrder(order, s'.nodes[p].peers.Keys)
    requires forall q :: (p, q) !in lost
    ensures ToPartyIDs(SessionParties(s'.nodes[p], order), false) == Some(IdsOf(s, order + [p], true))
  {
    var n := s'.nodes[p];
    AllPeersAsParties(n.peers, order);
    SelfConverts(s, s', p);
    SameOrders(s, s', p, order);
    forall k | 0 <= k < |order|
      ensures ToPartyID(SessionParties(n, order)[k], false) == Some(IdOf(s, order[k], true))
    {
      RecordConverts(s, s', lost, p, order[k]);
    }
    ConvertsTo(SessionParties(n, order), IdsOf(s, order + [p], true), false);
  }

  lemma OrdersSortAlike(s: Network, p: PeerId, order: seq<PeerId>, order': seq<PeerId>)
    requires Aligned(s, true) && p in s.nodes
    requires IsOrder(order, s.nodes[p].peers.Keys) && IsOrder(order', s.nodes[p].peers.Keys)
    ensures SortPartyIDs(IdsOf(s, order' + [p], true)) == SortPartyIDs(IdsOf(s, order + [p], true))
  {
    OrderOfAll(s, p, order);
    OrderOfAll(s, p, order');
    IdsContents(s, order + [p], true);
    IdsContents(s, order' + [p], true);
    SortIgnoresOrder(IdsOf(s, order' + [p], true), IdsOf(s, order + [p], true));
  }

  lemma MeshesHaveOneSize(s: Network, s': Network, p: PeerId)
    requires FullMesh(s) && FullMesh(s') && s'.nodes.Keys == s.nodes.Keys && p in s.nodes
    ensures |s'.nodes[p].peers| == |s.nodes[p].peers|
  {
    assert s'.nodes[p].peers.Keys == s.nodes[p].peers.Keys;
    assert |s'.nodes[p].peers.Keys| == |s'.nodes[p].peers| && |s.nodes[p].peers.Keys| == |s.nodes[p].peers|;
  }

  /** The committees of `p` before, by new key, and after, by key. */
  ghost predicate KeepsCommittee(s: Network, s': Network, p: PeerId, order: seq<PeerId>, order': seq<PeerId>,
          threshold: nat)
    requires p in s.nodes && p in s'.nodes
    requires IsOrder(order, s.nodes[p].peers.Keys) && IsOrder(order', s'.nodes[p].peers.Keys)
  {
    SessionCommittee(s'.nodes[p], order', threshold, false) == SessionCommittee(s.nodes[p], order, threshold, true)
  }

  lemma DroppedNothingKeeps(s: Network, s': Network, lost: set<(PeerId, PeerId)>, p: PeerId, order: seq<PeerId>,
          order': seq<PeerId>, threshold: nat)
    requires Refreshed(s, s', lost) && Aligned(s, true) && p in s.nodes && p in s'.nodes
    requires IsOrder(order, s.nodes[p].peers.Keys) && IsOrder(order', s'.nodes[p].peers.Keys)
    requires forall q :: (p, q) !in lost
    ensures KeepsCommittee(s, s', p, order, order', threshold)
  {
    NextIds(s, s', lost, p, order');
    SessionIds(s, p, order, true);
    SameOrders(s, s', p, order');
    OrdersSortAlike(s, p, order, order');
    MeshesHaveOneSize(s, s', p);
  }

  /** The old ID of a peer whose party was dropped is in the list, if the list converts at all. */
  lemma OldIdStays(s: Network, s': Network, lost: set<(PeerId, PeerId)>, p: PeerId, q: PeerId, order: seq<PeerId>)
    requires Refreshed(s, s', lost) && Keyed(s, true) && p in s.nodes && q in s.nodes && p != q && (p, q) in lost
    requires p in s'.nodes && IsOrder(order, s'.nodes[p].peers.Keys)
    ensures var ids := ToPartyIDs(SessionParties(s'.nodes[p], order), false);
            ids.Some? ==>
              && ToPartyID(s.nodes[q].self, false).Some?
              && StandsIn(ids.value, q, ToPartyID(s.nodes[q].self, false).value.key)
  {
    var n := s'.nodes[p];
    RecordConverts(s, s', lost, p, q);
    AllPeersAsParties(n.peers, order);
    var k :| 0 <= k < |order| && order[k] == q;
    assert SessionParties(n, order)[k] == n.peers[q].party;
    assert s.nodes[q].self.id == q;
  }

  lemma NewIdsOnly(s: Network, all: seq<PeerId>, q: PeerId, key: nat)
    requires Keyed(s, true) && q in s.nodes && (forall r :: r in all ==> r in s.nodes) && key != IdOf(s, q, true).key
    ensures !StandsIn(IdsOf(s, all, true), q, key)
  {
    forall k | 0 <= k < |all| && IdsOf(s, all, true)[k].id == q
      ensures IdsOf(s, all, true)[k].key != key
    {
      assert all[k] in all && IdOf(s, all[k], true).id == all[k];
    }
  }

  /** With another sorted list, or none, the committee is another one. */
  lemma AnotherListAnotherCommittee(n: NodeState, n': NodeState, order: seq<PeerId>, order': seq<PeerId>,
          threshold: nat, ids: seq<PartyID>)
    requires (forall q :: q in order ==> q in n.peers) && (forall q :: q in order' ==> q in n'.peers)
    requires ToPartyIDs(SessionParties(n, order), true) == Some(ids)
    requires threshold <= |n.peers| && threshold <= |n'.peers|
    requires var ids' := ToPartyIDs(SessionParties(n', order'), false);
             ids'.Some? ==> SortPartyIDs(ids'.value) != SortPartyIDs(ids)
    ensures SessionCommittee(n', order', threshold, false) != SessionCommittee(n, order, threshold, true)
  {
  }

  lemma AnotherList(s: Network, s': Network, lost: set<(PeerId, PeerId)>, p: PeerId, q: PeerId,
          order: seq<PeerId>, order': seq<PeerId>)
    requires Refreshed(s, s', lost) && Keyed(s, true) && MagnitudesChange(s) && p in s.nodes && p in s'.nodes
    requires IsOrder(order', s'.nodes[p].peers.Keys) && forall r :: r in order ==> r in s.nodes
    requires (p, q) in lost && q in s.nodes && p != q
    ensures var ids := ToPartyIDs(SessionParties(s'.nodes[p], order'), false);
            ids.Some? ==> SortPartyIDs(ids.value) != SortPartyIDs(IdsOf(s, order + [p], true))
  {
    OldIdStays(s, s', lost, p, q, order');
    var ids := ToPartyIDs(SessionParties(s'.nodes[p], order'), false);
    if ids.Some? {
      var key := ToPartyID(s.nodes[q].self, false).value.key;
      NewIdsOnly(s, order + [p], q, key);
      AnotherKeySortsElsewhere(ids.value, IdsOf(s, order + [p], true), q, key);
    }
  }

  lemma DroppedLeavesAnother(s: Network, s': Network, lost: set<(PeerId, PeerId)>, p: PeerId, q: PeerId,
          order: seq<PeerId>, order': seq<PeerId>, threshold: nat)
    requires Refreshed(s, s', lost) && Aligned(s, true) && MagnitudesChange(s) && p in s.nodes && p in s'.nodes
    requires IsOrder(order, s.nodes[p].peers.Keys) && IsOrder(order', s'.nodes[p].peers.Keys)
    requires threshold <= |s.nodes[p].peers| && (p, q) in lost && q in s.nodes && p != q
    ensures !KeepsCommittee(s, s', p, order, order', threshold)
  {
    SessionIds(s, p, order, true);
    MeshesHaveOneSize(s, s', p);
    AnotherList(s, s', lost, p, q, order, order');
    AnotherListAnotherCommittee(s.nodes[p], s'.nodes[p], order, order', threshold, IdsOf(s, order + [p], true));
  }

  lemma KeepsIffDroppedNothing(s: Network, s': Network, lost: set<(PeerId, PeerId)>, p: PeerId, order: seq<PeerId>,
          order': seq<PeerId>, threshold: nat)
    requires Refreshed(s, s', lost) && Aligned(s, true) && MagnitudesChange(s) && p in s.nodes && p in s'.nodes
    requires IsOrder(order, s.nodes[p].peers.Keys) && IsOrder(order', s'.nodes[p].peers.Keys)
    requires threshold <= |s.nodes[p].peers|
    ensures KeepsCommittee(s, s', p, order, order', threshold) <==> forall q :: (p, q) !in lost
  {
    if q :| (p, q) in lost {
      LostPair(s, s', lost, (p, q));
      DroppedLeavesAnother(s, s', lost, p, q, order, order', threshold);
    } else {
      DroppedNothingKeeps(s, s', lost, p, order, order', threshold);
    }
  }

  /**
    Reshare rotation, exactly: after every run of a reshare, sorting by party key gives a node the
    committee, in the order and with the indices, that sorting by new party key gave it during
    the reshare, if and only if it dropped none of the parties that were sent to it.
   */
  lemma OrderIsKeptIffNothingDropped(s: Network, steps: seq<Step>, p: PeerId, order: seq<PeerId>,
          order': seq<PeerId>, threshold: nat)
    requires Reshare(s, steps) && Aligned(s, true) && MagnitudesChange(s) && p in s.nodes && p in RunEnd(s, steps).nodes
    requires IsOrder(order, s.nodes[p].peers.Keys) && IsOrder(order', RunEnd(s, steps).nodes[p].peers.Keys)
    requires threshold <= |s.nodes[p].peers|
    ensures KeepsCommittee(s, RunEnd(s, steps), p, order, order', threshold) <==> forall q :: (p, q) !in Lost(s, steps)
  {
    ReshareRefreshes(s, steps);
    KeepsIffDroppedNothing(s, RunEnd(s, steps), Lost(s, steps), p, order, order', threshold);
  }

  // ----- Reshares in a row -----

  /** Every node keeps its committee. */
  ghost predicate SameCommittee(s: Network, s': Network) {
    forall p, order, order', threshold: nat ::
      p in s.nodes && p in s'.nodes &&
      IsOrder(order, s.nodes[p].peers.Keys) && IsOrder(order', s'.nodes[p].peers.Keys) ==>
        KeepsCommittee(s, s', p, order, order', threshold)
  }

  lemma NothingLostKeepsAll(s: Network, s': Network, lost: set<(PeerId, PeerId)>)
    requires Refreshed(s, s', lost) && Aligned(s, true) && forall pair :: pair !in lost
    ensures SameCommittee(s, s')
  {
    forall p, order, order', threshold: nat |
      p in s.nodes && p in s'.nodes && IsOrder(order, s.nodes[p].peers.Keys) && IsOrder(order', s'.nodes[p].peers.Keys)
      ensures KeepsCommittee(s, s', p, order, order', threshold)
    {
      DroppedNothingKeeps(s, s', lost, p, order, order', threshold);
    }
  }

  lemma RotatedIsKeyed(s: Network, s': Network)
    requires Keyed(s, true) && Rotated(s, s')
    ensures Keyed(s', false)
  {
    forall p | p in s'.nodes
      ensures s'.nodes[p].self.id == p && ToPartyID(s'.nodes[p].self, false).Some?
      ensures IdOf(s', p, false) == IdOf(s, p, true)
    {
      SelfConverts(s, s', p);
    }
  }

  lemma NothingLostAligns(s: Network, s': Network, lost: set<(PeerId, PeerId)>)
    requires Refreshed(s, s', lost) && Aligned(s, true) && forall pair :: pair !in lost
    ensures Aligned(s', false)
  {
    NothingLostIsExact(s, s', lost);
    RotatedIsKeyed(s, s');
  }

  /** When nothing is dropped, all nodes keep the committee, and the network is ready for the next session. */
  lemma ReshareKeepsOrder(s: Network, steps: seq<Step>)
    requires Reshare(s, steps) && Lost(s, steps) == {} && Aligned(s, true)
    ensures SameCommittee(s, RunEnd(s, steps)) && Aligned(RunEnd(s, steps), false)
  {
    ReshareRefreshes(s, steps);
    NothingLostKeepsAll(s, RunEnd(s, steps), Lost(s, steps));
    NothingLostAligns(s, RunEnd(s, steps), Lost(s, steps));
  }

  /** Any number of reshares, none of which drops a party, each with new keys that are set and distinct. */
  ghost predicate Reshares(s: Network, rounds: seq<seq<Step>>)
    decreases |rounds|
  {
    rounds == [] ||
    (&& Reshare(s, rounds[0]) && Lost(s, rounds[0]) == {} && Aligned(s, true)
     && Reshares(RunEnd(s, rounds[0]), rounds[1..]))
  }

  /** Every reshare of the sequence keeps the order of the committee. */
  ghost predicate OrderKeptThroughout(s: Network, rounds: seq<seq<Step>>)
    requires Reshares(s, rounds)
    decreases |rounds|
  {
    rounds == [] ||
    (SameCommittee(s, RunEnd(s, rounds[0])) && OrderKeptThroughout(RunEnd(s, rounds[0]), rounds[1..]))
  }

  lemma {:induction false} ManyResharesKeepOrder(s: Network, rounds: seq<seq<Step>>)
    requires Reshares(s, rounds)
    ensures OrderKeptThroughout(s, rounds)
    decreases |rounds|
  {
    if rounds != [] {
      ReshareKeepsOrder(s, rounds[0]);
      ManyResharesKeepOrder(RunEnd(s, rounds[0]), rounds[1..]);
    }
  }
}
