/** The committee of a sign session and the traffic inside it (sign.go). */
module Signing {
  import opened Basics
  import opened Membership
  import opened Gossip
  import opened Joining
  import opened Committee
  import opened KeyGenCommittee
  import opened Messages
  import opened Wire
  import opened Routing

  /** What rand.Perm(n) can return. */
  ghost predicate IsPermutation(perm: seq<nat>, n: nat) {
    && |perm| == n
    && (forall k :: 0 <= k < n ==> perm[k] < n)
    && (forall i, j :: 0 <= i < j < n ==> perm[i] != perm[j])
  }

  datatype SignError = KeyIsNotGenerated | NotEnoughSigners

  /** selectRandomlySignerPeer: the candidates at the first `threshold` places of the permutation. */
  method SelectRandomlySignerPeer(candidates: seq<Party>, perm: seq<nat>,
          threshold: nat) returns (r: Option<seq<Party>>)
    requires IsPermutation(perm, |candidates|)
    ensures r == Selection(candidates, perm, threshold)
  {
    if |candidates| < threshold {
      return None;
    }
    var parties: seq<Party> := [];
    for k := 0 to threshold
      invariant parties == seq(k, i requires 0 <= i < k => candidates[perm[i]])
    {
      parties := parties + [candidates[perm[k]]];
    }
    r := Some(parties);
  }

  ghost function Selection(candidates: seq<Party>, perm: seq<nat>, threshold: nat): Option<seq<Party>>
    requires IsPermutation(perm, |candidates|)
  {
    if |candidates| < threshold then None
    else Some(seq(threshold, i requires 0 <= i < threshold => candidates[perm[i]]))
  }

  /** The peers that are recorded as holding a share. */
  function SharePeers(peers: map<PeerId, Record>): set<PeerId> {
    set q | q in peers.Keys && peers[q].party.haveSharedKey
  }

  /** SignMessage up to the list it sends: chosen peers, and this node last. */
  ghost function SignRequest(n: NodeState, order: seq<PeerId>, perm: seq<nat>,
          threshold: nat): Result<seq<Party>, SignError>
    requires forall q :: q in order ==> q in n.peers
    requires IsPermutation(perm, |PeersAsParties(n.peers, order, true)|)
  {
    if !n.self.haveSharedKey then Err(KeyIsNotGenerated)
    else
      match Selection(PeersAsParties(n.peers, order, true), perm, threshold)
      case None => Err(NotEnoughSigners)
      case Some(chosen) => Ok(chosen + [n.self])
  }

  // ----- The candidates -----

  /** The peers of the order that are recorded as holding a share. */
  function Candidates(peers: map<PeerId, Record>, order: seq<PeerId>): seq<PeerId>
    requires forall q :: q in order ==> q in peers
  {
    if order == [] then []
    else if peers[order[0]].party.haveSharedKey then [order[0]] + Candidates(peers, order[1..])
    else Candidates(peers, order[1..])
  }

  lemma {:induction false} CandidateParties(peers: map<PeerId, Record>, order: seq<PeerId>)
    requires forall q :: q in order ==> q in peers
    ensures var c := Candidates(peers, order);
            && |PeersAsParties(peers, order, true)| == |c|
            && (forall q :: q in c <==> q in order && peers[q].party.haveSharedKey)
            && forall k :: 0 <= k < |c| ==> c[k] in peers && PeersAsParties(peers, order, true)[k] == peers[c[k]].party
  {
    if order != [] {
      CandidateParties(peers, order[1..]);
      assert order == [order[0]] + order[1..];
    }
  }

  lemma {:induction false} CandidatesDistinct(peers: map<PeerId, Record>, order: seq<PeerId>)
    requires forall q :: q in order ==> q in peers
    requires forall i, j :: 0 <= i < j < |order| ==> order[i] != order[j]
    ensures var c := Candidates(peers, order);
            forall i, j :: 0 <= i < j < |c| ==> c[i] != c[j]
  {
    if order != [] {
      var rest := order[1..];
      CandidatesDistinct(peers, rest);
      CandidateParties(peers, rest);
      forall k | 0 <= k < |Candidates(peers, rest)|
        ensures Candidates(peers, rest)[k] != order[0]
      {
        assert Candidates(peers, rest)[k] in Candidates(peers, rest);
      }
    }
  }

  lemma CandidatesAreAnOrder(peers: map<PeerId, Record>, order: seq<PeerId>)
    requires IsOrder(order, peers.Keys)
    ensures IsOrder(Candidates(peers, order), SharePeers(peers))
    ensures |Candidates(peers, order)| == |SharePeers(peers)|
  {
    CandidateParties(peers, order);
    CandidatesDistinct(peers, order);
    OrderSize(Candidates(peers, order), SharePeers(peers));
  }

  /** The IDs a selection stands for, with this node last. */
  ghost function SignerIds(peers: map<PeerId, Record>, order: seq<PeerId>, perm: seq<nat>, threshold: nat,
          me: PeerId): (ids: seq<PeerId>)
    requires IsOrder(order, peers.Keys)
    requires IsPermutation(perm, |Candidates(peers, order)|) && threshold <= |perm|
    ensures |ids| == threshold + 1 && ids[threshold] == me
    ensures forall k :: 0 <= k < threshold ==> ids[k] == Candidates(peers, order)[perm[k]]
  {
    seq(threshold, k requires 0 <= k < threshold => Candidates(peers, order)[perm[k]]) + [me]
  }

  lemma SignerIdsDistinct(peers: map<PeerId, Record>, order: seq<PeerId>, perm: seq<nat>, threshold: nat, me: PeerId)
    requires IsOrder(order, peers.Keys) && me !in peers
    requires IsPermutation(perm, |Candidates(peers, order)|) && threshold <= |perm|
    ensures var ids := SignerIds(peers, order, perm, threshold, me);
            && (forall i, j :: 0 <= i < j < |ids| ==> ids[i] != ids[j])
            && (forall k :: 0 <= k < threshold ==> ids[k] in SharePeers(peers))
  {
    CandidatesAreAnOrder(peers, order);
    var c := Candidates(peers, order);
    forall k | 0 <= k < |c| ensures c[k] in SharePeers(peers) {
      assert c[k] in c;
    }
    var ids := SignerIds(peers, order, perm, threshold, me);
    forall i, j | 0 <= i < j < |ids|
      ensures ids[i] != ids[j]
    {
      assert c[perm[i]] in SharePeers(peers);
    }
  }

  /**
    Who is asked to sign, by a node that holds a share itself: for every permutation drawn and
    every order of the map, selection fails exactly when fewer peers than the threshold are
    recorded as holding a share; otherwise the list names exactly that many distinct such
    peers, each with the party recorded for it, and then the node itself.
   */
  lemma SelectionIsExact(n: NodeState, me: PeerId, order: seq<PeerId>, perm: seq<nat>, threshold: nat)
    requires IsOrder(order, n.peers.Keys) && me !in n.peers
    requires IsPermutation(perm, |PeersAsParties(n.peers, order, true)|)
    ensures !n.self.haveSharedKey ==> SignRequest(n, order, perm, threshold) == Err(KeyIsNotGenerated)
    ensures n.self.haveSharedKey && |SharePeers(n.peers)| < threshold ==>
              SignRequest(n, order, perm, threshold) == Err(NotEnoughSigners)
    ensures n.self.haveSharedKey && |SharePeers(n.peers)| >= threshold ==>
              && |Candidates(n.peers, order)| == |perm| && threshold <= |perm|
              && (var ids := SignerIds(n.peers, order, perm, threshold, me);
                  var list := SignRequest(n, order, perm, threshold);
                  && list.Ok? && |list.value| == threshold + 1 && list.value[threshold] == n.self
                  && (forall i, j :: 0 <= i < j < |ids| ==> ids[i] != ids[j])
                  && (forall k :: 0 <= k < threshold ==>
                        ids[k] in SharePeers(n.peers) && list.value[k] == n.peers[ids[k]].party))
  {
    CandidateParties(n.peers, order);
    CandidatesAreAnOrder(n.peers, order);
    if |SharePeers(n.peers)| >= threshold {
      SignerIdsDistinct(n.peers, order, perm, threshold, me);
    }
  }

  // ----- The session of all signers -----

  /** updateSignerPeers: the peers of the node that are named in the list. */
  function SignerPeers(n: NodeState, me: PeerId, list: seq<Party>): set<PeerId> {
    set k | 0 <= k < |list| && list[k].id != me && list[k].id in n.peers :: list[k].id
  }

  /** The peers that are listed, and never the node itself, whatever its table holds. */
  lemma SignerPeersAreExact(n: NodeState, me: PeerId, list: seq<Party>, q: PeerId)
    ensures q in SignerPeers(n, me, list) <==>
            q != me && q in n.peers && exists k :: 0 <= k < |list| && list[k].id == q
  {
  }

  function ListedIds(list: seq<Party>): set<PeerId> {
    set k | 0 <= k < |list| :: list[k].id
  }

  /** A list as an aligned network's initiator sends it: distinct members, each with its own key. */
  ghost predicate SignList(s: Network, list: seq<Party>) {
    && (forall i, j :: 0 <= i < j < |list| ==> list[i].id != list[j].id)
    && (forall k :: 0 <= k < |list| ==>
          list[k].id in s.nodes && ToPartyID(list[k], false) == Some(IdOf(s, list[k].id, false)))
  }

  /** In an aligned network a recorded party and a node's own party stand for that node. */
  lemma PartyStandsForNode(s: Network, p: PeerId, q: PeerId)
    requires Aligned(s, false) && p in s.nodes && q in s.nodes[p].peers
    ensures q in s.nodes && s.nodes[p].peers[q].party.id == q
    ensures ToPartyID(s.nodes[p].peers[q].party, false) == Some(IdOf(s, q, false))
    ensures s.nodes[p].self.id == p && ToPartyID(s.nodes[p].self, false) == Some(IdOf(s, p, false))
  {
    RecordGivesId(s, p, q, false);
    assert s.nodes[p].peers[q].party.Identity() == s.nodes[q].self.Identity();
  }

  lemma ListStandsForIds(s: Network, list: seq<Party>, ids: seq<PeerId>)
    requires |list| == |ids| && forall i, j :: 0 <= i < j < |ids| ==> ids[i] != ids[j]
    requires forall k :: 0 <= k < |list| ==>
               list[k].id == ids[k] && ids[k] in s.nodes && ToPartyID(list[k], false) == Some(IdOf(s, ids[k], false))
    ensures SignList(s, list)
  {
  }

  lemma RequestIsSignList(s: Network, p: PeerId, order: seq<PeerId>, perm: seq<nat>, threshold: nat)
    requires Aligned(s, false) && p in s.nodes && IsOrder(order, s.nodes[p].peers.Keys)
    requires IsPermutation(perm, |PeersAsParties(s.nodes[p].peers, order, true)|)
    requires SignRequest(s.nodes[p], order, perm, threshold).Ok?
    ensures SignList(s, SignRequest(s.nodes[p], order, perm, threshold).value)
  {
    var n := s.nodes[p];
    SelectionIsExact(n, p, order, perm, threshold);
    var ids, list := SignerIds(n.peers, order, perm, threshold, p), SignRequest(n, order, perm, threshold).value;
    forall k | 0 <= k < threshold
      ensures list[k].id == ids[k] && ids[k] in s.nodes && ToPartyID(list[k], false) == Some(IdOf(s, ids[k], false))
    {
      PartyStandsForNode(s, p, ids[k]);
    }
    assert s.nodes[p].self.id == p && ToPartyID(n.self, false) == Some(IdOf(s, p, false));
    ListStandsForIds(s, list, ids);
  }

  lemma ListIds(s: Network, list: seq<Party>) returns (ids: seq<PartyID>)
    requires Aligned(s, false) && SignList(s, list)
    ensures ToPartyIDs(list, false) == Some(ids) && |ids| == |list| && DistinctKeys(ids)
    ensures forall k :: 0 <= k < |list| ==> ids[k] == IdOf(s, list[k].id, false)
  {
    ids := seq(|list|, k requires 0 <= k < |list| => IdOf(s, list[k].id, false));
    ConvertsTo(list, ids, false);
  }

  /**
    Sign committee: the list arrives at every receiver as it was sent, and every signer that
    sorts it gets the same strictly sorted committee, one entry per listed party, in which it
    finds itself under the key it really has.
   */
  lemma SignersAgree(s: Network, request: Sign, list: seq<Party>, q: PeerId)
    requires Aligned(s, false) && SignList(s, list) && request.parties == Some(list) && SendableSign(request)
    requires q in ListedIds(list)
    ensures UnmarshalSign(MarshalSign(request)) == Some(request)
    ensures var sorted := SortParties(list, false);
            && sorted.Some? && |sorted.value| == |list| && StrictlySorted(sorted.value)
            && FoundIn(sorted.value, IdOf(s, q, false)) && IdOf(s, q, false).id == q
  {
    SignRoundTrip(request);
    var ids := ListIds(s, list);
    var k :| 0 <= k < |list| && list[k].id == q;
    assert ids[k] == IdOf(s, q, false);
    SortsAndFinds(ids, ids[k]);
  }

  lemma SortsAndFinds(ids: seq<PartyID>, mine: PartyID)
    requires DistinctKeys(ids) && mine in ids
    ensures var sorted := SortPartyIDs(ids);
            |sorted| == |ids| && StrictlySorted(sorted) && FoundIn(sorted, mine)
  {
    SortContents(ids);
    SortSorts(ids);
    SortedPartyFindsItself(ids, mine);
  }

  /** On a full mesh every signer's signer peers are exactly the other signers. */
  lemma SignerPeersAreTheOthers(s: Network, list: seq<Party>, q: PeerId)
    requires FullMesh(s) && q in s.nodes && ListedIds(list) <= s.nodes.Keys
    ensures SignerPeers(s.nodes[q], q, list) == ListedIds(list) - {q}
  {
  }

  /**
    Sign traffic containment: an update from any signer, addressed inside the committee, never
    meets an unknown party, and reaches exactly the other signers it names; a broadcast
    reaches exactly the other signers; and neither reaches a node that does not sign.
   */
  lemma SignTrafficStaysInside(s: Network, list: seq<Party>, q: PeerId, dests: seq<PeerId>)
    requires Aligned(s, false) && SignList(s, list) && q in ListedIds(list)
    requires forall d :: d in dests ==> d in ListedIds(list)
    ensures var known := SignerPeers(s.nodes[q], q, list);
            var r := Route(q, Some(dests), known);
            && known == ListedIds(list) - {q}
            && r.error.None? && r.remote == (set d | d in dests && d != q) && r.remote <= known
  {
    SignerPeersAreTheOthers(s, list, q);
    RoutingIsExact(q, dests, SignerPeers(s.nodes[q], q, list));
  }
}
