/**
  What one node does to its own state when it handles a membership event (peer.go).
  The functions here specify the methods of Nodes.dfy, and Gossip.dfy
  interleaves them over a whole network.
 */
module Membership {
  import opened Basics

  /** An entry of `peers`: the stream it was launched on, the remote end, the recorded party. */
  datatype Record = Record(link: nat, remote: PeerId, party: Party)

  /** What the node that holds the busy flag is doing. */
  datatype Operation =
    | Idle
    | Dialing(target: PeerId)
    | Launching(target: PeerId, link: nat)
    | InSession

  datatype NodeState = NodeState(self: Party, peers: map<PeerId, Record>, op: Operation)

  /** True while the node is on its way to recording `q` as a peer. */
  predicate Targets(op: Operation, q: PeerId) {
    (op.Dialing? || op.Launching?) && op.target == q
  }

  datatype AddError = AnotherProcess | EmptyAddress | InvalidPeer | DuplicatePeer | DialFailed

  /** isValidNewPeer: not this node and not already a peer. */
  function CheckNewPeer(n: NodeState, me: PeerId, q: PeerId): Option<AddError> {
    if q == me then Some(InvalidPeer)
    else if q in n.peers then Some(DuplicatePeer)
    else None
  }

  /** launchNewPeer: the record under the remote's ID is replaced by a blank one. */
  function WithPeer(peers: map<PeerId, Record>, link: nat, remote: PeerId): map<PeerId, Record> {
    peers[remote := Record(link, remote, BLANK)]
  }

  /** handlePartyId: overwrites the party of the sender's record, if there is one. */
  function WithParty(peers: map<PeerId, Record>, from: PeerId, party: Party): map<PeerId, Record> {
    if from in peers then peers[from := peers[from].(party := party)] else peers
  }

  /** deletePeer. */
  function WithoutPeer(peers: map<PeerId, Record>, q: PeerId): map<PeerId, Record> {
    peers - {q}
  }

  function LaunchPeer(n: NodeState, link: nat, remote: PeerId): NodeState {
    n.(peers := WithPeer(n.peers, link, remote))
  }

  function RecordParty(n: NodeState, from: PeerId, party: Party): NodeState {
    n.(peers := WithParty(n.peers, from, party))
  }

  function RemovePeer(n: NodeState, q: PeerId): NodeState {
    n.(peers := WithoutPeer(n.peers, q))
  }

  /** doneKeyGen and doneReshare: every recorded party is marked as holding a share. */
  function MarkShares(peers: map<PeerId, Record>): map<PeerId, Record> {
    map q | q in peers :: peers[q].(party := peers[q].party.(haveSharedKey := true))
  }

  /** The end of ReshareKey: the new key becomes the party key and a fresh one takes its place. */
  function Rotate(party: Party, freshKey: int): Party {
    party.(partyKey := party.newPartyKey, newPartyKey := Some(freshKey), haveSharedKey := true)
  }
}
