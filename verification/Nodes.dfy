/**
  The node and its peers as objects (peer.go, network/peer.go, commons.go, sender.go and the
  parts of keygen.go and sign.go that change a node). Each method is proved against the
  functions that Gossip interleaves over a network; `View` is what those speak about.

  Opening a stream is up to the network: `dialled` is the stream it gave, or None.
 */
module Nodes {
  import opened Basics
  import opened Membership
  import opened Messages
  import opened Wire
  import opened Dispatch
  import opened KeyGenCommittee
  import Routing
  import Signing

  /** network/peer.go: a launched stream, and what is recorded about the party at its end. */
  class Peer {
    const link: nat
    const remote: PeerId
    var party: Party

    constructor (link: nat, remote: PeerId)
      ensures this.link == link && this.remote == remote && party == BLANK
    {
      this.link, this.remote := link, remote;
      party := BLANK;
    }

    method SetHasPrivateKey(hasKey: bool)
      modifies this
      ensures party == old(party).(haveSharedKey := hasKey)
    {
      party := party.(haveSharedKey := hasKey);
    }

    method UpdateParty(newParty: Party)
      modifies this
      ensures party == newParty
    {
      party := newParty;
    }
  }

  /** A message handed to the goroutine that sends it. */
  datatype Sending = Sending(link: nat, dest: PeerId, msg: Message)

  /** One copy for each of the given streams. */
  function Copies(links: map<PeerId, nat>, msg: Message): multiset<Sending> {
    multiset(set q | q in links :: Sending(links[q], q, msg))
  }

  /** The streams of the given peers. */
  ghost function Links(peers: map<PeerId, Peer>): map<PeerId, nat> {
    map q | q in peers :: peers[q].link
  }

  function Only(links: map<PeerId, nat>, ids: set<PeerId>): map<PeerId, nat> {
    map q | q in links && q in ids :: links[q]
  }

  function JoinedMessage(host: PeerId, who: NewPeer, deadline: string): Message {
    Message(host, NEW_PEER_JOINED, Some(MarshalNewPeer(who)), deadline)
  }

  function PartyMessage(host: PeerId, party: Party, deadline: string): Message {
    Message(host, PARTY_ID, Some(MarshalParty(party)), deadline)
  }

  datatype HandleError = NotAdded(error: AddError) | UnknownPeer | BadPayload

  /** A payload that is missing does not parse. */
  function ReadNewPeer(msg: Message): Option<NewPeer> {
    var bytes :- msg.payload;
    UnmarshalNewPeer(bytes)
  }

  function ReadParty(msg: Message): Option<Party> {
    var bytes :- msg.payload;
    UnmarshalParty(bytes)
  }

  class Node {
    const hostId: PeerId
    const threshold: nat
    var me: Party
    var peers: map<PeerId, Peer>
    ghost var view: map<PeerId, Record>   // what `peers` holds, as a value
    var signerPeers: map<PeerId, Peer>
    var busy: bool
    var sent: multiset<Sending>
    var handedBack: multiset<Message>   // messages this node has put on its own channel

    constructor (hostId: PeerId, threshold: nat, me: Party)
      ensures Valid() && view == map[] && !busy && sent == multiset{}
      ensures this.hostId == hostId && this.threshold == threshold && this.me == me
    {
      this.hostId, this.threshold, this.me := hostId, threshold, me;
      peers, signerPeers, busy := map[], map[], false;
      sent, handedBack, view := multiset{}, multiset{}, map[];
    }

    /** Every peer is kept under its own ID, and `view` tells what is recorded. */
    ghost predicate Valid()
      reads this`peers, this`view, this`signerPeers, peers.Values
    {
      && view.Keys == peers.Keys
      && (forall q :: q in peers ==> peers[q].remote == q && view[q] == Record(peers[q].link, q, peers[q].party))
      && (forall q :: q in signerPeers ==> signerPeers[q].remote == q)
    }

    /** The node's state as Membership speaks of it. */
    ghost function State(op: Operation): NodeState
      reads this`me, this`view
    {
      NodeState(me, view, op)
    }

    // ----- Sending -----

    /** sendMessageToPeers: the map is walked in an order of its own. */
    method SendMessageToPeers(msg: Message, dests: map<PeerId, Peer>)
      requires forall q :: q in dests ==> dests[q].remote == q
      modifies this`sent
      ensures sent == old(sent) + Copies(Links(dests), msg)
    {
      var rest := dests.Keys;
      ghost var links := Links(dests);
      NoCopies(links, msg);
      while rest != {}
        invariant rest <= links.Keys
        invariant sent == old(sent) + Copies(links - rest, msg)
      {
        var q :| q in rest;
        CopiesGrow(links, rest, q, msg);
        sent := sent + multiset{Sending(dests[q].link, dests[q].remote, msg)};
        rest := rest - {q};
      }
      assert links - {} == links;
    }

    // ----- Membership -----

    /** launchNewPeer: the entry of the remote is replaced, and gets this node's party. */
    method LaunchNewPeer(link: nat, remote: PeerId, deadline: string)
      requires Valid()
      modifies this`peers, this`view, this`sent
      ensures Valid() && view == LaunchPeer(old(State(Idle)), link, remote).peers
      ensures sent == old(sent) + multiset{Sending(link, remote, PartyMessage(hostId, me, deadline))}
    {
      var peer := new Peer(link, remote);
      peers := peers[remote := peer];
      view := view[remote := Record(link, remote, BLANK)];
      sent := sent + multiset{Sending(peer.link, peer.remote, PartyMessage(hostId, me, deadline))};
    }

    method AddPeer(who: NewPeer, deadline: string, dialled: Option<nat>) returns (error: Option<AddError>)
      requires Valid()
      modifies this`peers, this`view, this`sent, this`busy
      ensures Valid() && busy == old(busy)
      ensures old(busy) ==> error == Some(AddError.AnotherProcess) && view == old(view) && sent == old(sent)
      ensures !old(busy) ==>
                error == if who.address.None? || |who.address.value| == 0 then Some(EmptyAddress)
                         else if who.id == hostId then Some(InvalidPeer)
                         else if who.id in old(peers) then Some(DuplicatePeer)
                         else if dialled.None? then Some(DialFailed)
                         else None
      ensures !old(busy) ==> error == AddOutcome(old(State(Idle)), hostId, who, dialled)
      ensures !old(busy) ==> view == ViewAfterAdd(old(State(Idle)), who, dialled, error)
      ensures !old(busy) ==> sent == old(sent) + AddSends(Links(old(peers)), hostId, me, who, deadline, dialled, error)
    {
      if busy {
        return Some(AddError.AnotherProcess);
      }
      busy := true;
      error := DoAddPeer(who, deadline, dialled);
      busy := false;
    }

    /** AddPeer while it holds the flag. */
    method DoAddPeer(who: NewPeer, deadline: string, dialled: Option<nat>) returns (error: Option<AddError>)
      requires Valid()
      modifies this`peers, this`view, this`sent
      ensures Valid()
      ensures error == AddOutcome(old(State(Idle)), hostId, who, dialled)
      ensures view == ViewAfterAdd(old(State(Idle)), who, dialled, error)
      ensures sent == old(sent) + AddSends(Links(old(peers)), hostId, me, who, deadline, dialled, error)
    {
      error := CheckNewPeerAddress(who);
      if error.None? {
        SendMessageToPeers(JoinedMessage(hostId, who, deadline), peers);
        error := AddPeerToNetwork(who.id, deadline, dialled);
      }
    }

    /** The checks of AddPeer: the addresses, then isValidNewPeer. */
    method CheckNewPeerAddress(who: NewPeer) returns (error: Option<AddError>)
      requires Valid()
      ensures error == if who.address == None || who.address == Some([]) then Some(EmptyAddress)
                       else CheckNewPeer(State(Idle), hostId, who.id)
    {
      if who.address == None || who.address == Some([]) {
        return Some(EmptyAddress);
      }
      if who.id == hostId {
        return Some(InvalidPeer);
      }
      if who.id in peers {
        return Some(DuplicatePeer);
      }
      error := None;
    }

    method AddPeerToNetwork(q: PeerId, deadline: string, dialled: Option<nat>) returns (error: Option<AddError>)
      requires Valid()
      modifies this`peers, this`view, this`sent
      ensures Valid()
      ensures dialled.None? ==> error == Some(DialFailed) && view == old(view) && sent == old(sent)
      ensures dialled.Some? ==>
                && error.None?
                && view == LaunchPeer(old(State(Idle)), dialled.value, q).peers
                && sent == old(sent) + multiset{Sending(dialled.value, q, PartyMessage(hostId, me, deadline))}
    {
      if dialled.None? {
        return Some(DialFailed);
      }
      LaunchNewPeer(dialled.value, q, deadline);
      error := None;
    }

    /** handleNewPeerJoinedMsg, which handleMessage calls only when the node is not busy. */
    method HandleNewPeerJoinedMsg(msg: Message, dialled: Option<nat>) returns (error: Option<HandleError>)
      requires Valid() && !busy
      modifies this`peers, this`view, this`sent, this`busy
      ensures Valid() && !busy
      ensures match ReadNewPeer(msg)
              case None => error == Some(BadPayload) && view == old(view) && sent == old(sent)
              case Some(who) =>
                if who.id == hostId || who.id in old(peers) then
                  error.None? && view == old(view) && sent == old(sent)
                else if dialled.None? then
                  error == Some(NotAdded(DialFailed)) && view == old(view) && sent == old(sent)
                else
                  && error.None? && view == LaunchPeer(old(State(Idle)), dialled.value, who.id).peers
                  && sent == old(sent)
                     + multiset{Sending(dialled.value, who.id, PartyMessage(hostId, me, msg.deadline))}
    {
      error := None;
      busy := true;
      match ReadNewPeer(msg) {
        case None => error := Some(BadPayload);
        case Some(who) =>
          if who.id != hostId && who.id !in peers {
            var failure := AddPeerToNetwork(who.id, msg.deadline, dialled);
            if failure.Some? {
              error := Some(NotAdded(failure.value));
            }
          }
      }
      busy := false;
    }

    method HandleNewConnection(link: nat, remote: PeerId, address: string,
            deadline: string) returns (error: Option<AddError>)
      requires Valid()
      modifies this`peers, this`view, this`sent, this`busy
      ensures Valid() && busy == old(busy)
      ensures old(busy) ==> error == Some(AddError.AnotherProcess) && view == old(view) && sent == old(sent)
      ensures !old(busy) ==>
                && error.None? && view == LaunchPeer(old(State(Idle)), link, remote).peers
                && sent == old(sent)
                           + Copies(Links(old(peers)),
                                    JoinedMessage(hostId, NewPeer(remote, Some([address])), deadline))
                           + multiset{Sending(link, remote, PartyMessage(hostId, me, deadline))}
    {
      if busy {
        return Some(AddError.AnotherProcess);
      }
      busy := true;
      SendMessageToPeers(JoinedMessage(hostId, NewPeer(remote, Some([address])), deadline), peers);
      LaunchNewPeer(link, remote, deadline);
      busy := false;
      error := None;
    }

    method HandlePartyId(msg: Message) returns (error: Option<HandleError>)
      requires Valid()
      modifies this`view, peers.Values
      ensures Valid()
      ensures match ReadParty(msg)
              case None => view == old(view) && error == Some(if msg.from in peers then BadPayload else UnknownPeer)
              case Some(party) =>
                && view == Membership.RecordParty(old(State(Idle)), msg.from, party).peers
                && error == (if msg.from in peers then None else Some(UnknownPeer))
    {
      if msg.from !in peers {
        return Some(UnknownPeer);
      }
      match ReadParty(msg) {
        case None => return Some(BadPayload);
        case Some(party) =>
          peers[msg.from].UpdateParty(party);
          view := view[msg.from := view[msg.from].(party := party)];
          error := None;
      }
    }

    method DeletePeer(q: PeerId) returns (found: bool)
      requires Valid()
      modifies this`peers, this`view
      ensures Valid() && found == (q in old(peers))
      ensures view == RemovePeer(old(State(Idle)), q).peers
    {
      found := q in peers;
      if found {
        peers := peers - {q};
        view := view - {q};
      } else {
        assert view - {q} == view;
      }
    }

    // ----- Sessions -----

    /** doneKeyGen and doneReshare: the loop over the peers, in any order. */
    method MarkAllPeers()
      requires Valid()
      modifies this`view, peers.Values
      ensures Valid() && view == MarkShares(old(view))
    {
      var rest := peers.Keys;
      ghost var before, marked := view, MarkShares(view);
      while rest != {}
        invariant rest <= peers.Keys && Valid() && view.Keys == before.Keys
        invariant forall q :: q in view ==> view[q] == if q in rest then before[q] else marked[q]
      {
        var q :| q in rest;
        MarkPeer(q);
        rest := rest - {q};
      }
    }

    /** doneReshare, once the key is stored: all peers are marked, and get this node's party. */
    method DoneReshare(deadline: string)
      requires Valid()
      modifies this`view, this`sent, peers.Values
      ensures Valid() && view == MarkShares(old(view))
      ensures sent == old(sent) + Copies(Links(old(peers)), PartyMessage(hostId, me, deadline))
    {
      MarkAllPeers();
      SendMessageToPeers(PartyMessage(hostId, me, deadline), peers);
    }

    method MarkPeer(q: PeerId)
      requires Valid() && q in peers
      modifies this`view, peers[q]
      ensures Valid() && view == old(view)[q := MarkShares(old(view))[q]]
    {
      peers[q].SetHasPrivateKey(true);
      view := view[q := view[q].(party := view[q].party.(haveSharedKey := true))];
    }

    /** getPeersAsParties, walking the map in the given order. */
    method GetPeersAsParties(order: seq<PeerId>, checkKey: bool) returns (parties: seq<Party>)
      requires Valid() && IsOrder(order, peers.Keys)
      ensures parties == PeersAsParties(view, order, checkKey)
    {
      parties := [];
      assert order[0..] == order;
      for k := 0 to |order|
        invariant PeersAsParties(view, order, checkKey) == parties + PeersAsParties(view, order[k..], checkKey)
      {
        assert order[k] in order;
        PartiesFrom(view, order, k, checkKey, parties);
        var peer := peers[order[k]];
        if !checkKey || peer.party.haveSharedKey {
          parties := parties + [peer.party];
        }
      }
    }

    /** updateSignerPeers: starts from an empty map. */
    method UpdateSignerPeers(parties: seq<Party>)
      requires Valid()
      modifies this`signerPeers
      ensures Valid()
      ensures signerPeers.Keys == Signing.SignerPeers(State(Idle), hostId, parties)
      ensures forall q :: q in signerPeers ==> signerPeers[q] == peers[q]
    {
      signerPeers := map[];
      for k := 0 to |parties|
        invariant signerPeers.Keys == Signing.SignerPeers(State(Idle), hostId, parties[..k])
        invariant forall q :: q in signerPeers ==> q in peers && signerPeers[q] == peers[q]
      {
        var id := parties[k].id;
        if id != hostId && id in peers {
          signerPeers := signerPeers[id := peers[id]];
        }
        OneMoreSigner(State(Idle), hostId, parties, k);
      }
      assert parties[..|parties|] == parties;
    }

    /** handleUpdateMessage, for the peers a session may send to. */
    method HandleUpdateMessage(dests: Option<seq<PeerId>>, msg: Message, known: map<PeerId, Peer>)
      returns (error: Option<Routing.RouteError>)
      requires forall q :: q in known ==> known[q].remote == q
      modifies this`sent, this`handedBack
      ensures var r := Routing.Route(hostId, dests, known.Keys);
              && error == r.error
              && sent == old(sent) + Copies(Only(Links(known), r.remote), msg)
              && handedBack == old(handedBack)[msg := old(handedBack)[msg] + r.loopbacks]
    {
      if dests.None? {
        NoneChosen(Links(known), {}, msg);
        return Some(Routing.NoDestination);
      }
      var destPeers: map<PeerId, Peer>;
      error, destPeers := CollectDestinations(dests.value, msg, known);
      if error.Some? {
        NoneChosen(Links(known), {}, msg);
        return;
      }
      SendMessageToPeers(msg, destPeers);
      assert Links(destPeers) == Only(Links(known), destPeers.Keys);
    }

    /** The loop over the destinations. */
    method CollectDestinations(ids: seq<PeerId>, msg: Message, known: map<PeerId, Peer>)
      returns (error: Option<Routing.RouteError>, destPeers: map<PeerId, Peer>)
      modifies this`handedBack
      ensures var r := Routing.Route(hostId, Some(ids), known.Keys);
              && error == r.error
              && (error.None? ==> destPeers.Keys == r.remote)
              && (error.Some? ==> r.remote == {})
              && handedBack == old(handedBack)[msg := old(handedBack)[msg] + r.loopbacks]
      ensures forall q :: q in destPeers ==> q in known && destPeers[q] == known[q]
    {
      destPeers := map[];
      ghost var loopbacks := 0;
      assert ids[0..] == ids && destPeers.Keys == {};
      for k := 0 to |ids|
        invariant Routing.Route(hostId, Some(ids), known.Keys) ==
                  Routing.RouteOn(hostId, ids[k..], known.Keys, destPeers.Keys, loopbacks)
        invariant forall q :: q in destPeers ==> q in known && destPeers[q] == known[q]
        invariant handedBack == old(handedBack)[msg := old(handedBack)[msg] + loopbacks]
      {
        assert ids[k..][1..] == ids[k + 1..];
        if ids[k] == hostId {
          handedBack := handedBack + multiset{msg};
          loopbacks := loopbacks + 1;
        } else if ids[k] !in known {
          return Some(Routing.UnknownParty(ids[k])), destPeers;
        } else {
          ghost var before := destPeers.Keys;
          destPeers := destPeers[ids[k] := known[ids[k]]];
          assert destPeers.Keys == before + {ids[k]};
        }
      }
      error := None;
    }

    /** handleSignUpdateMessage after marshalling: a broadcast goes to every signer peer. */
    method SendSignUpdate(m: TssMessage, deadline: string) returns (error: Option<Routing.RouteError>)
      requires Valid()
      modifies this`sent, this`handedBack
      ensures m.isBroadcast ==>
                && error.None? && handedBack == old(handedBack)
                && sent == old(sent) + Copies(Links(signerPeers), WrapUpdate(hostId, Session.Signing, m, deadline))
      ensures !m.isBroadcast ==>
                var r := Routing.Route(hostId, m.dests, signerPeers.Keys);
                var msg := WrapUpdate(hostId, Session.Signing, m, deadline);
                && error == r.error
                && sent == old(sent) + Copies(Only(Links(signerPeers), r.remote), msg)
                && handedBack == old(handedBack)[msg := old(handedBack)[msg] + r.loopbacks]
    {
      var msg := WrapUpdate(hostId, Session.Signing, m, deadline);
      if m.isBroadcast {
        SendMessageToPeers(msg, signerPeers);
        error := None;
      } else {
        error := HandleUpdateMessage(m.dests, msg, signerPeers);
      }
    }
  }

  /** The error AddPeer ends with, once it holds the flag. */
  function AddOutcome(n: NodeState, me: PeerId, who: NewPeer, dialled: Option<nat>): Option<AddError> {
    if who.address == None || who.address == Some([]) then Some(EmptyAddress)
    else if CheckNewPeer(n, me, who.id).Some? then CheckNewPeer(n, me, who.id)
    else if dialled.None? then Some(DialFailed)
    else None
  }

  /** Without an error the new peer is launched on the stream; otherwise no record changes. */
  function ViewAfterAdd(n: NodeState, who: NewPeer, dialled: Option<nat>, error: Option<AddError>): map<PeerId,
          Record> {
    if error.None? && dialled.Some? then LaunchPeer(n, dialled.value, who.id).peers else n.peers
  }

  /** The announcement goes out before the new peer is dialled, this node's party after. */
  function AddSends(links: map<PeerId, nat>, host: PeerId, me: Party, who: NewPeer, deadline: string,
                    dialled: Option<nat>, error: Option<AddError>): multiset<Sending> {
    if error.None? && dialled.Some? then
      Copies(links, JoinedMessage(host, who, deadline))
      + multiset{Sending(dialled.value, who.id, PartyMessage(host, me, deadline))}
    else if error == Some(DialFailed) then Copies(links, JoinedMessage(host, who, deadline))
    else multiset{}
  }

  /** How often each message is among the copies: once for each stream, and nothing else. */
  lemma CopiesAreExact(links: map<PeerId, nat>, msg: Message)
    ensures forall q :: q in links ==> Copies(links, msg)[Sending(links[q], q, msg)] == 1
    ensures forall sending :: sending in Copies(links, msg) ==>
              sending.msg == msg && sending.dest in links && sending.link == links[sending.dest]
    ensures |Copies(links, msg)| == |links|
  {
    var all := set q | q in links :: Sending(links[q], q, msg);
    assert Copies(links, msg) == multiset(all);
    forall q | q in links ensures Sending(links[q], q, msg) in all {
    }
    CopiesCount(links, {}, msg);
    assert links - {} == links;
  }

  /** One copy for each stream that is not left to do. */
  lemma {:induction false} CopiesCount(links: map<PeerId, nat>, rest: set<PeerId>, msg: Message)
    requires rest <= links.Keys
    ensures |Copies(links - rest, msg)| + |rest| == |links|
    decreases links.Keys - rest
  {
    if q :| q in links && q !in rest {
      CopiesGrow(links, rest + {q}, q, msg);
      assert rest + {q} - {q} == rest;
      CopiesCount(links, rest + {q}, msg);
    } else {
      assert rest == links.Keys;
      NoCopies(links, msg);
      assert |links.Keys| == |links|;
    }
  }

  /**
    What a call of AddPeer sends, for every outcome: with a dial that succeeds the announcement of
    the new peer once to each peer, this node's party once to the new peer on the dialled
    stream, and nothing else; when the dial fails the announcements alone; and on any
    other error nothing.
   */
  lemma CallSendsExactly(n: NodeState, host: PeerId, links: map<PeerId, nat>, who: NewPeer, deadline: string,
                         dialled: Option<nat>)
    ensures var error := AddOutcome(n, host, who, dialled);
            var sends := AddSends(links, host, n.self, who, deadline, dialled, error);
            var joined, party := JoinedMessage(host, who, deadline), PartyMessage(host, n.self, deadline);
            && (error.None? || error == Some(DialFailed) ==>
                  forall q :: q in links ==> sends[Sending(links[q], q, joined)] == 1)
            && (error.None? ==>
                  && dialled.Some? && sends[Sending(dialled.value, who.id, party)] == 1
                  && |sends| == |links| + 1)
            && (error == Some(DialFailed) ==> |sends| == |links|)
            && (error.Some? && error != Some(DialFailed) ==> sends == multiset{})
    ensures JoinedMessage(host, who, deadline).code == 1 && PartyMessage(host, n.self, deadline).code == 2
  {
    CopiesAreExact(links, JoinedMessage(host, who, deadline));
  }

  lemma OneMoreSigner(n: NodeState, me: PeerId, list: seq<Party>, k: nat)
    requires k < |list|
    ensures Signing.SignerPeers(n, me, list[..k + 1]) ==
            Signing.SignerPeers(n, me, list[..k])
            + if list[k].id != me && list[k].id in n.peers then {list[k].id} else {}
  {
  }

  lemma NoneChosen(links: map<PeerId, nat>, ids: set<PeerId>, msg: Message)
    requires ids == {}
    ensures Copies(Only(links, ids), msg) == multiset{}
  {
  }

  lemma PartiesFrom(view: map<PeerId, Record>, order: seq<PeerId>, k: nat, checkKey: bool, before: seq<Party>)
    requires k < |order| && forall q :: q in order ==> q in view
    ensures var party := view[order[k]].party;
            before + PeersAsParties(view, order[k..], checkKey) ==
            (if !checkKey || party.haveSharedKey then before + [party] else before)
            + PeersAsParties(view, order[k + 1..], checkKey)
  {
  }

  lemma NoCopies(links: map<PeerId, nat>, msg: Message)
    ensures Copies(links - links.Keys, msg) == multiset{}
  {
  }

  lemma CopiesGrow(links: map<PeerId, nat>, rest: set<PeerId>, q: PeerId, msg: Message)
    requires q in rest && rest <= links.Keys
    ensures Copies(links - (rest - {q}), msg) == Copies(links - rest, msg) + multiset{Sending(links[q], q, msg)}
  {
    var fewer := set r | r in links - rest :: Sending(links[r], r, msg);
    var more := set r | r in links - (rest - {q}) :: Sending(links[r], r, msg);
    assert more == fewer + {Sending(links[q], q, msg)};
    assert Sending(links[q], q, msg) !in fewer;
    assert Copies(links - rest, msg) == multiset(fewer);
    assert Copies(links - (rest - {q}), msg) == multiset(more);
  }
}
