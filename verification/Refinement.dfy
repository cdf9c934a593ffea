/** The methods of Nodes, run without interruption, are runs of the network in Gossip. */
module Refinement {
  import opened Basics
  import opened Membership
  import opened Gossip
  import opened Messages
  import Wire
  import Framing
  import Dispatch
  import Nodes
  import Rotation
  import ReshareTiming

  lemma TwoSteps(s: Network, a: Step, b: Step)
    requires Enabled(s, a) && Enabled(Apply(s, a), b)
    ensures ValidRun(s, [a, b]) && RunEnd(s, [a, b]) == Apply(Apply(s, a), b)
  {
    OneStep(Apply(s, a), b);
    FirstStep(s, a, [b]);
    assert [a] + [b] == [a, b];
  }

  lemma ThreeSteps(s: Network, a: Step, b: Step, c: Step)
    requires Enabled(s, a) && Enabled(Apply(s, a), b) && Enabled(Apply(Apply(s, a), b), c)
    ensures ValidRun(s, [a, b, c]) && RunEnd(s, [a, b, c]) == Apply(Apply(Apply(s, a), b), c)
  {
    TwoSteps(Apply(s, a), b, c);
    FirstStep(s, a, [b, c]);
    assert [a] + [b, c] == [a, b, c];
  }

  /** The streams a view speaks about. */
  function StreamsOf(view: map<PeerId, Record>): map<PeerId, nat> {
    map q | q in view :: view[q].link
  }

  /**
    The copies a node sends when it announces a peer are the announcements of the network: one
    for each of its peers, on that peer's latest stream, and no others.
   */
  lemma CopiesAreAnnouncements(view: map<PeerId, Record>, msg: Message, who: PeerId)
    ensures var copies := Nodes.Copies(StreamsOf(view), msg);
            && (forall q :: q in view ==> copies[Nodes.Sending(view[q].link, q, msg)] == 1)
            && (forall sending :: sending in copies ==>
                  sending.msg == msg && sending.dest in view && sending.link == view[sending.dest].link)
            && (forall q :: Joined(q, who) in Announcements(view.Keys, who) <==>
                  exists sending :: sending in copies && sending.dest == q)
  {
    var links := StreamsOf(view);
    var all := set q | q in links :: Nodes.Sending(links[q], q, msg);
    var copies := Nodes.Copies(links, msg);
    assert copies == multiset(all) && forall x :: x in copies <==> x in all;
    forall q | q in view
      ensures copies[Nodes.Sending(view[q].link, q, msg)] == 1
    {
      assert Nodes.Sending(links[q], q, msg) in all;
    }
    forall q
      ensures Joined(q, who) in Announcements(view.Keys, who) <==>
              exists sending :: sending in copies && sending.dest == q
    {
      AnnouncementsMember(view.Keys, who, Joined(q, who));
      if q in view {
        assert Nodes.Sending(links[q], q, msg) in copies;
      }
    }
  }

  /**
    AddPeer at a node that is not busy, with a dial that succeeds: the error-free outcome of the
    method is enabled as three steps of the network, which leave the node with the view the
    method leaves. A peer is announced to in the network exactly if the method sends it a
    NewPeerJoined message that names the new peer, and the new peer gets this node's party.
   */
  lemma AddPeerIsItsSteps(s: Network, p: PeerId, who: NewPeer, l: nat, deadline: string)
    requires IsIdle(s, p) && who.id in s.nodes && l !in s.links
    requires Nodes.AddOutcome(s.nodes[p], p, who, Some(l)).None?
    ensures var steps := [BeginAdd(p, who.id), Dial(p, l), Launch(p)];
            && ValidRun(s, steps)
            && RunEnd(s, steps).nodes ==
               s.nodes[p := s.nodes[p].(peers := Nodes.ViewAfterAdd(s.nodes[p], who, Some(l), None))]
            && RunEnd(s, steps).joined == s.joined + Announcements(s.nodes[p].peers.Keys, who.id)
            && RunEnd(s, steps).parties == s.parties + multiset{PartyMsg(l, who.id, s.nodes[p].self)}
            && RunEnd(s, steps).conns == s.conns + {l}
    ensures var sends := Nodes.AddSends(StreamsOf(s.nodes[p].peers), p, s.nodes[p].self, who, deadline, Some(l), None);
            && (forall q ::
                  Joined(q, who.id) in Announcements(s.nodes[p].peers.Keys, who.id) <==> IsTold(sends, q, who))
            && Nodes.Sending(l, who.id, Nodes.PartyMessage(p, s.nodes[p].self, deadline)) in sends
  {
    BeginDialLaunch(s, p, who.id, l);
    var sends := Nodes.AddSends(StreamsOf(s.nodes[p].peers), p, s.nodes[p].self, who, deadline, Some(l), None);
    forall q
      ensures Joined(q, who.id) in Announcements(s.nodes[p].peers.Keys, who.id) <==> IsTold(sends, q, who)
    {
      ToldIffAnnounced(s.nodes[p], p, who, l, deadline, q);
    }
  }

  /** A NewPeerJoined message that reads as `who` goes to `q`. */
  ghost predicate IsTold(sends: multiset<Nodes.Sending>, q: PeerId, who: NewPeer) {
    exists sending :: sending in sends && sending.dest == q && sending.msg.code == 1
                      && Nodes.ReadNewPeer(sending.msg) == Some(who)
  }

  lemma ReadsAsPeer(host: PeerId, who: NewPeer, deadline: string)
    ensures Nodes.JoinedMessage(host, who, deadline).code == 1
    ensures Nodes.ReadNewPeer(Nodes.JoinedMessage(host, who, deadline)) == Some(who)
  {
    Wire.NewPeerRoundTrip(who);
  }

  /** What a successful call sends: the copies of the announcement, and the party, which is no announcement. */
  lemma CallSends(n: NodeState, p: PeerId, who: NewPeer, l: nat, deadline: string, sending: Nodes.Sending)
    ensures var sends := Nodes.AddSends(StreamsOf(n.peers), p, n.self, who, deadline, Some(l), None);
            && (sending in sends <==>
                || sending in Nodes.Copies(StreamsOf(n.peers), Nodes.JoinedMessage(p, who, deadline))
                || sending == Nodes.Sending(l, who.id, Nodes.PartyMessage(p, n.self, deadline)))
    ensures Nodes.PartyMessage(p, n.self, deadline).code == 2
  {
  }

  lemma ToldIffAnnounced(n: NodeState, p: PeerId, who: NewPeer, l: nat, deadline: string, q: PeerId)
    ensures var sends := Nodes.AddSends(StreamsOf(n.peers), p, n.self, who, deadline, Some(l), None);
            Joined(q, who.id) in Announcements(n.peers.Keys, who.id) <==> IsTold(sends, q, who)
  {
    var sends := Nodes.AddSends(StreamsOf(n.peers), p, n.self, who, deadline, Some(l), None);
    var msg := Nodes.JoinedMessage(p, who, deadline);
    CopiesAreAnnouncements(n.peers, msg, who.id);
    ReadsAsPeer(p, who, deadline);
    forall sending ensures sending in sends <==>
                           || sending in Nodes.Copies(StreamsOf(n.peers), msg)
                           || sending == Nodes.Sending(l, who.id, Nodes.PartyMessage(p, n.self, deadline))
    {
      CallSends(n, p, who, l, deadline, sending);
    }
    CallSends(n, p, who, l, deadline, Nodes.Sending(0, p, msg));
  }

  lemma BeginDialLaunch(s: Network, p: PeerId, q: PeerId, l: nat)
    requires IsIdle(s, p) && q in s.nodes && l !in s.links && CheckNewPeer(s.nodes[p], p, q).None?
    ensures var steps := [BeginAdd(p, q), Dial(p, l), Launch(p)];
            && ValidRun(s, steps)
            && RunEnd(s, steps).nodes == s.nodes[p := LaunchPeer(s.nodes[p], l, q)]
            && RunEnd(s, steps).joined == s.joined + Announcements(s.nodes[p].peers.Keys, q)
            && RunEnd(s, steps).parties == s.parties + multiset{PartyMsg(l, q, s.nodes[p].self)}
            && RunEnd(s, steps).conns == s.conns + {l}
  {
    var s1 := Apply(s, BeginAdd(p, q));
    assert s1.nodes[p] == s.nodes[p].(op := Dialing(q));
    var s2 := Apply(s1, Dial(p, l));
    assert s2.nodes[p] == s.nodes[p].(op := Launching(q, l));
    ThreeSteps(s, BeginAdd(p, q), Dial(p, l), Launch(p));
  }

  /** When the dial fails the peers have been told all the same; any other error leaves no trace. */
  lemma FailedCallIsItsSteps(s: Network, p: PeerId, who: NewPeer, dialled: Option<nat>)
    requires IsIdle(s, p) && who.id in s.nodes && Nodes.AddOutcome(s.nodes[p], p, who, dialled).Some?
    ensures match Nodes.AddOutcome(s.nodes[p], p, who, dialled).value
            case DialFailed =>
              && ValidRun(s, [BeginAdd(p, who.id), DialFails(p)])
              && RunEnd(s, [BeginAdd(p, who.id), DialFails(p)]) ==
                 s.(joined := s.joined + Announcements(s.nodes[p].peers.Keys, who.id))
            case EmptyAddress => who.address.None? || who.address.value == []
            case _ => Enabled(s, BeginAdd(p, who.id)) && Apply(s, BeginAdd(p, who.id)) == s
  {
    if Nodes.AddOutcome(s.nodes[p], p, who, dialled).value.DialFailed? {
      var s1 := Apply(s, BeginAdd(p, who.id));
      assert s1.nodes[p] == s.nodes[p].(op := Dialing(who.id));
      TwoSteps(s, BeginAdd(p, who.id), DialFails(p));
      assert Apply(s1, DialFails(p)).nodes == s.nodes;
    }
  }

  /** handleNewPeerJoinedMsg for a peer that is new to the node: the same, and nothing announced. */
  lemma JoinedIsItsSteps(s: Network, p: PeerId, x: PeerId, l: nat)
    requires IsIdle(s, p) && Joined(p, x) in s.joined && l !in s.links
    requires x != p && x !in s.nodes[p].peers
    ensures var steps := [DeliverJoined(p, x), Dial(p, l), Launch(p)];
            && ValidRun(s, steps)
            && RunEnd(s, steps).nodes == s.nodes[p := LaunchPeer(s.nodes[p], l, x)]
            && RunEnd(s, steps).joined == s.joined - multiset{Joined(p, x)}
            && RunEnd(s, steps).parties == s.parties + multiset{PartyMsg(l, x, s.nodes[p].self)}
            && RunEnd(s, steps).conns == s.conns + {l}
  {
    var s1 := Apply(s, DeliverJoined(p, x));
    assert s1.nodes[p] == s.nodes[p].(op := Dialing(x));
    var s2 := Apply(s1, Dial(p, l));
    assert s2.nodes[p] == s.nodes[p].(op := Launching(x, l));
    ThreeSteps(s, DeliverJoined(p, x), Dial(p, l), Launch(p));
  }

  // ----- The other methods -----

  /** handleNewConnection for the stream `l`: launched at this end, and announced to the old peers. */
  lemma ConnectionIsItsStep(s: Network, l: nat, p: PeerId, q: PeerId)
    requires Enabled(s, Accept(l)) && s.links[l].acceptor == p && s.links[l].opener == q
    ensures var s' := Apply(s, Accept(l));
            && s'.nodes == s.nodes[p := LaunchPeer(s.nodes[p], l, q)]
            && s'.joined == s.joined + Announcements(s.nodes[p].peers.Keys, q)
            && s'.parties == s.parties + multiset{PartyMsg(l, q, s.nodes[p].self)}
            && s'.conns == s.conns - {l}
  {
  }

  /** handlePartyId for a message of the remote end `q` of its stream. */
  lemma PartyIsItsStep(s: Network, m: PartyMsg, q: PeerId)
    requires Enabled(s, DeliverParty(m)) && q == s.links[m.link].Other(m.to)
    ensures Apply(s, DeliverParty(m)).nodes == s.nodes[m.to := RecordParty(s.nodes[m.to], q, m.party)]
    ensures Apply(s, DeliverParty(m)).parties == s.parties - multiset{m}
  {
  }

  lemma DeletionIsItsStep(s: Network, p: PeerId, q: PeerId)
    requires Enabled(s, DeletePeer(p, q))
    ensures Apply(s, DeletePeer(p, q)) == s.(nodes := s.nodes[p := RemovePeer(s.nodes[p], q)])
  {
  }

  lemma CopyMember(view: map<PeerId, Record>, msg: Message, l: nat, q: PeerId)
    ensures Nodes.Sending(l, q, msg) in Nodes.Copies(StreamsOf(view), msg) <==> q in view && l == view[q].link
  {
    CopiesAreAnnouncements(view, msg, q);
  }

  /**
    doneReshare: the network's step marks the peers as the method does, and sends a party to a peer
    exactly if the method sends it a PartyId message with that party, on the same stream.
   */
  lemma DoneReshareIsItsStep(s: Network, p: PeerId, index: int, freshKey: int, deadline: string, m: PartyMsg)
    requires Enabled(s, EndReshare(p, index, freshKey))
    ensures var s' := Apply(s, EndReshare(p, index, freshKey));
            var me := s'.nodes[p].self;
            var sends := Nodes.Copies(StreamsOf(s.nodes[p].peers), Nodes.PartyMessage(p, me, deadline));
            && s'.nodes[p].peers == MarkShares(s.nodes[p].peers)
            && s'.parties == s.parties + Introductions(s.nodes[p].peers, me)
            && (m in Introductions(s.nodes[p].peers, me) <==>
                m.party == me && Nodes.Sending(m.link, m.to, Nodes.PartyMessage(p, me, deadline)) in sends)
  {
    var me := Apply(s, EndReshare(p, index, freshKey)).nodes[p].self;
    IntroductionsMember(s.nodes[p].peers, me, m);
    CopyMember(s.nodes[p].peers, Nodes.PartyMessage(p, me, deadline), m.link, m.to);
  }

  // ----- What the receiver makes of a message -----

  /** An announcement is dispatched to handleNewPeerJoinedMsg, which reads the peer back. */
  lemma AnnouncementArrives(host: PeerId, who: NewPeer, deadline: string, rest: seq<Byte>)
    requires IsTimestamp(deadline)
    ensures var received := Dispatch.FirstRead(Framing.Frame(Nodes.JoinedMessage(host, who, deadline)) + rest, host);
            && received.Some? && received.value.from == host && received.value.deadline == deadline
            && Dispatch.HandleMessage(received.value.code, false) == Ok(Dispatch.Handler.NewPeerJoined)
            && Nodes.ReadNewPeer(received.value) == Some(who)
            && received.value == Nodes.JoinedMessage(host, who, deadline)
  {
    Wire.NewPeerRoundTrip(who);
    Dispatch.FrameIsRead(Nodes.JoinedMessage(host, who, deadline), rest);
  }

  /** A party is dispatched to handlePartyId, which reads it back unchanged. */
  lemma PartyArrives(host: PeerId, party: Party, deadline: string, rest: seq<Byte>)
    requires SendableParty(party) && IsTimestamp(deadline)
    ensures var received := Dispatch.FirstRead(Framing.Frame(Nodes.PartyMessage(host, party, deadline)) + rest, host);
            && received.Some? && received.value.from == host && received.value.deadline == deadline
            && Dispatch.HandleMessage(received.value.code, false) == Ok(Dispatch.Handler.RecordParty)
            && received.value.payload.Some? && Wire.UnmarshalParty(received.value.payload.value) == Some(party)
            && Nodes.ReadParty(received.value) == Some(party)
            && received.value == Nodes.PartyMessage(host, party, deadline)
  {
    Wire.PartyRoundTrip(party);
    Dispatch.FrameIsRead(Nodes.PartyMessage(host, party, deadline), rest);
  }

  // ----- The gate -----

  /**
    The idle guards of the network are the gate of handleMessage: a message that is there, on a
    link that is up, can be delivered exactly if the gate accepts its code at that node; a
    session can begin exactly if the gate accepts the messages that start one. A connection
    is accepted, and a call begun, exactly if the node is not busy, as the methods say.
   */
  lemma GuardsAreTheGate(s: Network, p: PeerId)
    requires p in s.nodes
    ensures var busy := !s.nodes[p].op.Idle?;
            && (forall x :: Joined(p, x) in s.joined ==>
                  (Guard(s, DeliverJoined(p, x)) <==> Dispatch.HandleMessage(1, busy) == Ok(Dispatch.NewPeerJoined)))
            && (forall m :: m in s.parties && m.to == p && m.link in s.links && s.links[m.link].Up(p) ==>
                  (Guard(s, DeliverParty(m)) <==> Dispatch.HandleMessage(2, busy) == Ok(Dispatch.RecordParty)))
            && (forall l :: l in s.conns && l in s.links && s.links[l].acceptor == p ==>
                  (Guard(s, Accept(l)) <==> !busy))
            && (forall q :: q in s.nodes ==> (Guard(s, BeginAdd(p, q)) <==> !busy))
            && (Guard(s, BeginSession(p)) <==> Dispatch.HandleMessage(3, busy) == Ok(Dispatch.StartKeyGen))
            && (Guard(s, BeginSession(p)) <==> Dispatch.HandleMessage(5, busy) == Ok(Dispatch.StartSign))
            && (Guard(s, BeginSession(p)) <==> Dispatch.HandleMessage(7, busy) == Ok(Dispatch.StartReshare))
  {
    Dispatch.GateIsExact(1);
    Dispatch.GateIsExact(2);
    Dispatch.GateIsExact(3);
    Dispatch.GateIsExact(5);
    Dispatch.GateIsExact(7);
    Dispatch.CodesHaveTheirHandlers(1, false);
  }

  /** The losses that ReshareTiming allows are what the gate turns away: an error, and nothing recorded. */
  lemma DropsAreRejections(s: Network, g: Rotation.Progress, m: PartyMsg)
    requires m in s.parties && m.to in s.nodes
    ensures ReshareTiming.InTime(s, g, LoseParty(m)) <==>
            Dispatch.HandleMessage(2, !s.nodes[m.to].op.Idle?) == Err(Dispatch.AnotherProcess)
    ensures Apply(s, LoseParty(m)) == s.(parties := s.parties - multiset{m})
  {
    Dispatch.GateIsExact(2);
  }

  /** An announcement or a connection that a node turns away is gone, and nothing else has happened. */
  lemma RejectionsTakeOne(s: Network, p: PeerId, x: PeerId, l: nat)
    ensures Joined(p, x) in s.joined ==>
              Apply(s, LoseJoined(p, x)) == s.(joined := s.joined - multiset{Joined(p, x)})
    ensures l in s.conns ==> Apply(s, LoseConnection(l)) == s.(conns := s.conns - {l})
  {
  }
}
