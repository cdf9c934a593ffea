/**
  The party a node shows to the network follows its signer (tss/tss.go): what Signer makes of a
  session is what the session's end in Gossip does to the node's own party.
 */
module SignerRefinement {
  import opened Basics
  import opened Gossip
  import opened Committee
  import opened KeyGenCommittee
  import opened Signer

  /** The node's own party is its signer's. */
  predicate Agrees(s: Network, p: PeerId, t: SignerState) {
    p in s.nodes && s.nodes[p].self == AsParty(p, t)
  }

  /** updateIndex: the index that the session gives the party. */
  function WithIndex(t: SignerState, index: int): SignerState {
    t.(partyIndex := index)
  }

  /** The end of a key generation, whatever it ended with. */
  lemma KeyGenEndIsItsStep(s: Network, p: PeerId, t: SignerState, index: int, events: seq<Event>)
    requires Agrees(s, p, t) && s.nodes[p].op.InSession?
    ensures var t' := KeyGenRun(WithIndex(t, index), events).0;
            var step := EndSession(p, t'.privateKey.Some?, Finished in KeyGenRun(WithIndex(t, index), events).1, index);
            Enabled(s, step) && Agrees(Gossip.Apply(s, step), p, t')
  {
    KeyGenParty(t, index, events);
  }

  lemma {:induction false} KeyGenParty(t: SignerState, index: int, events: seq<Event>)
    ensures var t' := KeyGenRun(WithIndex(t, index), events).0;
            && t'.partyKey == t.partyKey && t'.newPartyKey == t.newPartyKey && t'.partyIndex == index
            && (t.privateKey.Some? ==> t'.privateKey.Some?)
            && (Finished in KeyGenRun(WithIndex(t, index), events).1 ==> t'.privateKey.Some?)
  {
    if events != [] && events[0].Out? && events[0].msg.Some? {
      KeyGenParty(t, index, events[1..]);
    }
  }

  /** The end of a reshare that finishes: the keys rotate, and the party shows it. */
  lemma ReshareEndIsItsStep(s: Network, p: PeerId, t: SignerState, index: int, oldCount: nat,
          events: seq<ReshareEvent>, nextKey: nat)
    requires Agrees(s, p, t) && s.nodes[p].op.InSession?
    requires Finished in ReshareRun(WithIndex(t, index), oldCount, events, 0, nextKey).1
    ensures var t' := ReshareRun(WithIndex(t, index), oldCount, events, 0, nextKey).0;
            var step := EndReshare(p, index, nextKey);
            Enabled(s, step) && Agrees(Gossip.Apply(s, step), p, t')
  {
    ReshareTakes(WithIndex(t, index), oldCount, events, 0, nextKey);
  }

  /** A reshare that does not finish leaves the keys alone, although a share may have been stored. */
  lemma FailedReshareIsItsStep(s: Network, p: PeerId, t: SignerState, index: int, oldCount: nat,
          events: seq<ReshareEvent>, nextKey: nat)
    requires Agrees(s, p, t) && s.nodes[p].op.InSession?
    requires Finished !in ReshareRun(WithIndex(t, index), oldCount, events, 0, nextKey).1
    ensures var t' := ReshareRun(WithIndex(t, index), oldCount, events, 0, nextKey).0;
            var step := EndSession(p, t'.privateKey.Some?, false, index);
            Enabled(s, step) && Agrees(Gossip.Apply(s, step), p, t')
  {
    ReshareTakes(WithIndex(t, index), oldCount, events, 0, nextKey);
  }

  /** No step takes a share away, gives a node another ID, or changes a key without a reshare. */
  lemma SharesAreKept(s: Network, step: Step, p: PeerId)
    requires Enabled(s, step) && p in s.nodes
    ensures var self, self' := s.nodes[p].self, Gossip.Apply(s, step).nodes[p].self;
            && self'.id == self.id && (self.haveSharedKey ==> self'.haveSharedKey)
            && (self'.haveSharedKey && !self.haveSharedKey ==> step.EndSession? || step.EndReshare?)
            && (!step.EndReshare? ==> self'.partyKey == self.partyKey && self'.newPartyKey == self.newPartyKey)
  {
    if !(step.EndSession? || step.EndReshare?) || step.node != p {
      OwnPartyStays(s, step, p);
    }
  }

  lemma OwnPartyStays(s: Network, step: Step, p: PeerId)
    requires Enabled(s, step) && p in s.nodes && (!(step.EndSession? || step.EndReshare?) || step.node != p)
    ensures Gossip.Apply(s, step).nodes[p].self == s.nodes[p].self
  {
  }

  /** A signing changes the index only. */
  lemma SigningEndIsItsStep(s: Network, p: PeerId, t: SignerState, index: int)
    requires Agrees(s, p, t) && s.nodes[p].op.InSession?
    ensures var step := EndSession(p, t.privateKey.Some?, false, index);
            Enabled(s, step) && Agrees(Gossip.Apply(s, step), p, WithIndex(t, index))
  {
  }

  /**
    In an aligned network the signer finds itself in the committee of its session under its own
    key, so updateIndex does not panic, and takes the position at which it stands.
   */
  lemma SignerFindsItself(s: Network, p: PeerId, t: SignerState, order: seq<PeerId>, newKey: bool)
    returns (sorted: seq<PartyID>, index: nat)
    requires Aligned(s, newKey) && Agrees(s, p, t) && IsOrder(order, s.nodes[p].peers.Keys)
    ensures SortParties(SessionParties(s.nodes[p], order), newKey) == Some(sorted) && index < |sorted|
    ensures var key := if newKey then t.newPartyKey else t.partyKey;
            && sorted[index].id == p && sorted[index].key == key
            && FindByKey(sorted, key) == Some(sorted[index]) && sorted[index].index == index
  {
    sorted := SortedSession(s, p, order, newKey);
    PartyIsKnownByItsKeys(p, t);
    var key := if newKey then t.newPartyKey else t.partyKey;
    index := FindByKey(sorted, key).value.index;
  }
}
