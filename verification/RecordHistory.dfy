/**
  What a node has recorded about a peer, as the history of the two (peer.go, network/peer.go,
  keygen.go): blank since the latest launch, then the party read last, then marked.
 */
module RecordHistory {
  import opened Basics
  import opened Membership
  import opened Gossip
  import opened PeerTable

  function Entry(n: NodeState, q: PeerId): Option<Record> {
    if q in n.peers then Some(n.peers[q]) else None
  }

  /** What can happen at one node to its entry of one peer. */
  datatype Event = Nothing | Launched(link: nat) | PartyRead(party: Party) | AllMarked | Deleted

  /** What a step is for the entry of `q` at `p`. */
  function EventAt(s: Network, step: Step, p: PeerId, q: PeerId): Event
    requires Guard(s, step)
  {
    match step
    case Launch(a) => if a == p && s.nodes[a].op.target == q then Launched(s.nodes[a].op.link) else Nothing
    case Accept(l) => if s.links[l].acceptor == p && s.links[l].opener == q then Launched(l) else Nothing
    case DeliverParty(m) => if m.to == p && s.links[m.link].Other(p) == q then PartyRead(m.party) else Nothing
    case DeletePeer(a, r) => if a == p && r == q then Deleted else Nothing
    case EndSession(a, _, marks, _) => if a == p && marks then AllMarked else Nothing
    case EndReshare(a, _, _) => if a == p then AllMarked else Nothing
    case _ => Nothing
  }

  function AfterEvent(q: PeerId, entry: Option<Record>, event: Event): Option<Record> {
    match event
    case Launched(l) => Some(Record(l, q, Party(PeerId(""), None, None, false, 0)))
    case Deleted => None
    case PartyRead(party) => if entry.None? then None else Some(entry.value.(party := party))
    case AllMarked =>
      if entry.None? then None else Some(entry.value.(party := entry.value.party.(haveSharedKey := true)))
    case Nothing => entry
  }

  /** What happens to the entry in a run. */
  function Events(s: Network, steps: seq<Step>, p: PeerId, q: PeerId): seq<Event>
    requires ValidRun(s, steps)
    decreases |steps|
  {
    if steps == [] then [] else [EventAt(s, steps[0], p, q)] + Events(Apply(s, steps[0]), steps[1..], p, q)
  }

  function AfterEvents(q: PeerId, entry: Option<Record>, events: seq<Event>): Option<Record>
    decreases |events|
  {
    if events == [] then entry else AfterEvents(q, AfterEvent(q, entry, events[0]), events[1..])
  }

  lemma OthersStepsAreNothing(s: Network, step: Step, p: PeerId, q: PeerId)
    requires Guard(s, step) && (Actor(s, step) != p || !ChangesPeers(step))
    ensures EventAt(s, step, p, q) == Nothing
  {
  }

  lemma LaunchMakesEntry(s: Network, step: Step, p: PeerId, q: PeerId)
    requires Enabled(s, step) && (step.Launch? || step.Accept?) && Actor(s, step) == p
    ensures Entry(Apply(s, step).nodes[p], q) == AfterEvent(q, Entry(s.nodes[p], q), EventAt(s, step, p, q))
  {
    var l := if step.Launch? then s.nodes[p].op.link else step.link;
    var r := if step.Launch? then s.nodes[p].op.target else s.links[step.link].opener;
    assert Apply(s, step).nodes[p] == LaunchPeer(s.nodes[p], l, r).(op := Idle);
  }

  lemma MarkingMakesEntry(s: Network, step: Step, p: PeerId, q: PeerId)
    requires Enabled(s, step) && (step.EndSession? || step.EndReshare?) && step.node == p
    ensures Entry(Apply(s, step).nodes[p], q) == AfterEvent(q, Entry(s.nodes[p], q), EventAt(s, step, p, q))
  {
  }

  lemma PartyMakesEntry(s: Network, m: PartyMsg, p: PeerId, q: PeerId)
    requires Enabled(s, DeliverParty(m)) && m.to == p
    ensures Entry(Apply(s, DeliverParty(m)).nodes[p], q) ==
            AfterEvent(q, Entry(s.nodes[p], q), EventAt(s, DeliverParty(m), p, q))
  {
    assert Apply(s, DeliverParty(m)).nodes[p] == RecordParty(s.nodes[p], s.links[m.link].Other(p), m.party);
  }

  lemma DeletionMakesEntry(s: Network, p: PeerId, r: PeerId, q: PeerId)
    requires Enabled(s, DeletePeer(p, r))
    ensures Entry(Apply(s, DeletePeer(p, r)).nodes[p], q) ==
            AfterEvent(q, Entry(s.nodes[p], q), EventAt(s, DeletePeer(p, r), p, q))
  {
    assert Apply(s, DeletePeer(p, r)).nodes[p] == RemovePeer(s.nodes[p], r);
  }

  lemma StepMakesEntry(s: Network, step: Step, p: PeerId, q: PeerId)
    requires Enabled(s, step) && p in s.nodes
    ensures Entry(Apply(s, step).nodes[p], q) == AfterEvent(q, Entry(s.nodes[p], q), EventAt(s, step, p, q))
  {
    if Actor(s, step) != p || !ChangesPeers(step) {
      OthersStepsAreNothing(s, step, p, q);
      PeersUntouched(s, step, p);
    } else {
      match step
      case DeliverParty(m) => PartyMakesEntry(s, m, p, q);
      case DeletePeer(_, r) => DeletionMakesEntry(s, p, r, q);
      case EndSession(_, _, _, _) => MarkingMakesEntry(s, step, p, q);
      case EndReshare(_, _, _) => MarkingMakesEntry(s, step, p, q);
      case _ => LaunchMakesEntry(s, step, p, q);
    }
  }

  /** In every run from any state, an entry is what its events make of it. */
  lemma {:induction false} EntryIsItsHistory(s: Network, steps: seq<Step>, p: PeerId, q: PeerId)
    requires ValidRun(s, steps) && p in s.nodes
    ensures p in RunEnd(s, steps).nodes
    ensures Entry(RunEnd(s, steps).nodes[p], q) == AfterEvents(q, Entry(s.nodes[p], q), Events(s, steps, p, q))
    decreases |steps|
  {
    if steps != [] {
      StepMakesEntry(s, steps[0], p, q);
      EntryIsItsHistory(Apply(s, steps[0]), steps[1..], p, q);
    }
  }

  // ----- Where recorded keys come from -----

  /** The party of `q` is read at `k`, and afterwards `q` is neither launched, nor deleted, nor read again. */
  predicate ReadLast(events: seq<Event>, k: nat) {
    && k < |events| && events[k].PartyRead?
    && forall j :: k < j < |events| ==> events[j].Nothing? || events[j].AllMarked?
  }

  /** Nothing of `q` has been read since `q` was launched, or deleted, last. */
  predicate NothingRead(events: seq<Event>) {
    forall k :: 0 <= k < |events| && events[k].PartyRead? ==>
      exists j :: k < j < |events| && (events[j].Launched? || events[j].Deleted?)
  }

  lemma {:induction false} LaterEvents(q: PeerId, entry: Option<Record>, events: seq<Event>)
    requires forall j :: 0 <= j < |events| ==> events[j].Nothing? || events[j].AllMarked?
    ensures entry.Some? <==> AfterEvents(q, entry, events).Some?
    ensures entry.Some? ==>
              AfterEvents(q, entry, events).value.party.(haveSharedKey := false) ==
              entry.value.party.(haveSharedKey := false)
    decreases |events|
  {
    if events != [] {
      assert forall j :: 0 <= j < |events[1..]| ==> events[1..][j] == events[j + 1];
      LaterEvents(q, AfterEvent(q, entry, events[0]), events[1..]);
    }
  }

  lemma {:induction false} ShowsTheLast(q: PeerId, entry: Option<Record>, events: seq<Event>, k: nat)
    requires ReadLast(events, k)
    ensures AfterEvents(q, entry, events).Some? ==>
              AfterEvents(q, entry, events).value.party.(haveSharedKey := false) ==
              events[k].party.(haveSharedKey := false)
    decreases |events|
  {
    assert forall j :: 0 <= j < |events[1..]| ==> events[1..][j] == events[j + 1];
    if k == 0 {
      LaterEvents(q, AfterEvent(q, entry, events[0]), events[1..]);
    } else {
      ShowsTheLast(q, AfterEvent(q, entry, events[0]), events[1..], k - 1);
    }
  }

  predicate Unset(entry: Option<Record>) {
    entry.Some? ==> entry.value.party.(haveSharedKey := false) == BLANK
  }

  lemma {:induction false} NothingReadIsUnset(q: PeerId, entry: Option<Record>, events: seq<Event>)
    requires NothingRead(events)
    requires Unset(entry) || exists j :: 0 <= j < |events| && (events[j].Launched? || events[j].Deleted?)
    ensures Unset(AfterEvents(q, entry, events))
    decreases |events|
  {
    if events != [] {
      var rest := events[1..];
      assert forall j :: 0 <= j < |rest| ==> rest[j] == events[j + 1];
      forall k | 0 <= k < |rest| && rest[k].PartyRead?
        ensures exists j :: k < j < |rest| && (rest[j].Launched? || rest[j].Deleted?)
      {
        var j :| k + 1 < j < |events| && (events[j].Launched? || events[j].Deleted?);
        assert rest[j - 1] == events[j];
      }
      if j :| 0 < j < |events| && (events[j].Launched? || events[j].Deleted?) {
        assert rest[j - 1] == events[j];
      }
      NothingReadIsUnset(q, AfterEvent(q, entry, events[0]), rest);
    }
  }

  /** Up to its share flag the entry is the party read last since the last launch, or unset. */
  ghost predicate Shows(entry: Option<Record>, events: seq<Event>) {
    && (NothingRead(events) ==> Unset(entry))
    && forall k: nat :: ReadLast(events, k) && entry.Some? ==>
         entry.value.party.(haveSharedKey := false) == events[k].party.(haveSharedKey := false)
  }

  lemma HistoryShows(q: PeerId, events: seq<Event>)
    ensures Shows(AfterEvents(q, None, events), events)
  {
    if NothingRead(events) {
      NothingReadIsUnset(q, None, events);
    }
    forall k: nat | ReadLast(events, k) && AfterEvents(q, None, events).Some?
      ensures AfterEvents(q, None, events).value.party.(haveSharedKey := false) ==
              events[k].party.(haveSharedKey := false)
    {
      ShowsTheLast(q, None, events, k);
    }
  }

  /**
    In every run from fresh nodes, losses, deletions, sessions and reshares included: a record
    shows, up to its share flag, the party that its node has read last from that peer since it
    launched that peer last, and nothing if it has read none. So no key outlives a relaunch.
   */
  lemma RecordsShowTheLastParty(s: Network, steps: seq<Step>, p: PeerId, q: PeerId)
    requires Fresh(s) && ValidRun(s, steps) && p in s.nodes
    ensures p in RunEnd(s, steps).nodes
    ensures Shows(Entry(RunEnd(s, steps).nodes[p], q), Events(s, steps, p, q))
  {
    EntryIsItsHistory(s, steps, p, q);
    HistoryShows(q, Events(s, steps, p, q));
  }
}
