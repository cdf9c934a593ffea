/**
  Overlapping AddPeer calls that exist: from every rest one pair of calls after which the
  newcomers are strangers, and one after which they meet.
 */
module ConcurrentRuns {
  import opened Basics
  import opened Gossip
  import opened Directory
  import opened Merge
  import opened Joining
  import opened Concurrent

  lemma CallStaysLive(s: Network, p: PeerId, q: PeerId)
    requires Live(s) && Enabled(s, BeginAdd(p, q))
    ensures Live(Apply(s, BeginAdd(p, q)))
  {
    StepKeepsDirectory(s, BeginAdd(p, q));
  }

  lemma RestIsLive(s: Network)
    requires Settled(s)
    ensures Live(s)
  {
  }

  /** Before anything is delivered another member of the mesh is idle, and has not heard of `b`. */
  lemma SecondHasNotHeard(s: Network, o: Overlap)
    requires Start(s, o) && o.first != o.second && o.between == []
    ensures Enabled(s, BeginAdd(o.first, o.b)) && ValidRun(Apply(s, BeginAdd(o.first, o.b)), o.between)
    ensures AtSecond(s, o) == Apply(s, BeginAdd(o.first, o.b))
    ensures Enabled(AtSecond(s, o), BeginAdd(o.second, o.c))
    ensures o.second in AtSecond(s, o).nodes && o.b !in AtSecond(s, o).nodes[o.second].peers
  {
    FirstCallRuns(s, o);
    FirstCallNodes(s, o);
    assert s.nodes[o.second].peers.Keys == o.mesh - {o.second};
  }

  /** Everything up to the second call. */
  ghost predicate ReadyForSecond(s: Network, o: Overlap) {
    && Start(s, o) && AllDeliveries(o.between)
    && Enabled(s, BeginAdd(o.first, o.b))
    && ValidRun(Apply(s, BeginAdd(o.first, o.b)), o.between)
    && Live(AtSecond(s, o)) && Enabled(AtSecond(s, o), BeginAdd(o.second, o.c))
  }

  lemma SecondCallSettles(s: Network, o: Overlap) returns (o': Overlap)
    requires ReadyForSecond(s, o)
    ensures o' == o.(after := o'.after) && ValidOverlap(s, o') && Quiescent(End(s, o'))
    ensures AtSecond(s, o') == AtSecond(s, o)
  {
    var s1 := AtSecond(s, o);
    CallStaysLive(s1, o.second, o.c);
    var after := CanSettle(Apply(s1, BeginAdd(o.second, o.c)));
    o' := o.(after := after);
  }

  /**
    Two members that call at the same time make strangers: from every rest, with nothing delivered
    between the calls, the gossip can be carried to its end, and the newcomers do not meet.
   */
  lemma StrangersExample(s: Network, o: Overlap) returns (o': Overlap)
    requires Settled(s) && Start(s, o) && o.first != o.second && o.between == []
    ensures o' == o.(after := o'.after) && ValidOverlap(s, o') && Quiescent(End(s, o'))
    ensures !SecondKnowsFirst(s, o') && Strangers(End(s, o'), o.b, o.c)
  {
    SecondHasNotHeard(s, o);
    RestIsLive(s);
    CallStaysLive(s, o.first, o.b);
    o' := SecondCallSettles(s, o);
    NewcomersStayApart(s, o');
  }

  lemma {:induction false} RunKeepsNodes(s: Network, steps: seq<Step>)
    requires ValidRun(s, steps)
    ensures RunEnd(s, steps).nodes.Keys == s.nodes.Keys
    decreases |steps|
  {
    if steps != [] {
      RunKeepsNodes(Apply(s, steps[0]), steps[1..]);
    }
  }

  lemma SettlesLive(s: Network) returns (steps: seq<Step>)
    requires Live(s)
    ensures ValidRun(s, steps) && AllDeliveries(steps)
    ensures Quiescent(RunEnd(s, steps)) && Live(RunEnd(s, steps)) && RunEnd(s, steps).nodes.Keys == s.nodes.Keys
  {
    steps := CanSettle(s);
    DeliveriesKeepDirectories(s, steps);
    RunKeepsNodes(s, steps);
  }

  lemma CallIsOpen(s: Network, p: PeerId, q: PeerId)
    requires Quiescent(s) && p in s.nodes && q in s.nodes
    ensures Enabled(s, BeginAdd(p, q))
  {
  }

  lemma StartStays(s: Network, o: Overlap, o': Overlap)
    requires Start(s, o) && o' == o.(between := o'.between)
    ensures Start(s, o') && o.second in s.nodes && o.c in s.nodes
  {
  }

  /** The first call and its deliveries up to rest, seen from the state right after the call. */
  lemma DeliveriesMakeReady(s: Network, o: Overlap, s1: Network)
    requires Start(s, o) && Enabled(s, BeginAdd(o.first, o.b)) && s1 == Apply(s, BeginAdd(o.first, o.b))
    requires AllDeliveries(o.between) && ValidRun(s1, o.between)
    requires Live(RunEnd(s1, o.between)) && Enabled(RunEnd(s1, o.between), BeginAdd(o.second, o.c))
    ensures ReadyForSecond(s, o) && AtSecond(s, o) == RunEnd(s1, o.between)
  {
  }

  lemma FirstCallStarts(s: Network, o: Overlap)
    requires Settled(s) && Start(s, o)
    ensures Enabled(s, BeginAdd(o.first, o.b)) && Live(Apply(s, BeginAdd(o.first, o.b)))
    ensures Apply(s, BeginAdd(o.first, o.b)).nodes.Keys == s.nodes.Keys
  {
    FirstCallRuns(s, o);
    RestIsLive(s);
    CallStaysLive(s, o.first, o.b);
  }

  lemma FirstCallSettles(s: Network, o: Overlap) returns (o': Overlap)
    requires Settled(s) && Start(s, o)
    ensures o' == o.(between := o'.between) && ReadyForSecond(s, o') && Quiescent(AtSecond(s, o'))
  {
    FirstCallStarts(s, o);
    var s1 := Apply(s, BeginAdd(o.first, o.b));
    var between := SettlesLive(s1);
    o' := o.(between := between);
    StartStays(s, o, o');
    CallIsOpen(RunEnd(s1, between), o.second, o.c);
    DeliveriesMakeReady(s, o', s1);
  }

  lemma SettledMeshKnowsFirst(s: Network, o: Overlap)
    requires ValidOverlap(s, o) && Quiescent(AtSecond(s, o))
    ensures SecondKnowsFirst(s, o)
  {
    SecondCallMeets(s, o);
    assert Reached(AtSecond(s, o), o.b, o.second);
    QuietMeets(AtSecond(s, o), o.All(), o.b, o.second);
  }

  /** A second call after the gossip of the first is over makes one mesh, whoever calls. */
  lemma MeetExample(s: Network, o: Overlap) returns (o': Overlap)
    requires Settled(s) && Start(s, o)
    ensures o' == o.(between := o'.between, after := o'.after) && ValidOverlap(s, o') && Quiescent(End(s, o'))
    ensures SecondKnowsFirst(s, o') && Meet(End(s, o'), o.b, o.c)
  {
    var o1 := FirstCallSettles(s, o);
    o' := SecondCallSettles(s, o1);
    SettledMeshKnowsFirst(s, o');
    NewcomersMeet(s, o');
  }
}
