/** Runs of a node that reach the states Rendezvous and Stranding speak about. */
module SessionRuns {
  import opened Basics
  import opened Messages
  import opened Sessions
  import opened Stranding

  predicate Runs(n: Node, steps: seq<Step>, end: Node) {
    ValidRun(n, steps) && RunEnd(n, steps) == end
  }

  lemma {:induction false} ThenStep(n: Node, steps: seq<Step>, end: Node, step: Step)
    requires Runs(n, steps, end) && Guard(end, step)
    ensures Runs(n, steps + [step], Apply(end, step))
    decreases |steps|
  {
    if steps == [] {
      assert steps + [step] == [step] && [step][1..] == [];
      assert RunEnd(Apply(n, step), []) == Apply(n, step);
    } else {
      ThenStep(Apply(n, steps[0]), steps[1..], end, step);
      assert (steps + [step])[1..] == steps[1..] + [step];
    }
  }

  /** A key generation with these peers whose worker is in its loop. */
  predicate InItsLoop(n: Node, end: Node, id: nat) {
    && end.host == n.host && end.peers == n.peers && end.updates == n.updates && end.busy && end.tss
    && IsSession(end, id) && end.ops[id].kind.KeyGen? && end.ops[id].committee == n.peers
    && end.ops[id].driver.Waiting? && end.ops[id].worker.Running? && end.ops[id].events == []
  }

  /** Any node that runs nothing and has enough peers can get there. */
  lemma KeyGenStarts(n: Node, id: nat) returns (steps: seq<Step>, end: Node)
    requires Unused(n) && |n.peers| >= n.threshold
    ensures Runs(n, steps, end) && InItsLoop(n, end, id)
  {
    var n1 := Apply(n, Claim(id, KeyGen));
    var n2 := Apply(n1, Gather(id, true, {}));
    end := Apply(n2, StartWorker(id, true));
    ThenStep(n, [], n, Claim(id, KeyGen));
    ThenStep(n, [] + [Claim(id, KeyGen)], n1, Gather(id, true, {}));
    ThenStep(n, [] + [Claim(id, KeyGen)] + [Gather(id, true, {})], n2, StartWorker(id, true));
    steps := [] + [Claim(id, KeyGen)] + [Gather(id, true, {})] + [StartWorker(id, true)];
  }

  /** The library's message is in the driver's hand. */
  lemma MessageInHand(n: Node, id: nat, m: TssMessage) returns (steps: seq<Step>, end: Node)
    requires Unused(n) && |n.peers| >= n.threshold
    ensures Runs(n, steps, end) && IsSession(end, id) && end.host == n.host && end.peers == n.peers
    ensures end.ops[id].kind.KeyGen? && end.ops[id].committee == n.peers && end.ops[id].driver == Dispatching(m)
  {
    var begun, loop := KeyGenStarts(n, id);
    var sending := Apply(loop, Library(id, Out(Some(m))));
    ThenStep(n, begun, loop, Library(id, Out(Some(m))));
    ThenStep(n, begun + [Library(id, Out(Some(m)))], sending, Receive(id));
    steps, end := begun + [Library(id, Out(Some(m)))] + [Receive(id)], Apply(sending, Receive(id));
  }

  /**
    The failing dispatch is real: at any node with enough peers, a key generation whose peer `q`
    is deleted while a message to it, addressed inside the committee, is in the driver's hand
    strands its worker, and for good.
   */
  lemma DeletionStrands(n: Node, id: nat, q: PeerId, m: TssMessage) returns (steps: seq<Step>)
    requires Unused(n) && |n.peers| >= n.threshold && q in n.peers && q != n.host
    requires !m.isBroadcast && m.dests.Some? && q in m.dests.value
    requires forall d :: d in m.dests.value ==> d == n.host || d in n.peers
    ensures |steps| > 1 && steps[|steps| - 2..] == [DeletePeer(q), Dispatch(id)]
    ensures ValidRun(n, steps) && IsSession(RunEnd(n, steps), id)
    ensures Inside(RunEnd(n, steps), RunEnd(n, steps).ops[id], m)
    ensures Stranded(RunEnd(n, steps).ops[id]) && !CanEnd(RunEnd(n, steps), id)
  {
    var before, held := MessageInHand(n, id, m);
    ThenStep(n, before, held, DeletePeer(q));
    var gone := Apply(held, DeletePeer(q));
    ThenStep(n, before + [DeletePeer(q)], gone, Dispatch(id));
    steps := before + [DeletePeer(q)] + [Dispatch(id)];
    assert q in Missing(gone, gone.ops[id]);
    RefusedIffNamesMissing(gone, gone.ops[id], m);
    EndsIffPendingDeliverable(n, steps, id);
  }

  /**
    The node's flag is free while a worker still holds the signer's: an update call is in
    progress, and the worker of a session that is over for its driver waits for it.
   */
  lemma WorkerOutlivesDriver(n: Node, id: nat) returns (steps: seq<Step>)
    requires Unused(n) && |n.peers| >= n.threshold
    ensures ValidRun(n, steps) && IsSession(RunEnd(n, steps), id)
    ensures var end := RunEnd(n, steps);
            !end.busy && end.tss && end.ops[id].worker == Draining && !Guard(end, Release(id))
  {
    var begun, loop := KeyGenStarts(n, id);
    var updated := Apply(loop, BeginUpdate);
    var ending := Apply(updated, Library(id, LibraryError));
    ThenStep(n, begun, loop, BeginUpdate);
    ThenStep(n, begun + [BeginUpdate], updated, Library(id, LibraryError));
    ThenStep(n, begun + [BeginUpdate] + [Library(id, LibraryError)], ending, Receive(id));
    steps := begun + [BeginUpdate] + [Library(id, LibraryError)] + [Receive(id)];
  }
}
