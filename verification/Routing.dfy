/** Where an update message of a session goes (commons.go, sender.go). */
module Routing {
  import opened Basics

  datatype RouteError = NoDestination | UnknownParty(id: PeerId)

  /** The peers that get a copy, the copies handed back to this node's own channel, the error. */
  datatype Outcome = Outcome(error: Option<RouteError>, remote: set<PeerId>, loopbacks: nat)

  /**
    handleUpdateMessage. A copy for this node itself is handed over as soon as its ID is met;
    the other destinations are collected, and dropped when an unknown one turns up.
   */
  function Route(host: PeerId, dests: Option<seq<PeerId>>, known: set<PeerId>): Outcome {
    match dests
    case None => Outcome(Some(NoDestination), {}, 0)
    case Some(ids) => RouteOn(host, ids, known, {}, 0)
  }

  function RouteOn(host: PeerId, ids: seq<PeerId>, known: set<PeerId>, remote: set<PeerId>, loopbacks: nat): Outcome {
    if ids == [] then Outcome(None, remote, loopbacks)
    else if ids[0] == host then RouteOn(host, ids[1..], known, remote, loopbacks + 1)
    else if ids[0] !in known then Outcome(Some(UnknownParty(ids[0])), {}, loopbacks)
    else RouteOn(host, ids[1..], known, remote + {ids[0]}, loopbacks)
  }

  function Occurrences(id: PeerId, ids: seq<PeerId>): nat {
    if ids == [] then 0 else (if ids[0] == id then 1 else 0) + Occurrences(id, ids[1..])
  }

  predicate Reachable(host: PeerId, ids: seq<PeerId>, known: set<PeerId>) {
    forall d :: d in ids ==> d == host || d in known
  }

  lemma {:induction false} RouteOnExact(host: PeerId, ids: seq<PeerId>, known: set<PeerId>,
          remote: set<PeerId>, loopbacks: nat)
    ensures var r := RouteOn(host, ids, known, remote, loopbacks);
            && (r.error.None? <==> Reachable(host, ids, known))
            && (r.error.None? ==>
                  && r.remote == remote + (set d | d in ids && d != host)
                  && r.loopbacks == loopbacks + Occurrences(host, ids))
            && (r.error.Some? ==> r.remote == {})
  {
    if ids != [] {
      assert ids == [ids[0]] + ids[1..];
      var rest := ids[1..];
      if ids[0] == host {
        RouteOnExact(host, rest, known, remote, loopbacks + 1);
      } else if ids[0] in known {
        RouteOnExact(host, rest, known, remote + {ids[0]}, loopbacks);
      }
    }
  }

  /**
    Routing is exact: it succeeds if and only if every destination is this node or known. Then
    each distinct remote destination gets one copy, and this node one per occurrence of its
    own ID. Otherwise no remote peer gets anything. A missing list is an error.
   */
  lemma RoutingIsExact(host: PeerId, ids: seq<PeerId>, known: set<PeerId>)
    ensures Route(host, None, known) == Outcome(Some(NoDestination), {}, 0)
    ensures var r := Route(host, Some(ids), known);
            && (r.error.None? <==> Reachable(host, ids, known))
            && (r.error.None? ==>
                  r.remote == (set d | d in ids && d != host) && r.loopbacks == Occurrences(host, ids))
            && (r.error.Some? ==> r.remote == {})
  {
    RouteOnExact(host, ids, known, {}, 0);
  }

  /** The first destination that is neither this node nor known. */
  function FirstUnknown(host: PeerId, ids: seq<PeerId>, known: set<PeerId>): (k: nat)
    ensures k <= |ids|
  {
    if ids == [] || (ids[0] != host && ids[0] !in known) then 0 else 1 + FirstUnknown(host, ids[1..], known)
  }

  /** An error names the first unknown destination; this node got its copies before that one only. */
  lemma {:induction false} ErrorNamesFirstUnknown(host: PeerId, ids: seq<PeerId>, known: set<PeerId>,
          remote: set<PeerId>, loopbacks: nat)
    requires !Reachable(host, ids, known)
    ensures var k := FirstUnknown(host, ids, known);
            && k < |ids|
            && RouteOn(host, ids, known, remote, loopbacks) ==
               Outcome(Some(UnknownParty(ids[k])), {}, loopbacks + Occurrences(host, ids[..k]))
  {
    assert ids == [ids[0]] + ids[1..];
    if ids[0] == host || ids[0] in known {
      var k := FirstUnknown(host, ids[1..], known);
      if ids[0] == host {
        ErrorNamesFirstUnknown(host, ids[1..], known, remote, loopbacks + 1);
      } else {
        ErrorNamesFirstUnknown(host, ids[1..], known, remote + {ids[0]}, loopbacks);
      }
      assert ids[..k + 1][1..] == ids[1..][..k];
    }
  }
}
