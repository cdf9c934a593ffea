/**
  What handleMessageCommittee (tss/reshare.go) makes of one message of the library: up to two
  copies, one for the old parties of a reshare and one for the new ones. Both are sent by
  goroutines that read the same message, whose type the function goes on to change.
 */
module CommitteeCopies {
  import opened Basics
  import opened Messages

  /** Which parties the library means a message for. */
  datatype Audience = ToOld | ToNew | ToBoth

  /** The message cut to its first `n` destinations. */
  function FirstOf(m: TssMessage, n: nat): TssMessage {
    m.(dests := if m.dests.Some? && n <= |m.dests.value| then Some(m.dests.value[..n]) else m.dests)
  }

  /** The copies; `late` says that the first goroutine reads only after the second change of type. */
  function Copies(m: TssMessage, audience: Audience, oldCount: nat, late: bool): seq<TssMessage> {
    match audience
    case ToOld => [FirstOf(m, oldCount).(reshareType := OLD_RESHARE)]
    case ToNew => [m.(reshareType := NEW_RESHARE)]
    case ToBoth =>
      [FirstOf(m, oldCount).(reshareType := if late then NEW_RESHARE else OLD_RESHARE),
       FirstOf(m, oldCount).(reshareType := NEW_RESHARE)]
  }

  method HandleMessageCommittee(m: TssMessage, audience: Audience, oldCount: nat, late: bool)
    returns (copies: seq<TssMessage>)
    ensures copies == Copies(m, audience, oldCount, late)
  {
    var msg := m;
    copies := [];
    if audience != ToNew {
      msg := FirstOf(msg, oldCount).(reshareType := OLD_RESHARE);
      copies := [msg];
    }
    if audience != ToOld {
      msg := msg.(reshareType := NEW_RESHARE);
      if late && copies != [] {
        copies := [msg];
      }
      copies := copies + [msg];
    }
  }

  /** What every copy keeps, and whom it names. */
  lemma CopiesKeepTheMessage(m: TssMessage, audience: Audience, oldCount: nat, late: bool, k: nat)
    requires k < |Copies(m, audience, oldCount, late)|
    ensures var copy := Copies(m, audience, oldCount, late)[k];
            && copy.from == m.from && copy.payload == m.payload && copy.isBroadcast == m.isBroadcast
            && (audience.ToNew? || m.dests.None? || |m.dests.value| < oldCount ==> copy.dests == m.dests)
            && (!audience.ToNew? && m.dests.Some? && oldCount <= |m.dests.value| ==>
                  && copy.dests.Some? && |copy.dests.value| == oldCount
                  && forall j :: 0 <= j < oldCount ==> copy.dests.value[j] == m.dests.value[j])
    ensures |Copies(m, audience, oldCount, late)| == if audience.ToBoth? then 2 else 1
  {
  }

  predicate Names(m: TssMessage, q: PeerId) {
    m.dests.Some? && q in m.dests.value
  }

  /** A peer gets a broadcast in any case, and anything else if it is named. */
  predicate Reaches(m: TssMessage, q: PeerId) {
    m.isBroadcast || Names(m, q)
  }

  /** `q` gets a copy of this type. */
  predicate Gets(copies: seq<TssMessage>, q: PeerId, reshareType: nat) {
    exists k :: 0 <= k < |copies| && copies[k].reshareType == reshareType && Reaches(copies[k], q)
  }

  /** Exactly who gets which type: with the old one its old party is updated, with the new one its new party. */
  lemma CopiesAreExact(m: TssMessage, audience: Audience, oldCount: nat, late: bool, q: PeerId)
    ensures var copies := Copies(m, audience, oldCount, late);
            && (Gets(copies, q, OLD_RESHARE) <==>
                (audience.ToOld? || (audience.ToBoth? && !late)) && Reaches(FirstOf(m, oldCount), q))
            && (Gets(copies, q, NEW_RESHARE) <==>
                !audience.ToOld? && Reaches(if audience.ToBoth? then FirstOf(m, oldCount) else m, q))
  {
    var copies := Copies(m, audience, oldCount, late);
    if audience.ToBoth? {
      assert Reaches(copies[0], q) <==> Reaches(FirstOf(m, oldCount), q);
      assert Reaches(copies[1], q) <==> Reaches(FirstOf(m, oldCount), q);
    } else {
      assert Reaches(copies[0], q) <==> Reaches(if audience.ToOld? then FirstOf(m, oldCount) else m, q);
    }
  }

  predicate Distinct(dests: seq<PeerId>) {
    forall i, j :: 0 <= i < j < |dests| ==> dests[i] != dests[j]
  }

  /** Nobody behind the cut is among those before it. */
  lemma CutOff(dests: seq<PeerId>, n: nat)
    requires Distinct(dests) && n < |dests|
    ensures dests[n] in dests && dests[n] !in dests[..n]
  {
  }

  /**
    A message for both committees reaches the new party of everybody it is addressed to if and only
    if it is a broadcast, or the old committee is as large as its list of destinations: both
    copies are cut.
   */
  lemma NewPartiesAreReachedIff(m: TssMessage, oldCount: nat, late: bool)
    requires m.dests.Some? && Distinct(m.dests.value)
    ensures (forall q :: Names(m, q) ==> Gets(Copies(m, ToBoth, oldCount, late), q, NEW_RESHARE)) <==>
            m.isBroadcast || |m.dests.value| <= oldCount
  {
    var copies, dests := Copies(m, ToBoth, oldCount, late), m.dests.value;
    if m.isBroadcast || |dests| <= oldCount {
      forall q | Names(m, q) ensures Gets(copies, q, NEW_RESHARE) {
        CopiesAreExact(m, ToBoth, oldCount, late, q);
        assert |dests| == oldCount ==> dests[..oldCount] == dests;
      }
    } else {
      var q := dests[oldCount];
      CutOff(dests, oldCount);
      CopiesAreExact(m, ToBoth, oldCount, late, q);
      assert Names(m, q) && !Gets(copies, q, NEW_RESHARE);
    }
  }

  /** It reaches the old parties it is addressed to if and only if the first goroutine reads in time. */
  lemma OldPartiesAreReachedIff(m: TssMessage, oldCount: nat, late: bool, q: PeerId)
    requires Reaches(FirstOf(m, oldCount), q)
    ensures Gets(Copies(m, ToBoth, oldCount, late), q, OLD_RESHARE) <==> !late
    ensures Gets(Copies(m, ToBoth, oldCount, late), q, NEW_RESHARE)
  {
    CopiesAreExact(m, ToBoth, oldCount, late, q);
  }
}
