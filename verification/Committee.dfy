/**
  From parties to a sorted committee (tss/common.go): conversion to party IDs, the sort by
  key with its indices, and the search by key. Go gives the peers of a map in any order.
 */
module Committee {
  import opened Basics

  /** A tss-lib PartyID: the key is kept as a magnitude, the index is -1 until it is sorted. */
  datatype PartyID = PartyID(id: PeerId, key: nat, index: int)

  function Magnitude(k: int): nat {
    if k < 0 then -k else k
  }

  /** convertParty2PartyID; a nil key makes NewPartyID panic, which is None here. */
  function ToPartyID(p: Party, newKey: bool): Option<PartyID> {
    var key :- if newKey then p.newPartyKey else p.partyKey;
    Some(PartyID(p.id, Magnitude(key), -1))
  }

  function ToPartyIDs(parties: seq<Party>, newKey: bool): (r: Option<seq<PartyID>>)
    ensures r.Some? ==> |r.value| == |parties|
    ensures r.Some? ==> forall k :: 0 <= k < |parties| ==> ToPartyID(parties[k], newKey) == Some(r.value[k])
    ensures r.None? <==> exists k :: 0 <= k < |parties| && ToPartyID(parties[k], newKey).None?
  {
    if parties == [] then Some([])
    else
      var init := parties[..|parties| - 1];
      assert forall k :: 0 <= k < |init| ==> parties[k] == init[k];
      match (ToPartyIDs(init, newKey), ToPartyID(parties[|parties| - 1], newKey))
      case (Some(ids), Some(id)) => Some(ids + [id])
      case (None, _) => None
      case (_, None) => None
  }

  /** The key of a party ID is the absolute value of the party's key; without a key there is none. */
  lemma IdHasTheKey(p: Party, newKey: bool)
    ensures var key := if newKey then p.newPartyKey else p.partyKey;
            match ToPartyID(p, newKey)
            case None => key.None?
            case Some(id) => id.id == p.id && key.Some? && (id.key == key.value || id.key == -key.value)
  {
  }

  // ----- Sorting by key -----

  /** Puts `p` in front of the first ID whose key is not smaller. */
  function Insert(p: PartyID, sorted: seq<PartyID>): seq<PartyID> {
    if sorted == [] || p.key <= sorted[0].key then [p] + sorted
    else [sorted[0]] + Insert(p, sorted[1..])
  }

  function Sort(ids: seq<PartyID>): seq<PartyID> {
    if ids == [] then [] else Insert(ids[0], Sort(ids[1..]))
  }

  function WithIndices(sorted: seq<PartyID>): (r: seq<PartyID>)
    ensures |r| == |sorted|
  {
    seq(|sorted|, k requires 0 <= k < |sorted| => sorted[k].(index := k))
  }

  /** SortPartyIDs of tss-lib: sorted by key, each ID told its position. */
  function SortPartyIDs(ids: seq<PartyID>): seq<PartyID> {
    WithIndices(Sort(ids))
  }

  /** sortParties. */
  function SortParties(parties: seq<Party>, newKey: bool): Option<seq<PartyID>> {
    var ids :- ToPartyIDs(parties, newKey);
    Some(SortPartyIDs(ids))
  }

  predicate StrictlySorted(ids: seq<PartyID>) {
    forall i, j :: 0 <= i < j < |ids| ==> ids[i].key < ids[j].key
  }

  predicate DistinctKeys(ids: seq<PartyID>) {
    forall i, j :: 0 <= i < j < |ids| ==> ids[i].key != ids[j].key
  }

  lemma {:induction false} InsertContents(p: PartyID, sorted: seq<PartyID>)
    ensures |Insert(p, sorted)| == |sorted| + 1
    ensures forall q :: q in Insert(p, sorted) <==> q == p || q in sorted
  {
    if sorted != [] && p.key > sorted[0].key {
      InsertContents(p, sorted[1..]);
      assert sorted == [sorted[0]] + sorted[1..];
    }
  }

  lemma {:induction false} InsertSorts(p: PartyID, sorted: seq<PartyID>)
    requires StrictlySorted(sorted) && forall k :: 0 <= k < |sorted| ==> sorted[k].key != p.key
    ensures StrictlySorted(Insert(p, sorted))
  {
    if sorted != [] && p.key > sorted[0].key {
      InsertSorts(p, sorted[1..]);
      InsertContents(p, sorted[1..]);
      var rest := Insert(p, sorted[1..]);
      forall k | 0 <= k < |rest|
        ensures sorted[0].key < rest[k].key
      {
        assert rest[k] in rest;
      }
    }
  }

  lemma {:induction false} SortContents(ids: seq<PartyID>)
    ensures |Sort(ids)| == |ids|
    ensures forall q :: q in Sort(ids) <==> q in ids
  {
    if ids != [] {
      SortContents(ids[1..]);
      InsertContents(ids[0], Sort(ids[1..]));
      assert ids == [ids[0]] + ids[1..];
    }
  }

  lemma {:induction false} SortSorts(ids: seq<PartyID>)
    requires DistinctKeys(ids)
    ensures StrictlySorted(Sort(ids))
  {
    if ids != [] {
      SortSorts(ids[1..]);
      SortContents(ids[1..]);
      var rest := Sort(ids[1..]);
      forall k | 0 <= k < |rest|
        ensures rest[k].key != ids[0].key
      {
        assert rest[k] in rest;
      }
      InsertSorts(ids[0], rest);
    }
  }

  lemma FirstIsIn(b: seq<PartyID>)
    ensures b != [] ==> b[0] in b
  {
  }

  /** A strictly sorted list is determined by what is in it. */
  lemma {:induction false} SortedIsUnique(a: seq<PartyID>, b: seq<PartyID>)
    requires StrictlySorted(a) && StrictlySorted(b)
    requires forall q :: q in a <==> q in b
    ensures a == b
    decreases |a|
  {
    if a == [] {
      FirstIsIn(b);
    } else {
      assert a[0] in a && a[0] in b;
      assert b[0] in b && b[0] in a;
      assert a[0] == b[0];
      TailContents(a, b);
      SortedIsUnique(a[1..], b[1..]);
      assert a == [a[0]] + a[1..] && b == [b[0]] + b[1..];
    }
  }

  lemma TailContents(a: seq<PartyID>, b: seq<PartyID>)
    requires StrictlySorted(a) && StrictlySorted(b) && a != [] && b != [] && a[0] == b[0]
    requires forall q :: q in a <==> q in b
    ensures forall q :: q in a[1..] <==> q in b[1..]
  {
    forall q | q in a[1..] ensures q in b[1..] {
      assert q in a && q.key > a[0].key;
      var k :| 0 <= k < |b| && b[k] == q;
      assert b[1..][k - 1] == q;
    }
    forall q | q in b[1..] ensures q in a[1..] {
      assert q in b && q.key > b[0].key;
      var k :| 0 <= k < |a| && a[k] == q;
      assert a[1..][k - 1] == q;
    }
  }

  /**
    The order of the input does not matter: two lists of the same IDs, with distinct keys,
    sort to the same committee with the same indices.
   */
  lemma SortIgnoresOrder(a: seq<PartyID>, b: seq<PartyID>)
    requires DistinctKeys(a) && DistinctKeys(b)
    requires forall q :: q in a <==> q in b
    ensures SortPartyIDs(a) == SortPartyIDs(b)
  {
    SortSorts(a);
    SortSorts(b);
    SortContents(a);
    SortContents(b);
    SortedIsUnique(Sort(a), Sort(b));
  }

  // ----- Finding a party -----

  /** FindByKey: the first ID with the key. */
  function FindByKey(sorted: seq<PartyID>, key: nat): Option<PartyID> {
    if sorted == [] then None
    else if sorted[0].key == key then Some(sorted[0])
    else FindByKey(sorted[1..], key)
  }

  /** The first ID with the key, and nothing if there is none. */
  lemma {:induction false} FindsTheFirst(sorted: seq<PartyID>, key: nat)
    ensures match FindByKey(sorted, key)
            case None => forall k :: 0 <= k < |sorted| ==> sorted[k].key != key
            case Some(id) =>
              exists k :: 0 <= k < |sorted| && sorted[k] == id && id.key == key
                          && forall j :: 0 <= j < k ==> sorted[j].key != key
  {
    if sorted != [] && sorted[0].key != key {
      var rest := sorted[1..];
      FindsTheFirst(rest, key);
      assert forall k :: 0 < k < |sorted| ==> sorted[k] == rest[k - 1];
      if FindByKey(rest, key).Some? {
        var id := FindByKey(rest, key).value;
        var k :| 0 <= k < |rest| && rest[k] == id && id.key == key && forall j :: 0 <= j < k ==> rest[j].key != key;
        assert sorted[k + 1] == id;
      }
    }
  }

  /** With distinct keys, the search finds the ID wherever it stands. */
  lemma {:induction false} FindsByKey(sorted: seq<PartyID>, k: nat)
    requires DistinctKeys(sorted) && k < |sorted|
    ensures FindByKey(sorted, sorted[k].key) == Some(sorted[k])
  {
    if k > 0 {
      FindsByKey(sorted[1..], k - 1);
    }
  }

  /** After sorting, each party finds itself, at the position that is its index. */
  lemma SortedPartyFindsItself(ids: seq<PartyID>, p: PartyID)
    requires DistinctKeys(ids) && p in ids
    ensures var sorted := SortPartyIDs(ids);
            var found := FindByKey(sorted, p.key);
            && |sorted| == |ids|
            && found.Some? && found.value.id == p.id && found.value.key == p.key
            && 0 <= found.value.index < |sorted| && sorted[found.value.index] == found.value
  {
    SortContents(ids);
    SortSorts(ids);
    var k :| 0 <= k < |Sort(ids)| && Sort(ids)[k] == p;
    FindsByKey(SortPartyIDs(ids), k);
  }

  // ----- The loops of the source -----

  /** sortParties as it is written: the IDs are appended in a loop, then sorted. */
  method SortPartiesLoop(parties: seq<Party>, newKey: bool) returns (r: Option<seq<PartyID>>)
    ensures r == SortParties(parties, newKey)
  {
    var ids: seq<PartyID> := [];
    for k := 0 to |parties|
      invariant ToPartyIDs(parties[..k], newKey) == Some(ids)
    {
      var converted := ToPartyID(parties[k], newKey);
      assert parties[..k + 1][..k] == parties[..k];
      if converted.None? {
        assert ToPartyID(parties[k], newKey).None?;
        return None;
      }
      ids := ids + [converted.value];
    }
    assert parties[..|parties|] == parties;
    r := Some(SortPartyIDs(ids));
  }

  method FindByKeyLoop(sorted: seq<PartyID>, key: nat) returns (r: Option<PartyID>)
    ensures r == FindByKey(sorted, key)
  {
    for k := 0 to |sorted|
      invariant FindByKey(sorted, key) == FindByKey(sorted[k..], key)
    {
      if sorted[k].key == key {
        return Some(sorted[k]);
      }
      assert sorted[k..][1..] == sorted[k + 1..];
    }
    r := None;
  }
}
