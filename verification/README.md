# Verification of the node layer of p2p-tss-lib

p2p-tss-lib runs threshold signatures over a libp2p network. Each node keeps a table of peers,
introduces new peers by gossip, exchanges party records, and drives key generation, signing and
reshare sessions of tss-lib. This project models that node layer and the framed wire format, and
proves what the protocol promises. Cryptography and transport are outside: a connection is one
step, and tss-lib is a source of arbitrary events with a stated contract.

The parts, each in a file named after its module:

- **Membership gossip.** `Membership` says what one node does to its own state; `Gossip`
  interleaves these over n nodes, with messages and connections in flight, losses, failed dials,
  deletions and sessions. `PeerTable` and `Directory` prove what every run keeps, `Merge` that one
  AddPeer makes one mesh out of two, `Quiescence` that the flood stops, `Joining` that any sequence
  of calls builds a full mesh and can always finish, `Concurrent` exactly when two overlapping calls for
  two newcomers without peers do, and `RecordHistory` what the events at a node make of each record.
- **The wire.** `Json`, `JsonRoundTrip`, `Utf8`, `Base64`, `Messages` and `Wire` are a real encoder
  and decoder for every message type; `Framing` and `Senders` put frames on a stream that is cut
  anywhere and shared by any number of senders; `Dispatch` nests the payloads
  and is the gate; `WireText` says what the bytes are, apart from any round trip.
- **Committees.** `Committee` sorts and searches as the source does; `KeyGenCommittee` and `Signing`
  show that all nodes agree, whatever order Go walks their maps in; `Rotation` and `NextCommittee`
  show what a reshare leaves in the directories, `ReshareTiming` decides it from the order of events,
  and `ReshareRuns` shows that both outcomes occur.
- **Sessions.** `Sessions` is one node's step system of drivers, workers and the two flags;
  `Rendezvous`, `Stranding` and `SessionRuns` hold its results; `Signer` is the signer's state;
  `CommitteeCopies` is what a reshare makes of a library message; `ShareFlags` is the blanket marking.
  `Routing` says where an update goes, and so which dispatch fails.
- **Objects.** `Nodes` and `Signer` hold the classes, whose methods are proved against the functions
  above. `Refinement` shows that a method run without interruption is a run of the network, and
  `SessionRefinement` that a node's session steps are the network's, and `SignerRefinement` that the
  party a node shows follows its signer.

Hypotheses the source leaves to its surroundings, each visible in a `requires` or a guard:

- Claiming a flag is one step. The source reads it and then stores it (`peer.go:19-22`), and session
  handlers store it in a goroutine of their own (`start.go:71`, `keygen.go:38`).
- The merge and the directory theorems speak of runs in which nothing is lost. Safety (`PeerTable`,
  `Directory.RecordsAreNeverWrong`) holds with losses and deletions, and `Rotation` allows the loss of
  a PartyId, which a node still in its session rejects (`start.go:58`). `ReshareTiming` ties that loss to
  the flag; there nobody ends a reshare before all have begun, since the library needs every party.
- tss-lib addresses its messages to members of the committee (`Stranding.Inside`), and its shares keep
  the promises named in `Signer`.
- A node does not dial itself, and a node sends its own party. Keys in a committee are distinct.
- A NewPeer's ID and the ID of the stream it is reached on are the same text.

Properties that the code does not have in general are stated with the exact condition under which it
has them:

- Two overlapping AddPeer calls for newcomers without peers build a full mesh if and only if the second
  caller has already recorded the first newcomer (`Concurrent`); from every rest both outcomes are
  reached (`ConcurrentRuns`).
- A session can end, and frees the signer, if and only if its pending messages can be routed to the
  peers it knows; a committee member deleted meanwhile is what breaks it (`Stranding`, `SessionRuns`).
- `doneKeyGen` marks all peers as holding a share, and a PartyId read later clears the mark again. The
  marks are right on every node if and only if no node was given a share, or every node was given a
  usable one and read no PartyId after its end. That all sessions finish is enough if and only if no
  PartyId was on its way when the key generation began; every combination of outcomes is reached
  (`ShareFlags`).
- After a reshare that changes the keys a record is exact, and a node keeps the order of its committee,
  if and only if no PartyId reached the node before its own end (`ReshareTiming`). When each PartyId
  arrives before the next node ends, one record of every pair is stale and only the first node keeps
  its committee; such a reshare exists in every mesh at rest, and so does one that is clean (`ReshareRuns`).
- A message for both committees reaches every new party it is addressed to if and only if it is a
  broadcast or the old committee is as large as its list, and the old parties if and only if the first
  of two goroutines reads in time (`CommitteeCopies`).
- A reshare keeps share and key coupled if and only if the share it takes fits the key it leaves
  (`Signer`).

Check with `dafny verify dfyconfig.toml` (Dafny 4.11).

## Model

| member | source | states |
|---|---|---|
| PeerTable.StepKeepsTables | peer.go:17-253 | Every step, losses, deletions and sessions included, keeps every node out of its own table, files every entry under its remote's ID on a link that joins the two, and keeps every PartyId in flight labelled with its true sender. |
| PeerTable.PeerTablesAreSound | peer.go:68-76 | In every state reachable from fresh nodes, a node is not its own peer, each entry's key is its remote's ID, and the recorded party is unset apart from its share flag or carries that ID. |
| Directory.StepKeepsDirectory | peer.go:116-181 | Without loss and reshare end, every step keeps: each record is exact, or its PartyId is in flight on the latest link, or the peer has still to launch that link. |
| Directory.DirectoriesEndExact | sender.go:60-78 | From fresh nodes, at quiescence every record has the ID and both keys its peer runs with, however many duplicate links reset it on the way. |
| Directory.RecordsAreNeverWrong | peer.go:116-130 | Under any losses, deletions and sessions, and until a reshare ends, the keys in a record are nothing or the peer's own, never stale or another's. |
| RecordHistory.EntryIsItsHistory | peer.go:116-181 | In every run, losses, deletions, sessions and reshares included, a node's entry of a peer is what its events make of it: blank with each launch, gone with a deletion, the party read last, marked at the end of a session that marks. |
| RecordHistory.RecordsShowTheLastParty | network/peer.go:31-61 | So from fresh nodes a record shows, up to its share flag, the party read last from that peer since it was launched last, and no key if none was read. |
| Merge.StepKeepsMerge | peer.go:52-114 | During the merge of two meshes every delivery step keeps: both sides stay meshed, having a peer stays mutual across the sides, and each node is announced to the whole other side or unknown to all of it. |
| Merge.AddPeerMergesMeshes | peer.go:17-50 | From any disjoint full meshes at rest, one AddPeer between two of them, delivered in any order, ends at quiescence in exactly these two made one mesh, recorded on both ends, the others untouched. |
| Quiescence.StepSettles | peer.go:52-114 | A weight over uncovered pairs, dialling and launching nodes, unaccepted connections and messages drops at every delivery, acceptance, loss and failed dial. |
| Quiescence.GossipQuiesces | peer.go:78 | So a run in which nobody starts anything new is at most as long as the weight of its first state: the flood stops, and its cost is bounded. |
| Joining.CanSettle | start.go:25-54 | From every live state some run of deliveries reaches quiescence: the gossip never gets stuck. |
| Joining.CallsBuildAFullMesh | peer_test.go:80-116 | Any number of AddPeer calls at any nodes, one after the other, that connect all nodes directly or indirectly, end in one full mesh with exact directories. |
| Joining.EveryRoundCanFinish | peer.go:17-114 | However the deliveries of a call have begun, they can be carried on to quiescence. |
| Joining.AnyNodeCanBuildTheMesh | peer_test.go:14-43 | From any fresh network, any node can bring about the full mesh with exact directories by calls of its own. |
| Concurrent.OverlapMeshesIffSecondKnowsFirst | peer.go:45-78 | Two AddPeer calls at members of one mesh, for two newcomers, with any deliveries between them and any after: at quiescence all pairs have each other, the newcomers if and only if the second caller had recorded the first newcomer when it called; otherwise they are strangers. |
| Concurrent.NewcomersStayApart | peer.go:68-78 | Without that guard neither newcomer is recorded at the other at any moment, at rest or not. |
| ConcurrentRuns.StrangersExample | peer.go:68-78 | From every rest, two members that call before anything is delivered leave the newcomers strangers: the gossip can be carried to its end, and the guard fails. |
| ConcurrentRuns.MeetExample | peer.go:68-78 | From every rest, whoever calls, the second call can wait until the guard holds, and the newcomers meet. |
| Nodes.Node.AddPeer | peer.go:17-50 | The error for every case, in the source's order of checks, by the node's own fields; the view and what is sent are those of the specification; the flag ends as it began. |
| Nodes.CallSendsExactly | peer.go:44-49 | What a call sends: the announcement once to each peer, and the node's party once to the new peer on the dialled stream; the announcements alone when the dial fails; nothing on any other error. |
| Nodes.Node.HandleNewPeerJoinedMsg | peer.go:52-79 | A payload that does not parse is an error; the node itself and known peers are ignored; another peer is launched, and nothing is announced. |
| Nodes.Node.HandleNewConnection | peer.go:83-114 | Rejected while busy; otherwise one announcement to each old peer, then the new one is launched and gets this node's party. |
| Nodes.Node.HandlePartyId | peer.go:116-130 | An unknown sender is an error before the payload is looked at; otherwise exactly the sender's record takes the party, and a bad payload changes nothing. |
| Nodes.Node.LaunchNewPeer | peer.go:169-181 | The entry of the remote is replaced by a blank one on the new stream, and one PartyId is sent on that stream. |
| Nodes.Node.DeletePeer | peer.go:196-215 | Exactly that entry goes, and an unknown peer is reported. |
| Nodes.Node.SendMessageToPeers | sender.go:151-167 | Exactly one copy for each peer of the map, on its own stream, in whatever order the map is walked. |
| Nodes.Node.MarkAllPeers | keygen.go:141-145 | The loop over the peers marks every record as holding a share and changes nothing else. |
| Nodes.Node.DoneReshare | reshare.go:183-202 | All peers are marked, and each gets this node's party once, on its own stream. |
| Nodes.Node.GetPeersAsParties | commons.go:43-58 | The parties of the peers in the order the map is walked, all of them or only those recorded with a share. |
| Nodes.Node.UpdateSignerPeers | sign.go:267-280 | The new map holds exactly the listed peers this node has, without itself, each with its current stream. |
| Nodes.Node.HandleUpdateMessage | commons.go:61-91 | The copies sent, the copies handed back to the node's own channel and the error are those of the routing specification. |
| Nodes.Node.SendSignUpdate | sign.go:181-203 | A broadcast goes to every signer peer and to nobody else; any other update is routed among the signer peers. |
| Refinement.AddPeerIsItsSteps | peer.go:17-50 | AddPeer that succeeds is three enabled steps of the network, with the same view; a peer is announced to there exactly if the method sends it a NewPeerJoined that reads as the new peer. |
| Refinement.FailedCallIsItsSteps | peer.go:17-50 | A call whose dial fails leaves only its announcements in the network, and a rejected call leaves nothing. |
| Refinement.JoinedIsItsSteps | peer.go:52-79 | So is handleNewPeerJoinedMsg for a new peer, and it announces nothing. |
| Refinement.ConnectionIsItsStep | peer.go:83-114 | handleNewConnection is one step: the opener is launched and announced to the old peers. |
| Refinement.PartyIsItsStep | peer.go:116-130 | handlePartyId is one step, which records exactly the party of the message under the remote end of its stream. |
| Refinement.DoneReshareIsItsStep | reshare.go:183-202 | The network's end of a reshare marks the peers, and sends a party to a peer exactly if the method sends it a PartyId with that party on the same stream. |
| Refinement.CopiesAreAnnouncements | sender.go:39-57 | The copies a node sends are the network's announcements: one for each peer, on its latest stream, and no others. |
| Refinement.AnnouncementArrives | message/newpeer.go:10-21 | A framed announcement is read back whole, with sender and deadline, and dispatched to handleNewPeerJoinedMsg, which reads the same peer and addresses. |
| Refinement.PartyArrives | sender.go:60-78 | The framed PartyId of launchNewPeer is read back whole, with sender and deadline, and dispatched to handlePartyId, which reads exactly the party that was sent. |
| Refinement.GuardsAreTheGate | start.go:57-60 | The network's idle guards are the gate: an announcement, a party or the start of a session can be taken up exactly if handleMessage accepts its code at that node, a connection and a call exactly if the node is not busy. |
| Refinement.DropsAreRejections | start.go:102-117 | The losses that ReshareTiming allows are exactly what the gate rejects. |
| JsonRoundTrip.ParseWrite | peer/pb/message.go:19-25 | Every JSON value is read back from its text, whatever its strings contain (RFC 8259, section 7). |
| JsonRoundTrip.ParsesIffOnlySpaceFollows | peer/pb/message.go:23-25 | A written value followed by anything but white space is an error. |
| JsonRoundTrip.WriteNoBreak | peer/peer.go:17 | No JSON text contains a line break, because every control character in a string is escaped. |
| Utf8.DecodeEncode | peer/pb/message.go:19-25 | Text survives its encoding as bytes. |
| Base64.DecodeEncode | peer/pb/message.go:14 | A payload of any length survives its base64 form (RFC 4648, section 4). |
| Wire.DelimiterIsValid | peer/peer.go:17 | Answers the question in the source: no marshalled message contains the delimiter. |
| Wire.MessageRoundTrip | peer/pb/message.go:11-25 | A message comes back from its bytes, a missing payload told from an empty one. |
| Wire.TssRoundTrip | tss/pb/tss.go:13-27 | A TSS message comes back, with nil keys, big-integer decimals and a nil or an empty destination list. |
| Wire.PartyRoundTrip | tss/pb/party.go:9-23 | A party record comes back. |
| Wire.SignRoundTrip | message/sign.go:9-21 | A sign request comes back, with every party in its place. |
| Wire.NewPeerRoundTrip | message/newpeer.go:10-21 | A new peer comes back. |
| WireText.MessageIsText | peer/pb/message.go:11-16 | The text of the envelope in full: the names of the struct tags in their order, with the texts of the values. |
| WireText.PartyIsText | tss/pb/party.go:9-15 | The same for a party record. |
| WireText.TssIsText | tss/pb/tss.go:13-19 | The same for a TSS message, nil lists as null. |
| WireText.SignIsText | message/sign.go:9-13 | The same for a sign request. |
| WireText.NewPeerIsText | message/newpeer.go:10-13 | The same for a new peer. |
| WireText.LongEscapes | peer/pb/message.go:19-21 | Control characters without an escape of one letter, <, >, & and two separators are written by number. |
| Base64.QuadHasTheValue | peer/pb/message.go:14 | Four letters are the digits to base 64 of the number that three bytes are to base 256 (RFC 4648, section 4). |
| Base64.AlphabetIsStandard | peer/pb/message.go:14 | The letters are those of table 1 of RFC 4648, in its order. |
| Utf8.FormIsStandard | peer/pb/message.go:19-25 | The number of bytes of a character, how each begins and what they add up to (RFC 3629, section 3). |
| Framing.Stream.ReadData | peer/peer.go:124-142 | Reads up to the next delimiter however the bytes arrive, replaces the sender by the remote end, and leaves the rest unread. |
| Framing.Stream.ReadFromPeer | peer.go:184-194 | The loop hands over the messages of the stream in order, up to the first that cannot be read. |
| Framing.StreamRoundTrip | peer/peer.go:102-142 | For any messages and any way the transport cuts the stream, the reader gets exactly these messages, in order, with the remote end as sender. |
| Framing.BadFrameStops | peer.go:184-194 | After any whole frames, the reader stops for good at the first that does not parse, whatever follows. |
| Senders.StepKeepsChannel | peer/peer.go:108-119 | Every step of any number of senders keeps: the stream is whole frames and at most a piece of the lock holder's, and no message is lost or doubled. |
| Senders.ConcurrentSendersDoNotMix | sender.go:158-167 | In every interleaving, whatever part of the stream has arrived, the reader has read whole messages in lock order, and read plus outstanding is what was sent. |
| Senders.EverythingArrives | peer/peer.go:102-122 | When all senders are through and the stream has arrived, the messages read are exactly those sent. |
| Dispatch.UpdateArrives | keygen.go:56-92 | A TSS message wrapped by a session and framed is read back whole, passes the gate even while the node is busy, reaches the update call of the same session, and is unwrapped unchanged. |
| Dispatch.GateIsExact | start.go:102-117 | A busy node rejects every code but 4, 6, 8 and 9, an idle one none. |
| Dispatch.CodesHaveTheirHandlers | message/message.go:3-13 | Each of the codes 1 to 9 goes to its own handler, and any other is unknown. |
| CommitteeCopies.CopiesKeepTheMessage | tss/reshare.go:280-311 | Every copy keeps sender, payload and broadcast flag; a cut one names the first destinations and no more, any other names all. |
| CommitteeCopies.HandleMessageCommittee | tss/reshare.go:270-314 | The copies of a library message are those of the specification, in which the copy for the old parties may be read after the message's type has changed. |
| CommitteeCopies.CopiesAreExact | tss/reshare.go:290-311 | A peer gets a copy for its old party exactly if the message is for the old committee, is among the first destinations or broadcast, and was read in time; a copy for its new party exactly if it is for the new committee and named after the cut, if there is one. |
| CommitteeCopies.NewPartiesAreReachedIff | tss/reshare.go:295-306 | A message for both committees reaches the new party of everybody it is addressed to if and only if it is a broadcast, or the old committee is as large as its list of destinations. |
| CommitteeCopies.OldPartiesAreReachedIff | tss/reshare.go:298-310 | And it reaches old parties if and only if the first goroutine reads before the second change of type. |
| Dispatch.CopiesArrive | reshare.go:91-132 | Every copy has a code, so wrapping it does not panic, and framed it reaches the update call of the party it was made for, with the sender and the payload of the library's message. |
| Committee.SortIgnoresOrder | tss/common.go:48-60 | Two lists of the same IDs with distinct keys sort to the same committee with the same indices. |
| Committee.SortedPartyFindsItself | tss/common.go:62-81 | After the sort each party finds itself by its key, at the position its index says. |
| Committee.SortPartiesLoop | tss/common.go:48-60 | The loop converts every party and sorts, and fails exactly when a key is missing. |
| Committee.FindByKeyLoop | tss/common.go:69-79 | The search returns the first ID with the key. |
| Committee.FindsTheFirst | tss/common.go:69-79 | That is an ID with the key and none before it has the key; nothing exactly if no ID has it. |
| Committee.IdHasTheKey | tss/common.go:110-116 | A party converts exactly if it has the key asked for, to its own ID and the absolute value of that key. |
| KeyGenCommittee.CommitteesAgree | keygen.go:94-115 | On a full mesh with exact directories, any two nodes derive the same sorted committee, for every order their maps are walked in. |
| KeyGenCommittee.CommitteeIndices | commons.go:25-58 | A session is refused exactly when the nodes are no more than the threshold; otherwise the committee has one member per node, indices 0..m-1, and the node finds itself in it. |
| KeyGenCommittee.CommitteeFails | keygen.go:94-103 | There is no committee exactly with too few peers, or with a party that lacks the key to sort by. |
| KeyGenCommittee.JoinedNodesAgree | keygen.go:94-115 | End to end: fresh nodes with distinct keys, any AddPeer calls that connect them, any delivery and map orders; then all nodes derive the same committee. |
| Rotation.StepKeepsRotation | reshare.go:183-202 | Every step of a reshare, a dropped PartyId included, keeps: each node's one message to each peer is in flight, dropped or recorded, and the record is the old one until it is recorded. |
| Rotation.ReshareRefreshes | reshare.go:183-202 | After every run of a reshare all keys have rotated, and each record is what its peer is now, or what it was before if its owner dropped the party the peer sent. |
| ReshareTiming.DroppedIffEarly | start.go:57-60 | In every reshare in which all begin before anybody ends, and a PartyId is lost only at a node whose flag is set: a node dropped a peer's party if and only if it arrived before the node's own end, by the positions of the two events in the run. |
| ReshareTiming.RecordsAreExactIffNoneWasEarly | peer.go:116-130 | So, when the keys change, a record is exact if and only if its party was not early, and otherwise still carries the old keys; all directories are exact if and only if no party was early anywhere. |
| ReshareTiming.OrderIsKeptIffNoneWasEarly | tss/reshare.go:39-50 | A node that sorts by party key after the reshare gets the members, order and indices of its new committee if and only if no party reached it before its own end. |
| ReshareTiming.EarlyMeansLater | reshare.go:183-202 | A party can be early only at a node that ends after its sender. |
| ReshareTiming.AtMostOneOfTwoIsStale | reshare.go:183-202 | So in every such reshare at least one of any two nodes has the other's new keys. |
| ReshareTiming.OneOfTwoIsStale | reshare.go:183-202 | When each party arrives before the next node ends, exactly one of any two nodes is left with a stale record of the other: the one that ended later. |
| ReshareTiming.OnlyTheFirstKeepsItsCommittee | tss/reshare.go:144-147 | Then a node keeps the order of its committee if and only if it ended before all others. |
| ReshareRuns.StaleRecordExample | reshare.go:183-202 | From every mesh of two or more nodes at rest whose keys change, some such reshare drops a party and leaves a stale record. |
| ReshareRuns.CleanReshareExample | reshare.go:183-202 | And another one drops nothing and leaves all directories exact. |
| NextCommittee.ReshareKeepsOrder | tss/reshare.go:144-147 | When none was dropped, all nodes keep the committee, and the network is ready for the next session. |
| NextCommittee.ManyResharesKeepOrder | tss/reshare.go:144-147 | And so for any number of such reshares in a row. |
| Signing.SelectRandomlySignerPeer | sign.go:245-265 | The loop picks the candidates at the first threshold places of the permutation, or none when there are too few. |
| Signing.SelectionIsExact | sign.go:39-64 | For every permutation and map order: an error exactly without an own share or with too few peers recorded with one; otherwise that many distinct such peers, each with its recorded party, then the node itself. |
| Signing.RequestIsSignList | sign.go:45-57 | In an aligned network the list that is sent names distinct nodes, each with its own key. |
| Signing.SignersAgree | sign.go:136-158 | Every receiver reads the list as it was sent, sorts it to the same committee, and finds itself in it. |
| Signing.SignerPeersAreExact | sign.go:267-280 | The signer peers are the listed peers, without the node itself. |
| Signing.SignTrafficStaysInside | sign.go:181-203 | An update addressed inside the committee never meets an unknown party and reaches exactly the other signers it names; a signer's peers are exactly the other signers. |
| Routing.RoutingIsExact | commons.go:61-91 | Routing succeeds if and only if every destination is this node or known; then each distinct remote one gets one copy and this node one per occurrence; otherwise no remote peer gets anything. |
| Routing.ErrorNamesFirstUnknown | commons.go:72-86 | The error names the first unknown destination, and this node got its own copies before that one only. |
| Signer.TssSigner.UpdateIndex | tss/common.go:62-81 | Only the index of the party looked for changes, to the one found; a missing party is reported. |
| Signer.TssSigner.MakePublicKey | tss/common.go:118-136 | Only the public key changes, and only when there is a share that has one; otherwise an error. |
| Signer.TssSigner.GenerateKey | tss/keygen.go:55-87 | The loop's end state and signals are those of the specification, for every sequence of library events. |
| Signer.KeyGenEndsAt | tss/keygen.go:57-87 | By position: the loop ends at the first event that is no message to send; an end value is stored with its public key, and is done exactly if it has one; anything else changes nothing. Every message before was forwarded. |
| Signer.KeyGenGoesOn | tss/keygen.go:68-75 | Until then the state stays, and each message is forwarded. |
| Signer.TssSigner.ReshareKey | tss/reshare.go:107-153 | The same for a reshare, whose worker forwards the copies of each message for the two committees, and passes over the first end value when it also runs an old party. |
| Signer.ReshareEndsAt | tss/reshare.go:126-151 | By position: the first end value, or the second one when the signer holds a share, is stored, and with a public key the new key becomes the party key and a fresh one follows; any other end changes nothing. |
| Signer.KeyGenKeepsCoupling | tss/keygen.go:77-83 | Given the library's promise about the share it ends with, key generation keeps a share's ID and the party key equal, and leaves both keys alone. |
| Signer.ReshareCoupling | tss/reshare.go:129-149 | A reshare keeps them equal if and only if it takes no share, or the share's ID fits the key it leaves the party with. |
| Signer.MissingPublicKeyBreaksCoupling | tss/reshare.go:138-142 | Under the library's promise the coupling is lost exactly when the new share has no public key, because the share is stored before the keys rotate. |
| Signer.BrokenCouplingExample | tss/reshare.go:138-142 | One such run in full. |
| Signer.ReshareRotatesParty | tss/reshare.go:144-147 | A reshare that finishes does to the party record what the network's rotation says. |
| Signer.SignersAreBornCoupled | tss/tss.go:103-117 | From New, with or without a saved share, through any key generations, reshares and sessions that keep the library's promises, a signer that holds a share runs under that share's ID. |
| Signer.NewIsExact | tss/tss.go:90-117 | New fails exactly for a saved share without a public key; otherwise the share, both keys and the public key are as configured. |
| SignerRefinement.KeyGenEndIsItsStep | tss/tss.go:134-142 | The party that GetParty shows after a key generation, whatever it ended with, is what the network's step makes of the node's own party. |
| SignerRefinement.ReshareEndIsItsStep | tss/reshare.go:144-147 | The same for a reshare that finishes. |
| SignerRefinement.FailedReshareIsItsStep | tss/reshare.go:126-142 | And for one that does not, although it may have stored a share. |
| SignerRefinement.SignerFindsItself | tss/common.go:62-81 | In an aligned network updateIndex finds the signer in the committee under its own key, at the position that becomes its index. |
| SignerRefinement.SharesAreKept | tss/keygen.go:77-78 | No step takes a share away, and only the end of a session gives one. |
| Sessions.StepKeepsInvariant | start.go:57-117 | Every step of any operations of a node keeps: each flag is set exactly while one operation or worker holds it, driver and worker are in step, no message is lost, and no session under way sees a new or changed peer. A dispatch succeeds exactly when the routing does. |
| Rendezvous.FlagsTellTheTruth | tss/keygen.go:22-30 | In every run at most one operation holds the node's flag and at most one worker the signer's, and each flag is set exactly then. |
| Rendezvous.StartsIffEnoughPeers | keygen.go:94-97 | A session starts its worker exactly with at least as many peers as the threshold, or for a sign session if it is ready; otherwise it is over and the node is free. |
| Rendezvous.WorkerStartsIffSignerFree | tss/sign.go:29-63 | The worker runs exactly if the signer is free and, to sign, prepared. |
| Rendezvous.DecisionEndsTheSession | tss/keygen.go:60-93 | The deciding event and the meeting free the node and mark the peers exactly if a key generation or reshare finished; the signer is free at once exactly after a deadline of a key generation or a signing, and else waits for the update calls. |
| Rendezvous.UpdatesAreCounted | tss/keygen.go:102-103 | The wait group is, in every run, the number of update calls that have begun and not ended. |
| SessionRuns.WorkerOutlivesDriver | tss/keygen.go:89-93 | The node's flag can be free while a worker still holds the signer's and waits for an update call: a run to that state, at any node with enough peers. |
| Rendezvous.RefusedSessionDoesNothing | tss/keygen.go:23-26 | In every run from its refusal on, its session takes no library event and sends nothing, and its driver's only possible result is the error of a second process. |
| Stranding.EndsIffPendingDeliverable | keygen.go:117-138 | From every reachable state a session can still end, whatever else the node is doing, if and only if its driver has not returned on a failed dispatch and every pending message can be routed to the peers the session knows then. |
| Stranding.SignerIsFreedIffPendingDeliverable | sign.go:219-239 | While a worker holds the signer's flag, some run frees it if and only if the same holds; otherwise every later worker is refused in every run. |
| Stranding.DispatchStrandsIffMemberMissing | commons.go:72-86 | A dispatch addressed inside the committee strands the worker if and only if it names a missing member. |
| Stranding.MissingMembers | commons.go:80-83 | The missing members of a key generation or reshare are those deleted since it gathered its peers, of a sign session those that were no peers when it began. |
| Stranding.IntactSessionNeverStrands | reshare.go:135-187 | A session whose members all stay peers while it is under way never strands, and can end at every moment. |
| SessionRuns.DeletionStrands | peer.go:196-215 | At any node with enough peers, deleting a peer while a message to it is in the driver's hand strands the worker for good. |
| SessionRefinement.SessionStepsAreNetworkSteps | start.go:57-117 | Every step of a node's sessions is what the network sees of it: a claim, an end with its outcome, a deletion, or nothing; and node and network agree again. |
| SessionRefinement.AcceptIsSeen | peer.go:83-114 | handleNewConnection, as claim, launch and release at the node, is the network's one step. |
| SessionRefinement.PeerChangeBegins | peer.go:17-42 | A call that passes its checks claims the flag in the network and at the node alike. |
| SessionRefinement.LaunchEndsPeerChange | peer.go:132-181 | The launch of a dialled stream and the release of the flag are the network's launch. |
| SessionRefinement.PartyIsSeen | peer.go:116-130 | A recorded party is the network's delivery. |
| SessionRefinement.KnownAreTheSignerPeers | sign.go:267-280 | A sign session sends to the peers that updateSignerPeers keeps, never to the node itself. |
| SessionRefinement.GuardsAreTheGate | start.go:102-117 | A node's session can be claimed, and a party recorded, exactly if the gate accepts the message that asks for it; updates begin at any time. |
| Rendezvous.MessagesStayInOrder | keygen.go:123-127 | At any moment of a key generation or signing, what the library handed over is what was dispatched, then the message in the driver's hand, then the one on offer. |
| Rendezvous.DriverGetsTheVerdict | tss/keygen.go:57-87 | The driver's result is the first decision among the library's events, or the refusal before any; every message before it was dispatched. |
| Rendezvous.FinishMarksItsCommittee | keygen.go:94-145 | The marking at the end of a key generation or reshare touches only peers of that session's committee, whose records are otherwise as they were gathered. |
| Rendezvous.KeyGenSignals | tss/keygen.go:55-87 | The loop of GenerateKey on its own signals exactly what the worker of the step system offers. |
| Rendezvous.ReshareSignals | tss/reshare.go:107-153 | The same for ReshareKey, where the step system sees one message for each copy. |
| ShareFlags.KeyGenEndsWith | tss/keygen.go:77-85 | A signer without a share holds one after GenerateKey exactly when the library ended with one, and has finished exactly when that share has a public key. |
| ShareFlags.FlagsAtTheEnd | peer.go:116-130 | After a key generation of a full mesh without shares, with any messages still on their way and in any order of deliveries, losses and ends: a node's flag for a peer is set exactly if the node finished and has read no PartyId of that peer since. |
| ShareFlags.FlagsAreExactIff | keygen.go:141-145 | So with two or more nodes all flags are exact if and only if nobody holds a share, or all sessions finished and no node read a PartyId after its own end. |
| ShareFlags.FlagsAreExactIffSharesAgree | tss/keygen.go:77-85 | That is: if and only if the library gave no node a share, or gave every node one with a public key and no PartyId was read after an end. |
| ShareFlags.FlagsAreExactIffAllAgree | keygen.go:141-145 | With two or more nodes and no PartyId on its way at the start: if and only if all sessions finished, or nobody finished and nobody holds a share. |
| ShareFlags.FinishingIsEnoughIffNothingToRead | network/peer.go:59-61 | From idle nodes, all flags are exact in every run in which all sessions finish, if and only if no PartyId was on its way to an end that can read it. |
| ShareFlags.EveryOutcomeIsReached | keygen.go:94-145 | Every combination of outcomes is reached by some key generation, and two or more nodes then have exact flags if and only if nobody holds a share or everybody finished. |
| ShareFlags.EveryRunFromRest | start.go:25-54 | From a full mesh at rest every run in which each node ends once, with no deletion and no reshare, is such a key generation: nobody launches a stream. |

## Left out

- The cryptography of tss-lib, curve arithmetic and key storage: external.
- libp2p hosts, dialling, multiaddr parsing and closing of streams; the deadline of a context is an event that may come at any time.
- Dispatch.UpdateArrives: speaks of a reshare type that the source sends; any other makes the source panic (reshare.go:105), which is the `HasCode` precondition.
- Wire.MessageRoundTrip: the deadline is a token over the characters of a timestamp (section 5.6 of RFC 3339), not a point in time; strings are Unicode scalar values, so Go's replacement of invalid UTF-8 is not modelled.
- JsonRoundTrip.ParseWrite: the reader knows integers only and no surrogate pairs; fractions, exponents, nesting limits and Go's case-insensitive field names do not occur in what the writer produces.
- Base64.DecodeEncode: line breaks inside base64 text, which Go's decoder skips, are rejected.
- Framing.Stream.SendMsg: as below, without the errors of write and flush.
- Senders.ConcurrentSendersDoNotMix: write errors are not modelled; a failed write deletes the peer, which is the deletion step of the gossip.
- Stranding.EndsIffPendingDeliverable: the end is shown to be reachable, by the deadline if by nothing else; that the deadline does come is up to the clock.
- CommitteeCopies.HandleMessageCommittee: the panic on a nil destination list, the one on a list shorter than the old committee (such a list is left whole), and a read in the middle of a change are not modelled.
- Signer.TssSigner.ReshareKey: the copies are signalled in the order they are made; in the step system they wait for the driver in any order.
- Signer.TssSigner.UpdateIndex: the source's panic on a missing party is a result; KeyGenCommittee shows it does not occur in an aligned network.
- Nodes.Node.AddPeer: other goroutines of the node do not run inside the method; Gossip interleaves its steps with them.
- ShareFlags.FlagsAreExactIff: nodes that held a share before, and peers deleted or streams launched during the key generation, are not covered; a launch would reset the record.
- Nodes.Node.DoneReshare: storing the key, and an error of the store, which the source only logs, are not modelled.
- The old committee of a reshare (partiesWithKey) and any guarantee about its size: only the total number of peers is checked.
- SignEthTransaction, transaction hashing, and the conversion of signatures: the session start is commented out in the source.
- The interplay of UpdateFromBytes with the wait group and the party pointers, and the polling loops: library state and wall-clock time. The wait group is a counter here.
- Overlapping AddPeer calls that join larger meshes, or more than two at a time: Concurrent is about two newcomers, Joining about calls one after the other.
- Options, logging, configuration, `Close` and the commented-out senders.
