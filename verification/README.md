# Verification of the voice chat core

A Dafny 4.11 model of `vc-core`, an encrypted full-mesh voice chat for at most five people, with
proofs about whole runs of it. `dafny verify dfyconfig.toml` checks everything.

What is modelled, in the system's own terms:

- **Handshake** (`PeerTable`, `Handshake`, `Branches`, `Sessions`, `Mesh`, `MeshAgreement`,
  `MeshReached`, `MeshConnected`, `HandshakeRuns`, `RepeatedJoins`, `Greetings`). One host and any number of joiners exchange JOIN,
  PEER_LIST, HELLO, HELLO_ACK and KEY_EXCHANGE over a network in which packets, once sent, can be
  delivered any number of times, in any order, or never. Proved over every run: all tables agree on who
  is who, ids are unique, "connected" is backed by the other side. Proved over every run for the nodes
  that the host has admitted at most once, whatever happens to others: their identity and per-peer
  contexts are settled for good, and two of them hold the same context for each other; their first list
  makes them greet exactly those before them, and a HELLO that reaches them connects its sender. What each
  branch does to the table and sends is stated entry by entry and packet by packet in `Branches`.
- **Audio path** (`Bits`, `Replay`, `Jitter`, `Playout`, `Adaptation`, `AudioPath`, `AudioReference`,
  `AudioRuns`).
  Numbering, sealing, the two replay filters, the jitter buffer over wrapping 16-bit numbers and playout,
  across the switch from the passphrase key to the per-peer key. Proved over every run: the packets on the
  air are exactly those that the events of the run call for; what is played is what was sent, in order, once and unaltered; and a frame whose turn has come was played if and only if
  one of its packets reached the buffer before that, while it had room.
- **Both together** (`Conference`, `VoiceOverMesh`, `CallRuns`, `CallLimits`). One run interleaves the
  control packets of the whole mesh with audio between all its nodes. Audio state belongs to peer
  entries; the tables decide under which key and id audio is sealed, which entry a packet is taken to
  come from and which keys are tried; KEY_EXCHANGE and PEER_LIST packets start contexts and counters
  over. Proved over every such run, for every ordered pair of nodes admitted at most once and however far
  their handshake has come: what has happened between them is an audio run on one fixed link, so it is
  played in order, and a frame whose turn has come was played if and only if some act of the run
  delivered it in time.
- **Formats and contexts** (`Words`, `Wire`, `PeerListCodec`, `Crypto`). Headers, nonces, the PEER_LIST
  payload, send counters, key derivation.
- **Capture, latency, voice detection** (`Capture`, `Latency`, `Vad`).

Code that updates fields in place is a class (`JitterBuffer`, `ReplayFilter`, `CryptoContext`,
`PeerManager`, `AudioPeer`, `NoiseSuppressor`, `CaptureLoop`, `LatencyTracker`,
`VoiceActivityDetector`) whose methods are each proved to take exactly one step of a pure function;
`Sessions.HandleIncoming` does the same for the control branches of `handle_incoming` on a
`PeerManager`. The theorems about runs are about those pure steps.

Assumptions, stated as the model's data:

- The AEAD is ideal: a ciphertext opens under exactly the key, nonce bytes and header bytes it was sealed
  with. Diffie-Hellman is symmetric (section 6.1 of RFC 7748): a shared secret is the unordered pair of
  the two secrets. A derived key is a function of shared secret, salt and info string and is never the
  passphrase key.
- Every node has one address that is not rewritten on the way, the host's session id is not all zeros,
  and only these nodes send control packets. The address the host lists for itself may be anything, since
  the joiner uses the packet's source.
- Payloads inside sealed control packets are the parsed values; the byte format of the one variable-length
  payload is `PeerListCodec`. Socket errors and a failed lookup of the local address count as loss.
- A hash map is walked in some order: the peer list is any enumeration of the table, and the ping that a
  full latency table drops is any pending one.
- Clocks, the decoder's verdict on a payload, the denoiser and the energy test are parameters.

Where the code is not right for all inputs, the exact condition is proved instead:

- The 16-bit comparisons: `Playout.LateExactly` (the late test, at any distance) and `Playout.SortedExactly` (sorted
  insertion), with `Playout.EdgePlaysOutOfOrder` as the run at the edge.
- The PEER_LIST payload: `PeerListCodec.SurvivesExactly` (lists longer than 255) and
  `PeerListCodec.PanicsExactly` (the unchecked version byte).
- The address index: `PeerTable.AddKeepsExactly`.
- Repeated JOINs, each of which gives its sender another id. For every configuration there is a run that
  violates each theorem about nodes admitted once: a node becomes its own peer, the two ends of a pair
  hold different keys and neither end will offer again, a connected peer files us under an id we no
  longer have (all in `RepeatedJoins`), frames are played out of order
  (`CallLimits.RepeatedJoinMixesFrames`). Locally the conditions are exact: `RepeatedJoins.OwnPeerExactly`
  and `MeshConnected.TakenKeyAgreesExactly`.
- Lost offers: `HandshakeRuns.OneSidedUpgrade` is a run after which a node seals under a key its peer does
  not hold; `VoiceOverMesh.UpgradedOpensExactly` says exactly when such audio opens.
- Repeated offers and peer lists, which start the sender's counter over while the receiver's filter keeps
  its high mark: `AudioRuns.RestartIsRefused` says how long the sender is silenced,
  `CallLimits.OfferTwiceSilences` is such a run, and `VoiceOverMesh.VoiceIsHeardExactly` says exactly when
  a packet is heard.

SPECIFICATION.md differs from the code in three places, and the model follows the code: no limit of three
frames on reordering (SPECIFICATION.md:148), no relay fallback (SPECIFICATION.md:52), and the last four
header bytes are a counter, not a timestamp (SPECIFICATION.md:70).

## Model

| member | source | states |
|---|---|---|
| VoiceOverMesh.VoiceIsPlayedInOrder | vc-core/src/lib.rs:245-902 | over every run of mesh and audio together in which packets that reach a buffer lie in its 16-bit window, for every ordered pair of nodes that the host has admitted at most once, upgraded on neither, one or both sides: what one has played of the other are the other's frames at strictly increasing positions, unaltered |
| VoiceOverMesh.LaneIsAudioRun | vc-core/src/lib.rs:318-632 | for every such pair, the events that the run's own acts, control packets included, have caused between the two entries are a timely audio run on the single link that the nodes' secrets and ids determine, and lead to the state the entries are in |
| VoiceOverMesh.LaneAirExactly | vc-core/src/lib.rs:318-383 | for every such pair, the packets on the air are exactly the frames spoken for the entry, each in a packet of type 0x01 with the sender's id, the number of its turn modulo 2^16, and the key and counter that the events between the two entries call for |
| VoiceOverMesh.VoiceInTimeIsPlayed | vc-core/src/lib.rs:396-430 | for every such pair, a frame that the playout cursor has passed was played if and only if some act of the run delivered a packet of it that landed before that, while fewer than eight frames waited |
| VoiceOverMesh.AudioFollowsTables | vc-core/src/lib.rs:323-325 | at every moment and every node, audio for an entry is sealed under the per-peer key exactly if the entry has both offers and a context, and that key is tried on arrival exactly if the entry has received one |
| VoiceOverMesh.OneSharedCounter | vc-core/src/lib.rs:351-370 | at every moment audio to all peers and keepalives draw on one counter of the node's passphrase context |
| VoiceOverMesh.CallProjects | vc-core/src/lib.rs:245-902 | the control steps of every such run, by themselves, are a run of the mesh that leads to the same tables, so the mesh theorems hold of them |
| VoiceOverMesh.HoldsExactly | vc-core/src/lib.rs:845-869 | over every run a node holds a context for a peer if and only if an offer of that peer was delivered to it while it had an entry for the peer |
| VoiceOverMesh.UpgradedOpensExactly | vc-core/src/lib.rs:574-613 | between nodes admitted at most once, audio sealed under the per-peer key opens, to its payload, if and only if the sender's own offer has been delivered |
| VoiceOverMesh.VoiceIsHeardExactly | vc-core/src/lib.rs:574-631 | a packet on its way between two such nodes reaches the buffer if and only if it decodes, its key is at hand, and its counter was never accepted and is fewer than 64 below everything accepted in its context |
| VoiceOverMesh.LanesAreViews | vc-core/src/peer.rs:28-52 | all audio state belongs to peer entries: what is sent for an entry does not depend on who hears it, nor what an entry has received on who sent it |
| Conference.HeaderSelectsSender | vc-core/src/lib.rs:567-613 | a packet whose header names the entry of a node admitted once was sent by that node, for the receiver's entry |
| Conference.CallKeepsInv | vc-core/src/lib.rs:245-902 | the invariant behind these holds for every pair of entries in every reachable state |
| CallRuns.VoiceGetsThrough | vc-core/tests/handshake_e2e.rs:36-251 | for every configuration, joiner and frame there is such a run, both nodes admitted once, in which the host plays that frame, sealed under the per-peer key |
| AudioPath.PlayedInOrder | vc-core/src/lib.rs:566-632 | over every run that loses, repeats and reorders packets, renews contexts and upgrades keys at any time, the frames popped are the sent frames at strictly increasing positions, provided packets that reach the buffer lie in the 16-bit window around the cursor |
| AudioReference.AirIsReference | vc-core/src/lib.rs:318-383 | over every run, told from its events alone: a packet is on the air if and only if some event spoke its frame; frame n has number n mod 2^16 and type 0x01, is sealed for the peer exactly if offers have gone both ways, carries as counter how often its context was used since it was set up, and goes out exactly if that is below 2^32 - 1 |
| AudioPath.NoReplayAccepted | vc-core/src/lib.rs:615-631 | over every run no counter of either context is accepted twice |
| AudioPath.OpensAcrossUpgrade | vc-core/src/lib.rs:574-613 | passphrase audio opens to its payload in every upgrade state of the receiver, per-peer audio exactly at an upgraded receiver, each counted against its own filter |
| AudioRuns.PlayedExactly | vc-core/src/lib.rs:396-430 | over every timely run, a frame that the cursor has passed was played if and only if one of its packets landed before the cursor passed it, while fewer than eight frames waited |
| AudioRuns.HeldExactly | vc-core/src/jitter.rs:63-130 | over every run a position is played or buffered if and only if some event brought it into the buffer |
| AudioRuns.LandsExactly | vc-core/src/lib.rs:574-631 | a packet on the air reaches the buffer if and only if it decodes, its key is at hand, and its counter was never accepted and is fewer than 64 below everything accepted in its context |
| AudioRuns.HeardInTimeIsPlayed | vc-core/src/lib.rs:566-632 | a first hearing, overtaken by fewer than 64 of its context, with its key at hand and room in the buffer before its turn, is played by the time the cursor has passed it |
| AudioRuns.EverythingHeardIsPlayed | vc-core/src/peer.rs:34-40 | for any frames up to the counter limit and any moment of upgrade there is a timely run, each packet heard before the next frame is sent, that plays exactly the frames, although the per-peer counters start over |
| AudioRuns.RestartIsRefused | vc-core/src/lib.rs:863-866 | over every timely run: after a repeated KEY_EXCHANGE or PEER_LIST the sender's frames open and are refused for as long as their counter is 64 or more below one accepted before |
| CallLimits.OfferTwiceSilences | vc-core/src/lib.rs:845-869 | for every configuration and joiner there is a run, nobody admitted twice and one KEY_EXCHANGE delivered twice, in which the joiner's next frame opens at the host and is refused |
| CallLimits.RepeatedJoinMixesFrames | vc-core/src/lib.rs:316-321 | for every configuration and joiner there is a run, its JOIN answered twice and all packets in the window, in which the host's third frame is played before its second |
| AudioPeers.AudioPeer.SendFrame | vc-core/src/lib.rs:318-383 | one audio send with the peer's and the node's context objects takes the peer's next number in any case, uses the peer's context exactly if offers have gone both ways, and yields one packet with header (0x01, our id, that number, that context's next counter) sealed in that context with its header, or none exactly if the counter has reached 2^32 - 1; the other context is untouched |
| AudioPeers.AudioPeer.ReceivePacket | vc-core/src/lib.rs:565-632 | only a packet of type 0x01 reaches the audio branch; any other leaves filters and buffer as they are |
| AudioPeers.AudioPeer.ReceiveFrame | vc-core/src/lib.rs:566-632 | one received audio packet, opened with those objects, changes filters and buffer exactly as the model step says |
| AudioPeers.AudioPeer.NextSeq | vc-core/src/peer.rs:85-89 | returns the current number and advances it, wrapping |
| Playout.BufferRefinesPlayout | vc-core/src/jitter.rs:63-130 | over every history in the window the buffer on 16-bit numbers matches a map from unbounded positions plus a cursor and returns the same frames; it stays sorted if arrivals are within 32766 of what is buffered |
| Playout.PushSimulates | vc-core/src/jitter.rs:63-98 | push is late exactly below the cursor, ignored when present or full, and an insertion otherwise |
| Playout.PopSimulates | vc-core/src/jitter.rs:104-130 | pop removes and advances at the cursor, advances over a gap, and stands still on an empty or waiting buffer; the first pop starts at the least position |
| Playout.SortedExactly | vc-core/src/jitter.rs:76-98 | with all frames within 32767 of the newcomer, insertion keeps the buffer sorted if and only if the first later frame is not exactly 32767 ahead |
| Playout.LateExactly | vc-core/src/jitter.rs:66-74 | at any distance the late test is right if and only if, modulo 65536, the packet is at most 32768 behind or at most 32767 ahead of the cursor |
| Playout.FrontIsLeast | vc-core/src/jitter.rs:110-116 | before playout starts the front of the buffer is the earliest position |
| Playout.SearchAlwaysHitsFront | vc-core/src/jitter.rs:120-124 | over every history in the window with arrivals within 32766 of everything buffered, the linear search can only hit index 0 |
| Playout.EdgePlaysOutOfOrder | vc-core/src/jitter.rs:76-98 | of any two frames exactly 32767 apart, the later arriving first before playout starts, the later is played first, so the window is tight |
| Jitter.PushedExactly | vc-core/src/jitter.rs:63-98 | over every run: a pushed frame is inserted if and only if it is not late (nothing played yet, or at most 32767 ahead of the number due), its number is not buffered and fewer than eight frames are; otherwise the frames stay as they are |
| Jitter.ExactEmission | vc-core/src/jitter.rs:104-130 | from a started buffer a held frame at wire distance d, for any d, stays held through d pops and is what pop d + 1 returns, whatever is pushed or adapted in between |
| Jitter.InsertedArePlayedOrBuffered | vc-core/src/jitter.rs:63-130 | over every run frames inserted = frames returned + frames buffered |
| Jitter.StepKeepsDistinct | vc-core/src/jitter.rs:89-98 | no step buffers a number twice or exceeds eight frames |
| JitterBuffers.JitterBuffer.Push | vc-core/src/jitter.rs:63-98 | inserts the frame if and only if it is not late, not there and fewer than eight frames are; counts it, and counts it late exactly then; it is the model's push, so it inserts where Playout.PushSimulates says |
| JitterBuffers.JitterBuffer.Pop | vc-core/src/jitter.rs:104-130 | the method, with its search, is the model's pop |
| JitterBuffers.JitterBuffer.Adapt | vc-core/src/jitter.rs:133-163 | the method is the model's adapt |
| JitterBuffers.JitterBuffer.Reset | vc-core/src/jitter.rs:171-177 | the buffer is as new |
| Adaptation.AdaptationBounds | vc-core/src/jitter.rs:133-168 | over every run, resets included: depth in 1..4, late at most total, 100 packets behind every change, five seconds between any two decreases |
| Adaptation.AdaptFollowsLoss | vc-core/src/jitter.rs:133-163 | after every run, adapt raises or lowers the depth exactly as the share of late packets since the last change, the depth and the time since the hold-off started over decide |
| Replay.CheckRefines | vc-core/src/crypto.rs:177-202 | the 64-bit word and high mark represent the set of accepted counters before and after a check, and the verdict is "never accepted and fewer than 64 below everything accepted" |
| Replay.VerdictIsReference | vc-core/src/crypto.rs:177-202 | every verdict of every run of counters, a first counter of 0 included, is that reference verdict |
| Replay.NoCounterAcceptedTwice | vc-core/src/crypto.rs:192-199 | no counter is accepted twice in any run |
| Replay.RecentCounterNeverRefused | vc-core/src/crypto.rs:191-201 | a new counter overtaken by fewer than 64 is never refused |
| Bits.TestOfShl | vc-core/src/crypto.rs:182-186 | bit d of a word shifted by s places with the machine shift is bit d - s, and 0 below s |
| Bits.TestOfSet | vc-core/src/crypto.rs:195-200 | setting a bit of the 64-bit word changes that bit alone |
| Replay.ReplayFilter.CheckAndAccept | vc-core/src/crypto.rs:177-202 | the method keeps the word in step with the accepted set and accepts exactly the admissible counters |
| MeshAgreement.MeshAgrees | vc-core/src/lib.rs:702-747 | in every reachable state every table entry, learned from PEER_LIST or HELLO, names the address the host admitted under that id (its own for 0), so any two tables agree |
| MeshAgreement.IdsAreUnique | vc-core/src/lib.rs:687-695 | two nodes with an identity hold the same id only if they are the same node, with JOINs repeated or not |
| MeshAgreement.HostHoldsExactly | vc-core/src/peer.rs:140-174 | the host's peers are exactly 1..next-1 and an allocated id is never refused by the capacity check |
| MeshAgreement.PeerListsIdentify | vc-core/src/lib.rs:655-695 | every PEER_LIST lists exactly 0..k with k an id given to its addressee, and reading it makes the addressee k in the host's session |
| MeshAgreement.RunKeepsInv | vc-core/src/lib.rs:634-894 | the global invariant behind these holds in every reachable state |
| MeshAgreement.AdmitExactly | vc-core/src/lib.rs:648-653 | a JOIN is admitted, under the next id and Connected, exactly while ids last |
| MeshAgreement.GreetAgrees | vc-core/src/lib.rs:702-727 | reading a list only adds agreed peers, marks them HelloSent and greets peers it then knows |
| Greetings.FirstListGreetsAll | vc-core/src/lib.rs:676-728 | over every run, a node that knows nobody and reads a list becomes its largest id k, then knows exactly 0..k-1, each HelloSent at the address the host admitted it at, and has sent exactly k packets, one HELLO in its name to each of them |
| Greetings.HelloConnectsSender | vc-core/src/lib.rs:730-757 | over every run, a HELLO that reaches a node admitted at most once after that node has its identity leaves its sender, known before or not, Connected at its own address, changes no other peer, and is answered by one HELLO_ACK to the sender |
| Greetings.JoinersConnect | vc-core/src/lib.rs:676-775 | for every configuration and any two joiners there is a run, each admitted once and one after the other, after which each has the other Connected under its id and at its address |
| MeshReached.ConnectedIsBacked | vc-core/src/lib.rs:730-775 | over every run, JOINs repeated or not: when a joiner has a peer Connected, that node already has an entry at the joiner's address and keeps it in every longer run |
| MeshReached.RunKeepsReach | vc-core/src/lib.rs:634-894 | the invariant behind it holds in every reachable state: HELLO and HELLO_ACK come only from nodes that know their addressee |
| MeshReached.TablesGrow | vc-core/src/peer.rs:140-161 | a peer once known stays known at the same address |
| MeshConnected.ConnectedIsFiled | vc-core/src/lib.rs:730-775 | if the joiner was admitted once, that entry is filed under the joiner's own id |
| MeshConnected.SettledForGood | vc-core/src/lib.rs:676-894 | over every run the session, id and per-peer contexts of a node admitted at most once never change once set, and its offers stay sent |
| MeshConnected.RunKeepsKeyInv | vc-core/src/lib.rs:634-894 | the invariant behind these: at every node admitted at most once, every context is the one that both secrets and ids determine |
| MeshConnected.TakenKeyAgreesExactly | vc-core/src/lib.rs:845-869 | taking an offer leaves a node with the sender's context if and only if the node goes by the id for which the sender derived it |
| MeshConnected.NobodyKnowsOneself | vc-core/src/peer.rs:140-143 | no node admitted at most once ever holds its own id or address as a peer |
| MeshConnected.KeysAgree | vc-core/src/lib.rs:845-894 | over every run, whenever two nodes admitted at most once hold contexts for each other these are equal, derived, in one session, filed under each other's ids, and what one seals the other opens |
| MeshConnected.JoinsOnceOneId | vc-core/src/lib.rs:634-674 | a node whose JOIN is delivered at most once, and the host, are admitted at most once |
| HandshakeRuns.HandshakeCompletes | vc-core/tests/handshake_e2e.rs:36-251 | for every configuration and joiner there is a run, the joiner admitted once, after which both ends are Connected, have exchanged offers and hold the same context |
| HandshakeRuns.OneSidedUpgrade | vc-core/src/lib.rs:487-514 | for every configuration and joiner there is a run, its own offer lost and the host's delivered, after which it seals under the per-peer key, the host does not hold it, and neither owes an offer |
| RepeatedJoins.RepeatedJoinMakesOwnPeer | vc-core/src/lib.rs:687-714 | for every configuration and joiner, delivering its JOIN twice can make it hold its own id as a peer |
| RepeatedJoins.RepeatedJoinSplitsKeys | vc-core/src/lib.rs:845-894 | for every configuration and joiner, a JOIN that arrives again after keys were exchanged can leave the two ends with different contexts for each other and no offer owed |
| RepeatedJoins.RepeatedJoinMovesId | vc-core/src/lib.rs:676-757 | for every configuration and two joiners, a repeated JOIN can leave one with the other Connected while the other does not file it under its id |
| RepeatedJoins.OwnPeerExactly | vc-core/src/lib.rs:687-727 | reading a list leaves a node as its own peer if and only if the id it takes was already in its table |
| Branches.DispatchExactly | vc-core/src/lib.rs:565-899 | packets of types 2, 3, 4, 6 and 9 go to the JOIN, HELLO, PEER_LIST, HELLO_ACK and KEY_EXCHANGE branches, and a packet of any other type leaves the peer table as it is |
| Branches.HelloExactly | vc-core/src/lib.rs:730-757 | for every table and packet: a HELLO that opens and whose sender is known, or is not ourselves while fewer than four peers are known, leaves exactly that entry Connected (a new one at the source address) and sends exactly one HELLO_ACK with our id to the source; our own is acknowledged and no more; any other does nothing |
| Branches.HelloAckExactly | vc-core/src/lib.rs:759-775 | a HELLO_ACK that opens leaves exactly its known sender Connected and sends nothing; any other does nothing |
| Branches.JoinExactly | vc-core/src/lib.rs:634-674 | a JOIN that opens under the session of zeros at the host takes the next id while ids below five are left; with fewer than four peers the newcomer is Connected at the source and gets one PEER_LIST under the session of zeros |
| Branches.PeerListExactly | vc-core/src/lib.rs:676-728 | a list that opens and is not empty gives us its largest id and its session; every listed id other than ours, up to the first that finds four peers known or listed, is then in the table, HelloSent, at its listed address (the source for the sender), and was sent one HELLO in our name; no other peer changes |
| Branches.KeyExchangeExactly | vc-core/src/lib.rs:845-894 | an offer that opens, is no low-order point and names a known peer leaves exactly that peer with both flags set and a context from both secrets, the session and both ids, and is answered by our own offer exactly if none was sent; any other does nothing |
| Branches.OfferExactly | vc-core/src/lib.rs:487-514 | the periodic offer goes exactly to a Connected peer that has had none, at the peer's address, and marks it as sent |
| Handshake.MaxId | vc-core/src/lib.rs:687-692 | the id taken is a listed one and none is larger |
| Sessions.HandleIncoming | vc-core/src/lib.rs:552-902 | a control packet changes the peer manager and sends packets exactly as the model step says |
| Sessions.OnJoin | vc-core/src/lib.rs:634-674 | the JOIN branch is the model's, and its list enumerates the table |
| Sessions.OnPeerList | vc-core/src/lib.rs:676-728 | the PEER_LIST branch is the model's |
| Sessions.GreetPeers | vc-core/src/lib.rs:702-727 | the loop over listed peers, with its early exit, is the model's recursion |
| Sessions.OnHello | vc-core/src/lib.rs:730-757 | the HELLO branch is the model's: a sender that is known, or new while there is room, is then the one entry that has changed, Connected, and is sent one HELLO_ACK |
| Sessions.OnHelloAck | vc-core/src/lib.rs:759-775 | the HELLO_ACK branch is the model's |
| Sessions.OnKeyExchange | vc-core/src/lib.rs:845-894 | the KEY_EXCHANGE branch is the model's |
| PeerTable.AddPeerExactly | vc-core/src/peer.rs:140-161 | add_peer fails exactly with four peers (our own id apart); else the id is filed at the address, a new one with nothing agreed, a known one with all it had, the address leads to it and its former address nowhere; no other peer and no other address changes |
| PeerTable.AddKeepsExactly | vc-core/src/peer.rs:140-161 | from an exact address index, add_peer leaves it exact if and only if it does not take an address another known peer holds |
| PeerTable.IndexNeverLies | vc-core/src/peer.rs:177-179 | after any add_peer calls an answer of the index names an existing peer with that id and address, and there are at most four peers |
| PeerTable.IndexIsInverse | vc-core/src/peer.rs:140-161 | if no call takes another peer's address the index is the exact inverse of the table |
| PeerManagers.PeerManager.AddPeer | vc-core/src/peer.rs:140-161 | the method is the model's, keeping the index sound |
| PeerManagers.PeerManager.AllocatePeerId | vc-core/src/peer.rs:164-174 | the host gives out the next id exactly while it is below five; a joiner none |
| PeerManagers.PeerManager.BuildPeerList | vc-core/src/peer.rs:206-215 | the list starts with ourselves and names every known peer exactly once, with its address |
| PeerManagers.PeerManager.CheckTimeouts | vc-core/src/peer.rs:218-225 | exactly the connected peers that timed out become disconnected |
| PeerManagers.PeerManager.PeerByAddr | vc-core/src/peer.rs:177-179 | an answer is a known peer at that address |
| PeerManagers.PeerManager.SetIdentity | vc-core/src/peer.rs:134-137 | id and session change, nothing else |
| PeerListCodec.ListRoundTrip | vc-core/src/net.rs:170-240 | for every list and any trailing bytes, parsing gives back session and the first (length mod 256) entries, consuming exactly their bytes |
| PeerListCodec.SurvivesExactly | vc-core/src/net.rs:170-240 | a list survives the wire if and only if it has at most 255 entries |
| PeerListCodec.ParsedListReprints | vc-core/src/net.rs:192-240 | whatever parses prints back to exactly the bytes it consumed |
| PeerListCodec.PanicsExactly | vc-core/src/net.rs:201-208 | the parser aborts if and only if the bytes are fewer records than announced (8 bytes for version 4, 20 for version 6) and then exactly one byte |
| PeerListCodec.ToBytes | vc-core/src/net.rs:170-190 | the printing loop yields the specified bytes |
| PeerListCodec.FromBytes | vc-core/src/net.rs:192-240 | the parsing loop yields the specified result, errors and abort included |
| PeerListCodec.ListLayout | vc-core/src/net.rs:170-190 | which byte of a payload is which: eight of the session, the number of entries modulo 256, then per entry id, version 4 or 6, address and port with its high byte first, and nothing else |
| Wire.HeaderLayout | vc-core/src/net.rs:42-49 | byte 0 is the type, 1 the sender, 2-3 the number and 4-7 the counter, high bytes first |
| Wire.NonceLayout | vc-core/src/crypto.rs:34-49 | bytes 0-7 are the session, 8 the sender, 9 is 0, 10-11 are the number, 12-15 the counter, high bytes first, and 16-23 are 0 |
| Wire.HeaderRoundTrip | vc-core/src/net.rs:42-61 | a printed header parses back, whatever follows |
| Wire.HeaderBytesOfParsed | vc-core/src/net.rs:51-61 | a parsed header prints back to the bytes it was read from |
| Wire.NonceInjective | vc-core/src/crypto.rs:34-49 | nonce bytes are equal if and only if session, peer, number and counter are |
| Wire.NonceAgreement | vc-core/src/net.rs:118-137 | from the datagram the receiver rebuilds the sender's header, body and nonce bytes |
| Crypto.DecryptExactly | vc-core/src/crypto.rs:99-150 | a packet opens to its payload exactly in the context and under the header it was sealed with |
| Crypto.ReservationExactly | vc-core/src/crypto.rs:82-89 | reservation k returns k until 2^32 - 1 values are issued and fails forever after |
| Crypto.StampedNoncesDiffer | vc-core/src/crypto.rs:76-89 | packets stamped by one context have pairwise different nonces |
| Crypto.CryptoContext.NextCounter | vc-core/src/crypto.rs:82-89 | the method returns its own reservation number, or fails past the limit |
| Crypto.DerivedIs | vc-core/src/key_exchange.rs:41-72 | a derived key is made of the two secrets, the session as salt, and as info "voicechat-audio" and the two ids, the smaller first; only a low-order point gives none |
| Crypto.DeriveExactly | vc-core/src/key_exchange.rs:41-72 | any two derivations, whichever ends and sessions they belong to, give the same key if and only if they have the same two secrets, the same session and the same two ids |
| Crypto.DeriveAgrees | vc-core/src/key_exchange.rs:41-72 | both ends derive the same key whoever started |
| Crypto.DeriveAgreesExactly | vc-core/src/key_exchange.rs:41-72 | in one session the two ends derive the same key if and only if the one goes by the id under which the other files it |
| Capture.SlicingDoesNotMatter | vc-core/src/lib.rs:281-303 | with a fixed setting the frames offered are a function of the captured samples alone, however they were sliced |
| Capture.OfferedExactly | vc-core/src/lib.rs:281-303 | however the samples were sliced: with suppression off, frame k is samples 120k to 120k+119, without a probability; with it on, frame k is slice k mod 4 of what the denoiser makes of block k div 4 of 480 samples, blocks taken in order from the denoiser's initial state, with that block's probability; there are as many frames as whole slices or blocks |
| Capture.SamplesConserved | vc-core/src/lib.rs:281-303 | under any toggling samples in = samples offered + residues, under 120 in the accumulator and at most 360 in the suppressor |
| Capture.ProcessWholeFrames | vc-core/src/dsp.rs:51-85 | the suppressor returns whole frames only, so the short-chunk break is never taken |
| CaptureLoops.NoiseSuppressor.Process | vc-core/src/dsp.rs:51-85 | the method is the model's block accumulation |
| CaptureLoops.CaptureLoop.Feed | vc-core/src/lib.rs:281-303 | the capture loop is the model's |
| CaptureLoops.OfferChunks | vc-core/src/lib.rs:300-303 | the chunk loop offers the consecutive slices of 120 samples, in order, all with the given probability, and drops only a short rest |
| Latency.StatsStaySound | vc-core/src/latency.rs:54-111 | over every run: min <= last <= max, min <= avg <= max, jitter <= max - min, at most 16 pending, samples + pending <= pings issued since reset |
| Latency.StatsExactly | vc-core/src/latency.rs:69-111 | over every run: number, last, least and greatest are those of the round trips since the last reset, where a pong that is awaited measures the time since its ping; the average starts at the first and follows them with weight 1/8, truncated, the jitter starts at 0 and follows their changes likewise |
| Latency.PendingIsAwaited | vc-core/src/latency.rs:54-75 | after every run a ping is pending, with its time, exactly if it was sent, its id not sent again, answered, dropped at sixteen pending or reset since; ids are given in turn modulo 2^32 |
| LatencyTrackers.LatencyTracker.PingSent | vc-core/src/latency.rs:54-66 | one model step for some pending ping dropped when full, returning the id in turn |
| LatencyTrackers.LatencyTracker.PongReceived | vc-core/src/latency.rs:69-98 | a pending ping is taken and returns now minus its time (0 if the clock fell behind), one sample more, the average moved by weight 1/8; an unknown one changes nothing |
| LatencyTrackers.LatencyTracker.Reset | vc-core/src/latency.rs:104-111 | one model step |
| Vad.DetectIsHistoryWindow | vc-core/src/vad.rs:43-62 | after every history the verdict is true exactly if one of the last hold_frames + 1 frames was voice, for every hold length |
| VoiceActivity.VoiceActivityDetector.Detect | vc-core/src/vad.rs:43-62 | the method returns that window verdict |

## Left out

- JitterBuffers.JitterBuffer.Adapt: the thresholds 2% and 0.1% are the integer tests 50 * late > total and 1000 * late < total, which the f64 divisions decide alike below 2^50 packets since rounding is monotone and such fractions are further apart than doubles; elapsed time is a real, and the 64-bit packet counters do not overflow.
- Adaptation.AdaptFollowsLoss: the same integer tests.
- Latency.StatsStaySound: the moving averages are floor((7a + x) / 8), which the f64 code computes exactly below about 2^50 microseconds; the clock fits 64 bits.
- LatencyTrackers.LatencyTracker.PongReceived: the same integer averages.
- AudioPath.PlayedInOrder: a payload stands for the PCM that the stateful Opus decoder makes of it, and the decoder may reject any payload.
- AudioRuns.EverythingHeardIsPlayed: one schedule, an existence result; the statement about all schedules is AudioRuns.PlayedExactly.
- MeshConnected.KeysAgree: only for nodes admitted at most once; RepeatedJoins.RepeatedJoinSplitsKeys is a run that violates it otherwise, and MeshConnected.TakenKeyAgreesExactly the exact condition at the step that does.
- VoiceOverMesh.VoiceIsPlayedInOrder: likewise only for nodes admitted at most once, with CallLimits.RepeatedJoinMixesFrames as the run that violates it otherwise; audio packets reach only the node they were sent to.
- Sessions.HandleIncoming: the control branches only; the audio branch is AudioPeers.AudioPeer.ReceivePacket, and KEEPALIVE, PING and PONG change no field that the model has.
- Vad.DetectIsHistoryWindow: the configuration is fixed; set_config is not modelled.
- Internals of Argon2id, XChaCha20-Poly1305, X25519, HKDF, Opus and RNNoise.
- Audio devices, ring buffers, sockets, UPnP and local address lookup: input and output.
- vc-cli and vc-tray: user interface.
- Float mixing, PCM conversion and energy in dB: IEEE arithmetic.
- The input gate, KEEPALIVE, PING and PONG branches, and the fixed-size payload codecs (JOIN, KEY_EXCHANGE, ping): each settled by reading one branch.
- The loops of `run` over all connected peers: the model takes the peers one at a time, which allows every order.
- Liveness under loss: JOIN, PEER_LIST, HELLO and KEY_EXCHANGE are sent once, without retry.
- Nonce relations between different context objects, including the one-shot contexts of control packets.
