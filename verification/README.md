# A verified model of the NET/ROM node

The node speaks NET/ROM over AX.25: it carries sessions over virtual circuits, learns routes from
NODES broadcasts, and codes and decodes the frames of both. This project models that stack and
proves what its documentation promises of it. Each object of the program that updates itself is a
class whose methods are shown to do exactly what a function on values does; the theorems are
about those functions, over every run and every interleaving.

## Layout

| files | part of the node |
|---|---|
| Circuit, Reassembly, CircuitPair, PairTheorems | one virtual circuit as an object; two of them joined by FIFO links: delivery, window, handshake, progress, teardown |
| LossyPeer | one circuit against a peer that loses, repeats and reorders |
| ManagerSteps, ManagerLifecycle, ManagerTables, ManagerPairing, ManagerRemovals, ManagerTransitions, ManagerFrames, ManagerData, CircuitManager | the circuit manager: its tables, allocator, idle reaper, the life of a circuit over every run, and what each step does, moves and sends |
| Crosslink, CrosslinkAgreement, CrosslinkPairs, CrosslinkKeys, CrosslinkTheorems | two managers and all their circuits on one crosslink: each connection is a two-endpoint system, and for how long |
| RouteQuality, Buckets, RouterTables, RouterInvariants, RouterTheorems, RouterIntake, RouterLookup, RouterUpkeep, Router | the routing table, the neighbour list, lookup and next-hop choice, ageing |
| Advertising, NodesFragments, NodesExchange | what is advertised, and what a neighbour learns from it frame by frame |
| Frames, WireCalls, NodesCodec, L3Codec, WireCarriage | the NET/ROM frame codecs, and the circuits' frames on the wire |
| KissFrame, Ax25Ui | KISS framing and AX.25 UI frames |
| WireLayout | the bytes of all these frames, one by one, and what the classifier lets through |
| GatewayGuard, GatewaySessions, GatewayCallers, NodeSession | the gateway guard, who counts as one caller, the sessions that share it, and the connect command |
| HeardPaths, HeardMap, HeardMapDrawing, HeardMapListing, HeardMapCycles | confirmed paths and the ASCII network map |
| Prelude | bytes, options, upper case and the order of strings |

Sequence numbers on the wire are bytes. The two-endpoint system tags each frame in flight with
the true number it stands for, and the crosslink tags it with its connection; no step reads the
tags, they let the invariants speak of unwrapped numbers and of one connection's frames. The
address format is that of AX.25 v2.2, section 3.12; the routing rules are those of the 1987
NET/ROM manual, pages 65 and 66, as the router cites them.

## Where the code does something its comments do not say

- A circuit can be removed twice; the second removal can free the index of another circuit
  (ManagerTables.TwoCircuitsOnOneIndex). The exact condition is ManagerTables.RemoveTidyIff.
- "A repeated CONNECT REQ opens nothing" fails when a removal pops the remote-key entry of
  another circuit. A pending originated call carries the remote key (0,0), and when it times out
  it can unlist an answered circuit with that key (ManagerRemovals.TimedOutCallUnlistsAnother);
  an answered call learns its remote key from the far node, which may be that of a circuit
  answered to another node (ManagerRemovals.LearnedKeyUnlistsAnother). The exact condition is
  ManagerPairing.StepMirrorsIff, and over runs ManagerPairing.MirroredThroughoutIff.
- The comment on the id allocator (`bbs/netrom/circuit.py` 757-759) says that a pair of index and id
  is unique in the lifetime of a crosslink. It comes round after 256 calls, and the next call can
  take the answer to the first (CrosslinkTheorems.ReusedKeyTakesAnothersAnswer). The exact condition
  for the connections to stay apart is CrosslinkKeys.IndependentIff.
- The circuit writer's comments speak of 236-byte fragments; the code cuts at the configured
  info MTU, 108 by default. The theorems hold for every MTU of at least 1.
- A frame built for KISS port 12 starts with a command byte equal to the frame end, and the
  splitter then loses every later frame of the stream (KissFrame.PortTwelveSilences).
- An advertised entry about the broadcaster itself replaces its direct route until the next
  frame (NodesExchange.SourceEntryShowsTheCut). The exact condition for the cut to show is
  NodesFragments.FragmentsAreTransparentIff; for one cut, whatever follows it,
  NodesFragments.CutIsInvisibleIff.
- A digipeater can be missing from the map although its path is confirmed
  (HeardMapCycles.MutualHopsAreLeftOut, and FourRowsHideTwoDigis for four rows). A digipeater is
  drawn if and only if its chain of best parents reaches the BBS
  (HeardMapDrawing.MapOfWhatWasHeard).

## Model

| member | source | states |
|---|---|---|
| Circuit.NetromCircuit.Write | bbs/netrom/circuit.py:192-215 | write() in place: after any call the queue is the old queue followed by the message cut into MTU-sized fragments, all but the last marked MORE_FOLLOWS; nothing is queued when the writer is closing, the data is empty or the circuit is not CONNECTED |
| Circuit.NetromCircuit.Drain | bbs/netrom/circuit.py:217-237 | drain() from one suspension point to the next: it sends one fragment while the byte-sized in-flight count is below the window, otherwise clears the window event and sleeps; it drops the queue when the circuit is no longer CONNECTED |
| Circuit.NetromCircuit.HandleInformation | bbs/netrom/circuit.py:470-515 | an INFO frame is taken exactly when its number equals V(R), is stashed or delivered, moves V(A), and is answered by INFO ACK in every case but a reader that raises |
| Circuit.NetromCircuit.Stash | bbs/netrom/circuit.py:488-515 | reassembly in place: append, deliver at the end of a message, drop what outgrows the ceiling; false exactly when the reader, already at EOF, raises |
| Circuit.NetromCircuit.HandleConnectAck | bbs/netrom/circuit.py:525-564 | the originator's answer: refusal closes, acceptance learns the peer's index and id, narrows the window and connects |
| Circuit.NetromCircuit.InitiateDisconnect | bbs/netrom/circuit.py:589-618 | the disconnect is sent once and arms the give-up guard |
| Circuit.NetromCircuit.ReapDisconnecting | bbs/netrom/circuit.py:620-635 | the guard closes a circuit still DISCONNECTING and does nothing else |
| Circuit.NetromCircuit.Close | bbs/netrom/circuit.py:653-669 | closing feeds EOF, wakes every sleeper and cancels the guard, once |
| Reassembly.LosslessIffRunsFit | bbs/netrom/circuit.py:488-515 | reassembly of a fragment stream gives back its bytes, in order, if and only if no run of MORE_FOLLOWS fragments outgrows the 65536-byte ceiling |
| Reassembly.MessageFitsIff | bbs/netrom/circuit.py:209-215 | whatever the MTU, one written message fits the reassembly ceiling if and only if it is at most 65536 bytes |
| CircuitPair.StepKeeps | bbs/netrom/circuit.py:192-669 | every atomic step of either endpoint keeps the joint invariant of flows, senders, handshake and teardown |
| PairTheorems.NothingLostOrReordered | bbs/netrom/circuit.py:192-237 | over every interleaving: delivered ++ partial ++ in flight ++ queued equals everything written, in order, if and only if no over-long message burst the ceiling; always so when each write is at most 65536 bytes; for every MTU >= 1 |
| PairTheorems.ReaderSeesPrefix | bbs/netrom/circuit.py:470-515 | at every moment of every run, teardown included, what a session has read is a prefix of what the other end wrote, as long as each write there was at most 65536 bytes |
| PairTheorems.WindowAlwaysSafe | bbs/netrom/circuit.py:434-466 | unwrapped V(A) <= every acknowledgement in flight <= peer V(R) <= V(S) <= V(A) + window in 1..7, so the mod-256 distance is the true count |
| PairTheorems.EndsAgree | bbs/netrom/circuit.py:355-412 | after the handshake each side's remote index and id are the other's local ones and both hold one window in 1..7 |
| PairTheorems.HandshakeConnects | bbs/netrom/circuit.py:825-876 | CONNECT REQ and CONNECT ACK, undisturbed, reach that agreement: the clamped proposal, the allocated index and the caller's callsigns |
| PairTheorems.NoDeadlock | bbs/netrom/circuit.py:217-237 | while anything is queued or in flight between connected ends, some protocol step is enabled |
| PairTheorems.NoLostWakeup | bbs/netrom/circuit.py:443-466 | a sender asleep on the window event is woken exactly when its window has room |
| PairTheorems.RankDecreases | bbs/netrom/circuit.py:217-237 | each protocol step lowers the rank built from queued fragments, suspension points and frames in flight |
| PairTheorems.EveryScheduleDelivers | bbs/netrom/circuit.py:443-523 | from any reachable connected state every schedule of drain() and deliveries is finite, can stop only when all is delivered and acknowledged and both drain() calls have returned, and then each reader holds exactly what was written if and only if each write was within the ceiling |
| PairTheorems.HalfOpenIffGivenUp | bbs/netrom/circuit.py:589-635 | an originator waiting for its DISC ACK always has a DISC frame on the way; a live responder waiting for its has one if and only if the originator has not abandoned the call before it was answered |
| PairTheorems.GivingUpLeavesHalfOpen | bbs/netrom/circuit.py:930-949 | the concrete run in which only the give-up guard releases a circuit |
| Reassembly.FragmentsAreFull | bbs/netrom/circuit.py:209-215 | every fragment of a message but the last is a full MTU, marked MORE_FOLLOWS; the last is not empty and unmarked |
| PairTheorems.FramesAreAddressed | bbs/netrom/circuit.py:329-430 | over every interleaving each frame on a link has the callsign of the node that sent it as origin and that of the node it is meant for as destination |
| LossyPeer.TakenIffCongruent | bbs/netrom/circuit.py:470-487 | a payload is taken if and only if its number is congruent to V(R), which within 255 means that it is V(R) |
| LossyPeer.ExactlyOnce | bbs/netrom/circuit.py:470-515 | against a peer that loses, repeats and reorders within 255 of V(R), the payloads taken are exactly a prefix of its fragments, each once and in order |
| LossyPeer.TooFarAheadIsMistaken | bbs/netrom/circuit.py:470-487 | the bound is tight: 256 ahead, a wrong payload is taken |
| LossyPeer.WindowSurvivesStaleAcks | bbs/netrom/circuit.py:443-449 | acknowledgements fewer than 256 behind may move V(A) back but never let more than the window be outstanding |
| LossyPeer.OverrunIff | bbs/netrom/circuit.py:443-449 | an acknowledgement, however stale, lets one frame too many out if and only if the window is full, a frame waits on a CONNECTED circuit and the mod-256 distance shows room; it is then at least 256 behind |
| LossyPeer.TooStaleOverrunsTheWindow | bbs/netrom/circuit.py:443-449 | 256 behind, one frame too many goes out |
| CircuitManager.NetromCircuitManager.Dispatch | bbs/netrom/circuit.py:765-798 | one received frame: demultiplexed by remote key for CONNECT REQ and by local key for the rest; the whole new state of tables, circuits and link is stated |
| CircuitManager.NetromCircuitManager.HandleConnectRequest | bbs/netrom/circuit.py:825-876 | a known remote key is acknowledged again, a full table refused, anything else opened and acknowledged |
| CircuitManager.NetromCircuitManager.AllocateLocalIdx | bbs/netrom/circuit.py:746-754 | the least free index, or none when all 256 are in use |
| CircuitManager.NetromCircuitManager.Originate | bbs/netrom/circuit.py:878-928 | an outbound circuit up to its wait: allocated, listed by its local key only, CONNECT REQ sent |
| CircuitManager.NetromCircuitManager.OriginateResumes | bbs/netrom/circuit.py:930-949 | the wait ends: a call that is not CONNECTED is removed |
| CircuitManager.NetromCircuitManager.SessionOver | bbs/netrom/circuit.py:951-965 | the end of a user session starts the disconnect of a circuit still CONNECTED |
| CircuitManager.NetromCircuitManager.RemoveCircuit | bbs/netrom/circuit.py:998-1007 | both keys and the index are dropped and, if no circuit is left, the idle timer is armed |
| CircuitManager.NetromCircuitManager.ReapNowIfIdle | bbs/netrom/circuit.py:1048-1061 | closes the crosslink if and only if the manager is live and lists no circuit |
| CircuitManager.NetromCircuitManager.ShutDown | bbs/netrom/circuit.py:1065-1078 | every listed circuit is closed and all tables emptied |
| ManagerFrames.StepSays | bbs/netrom/circuit.py:329-430 | what any step sends, field by field: nothing, or one frame from this node to the circuit's peer, under the peer's key, with our counters, 25 hops to live and the opcode, flags and tail of the occasion |
| ManagerFrames.EveryStepSays | bbs/netrom/circuit.py:765-996 | the same of every step of every run from a new manager, circuits answered and placed mixed |
| ManagerFrames.SentIsOurs | bbs/netrom/circuit.py:329-339 | every frame of every run has our callsign as its origin |
| ManagerFrames.PeerIsWhoWasNamed | bbs/netrom/circuit.py:878-996 | on every run a circuit's peer and user are those named by the one event that made it: the call of our own, or the CONNECT REQ |
| ManagerTransitions.StepMoves | bbs/netrom/circuit.py:525-669 | for every step and every circuit: it is closed, starts its disconnect or connects exactly on the stated occasions; EOF comes with the closing and only then; who waits for the window or the answer is woken; the guard is armed and cancelled with the disconnect |
| ManagerTransitions.OthersUntouched | bbs/netrom/circuit.py:765-798 | a step changes no circuit but the one it is for |
| ManagerTransitions.ShutdownClosesAll | bbs/netrom/circuit.py:1065-1078 | shutdown closes every listed circuit, feeds EOF, wakes every waiter and cancels every guard, leaves the others as they were, and leaves both tables and the used set empty |
| ManagerTransitions.MadeIff | bbs/netrom/circuit.py:825-928 | a step makes a circuit if and only if it is a call of our own or a CONNECT REQ under an unlisted key and an index is free; its index is the least free one, its id the next, its names and key those of the event, everything else blank |
| ManagerTransitions.NoDisconnectHangs | bbs/netrom/circuit.py:589-635 | on every run a circuit waiting for its DISC ACK has its guard armed, and when that fires it closes with EOF and every waiter woken |
| ManagerTransitions.LinkClosesIff | bbs/netrom/circuit.py:1011-1061 | the crosslink starts to close if and only if it drops by itself, or the armed idle timer fires or a reap is asked for while the manager is live and lists no circuit |
| ManagerData.SessionData | bbs/netrom/circuit.py:192-237 | what a session does to the bytes of its circuit: a write appends its bytes in full fragments or is dropped, a drain sends the first fragment under the next number, sleeps or forgets the queue |
| ManagerData.ArrivalData | bbs/netrom/circuit.py:434-523 | what a received frame does to them: taken in turn, reassembled, delivered whole or given up beyond the ceiling, and what V(R), V(A) and the window event become; no other frame touches the bytes |
| ManagerLifecycle.StepLawful | bbs/netrom/circuit.py:765-1078 | every manager step moves each circuit forward in its life, except that a repeated CONNECT REQ reopens a DISCONNECTING one |
| ManagerLifecycle.LifeOfACircuit | bbs/netrom/circuit.py:566-669 | on every run: no CLOSED circuit is reachable by remote key, EOF is fed exactly at the step entering CLOSED, no guard survives it, INFO leaves only a CONNECTED circuit, and the only backward step is DISCONNECTING to CONNECTED on a CONNECT REQ |
| ManagerLifecycle.ClosedForever | bbs/netrom/circuit.py:653-669 | CLOSED is absorbing on every run, removals repeated or not |
| ManagerTables.CrosslinksNeitherLeakNorBreak | bbs/netrom/circuit.py:1011-1061 | on every run an armed idle timer means an empty live manager, an empty live manager with a timeout has its timer armed or its link closing, and the reaper never closes a crosslink that carries a circuit |
| ManagerTables.RemoveTidyIff | bbs/netrom/circuit.py:998-1007 | a removal leaves distinct indices and an exact used set if and only if the circuit's local key is still listed or its index is not in use |
| ManagerTables.StepTidyIff | bbs/netrom/circuit.py:765-1078 | a step keeps the index table consistent if and only if it does not remove a circuit whose index another now holds |
| ManagerTables.TablesStayTidy | bbs/netrom/circuit.py:746-1007 | over every run without such a removal, listed circuits have pairwise distinct indices and the used set is exactly theirs |
| ManagerRemovals.RemovedOnceStaysTidy | bbs/netrom/circuit.py:746-1007 | the same from a new manager on every run, calls answered and placed mixed, in which no circuit is removed twice |
| ManagerTables.TwoCircuitsOnOneIndex | bbs/netrom/circuit.py:620-635 | the concrete run in which removing one circuit twice puts two listed circuits on index 0 |
| ManagerTables.RefusedIffFull | bbs/netrom/circuit.py:841-848 | a CONNECT REQ with a new key is refused, changing nothing, if and only if 256 circuits are listed |
| ManagerTables.OpensOnLeastIndex | bbs/netrom/circuit.py:967-996 | otherwise it opens one circuit on the least index no listed circuit holds, under both keys |
| ManagerPairing.StepMirrorsIff | bbs/netrom/circuit.py:765-1078 | one step of any kind, answered and originated circuits mixed: every answered circuit that is listed by its local key stays listed by its remote key if and only if the step does not pop the remote-key entry of another listed one |
| ManagerPairing.MirroredThroughoutIff | bbs/netrom/circuit.py:765-1078 | over every mixed run: listed answered circuits are mirrored at every moment if and only if no step pops such an entry |
| ManagerPairing.StepPairedIff | bbs/netrom/circuit.py:765-1078 | one step of any kind keeps the index table consistent, answered circuits mirrored and every remote-key entry backed by a listed circuit if and only if it frees no index another circuit holds, spares the others' entries and pops both keys of the circuit it drops |
| ManagerPairing.RemovalSparesOthersIff | bbs/netrom/circuit.py:998-1007 | a removal leaves every other circuit listed by its local key if and only if the local key it pops is not another circuit's |
| ManagerPairing.RepeatedRequestOpensNothing | bbs/netrom/circuit.py:825-837 | on every run that spares others' entries, originated calls included, a CONNECT REQ repeating the key of a listed answered circuit is acknowledged again with that circuit's window and opens nothing |
| ManagerPairing.RepeatOpensIff | bbs/netrom/circuit.py:825-876 | in any state with room, a CONNECT REQ opens a circuit if and only if no circuit is listed under its key |
| ManagerRemovals.TablesInBijection | bbs/netrom/circuit.py:746-1007 | a node that only answers, no circuit removed twice: a circuit is listed by its local key if and only if it is listed by its remote key |
| ManagerRemovals.TimedOutCallUnlistsAnother | bbs/netrom/circuit.py:902-949 | the concrete run in which a timed-out call's placeholder key (0,0) unlists an answered circuit, so that a repeat opens a second one |
| ManagerRemovals.LearnedKeyUnlistsAnother | bbs/netrom/circuit.py:551-559 | the concrete run in which the key learned from a CONNECT ACK is that of an answered circuit, and hanging up the call unlists it, so that a repeat opens a second one |
| CrosslinkPairs.StepXKeeps | bbs/netrom/circuit.py:746-1007 | one step of either manager or one arrival, whatever connection it belongs to, keeps every connection a two-endpoint system of its own, as long as it hands out no key of a connection that is not over |
| CrosslinkPairs.EveryConnectionIsAPair | bbs/netrom/circuit.py:192-1007 | two managers, any number of circuits placed by either end, one pair of FIFO links: after any run each connection (its two circuits, what their sessions wrote, its frames on the shared links) is in a state that the two-endpoint system reaches |
| CrosslinkKeys.NextIndependentIff | bbs/netrom/circuit.py:746-761 | one step keeps the connections independent if and only if it hands out no key of a connection that is not over |
| CrosslinkKeys.IndependentIff | bbs/netrom/circuit.py:746-761 | over every run: the connections are independent at every moment if and only if no key is handed out again before the connection that had it is over |
| CrosslinkKeys.FirstCircuitsAreFresh | bbs/netrom/circuit.py:756-761 | which is so as long as each end has made fewer than 256 circuits |
| CrosslinkTheorems.EverySessionIsServed | bbs/netrom/circuit.py:192-523 | on such a run, both ways on every connection: what is read is a prefix of what was written, and while the writer is connected and the reader listed, delivered ++ partial ++ on the link ++ queued equals what was written, if each write is at most 65536 bytes |
| CrosslinkTheorems.SilenceMeansDone | bbs/netrom/circuit.py:217-237 | when both links are empty and no drain() can run, each reader on a connected, listed connection holds exactly what the other end wrote if and only if each write was within the ceiling |
| CrosslinkTheorems.NoCrossedLines | bbs/netrom/circuit.py:355-412 | the circuit that placed a call and the one that answered it name each other by their keys and hold one window, and a call that is connected was answered |
| CrosslinkTheorems.EveryFrameIsAddressed | bbs/netrom/circuit.py:329-430 | every frame on a shared crosslink is from the node that sent it and to the peer of its own connection |
| CrosslinkTheorems.ReusedKeyTakesAnothersAnswer | bbs/netrom/circuit.py:756-761 | the concrete run in which the 257th call has the first one's key and takes its late answer: connected, with nothing at the far end that belongs to it |
| WireCarriage.SentIsUnderstood | bbs/netrom/circuit.py:329-430 | in every manager run with canonical callsigns, each frame sent is decoded by the far end to that very frame and recognised by its classifier |
| RouteQuality.Compose | bbs/netrom/router.py:91-101 | the composed quality is at most either factor and within half a 256th of the exact product |
| RouteQuality.ComposeMonotone | bbs/netrom/router.py:91-101 | a better advertisement or link never gives a worse route |
| RouteQuality.HopCostsIff | bbs/netrom/router.py:91-101 | a hop lowers the quality if and only if a*(256-p) > 128 |
| RouteQuality.DriftIsHalfPerLink | bbs/netrom/router.py:91-101 | after n links the rounded quality is within n/2 of the exact product |
| RouteQuality.NeverBetterThanALink | bbs/netrom/router.py:91-101 | a route is never better than the advertisement or any link it crosses |
| Buckets.SortedByRank | bbs/netrom/router.py:338-340 | the sort puts every entry exactly at its rank: those that beat it, then equals in their old order |
| Buckets.RanksDiffer | bbs/netrom/router.py:338-340 | no two entries have the same rank |
| Buckets.RanksFill | bbs/netrom/router.py:338-340 | every position is some entry's rank |
| Buckets.UpsertIsBestThree | bbs/netrom/router.py:318-341 | every position of the result holds the one entry of that rank in the bucket with the same-via entry replaced: exactly the three best |
| Buckets.UpsertIdempotent | bbs/netrom/router.py:318-341 | the same upsert again changes nothing, even for an entry that did not make the three |
| Router.NetromRouter.UpsertRoute | bbs/netrom/router.py:318-341 | the upsert in place, and its answer: new exactly when no entry had that neighbour |
| Router.NetromRouter.ProcessBroadcast | bbs/netrom/router.py:368-439 | rules 1 to 9 over one broadcast, entry by entry, in place |
| Router.NetromRouter.OnNetromFrame | bbs/netrom/router.py:271-316 | a received NODES frame is decoded, sanitized and learned; any other frame changes nothing |
| Router.NetromRouter.DecayObsolescence | bbs/netrom/router.py:626-661 | the obsolescence scan in place, the number of routes it deletes, and the neighbour list brought in line |
| Router.NetromRouter.PruneStaleRoutes | bbs/netrom/router.py:602-624 | the TTL prune in place |
| Router.NetromRouter.ReconcileNeighbours | bbs/netrom/router.py:795-809 | each neighbour's use count is the number of routes through it; an unused neighbour stays if and only if it is locked or has a live crosslink |
| Router.NetromRouter.RoutesTo | bbs/netrom/router.py:726-738 | lookup by callsign, else the first alias match in insertion order |
| Router.NetromRouter.NextHop | bbs/netrom/router.py:811-840 | the loop form of next-hop choice equals its specification |
| Router.NetromRouter.BuildNodesPayloads | bbs/netrom/router.py:882-903 | the frames of a broadcast: one header-only frame in polite-client mode, else eleven entries a frame |
| RouterLookup.LookupAnswers | bbs/netrom/router.py:726-738 | a lookup answers the bucket of the callsign, else that of the first destination learned whose best route has the alias, and nothing if and only if there is neither |
| RouterLookup.DirectIff | bbs/netrom/router.py:740-793 | a call is directly reachable if and only if its crosslink is up, it is a usable neighbour, it is a node heard on the air within the heard TTL, or a direct route to it is within the route TTL |
| RouterLookup.NextHopIs | bbs/netrom/router.py:811-840 | next-hop choice from whatever a lookup finds: the destination itself if it is one hop away, else the first hop of the best good route within reach, else of the best good route, and None if and only if no route is good |
| RouterLookup.NextHopByAlias | bbs/netrom/router.py:811-840 | a target named by its alias is the first destination learned with it, called directly when it is one hop away |
| RouterIntake.TakenInIff | bbs/netrom/router.py:318-341 | a route is taken in unless three by other neighbours are at least as good |
| RouterIntake.GivesWayToBetter | bbs/netrom/router.py:338-341 | another route gives way only to three that are at least as good |
| RouterIntake.BroadcastTeaches | bbs/netrom/router.py:388-425 | each entry of a broadcast that names its destinations once: ignored if it leads back to us, is below the worst quality or finds the table full; else the route it describes, at the rounded product of qualities, is in, unless three by other neighbours are as good |
| RouterIntake.BroadcasterIsReached | bbs/netrom/router.py:376-398 | the direct route to the broadcaster at our link's quality is in, unless three others are as good |
| RouterIntake.NodesFramesTaken | bbs/netrom/router.py:271-296 | a NODES payload addressed to NODES, in whatever case, is decoded, sanitized and learned from |
| RouterIntake.OtherFramesIgnored | bbs/netrom/router.py:271-296 | any other frame changes nothing |
| RouterIntake.SanitizedIff | bbs/netrom/router.py:298-316 | an entry is kept, as often as it comes, if and only if its destination is a callsign |
| RouterIntake.OnlyCallsignsLearned | bbs/netrom/router.py:271-316 | a received frame adds no destination but its source and what its entries name by a callsign |
| RouterIntake.DroppedIsTheDifference | bbs/netrom/router.py:626-661 | the number a sweep reports is that of the routes it took out |
| RouterUpkeep.ScanLeavesExactly | bbs/netrom/router.py:642-656 | a scan leaves exactly the routes whose count is not 1, one lower, and those locked at 0 as they are |
| RouterUpkeep.PruneLeavesExactly | bbs/netrom/router.py:602-624 | a prune leaves exactly the routes heard at the cutoff or later |
| RouterUpkeep.SweepKeepsOrder | bbs/netrom/router.py:602-656 | a sweep drops exactly the destinations left without a route and keeps the others in the order in which they were learned |
| RouterUpkeep.UseCountIsUsers | bbs/netrom/router.py:795-809 | the use count of a neighbour is the size of the set of pairs of destination and rank whose route goes through it |
| RouterUpkeep.ReconciledIff | bbs/netrom/router.py:795-809 | a neighbour stays listed if and only if some route goes through it, it is locked, or its crosslink is up |
| RouterUpkeep.NeighbourOutlivesScanIff | bbs/netrom/router.py:626-661 | after a scan a neighbour is listed if and only if it was and some route through it outlives the scan, or it is locked, or its crosslink is up |
| RouterUpkeep.CrosslinkNotedExactly | bbs/netrom/router.py:254-268 | the same when a crosslink goes down; one that comes up is noted and nothing else changes |
| RouterUpkeep.NeighbourHeard | bbs/netrom/router.py:345-385 | a broadcast leaves its source listed, heard now, at the quality configured for it or else the channel's unless it is locked; a quality of 0 leaves the routes unchanged, and no other neighbour changes |
| RouterUpkeep.HeardDirectNoted | bbs/netrom/router.py:245-252 | a station heard on the air is noted under its call in upper case and nothing else changes |
| RouterUpkeep.SilentNeighbourIsForgotten | bbs/netrom/router.py:626-661 | on every run from empty tables a neighbour unheard for as many scans as the initial count is forgotten at the last of them, unless it is locked or its crosslink is up |
| RouterInvariants.BucketsStayShaped | bbs/netrom/router.py:318-341 | in every reachable state each bucket is non-empty, at most 3 long, best first, one entry per neighbour, filed under the callsign it reaches |
| RouterInvariants.StepKeeps | bbs/netrom/router.py:254-661 | broadcasts, scans, prunes and crosslink changes keep every route's neighbour listed with a usable link at least as good as the route |
| RouterInvariants.RoutesGoThroughNeighbours | bbs/netrom/router.py:388-425 | from empty tables, in every reachable state, every route goes through a listed neighbour with nonzero path quality and is no better than that link |
| RouterTheorems.FirstHopIsReachable | bbs/netrom/router.py:765-840 | best_neighbor_for answers None or a directly reachable call: the destination itself, or the neighbour of the best route if that meets min_quality; the best-effort fallback is never taken |
| RouterTheorems.FirstHopOnEveryRun | bbs/netrom/router.py:811-840 | on every run from empty tables whoever best_neighbor_for names satisfies is_direct_neighbor |
| RouterTheorems.HearsayIsCapped | bbs/netrom/router.py:405-415 | in every run from empty tables the destinations that never broadcast to us number at most max_destinations |
| RouterTheorems.RouteOrigin | bbs/netrom/router.py:388-425 | every route after an event was there before and is what the event leaves of it, or was set afresh by a broadcast: the direct route at our link quality, or the route one of its entries describes, at the composed quality, never through ourselves |
| RouterTheorems.CountIsExact | bbs/netrom/router.py:626-661 | a route's count is the initializer less the scans since its last refresh, and positive |
| RouterTheorems.DeletedOnTheLastScan | bbs/netrom/router.py:642-656 | a scan deletes a route exactly when it is the k-th since the last refresh; every other route survives, one lower |
| RouterTheorems.UnheardRoutesExpire | bbs/netrom/router.py:626-661 | a route unheard for k scans is gone |
| RouterTheorems.LoopsDieOut | bbs/netrom/router.py:405-411 | while everything a neighbour says about a destination names us as next hop, no route to it through that neighbour is created or refreshed, and an old one lasts at most k scans |
| Advertising.AdvertisedExactly | bbs/netrom/router.py:905-927 | the advertisement holds exactly the best route to each destination that passes the obsolescence gate, once, in callsign order, with our own next hop |
| Advertising.AdvertisedIsRecent | bbs/netrom/router.py:915-918 | what is advertised was refreshed within k - obs_min_to_broadcast scans |
| Advertising.AdvertisedFields | bbs/netrom/router.py:905-927 | an entry is advertised if and only if some best route with count 0 or at least obs_min_to_broadcast has its callsign, alias, first hop and quality |
| NodesExchange.ChunksAreFull | bbs/netrom/router.py:882-903 | every frame of a broadcast but the last has eleven entries, the last one to eleven |
| NodesExchange.PoliteSendsTheHeader | bbs/netrom/router.py:882-903 | in polite-client mode one 7-byte frame goes out, which decodes to our alias and no entries |
| Advertising.SplitHorizon | bbs/netrom/router.py:919-924 | if our best route to a destination goes through y, what we advertise about it loops back at y |
| NodesExchange.NoFrameLoops | bbs/netrom/router.py:882-903 | the same holds of every single frame of the fragmented broadcast |
| NodesExchange.PayloadsCarryTheTable | bbs/netrom/router.py:882-927 | decoding the payloads in order returns exactly the advertised entries, in frames of at most 238 bytes |
| NodesFragments.FragmentsAreTransparentIff | bbs/netrom/router.py:368-429 | from any tables, a broadcast heard in any frames at one moment gives the tables of one unfragmented frame if and only if routing is off, the source is ignored or has no seat among the best three, or both ways it ends with the same route in the same seat |
| NodesFragments.CutUnseenIff | bbs/netrom/router.py:388-429 | the same for two frames, in terms of the last usable entry about the source before and after the cut and the seats it passes through |
| NodesFragments.CutIsInvisibleIff | bbs/netrom/router.py:388-429 | a cut goes unseen whatever follows it if and only if routing is off, the source is ignored or without a seat, or the last usable entry about the source before the cut, if any, describes exactly its direct route |
| NodesFragments.DistinctCutsIff | bbs/netrom/router.py:388-429 | for broadcasts that name each destination once: the cuts leave no trace if and only if one of the first three holds or the frames before the last say nothing usable about the source but its direct route |
| NodesFragments.HasSeatIff | bbs/netrom/router.py:318-341 | the direct route has a seat unless three routes through other neighbours are at least as good |
| NodesExchange.SourceEntryShowsTheCut | bbs/netrom/router.py:388-429 | from empty tables: an entry about the source that is not its direct route, and nothing about it after the cut, make the two tables differ |
| NodesExchange.ExchangeIsTransparentIff | bbs/netrom/router.py:271-316 | from one node's tables through the wire to another's: the same as one frame under exactly that condition, and for a table the sender can have under the closed form for distinct destinations |
| NodesExchange.ReprocessingChangesNothing | bbs/netrom/router.py:368-429 | processing a frame with distinct destinations again changes nothing, entries about the source included |
| WireCalls.CallRoundTrip | bbs/ax25/netrom_frame.py:53-80 | a canonical callsign survives the wire, in callsign characters and a clean SSID byte |
| WireCalls.AliasRoundTripIff | bbs/ax25/netrom_frame.py:83-90 | an alias survives the wire if and only if it is at most six ASCII characters, none lower-case, with no white space at the end |
| NodesCodec.EncodeNodesBroadcast | bbs/ax25/netrom_frame.py:149-161 | the encoding loop equals its specification, the failure on a malformed SSID included |
| NodesCodec.DecodeNodesBroadcast | bbs/ax25/netrom_frame.py:114-146 | the offset loop equals its specification: short tails ignored, entries without a destination skipped |
| NodesCodec.NodesRoundTrip | bbs/ax25/netrom_frame.py:114-161 | a broadcast of canonical entries comes back entry for entry and is 7 + 21n bytes long |
| L3Codec.EncodeL3Header | bbs/ax25/netrom_frame.py:320-336 | the 20-byte header with the end-of-address bit patched in, byte by byte |
| L3Codec.FrameRoundTrip | bbs/ax25/netrom_frame.py:320-441 | decode_l3_frame inverts encode_l3_frame with the matching tail for all six opcodes and every flag combination |
| L3Codec.LooksLikeNetromL3 | bbs/ax25/netrom_frame.py:446-490 | the classifier's loops decide exactly the stated bit pattern |
| L3Codec.OwnFramesAreRecognised | bbs/ax25/netrom_frame.py:446-490 | the classifier accepts a sent frame if and only if its TTL is 1..64 |
| L3Codec.OnlyCallsignsConnect | bbs/ax25/netrom_frame.py:405-421 | a decoded CONNECT REQ always carries callsign characters alone |
| WireLayout.CanonicalIff | bbs/ax25/netrom_frame.py:68-80 | the canonical callsigns of these results are one to six of A-Z 0-9, alone or with a dash and an SSID of 1 to 15 |
| WireLayout.EncodeFailsIff | bbs/ax25/netrom_frame.py:68-80 | encoding a callsign fails if and only if it has a dash and what follows the last one is no number |
| WireLayout.NodesBytes | bbs/ax25/netrom_frame.py:149-161 | a NODES broadcast byte by byte: where each character, SSID, alias and quality of each entry stands |
| WireLayout.NodesDecodedAt | bbs/ax25/netrom_frame.py:114-146 | each full 21 bytes of a broadcast are one entry of the stated fields, unless the destination is blank |
| WireLayout.FrameBytes | bbs/ax25/netrom_frame.py:320-390 | a frame byte by byte: origin, destination with the end-of-address bit, hop count, key, counters, opcode and flags, and the tail of its opcode |
| WireLayout.DecodedIff | bbs/ax25/netrom_frame.py:339-441 | data decodes to a frame if and only if it holds a header, a known opcode and what that calls for, callsign characters in a CONNECT REQ included |
| WireLayout.DecodedFields | bbs/ax25/netrom_frame.py:339-441 | the byte each decoded field comes from |
| WireLayout.ClassifierIff | bbs/ax25/netrom_frame.py:446-490 | the classifier accepts data if and only if there are twenty bytes, each callsign byte is a shifted A-Z, 0-9, space or NUL, the SSID bits a NET/ROM header leaves clear are clear, the hop count is 1..64 and the opcode 1..6; one byte off refuses it |
| KissFrame.KissEscape | bbs/ax25/kiss_frame.py:77-87 | the escaping loop equals its specification |
| KissFrame.KissUnescape | bbs/ax25/kiss_frame.py:55-74 | the unescaping loop equals its specification, malformed and cut-off escapes included |
| KissFrame.EscapeRoundTrip | bbs/ax25/kiss_frame.py:55-87 | unescaping undoes escaping, and escaped data holds no FEND |
| KissFrame.UnescapeRoundTripIff | bbs/ax25/kiss_frame.py:55-87 | escaping undoes unescaping if and only if the data is properly stuffed |
| KissFrame.SplitKissFrames | bbs/ax25/kiss_frame.py:192-210 | the splitting loop equals its specification |
| KissFrame.SplitAtAnyCut | bbs/ax25/kiss_frame.py:192-210 | splitting a ++ b gives the frames of a, then those of (leftover of a) ++ b |
| KissFrame.ChunkingIsInvisible | bbs/transport/kiss.py:210-221 | the read loop yields the frames of the whole stream, however it is cut into chunks |
| KissFrame.StreamRecoveredIff | bbs/ax25/kiss_frame.py:90-93 | a stream of built frames, read in any chunks, gives back every frame in order if and only if none was built for port 12 (modulo 16) |
| KissFrame.PortTwelveSilences | bbs/ax25/kiss_frame.py:90-93 | after a port-12 frame none of the following frames for other ports is recovered |
| KissFrame.StreamUnpacks | bbs/ax25/kiss_frame.py:174-189 | each recovered frame unpacks to its port and AX.25 frame |
| Ax25Ui.BuildAx25UiFrame | bbs/transport/kiss.py:68-110 | the address field built entry by entry equals its specification, parse errors included |
| Ax25Ui.DecodeAx25Frame | bbs/ax25/kiss_frame.py:108-163 | the address walk equals its specification, truncated and non-UI frames included |
| Ax25Ui.UiRoundTrip | bbs/ax25/kiss_frame.py:108-163 | whatever parses comes back in canonical form: source, destination, unrepeated digipeater path, payload |
| Ax25Ui.CanonicalIsFixed | bbs/ax25/address.py:20-36 | a canonical callsign is its own canonical form |
| Ax25Ui.AcrossTheSerialLine | bbs/ax25/kiss_frame.py:90-163 | built, wrapped for its port, read in any chunks and unpacked, a frame arrives in canonical form |
| WireLayout.StuffedBytes | bbs/ax25/kiss_frame.py:77-87 | FEND and FESC become their two-byte escapes and every other byte stays |
| WireLayout.UnstuffedBytes | bbs/ax25/kiss_frame.py:55-74 | a byte outside an escape stays, the two proper escapes give FEND and FESC, any other escape and a cut-off one give nothing |
| WireLayout.KissBytes | bbs/ax25/kiss_frame.py:90-93 | a KISS frame is the escaped data between two FENDs after a command byte with the port, modulo 16, in the upper half and 0 in the lower |
| WireLayout.UnpackedIff | bbs/ax25/kiss_frame.py:174-189 | a raw KISS frame unpacks if and only if its command nibble is 0, to the port above it and the unescaped rest |
| WireLayout.UiBytes | bbs/transport/kiss.py:68-110 | a UI frame byte by byte: both reserved bits in every SSID byte, the command bit in the destination's and no other, the end bit in the last, then control, PID and payload |
| WireLayout.UiDecoded | bbs/ax25/kiss_frame.py:96-163 | what a received frame reads as: where the address field ends, UI with or without the poll bit, PID and payload |
| WireLayout.ParsesIff | bbs/ax25/address.py:20-36 | what parses as an address, and to which callsign and SSID |
| GatewayGuard.Guard.Check | bbs/netrom/gateway.py:109-144 | the first failing gate in the order deny, allow, level, rate, interlock; only the rate window is touched |
| GatewayGuard.Guard.PruneAndCount | bbs/netrom/gateway.py:146-156 | lazy pruning of the 60-second queue and the rate verdict |
| GatewayGuard.Guard.Acquire | bbs/netrom/gateway.py:160-173 | a slot is taken if and only if neither cap is reached, and the connect is recorded |
| GatewayGuard.Guard.Release | bbs/netrom/gateway.py:175-184 | a slot is given back; the caller's last one drops its count |
| GatewaySessions.AccountsBalance | bbs/netrom/node.py:435-494 | under any interleaving of sessions the total is the sum of the callers' counts, each count is that caller's open connections and positive, and both caps hold |
| GatewaySessions.NothingLeaks | bbs/netrom/node.py:455-494 | when every connection has ended the books are empty |
| GatewaySessions.NeverTooManyAMinute | bbs/netrom/gateway.py:146-173 | with a clock that does not run backwards, read once by the check and again by the reservation, no caller has more than rate_limit_per_min accepted connects in any 60 seconds |
| GatewaySessions.RateGateIsExact | bbs/netrom/gateway.py:146-156 | the lazily pruned queue refuses if and only if counting the whole log over the last 60 seconds would |
| GatewaySessions.AcceptedIff | bbs/netrom/node.py:435-454 | a connect is accepted if and only if every gate and both caps let it through |
| GatewayCallers.BaseIff | bbs/netrom/gateway.py:41-48 | the guard's name for a caller holds no dash and is the prefix of the trimmed upper-case call that is the whole of it or ends before a dash; no other string is |
| GatewayCallers.SsidIsIgnored | bbs/netrom/gateway.py:41-48 | a callsign and the same callsign under any SSID are one caller |
| GatewayCallers.FirstGateFailed | bbs/netrom/gateway.py:109-144 | a request is refused with the reason of the first gate that it fails, and passes if it fails none |
| GatewayCallers.DeniedUnderEverySsid | bbs/netrom/gateway.py:109-144 | a station on the deny list is refused under every SSID |
| GatewayCallers.StationCap | bbs/netrom/gateway.py:160-184 | under any interleaving, a station never has more open connections than max_per_user, whatever SSIDs it calls under, nor the node more than max_circuits |
| GatewayCallers.StationRate | bbs/netrom/gateway.py:146-173 | nor more accepted connects in any 60 seconds than the rate limit |
| GatewayCallers.AcceptedExactly | bbs/netrom/node.py:435-454 | a connect is accepted if and only if it fails no list, level or interlock gate, its station had fewer connects in the last 60 seconds than the limit, and both caps have room for the station and the node |
| GatewayCallers.CapHoldsAcrossSsids | bbs/netrom/node.py:435-454 | with a station's cap taken under some SSIDs, its call under another is refused |
| NodeSession.Session.Begin | bbs/netrom/node.py:435-456 | check and reservation in one step: admitted exactly when every gate and both caps pass, with the guard's books, the active count and the target stated |
| NodeSession.Session.End | bbs/netrom/node.py:492-502 | the finally block: the slot goes back, the target is cleared, and the session ends exactly when the near side hung up |
| NodeSession.Session.CmdConnect | bbs/netrom/node.py:435-502 | when no other session runs between its reservation and its release: on every way out the guard's accounts and the session's counters are as they were |
| NodeSession.SlotGivenBack | bbs/netrom/gateway.py:160-184 | a slot taken and given back leaves total and per-user counts unchanged |
| NodeSession.StepsOfTheWorld | bbs/netrom/node.py:435-494 | the two steps of a session are exactly the two events of the interleaved system |
| HeardPaths.ConfirmedIsAChain | bbs/plugins/heard/graph.py:11-37 | the confirmed hops run from the station through every digipeater up to the last starred one to the BBS; there are none if and only if the path is not empty and no digipeater is starred; an empty path is one direct hop |
| HeardPaths.MergeKeepsConfirmations | bbs/plugins/heard/heard.py:144-178 | the merged path confirms exactly the hops that the better confirmed of the two copies does |
| HeardPaths.HopsOfJoined | bbs/plugins/heard/heard.py:163-178 | parsing a joined path gives its hops back |
| HeardMap.DigisAreRelays | bbs/plugins/heard/heard.py:1417-1418 | the digipeaters are exactly the stations other than the BBS that some confirmed hop leads to |
| HeardMap.TallyCounts | bbs/plugins/heard/heard.py:1408-1415 | every confirmed hop is counted once, with its number of occurrences |
| HeardMap.BestIsBest | bbs/plugins/heard/heard.py:1420-1429 | the best parent is the target of a most-seen hop, the earliest of equals |
| HeardMap.BuildMapData | bbs/plugins/heard/heard.py:1381-1456 | the dictionaries filled in place are the relays, best parents, ordered children and ordered stations of what was heard |
| HeardMapDrawing.DrawNode | bbs/plugins/heard/heard.py:311-339 | the recursion ends on every chart and equals its specification |
| HeardMapDrawing.DrawMap | bbs/plugins/heard/heard.py:341-363 | the whole drawing equals its specification |
| HeardMapDrawing.ChartsAreRooted | bbs/plugins/heard/heard.py:1408-1436 | every chart that is built has the shape the drawing relies on |
| HeardMapDrawing.DrawsWhatReachesUs | bbs/plugins/heard/heard.py:311-363 | even when best parents form cycles, the map shows exactly the digipeaters whose chain of best parents leads to the BBS, each once |
| HeardMapDrawing.MapOfWhatWasHeard | bbs/plugins/heard/heard.py:1381-1456 | from what was heard to what is shown: the map has exactly the stations that some confirmed hop leads to and whose chain of best parents reaches the BBS, each once |
| HeardMapCycles.CyclesAreLeftOut | bbs/plugins/heard/heard.py:1420-1429 | two digipeaters that are each other's best parent are both missing from the map |
| HeardMapCycles.MutualHopsAreLeftOut | bbs/plugins/heard/heard.py:1408-1429 | if the hop from a to b was heard more often than any other out of a, and that from b to a more often than any other out of b, then for every chart of those rows both are confirmed digipeaters and neither is drawn |
| HeardMapCycles.CrossedPathsAreLeftOut | bbs/plugins/heard/heard.py:1381-1456 | four rows, two stations through a then b and b then a before two different digipeaters, always do that |
| HeardMapCycles.FourRowsHideTwoDigis | bbs/plugins/heard/heard.py:1381-1456 | for instance A*,B*,Z1* and A*,B*,Z2* from X, B*,A*,Z1* and B*,A*,Z2* from Y, at any other BBS |
| HeardPaths.HopsByPart | bbs/plugins/heard/heard.py:163-178 | parsing a path part by part: what stands between commas, trimmed, is a hop, and blanks are none |
| HeardPaths.MergedHopByHop | bbs/plugins/heard/heard.py:144-178 | a hop of the merged path is starred if and only if it is in either copy |
| HeardPaths.OtherwiseTheNewer | bbs/plugins/heard/heard.py:144-161 | copies that do not match are not merged: the newer one stands, but for an empty one |
| HeardMapListing.StationListedOnce | bbs/plugins/heard/heard.py:1437-1447 | a station that is no digipeater stands in the list under its best parent, once and under no other, and that list is on the full map whenever the parent is drawn |
| HeardMapListing.MapLists | bbs/plugins/heard/heard.py:311-363 | the full map holds one list under each drawn digipeater that has stations, with exactly those, at its end those heard directly, and no other list |
| HeardMapListing.MapCounts | bbs/plugins/heard/heard.py:311-339 | each drawn digipeater is shown with the number of its stations |
| HeardMapListing.ListedByName | bbs/plugins/heard/heard.py:1431-1447 | what hangs from a node is ordered digipeaters first and by name among each, without doubles |
| HeardMapListing.DirectAtTheEnd | bbs/plugins/heard/heard.py:341-363 | the map opens with the BBS and closes with who was heard directly: their number in the short form, their names in the full one |
| HeardMapListing.BranchesDrawn | bbs/plugins/heard/heard.py:311-339 | each digipeater's line ends its lead in a branch, or a corner for the last of its siblings, and all that hangs from it stands three columns to the right |

## Left out

- The asyncio scheduler, real timers and logging: every stretch of code between two awaits is one atomic step, and timers are events that may fire when armed.
- The transports in agwpe.py, kernel_ax25.py, tcp.py and web.py: the circuits run over a reliable FIFO link, the router and the map over what was received.
- Several drain() calls at once on one circuit: one writer per circuit is assumed, as the session code uses it.
- In CircuitPair the link writer stays up; its closing is an event only of the manager's runs.
- What a session does with the bytes it reads: the reader is the sequence of bytes fed to it.
- The manager's table of user tasks and task cancellation, wait_closed and describe: bookkeeping that decides nothing.
- Masking of header integers outside 0..255: header fields are bytes here; sequence arithmetic modulo 256 is explicit.
- Python's int() on SSIDs written with signs, spaces, underscores or non-ASCII digits: an SSID is a run of digits, anything else is the error.
- Unicode: upper(), strip() and the alias codec are modelled on ASCII, with U+FFFD and '?' as the replacements.
- The callsign regular expression: an arbitrary predicate `routable` on callsigns.
- Wall-clock time: a parameter of each step; the rate theorems ask that it does not run backwards.
- SQLite: persist, seed_from_db and the ingest of heard paths. The router's invariants hold from any state that satisfies them, its run theorems start from empty tables.
- The router's neighbour list order, routing_table, neighbour_list and adjacent_neighbors: sorted views of the modelled tables.
- build_nodes_payload: the single-frame form that the fragmented one replaces.
- GatewayPolicy parsing, note_refusal and stats: configuration and a bounded history for the dashboard.
- The other refusals of cmd_connect (no route, own node, no transport) and the bridge itself: only when a slot is taken and given back matters to the guard.
- Wrapping a station list to the terminal's width, and colours: one line of callsigns here.
- The branch of the map recursion for a pure station: its callers pass digipeaters only.
- OTP, chat, bulletins, web routes and configuration: user interface and storage around the protocol.
- On the shared crosslink the link stays up and a session acts on a circuit only after the call that placed it has returned, as the session code does; idle reaping and shutdown are events of the single manager's runs.
- GatewaySessions.NeverTooManyAMinute: speaks of the log of accepted connects; connects of an earlier process are not in it.
