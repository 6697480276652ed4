# wgmesh: a verified model

wgmesh is a WireGuard mesh: a control plane keeps the peers, their overlay addresses and who may
see whom; an agent on every node configures a WireGuard device from the peer list it is sent,
moves peers between direct paths and relays, and reports telemetry. This project models the parts
whose correctness is a matter of state kept over unbounded runs and proves what they promise.

`dafny verify dfyconfig.toml` checks everything with Dafny 4.11.

| module | models |
|---|---|
| `Failover`, `FailoverRuns`, `FailoverBackoff`, `FailoverLive`, `Reporter` | one peer's path as a state machine (direct, relayed, probing), its invariants, damping and back-off over whole runs, exactly when it falls back, probes and gives up, and the reporter object whose maps hold it |
| `Punch` | hole-punch epochs on the server together with two agents, as one distributed step system |
| `QuicRelay`, `QuicRuns` | the QUIC relay leg: fragmenting, reassembly, and what a lossy network can make of it |
| `UdpRelay` | the UDP pair forwarder: address latching, the port allocator, expiry |
| `Store`, `PeerTable`, `StoreRuns` | the peer table, every transaction on it, migrations statement by statement |
| `Payload`, `Keys`, `Candidates` | visibility, the peer list sent to an agent, pair keys and ids, endpoint candidates |
| `DeviceSync`, `PrefixText`, `EndToEnd` | reconciling the device, and what the devices hold once store, payload and sync are put together |
| `Links`, `Flows`, `Capture`, `Sums` | byte accounting over counters that reset, re-orientation, packet capture |
| `Uapi`, `UapiText`, `UapiGet` | printing the userspace configuration protocol and parsing it, and device reports |
| `LogTail` | the access-log follower and its bounded queue |
| `Wrappers` | `Option`, bytes |

Where the source updates objects in place the model is a class whose methods are tied to a
specification function on values (`View() == Spec(old(View()))`); the theorems about runs are
about those functions. Clocks, the device, the transports, the network and the choices a map or
the database makes are inputs of the steps, so every theorem covers all of them.

## Results worth reading first

- `FailoverRuns.EveryRun`, `NoProbeInHoldDown`, `ChurnSlows`, `PromotionProof`: what path failover never does;
  `FailoverLive.FallsBackExactly`, `ProbeStartsExactly`, `EveryCandidateTried`: what it does, and exactly when;
  `Reporter.TelemetryReporter.EveryPeerConsistent`, `SilentPeersFallBack`: the same of the object.
- `Punch.CoordinatedProbesBounded`: coordinated probes under any interleaving, loss and duplication.
- `QuicRuns.OnlySentIsWritten`, `DeliveredOnce`: the QUIC leg.
- `StoreRuns.EveryRun`, `MigrationNeverCollides`: the store.
- `EndToEnd.TrafficToPeer`, `TrafficElsewhere`, `DevicesAgree`, `DeviceKeysPrivate`: from the store to the devices.
- `Capture.CaptureConserves`, `Links.NoLossExactly`: byte conservation.
- `Uapi.ParseOfPrint`, `UapiGet.ParseOfReport`, `LogTail.ProxyTailer.Delivers`, `Candidates.ObservedExactly`,
  `UdpRelay.ForwardedExactly`.

## Where code, comments and expectations differ

- The cooldown comment in `cmd/server/report.go:236` lists 2, 4 and 8 minutes. The 2 minutes never
  apply, because a record without attempts has no bump time (`Punch.RefusedExactly`).
- Reported link bytes can fall short of the bytes counted even when every reset shows as a decrease:
  what went through between the last reading and the reset is gone. `Links.ResetCanLose` is such a
  run, `Links.NoLossExactly` the exact condition.
- An immediate second sync is empty only when no prefix is wanted twice and no preshared key would have
  to be cleared; `DeviceSync.SecondSyncEmpty` proves it in both directions.
- The two ends of a flow disagree on client and server when the ports are equal and the hosts
  differ (`Flows.EndsAgree`).
- A relay-observed address whose endpoint was gathered but cut from the list comes back as a new
  candidate (`Candidates.ObservedDiffers`); `Candidates.ObservedExactly` says when the shortcut is exact.
- The exit chain rule does not cover revoked clients: `StoreRuns.RevokedClientMayChain` is a run that
  shows it, `StoreRuns.ChainFreeExactly` the exact condition for the rule over all rows.

## Model

| member | source | states |
|---|---|---|
| `FailoverRuns.EveryRun` | cmd/agent/relay.go:167-472 | in every reachable state relayed, relay endpoint, relay time and path kind go together, at most one proxy is live and matches the kind, a probe implies relayed with the current relay endpoint and an index in range, a stint clock excludes a hold-down, every proxy started is live or closed, and the history obeys the damping rules |
| `FailoverRuns.StepSound` | cmd/agent/relay.go:117-472 | every event keeps the consistency, clock, damping and history invariants |
| `FailoverRuns.NoProbeInHoldDown` | cmd/agent/relay.go:97-143 | a probe recorded after a stint that ended starts only when the hold-down that stint earned is over, whatever epochs or candidate changes arrive |
| `FailoverRuns.RowCounts` | cmd/agent/relay.go:103-143 | after n short stints in a row the flap count is n and the promotions lie at least the summed hold-downs, silences and probations apart |
| `FailoverRuns.ChurnSlows` | cmd/agent/relay.go:97-143 | over any run, n consecutive short direct stints take at least n times the fallback silence and probation plus all hold-downs |
| `FailoverRuns.HoldSumClosed` | cmd/agent/relay.go:103-109 | the hold-downs sum to 2, 4, 8 and then 16 minutes for each further flap |
| `FailoverRuns.PromotionProof` | cmd/agent/relay.go:355-449 | whenever an event promotes a peer, an earlier event confirmed this very probe with a handshake newer than its start on a non-relay endpoint, and a later one saw received bytes grow more than the probation minimum after that, with the endpoint still not the relay's |
| `FailoverRuns.StepFollows` | cmd/agent/relay.go:328-417 | a probe is confirmed after an event only if it was before and is unchanged, or this event read the evidence |
| `FailoverRuns.SwitchConsistent` | cmd/agent/relay.go:491-582 | a switch that moves the peer leaves relay entries and proxies that agree; one that does not leaves it off the relay |
| `FailoverRuns.PromoteSound` | cmd/agent/relay.go:419-449 | promotion keeps the invariants and records a stint that respects the last hold-down |
| `FailoverRuns.RestoreSound` | cmd/agent/relay.go:451-472 | giving up a probe keeps the invariants |
| `FailoverRuns.StartAllowed` | cmd/agent/relay.go:271-326 | a probe that the hold-down check lets through starts after the release of every stint so far |
| `FailoverRuns.RetireSound` | cmd/agent/relay.go:177-199 | dropping dead proxies keeps the invariants |
| `FailoverBackoff.RetryLadder` | cmd/agent/relay.go:73-87 | the retry interval is 5, 10, 20 and then 30 minutes |
| `FailoverBackoff.UncoordinatedProbesSpaced` | cmd/agent/relay.go:271-326 | over any run a probe that no new epoch asked for starts at least five minutes after every earlier probe of the peer |
| `FailoverBackoff.FailuresBackOff` | cmd/agent/relay.go:271-326 | while the candidates stay the same it starts no sooner than the interval the failures earned after every earlier probe |
| `FailoverLive.FallsBackExactly` | cmd/agent/relay.go:201-222 | over any run, a report tick that finds the peer on the device leaves it relayed exactly when it still was after retirement and probe check, or when the relay is not known to be missing, a transport starts, and neither the first sighting (or latest promotion), nor the last received bytes, nor the last handshake, all told from the events, lies within the last 90 s; it names the transport and endpoint the peer is then on, and QUIC is ruled out exactly when such an attempt finds it does not start |
| `FailoverLive.RunTimes` | cmd/agent/relay.go:253-269 | the first-seen and last-inbound times the reporter keeps are those of the events |
| `FailoverLive.RelayDenied` | cmd/agent/relay.go:491-582 | the relay is marked missing exactly when a silent peer without one asks, no transport starts, and the control plane answers that there is none |
| `FailoverLive.RetiresExactly` | cmd/agent/relay.go:177-199 | over any run a peer loses relay and probe on a report tick exactly when the proxy of its own kind is dead, and QUIC is ruled out exactly by a dead QUIC proxy |
| `FailoverLive.RunHold` | cmd/agent/relay.go:117-143 | the hold-down in force is always the one the latest stint of the history earned |
| `FailoverLive.ProbeStartsExactly` | cmd/agent/relay.go:271-353 | over any run a sync entry starts a probe exactly when probing is on, it brings candidates for a relayed peer, the device takes the change, the hold-down of the latest stint is over, and the epoch is new or no probe is under way and the peer has been relayed for its 5, 10, 20 or 30 minutes; the probe has 8 s dwells and a 45 s window, or 20 s dwells and none; epoch and candidates are noted even where none starts |
| `FailoverLive.ProbeTickExactly` | cmd/agent/relay.go:355-472 | over any run a probe tick confirms, moves on, promotes, gives up or waits exactly when the device reading, the dwell, the window, the 20 s and the 60 s of probation say so, and leaves the peer as each of these does |
| `FailoverLive.SweepAt` | cmd/agent/relay.go:386-417 | k unanswered dwells on, a probe is k places further round its candidates |
| `FailoverLive.EveryCandidateTried` | cmd/agent/relay.go:386-472 | every candidate of an unanswered uncoordinated probe gets its dwell, in order and once, and then the peer is back on its relay with one more failure |
| `FailoverLive.WindowCloses` | cmd/agent/relay.go:386-472 | an unanswered coordinated probe goes round until its deadline, and the first tick a dwell later at or past it puts the peer back on its relay |
| `Reporter.TelemetryReporter.constructor` | cmd/agent/telemetry.go:171-239 | every peer starts new with an empty past |
| `Reporter.TelemetryReporter.EveryPeerConsistent` | cmd/agent/telemetry.go:807-821 | in every state of the object every peer is where the run of its past events leads, so its entries in all maps agree with each other |
| `Reporter.TelemetryReporter.SilentPeersFallBack` | cmd/agent/relay.go:201-222 | a peer of the object whose past ends with a report tick that found it is relayed exactly when the tick left it so or the events of its past make it silent for 90 s while a transport starts |
| `Reporter.TelemetryReporter.NoteInbound` | cmd/agent/telemetry.go:573-575 | a sample with growth is one event in that peer's past and in no other |
| `Reporter.TelemetryReporter.NoteDirectStintEnded` | cmd/agent/relay.go:117-143 | the damping maps hold what the end of a stint makes of them, other peers untouched |
| `Reporter.TelemetryReporter.StartDirectProbe` | cmd/agent/relay.go:328-353 | the peer's entries become those of the probe step, other peers untouched |
| `Reporter.TelemetryReporter.MaybeRetryDirect` | cmd/agent/relay.go:271-326 | a sync entry is one event in that peer's past and in no other; the maps stay where the pasts lead |
| `Reporter.TelemetryReporter.RetryPeer` | cmd/agent/relay.go:271-326 | the peer's entries become those of the sync-entry step, other peers untouched |
| `Reporter.TelemetryReporter.CheckDirectProbe` | cmd/agent/relay.go:355-417 | the peer's entries become those of the probe check, other peers untouched |
| `Reporter.TelemetryReporter.CheckConfirmedProbe` | cmd/agent/relay.go:370-385 | a confirmed probe is promoted, kept or given up as the probation rules say |
| `Reporter.TelemetryReporter.PromoteDirect` | cmd/agent/relay.go:419-449 | all map groups together hold the promoted peer, other peers untouched |
| `Reporter.TelemetryReporter.RestoreRelayAfterProbe` | cmd/agent/relay.go:451-472 | the maps hold the restored relay, or nothing changed when the device refused |
| `Reporter.TelemetryReporter.CheckProbes` | cmd/agent/relay.go:232-251 | the tick is one probe event for every device peer, whatever the order, and nothing for any other peer |
| `Reporter.TelemetryReporter.MoveToRelay` | cmd/agent/relay.go:491-582 | the maps hold the result of switching to a relay with the configured transport |
| `Reporter.TelemetryReporter.RetireWsProxies` | cmd/agent/relay.go:174-186 | every peer whose WebSocket proxy has stopped loses relay, proxy and probe; all others are untouched |
| `Reporter.TelemetryReporter.RetireQuicProxies` | cmd/agent/relay.go:187-199 | the same for QUIC proxies, and QUIC is not tried again for those peers |
| `Reporter.TelemetryReporter.CheckPeers` | cmd/agent/relay.go:201-222 | every device peer takes its turn once, whatever the order; the relay is known to be missing once a peer asked in vain, and from then on for all the rest |
| `Reporter.TelemetryReporter.CheckHandshake` | cmd/agent/relay.go:200-223 | the peer's entries become those of the silence check, which `FailoverLive.FallsBackExactly` and `RelayDenied` state from the events; other peers untouched |
| `Reporter.TelemetryReporter.CheckHandshakes` | cmd/agent/relay.go:167-223 | the report tick is one handshake event for every peer at once, on the device or not, and the maps stay where the pasts lead; the relay is known to be missing afterwards exactly when it was before or some silent peer asked for one in vain, and a peer finds it missing only then |
| `Reporter.AfterIsStep` | cmd/agent/relay.go:167-223 | what an event does to a peer's entries does not depend on the history kept beside them |
| `Reporter.TurnIsTick` | cmd/agent/relay.go:167-223 | retiring dead proxies and then probe check and silence check are together the handshake event |
| `Punch.PunchServer.BumpPunchEpoch` | cmd/server/report.go:217-249 | the pair's record becomes the bumped one when budget and cooldown allow, other pairs untouched; the record stays that of the pair's run |
| `Punch.PunchServer.ResetPunchAttempts` | cmd/server/report.go:255-269 | the pair's attempts are cleared, its epoch kept, other pairs untouched; the record stays that of the pair's run |
| `Punch.PunchServer.CoordinatePunches` | cmd/server/report.go:110-161 | the record of every pair of the reporter is what its report lines make of it, pairs without the reporter untouched; a single line about a visible peer raises the epoch exactly when its state is a relay state, the other end is online, both have candidates, not both NATs are hard, and the episode has a bump left and has waited 4 or 8 minutes, and clears the attempts exactly when its state is direct |
| `Punch.PunchServer.CurrentEpoch` | cmd/server/main.go:1376-1385 | both ends of a pair are told the same epoch |
| `Punch.CoordinatedIsRun` | cmd/server/report.go:110-161 | a report takes each pair's record through the events its lines stand for, line by line |
| `Punch.OneLineExactly` | cmd/server/report.go:110-212 | from any record a run can reach, one line about a visible peer raises the epoch by one exactly under the conditions on state, presence, candidates, NATs, budget and wait, gives the attempts back exactly when direct, and otherwise changes nothing |
| `Punch.PunchServer.EveryPairPaced` | cmd/server/report.go:110-269 | in every state of the server the record of every pair is that of a run, so it is paced |
| `Punch.ServerRunOk` | cmd/server/report.go:217-269 | in every run attempts stay at most 3 and each relay episode has at most three bumps, spaced at least 4 and then 8 minutes |
| `Punch.EpochNeverFalls` | cmd/server/report.go:217-269 | the epoch after a prefix of a run is at most the epoch after the run |
| `Punch.RefusedExactly` | cmd/server/report.go:217-249 | an epoch is refused exactly when the episode used up its three, or the last bump is younger than 4 or 8 minutes |
| `Punch.CoordinatedProbesBounded` | cmd/agent/relay.go:289-326 | for server and agents together, epochs of coordinated probes strictly rise on each agent and number at most 3 times (1 + effective resets) |
| `Keys.PairIdSymmetric` | cmd/server/relayws.go:132-141 | two pairs have the same relay id exactly when they are the same unordered pair of keys |
| `Keys.PairKeySymmetric` | internal/psk/psk.go:29-44 | both ends derive the same preshared key, whatever the key derivation |
| `Keys.PairKeysDiffer` | internal/psk/psk.go:29-44 | with an injective key derivation two pairs of keys share a preshared key exactly when they are the same unordered pair |
| `Keys.PairKeyIsOfPair` | internal/psk/psk.go:29-44 | the preshared key is derived from the two keys in their order, smaller first |
| `QuicRelay.FrameRoundTrip` | cmd/agent/relayquic.go:238-265 | parsing an encoded fragment gives it back |
| `QuicRelay.ParseExactly` | cmd/agent/relayquic.go:258-265 | a frame is taken exactly when it has eight bytes, the marker and an index below its count, and what is taken encodes back to it |
| `QuicRelay.SendableExactly` | cmd/agent/relayquic.go:219-235 | exactly the datagrams of 1 to 255000 bytes are sent, in as few 1000-byte parts as hold them |
| `QuicRelay.AdmitsExactly` | cmd/agent/relayquic.go:265-276 | a fragment of a new datagram starts an empty assembly, and costs one other its parts exactly when 64 are under way |
| `QuicRelay.Slice` | cmd/agent/relayquic.go:235-241 | no part of a datagram is empty or longer than the payload size |
| `QuicRelay.FillFrame` | cmd/agent/relayquic.go:236-241 | the frame buffer holds marker, index, count, big-endian id and payload |
| `QuicRelay.UdpToQuic` | cmd/agent/relayquic.go:219-248 | the pump sends exactly the frames of the datagram, none when it is empty or needs more than 255 |
| `QuicRelay.Reassembler.QuicToUdp` | cmd/agent/relayquic.go:250-294 | one turn of the receiving pump leaves the table and writes what the specification says, including eviction from a full table |
| `QuicRuns.ArriveIsReceive` | cmd/agent/relayquic.go:219-294 | an arrival of part k is what the receiver does with the frame the sender made of it |
| `QuicRuns.OnlySentIsWritten` | cmd/agent/relayquic.go:250-294 | under any loss, duplication, reordering and eviction every datagram written out is one that was sent, and the table never exceeds 64 |
| `QuicRuns.DeliveredOnce` | cmd/agent/relayquic.go:250-294 | a datagram whose parts each arrive once without eviction is written exactly once |
| `QuicRuns.JoinSlices` | cmd/agent/relayquic.go:235-288 | joining the slices of a datagram gives the datagram |
| `DeviceSync.SyncPeers` | cmd/agent/sync.go:23-102 | the change list holds exactly one change for every peer that needs one, in any order, and nothing else; `DeviceSync.SyncSettles` says what the changes amount to |
| `DeviceSync.SyncSettles` | cmd/agent/sync.go:23-102 | applied to a device it leaves exactly the desired peers, each with exactly its prefixes, the preshared key and keepalive asked for, the endpoint asked for unless it has completed a handshake, and everything not asked for as it was |
| `DeviceSync.RoutesExactly` | cmd/agent/sync.go:23-102 | after a sync a prefix routes to a peer exactly when that peer is desired with it |
| `DeviceSync.OrderDoesNotMatter` | cmd/agent/sync.go:39-91 | any two orders of the changes give the same device |
| `DeviceSync.SecondSyncEmpty` | cmd/agent/sync.go:63-95 | after a sync a second one changes nothing exactly when no prefix is wanted by two peers or twice by one, and every wish without a preshared key found none on the device |
| `PrefixText.SameAllowedIPs` | cmd/agent/sync.go:130-149 | comparing the sorted, comma-joined texts says whether the lists hold the same prefixes equally often |
| `PrefixText.JoinInjective` | cmd/agent/sync.go:148 | equally long comma-free lists with the same joined text are equal |
| `Links.Conserved` | cmd/agent/telemetry.go:547-599 | accepted, pending, not yet read and lost bytes add up to the bytes counted |
| `Links.NoLossExactly` | cmd/agent/telemetry.go:547-599 | nothing is lost exactly when, at every reading, there was no reset since the one before, or no byte passed before the last reset and what followed adds up to less than that reading showed (or it showed nothing) |
| `Links.ResetCanLose` | cmd/agent/telemetry.go:728-734 | a run where 170 bytes pass and 120 are reported although the second reading is below the first |
| `Links.RunTold` | cmd/agent/telemetry.go:547-599 | counter, last reading, unread bytes and reset flag of the meter are what the events since the last reading and the last reset say |
| `Links.ReadIsCollect` | cmd/agent/telemetry.go:555-599 | reading a peer is the collect step of its two meters, a report their report step |
| `Links.ReadTells` | cmd/agent/telemetry.go:571-599 | the path checks hear of a peer exactly when its received bytes grew; a record waits exactly when there was traffic or a handshake, and carries the latest handshake time |
| `Links.LinkTelemetry.CollectPeer` | cmd/agent/telemetry.go:555-599 | snapshot, pending record and growth flag of the peer become those of the reading, a record being made for a handshake alone too; other peers untouched |
| `Links.LinkTelemetry.CollectLinkCounters` | cmd/agent/telemetry.go:547-599 | every device peer is read once, others are untouched |
| `Links.LinkTelemetry.Send` | cmd/agent/telemetry.go:736-782 | an accepted report carries and empties the pending counters and flows, a rejected one changes nothing |
| `Flows.EndsAgree` | cmd/agent/telemetry.go:709-724 | the two ends name the same client and server exactly when the ports differ or the hosts are the same |
| `Flows.ServerHasLowerPort` | cmd/agent/telemetry.go:702-724 | the branches on ephemeral ports come to this: the server is the end with the lower port, the destination when they tie, and the flow is turned exactly when the source port is lower |
| `Flows.RecordKey` | cmd/agent/telemetry.go:640-675 | a record runs from the client to the server and its service port, with the client's port forgotten |
| `Flows.TurnKeepsDirections` | cmd/agent/telemetry.go:709-724 | orienting a flow keeps the bytes and packets sent in each direction and the service port |
| `Flows.CollectFlows` | cmd/agent/telemetry.go:601-692 | the loop leaves the snapshots and pending records the specification gives |
| `Flows.DirectionsKept` | cmd/agent/telemetry.go:601-692 | collecting adds to the pending bytes and packets of each protocol, direction and service port exactly the deltas of the dumped flows |
| `Capture.CaptureDumper.Account` | cmd/agent/capture_linux.go:110-155 | a packet of this host adds its length and one packet to its flow in its direction; a new flow in a full table first evicts idle ones and is dropped if there is still no room |
| `Capture.AccountedExactly` | cmd/agent/capture_linux.go:110-155 | a new flow is turned away exactly when the table holds 8192 flows and as many were seen in the last five minutes |
| `Capture.CaptureDumper.EvictLocked` | cmd/agent/capture_linux.go:187-193 | exactly the flows idle for more than five minutes go, the others are untouched |
| `Capture.CaptureDumper.Dump` | cmd/agent/capture_linux.go:161-185 | the dump lists the surviving flows once each |
| `Capture.EvictionLosesNothing` | cmd/agent/capture_linux.go:187-193 | when dumps are at most the flow lifetime apart, evicted flows hold no undumped bytes |
| `Capture.ClassifyKeepsDirection` | cmd/agent/capture_linux.go:116-128 | whichever end a packet is keyed by, it counts in the direction and for the service its own addresses and ports give |
| `Capture.OneFlowPerConnection` | cmd/agent/capture_linux.go:116-128 | both directions of a connection with another host count for one flow keyed by this host's end, once as sent and once as received |
| `Capture.CollectDrains` | cmd/agent/telemetry.go:601-692 | a collection adds exactly what was not dumped yet and leaves nothing undumped |
| `Capture.CaptureConserves` | cmd/agent/capture_linux.go:110-193 | with regular dumps and a table that never fills, reported, pending and undumped traffic of each protocol, direction and service port, in bytes and in packets, equals that of the packets by their own addresses and ports |
| `Store.AllocateAddr` | internal/store/store.go:846-881 | the loop finds the first host of the network that no row holds, and fails on an unreadable row |
| `Store.AllocationIsLowest` | internal/store/store.go:846-881 | an allocation is the lowest free host, at most rows + 1 from the network address, and fails only when every host is taken |
| `PeerTable.InsertOk` | internal/store/store.go:598-724 | a new row keeps addresses and keys distinct and references sound |
| `PeerTable.ReEnrollOk` | internal/store/store.go:728-822 | re-enrolling, with or without an IPv6 backfill, keeps the invariants |
| `PeerTable.RemoveOk` | internal/store/admin.go:175-190 | deleting a revoked row and clearing references to it keeps the invariants |
| `PeerTable.UpdateAddressOk` | internal/store/admin.go:192-296 | an address edit keeps addresses distinct |
| `PeerTable.SetExitOk` | internal/store/exit.go:46-132 | an exit assignment makes no chain and no self-exit among active peers |
| `PeerTable.MovedAt` | internal/store/network.go:115-122 | after n final updates the first n rows hold their new hosts and the rest are still parked |
| `PeerTable.MigrateOk` | internal/store/network.go:88-138 | a migration keeps every invariant |
| `StoreRuns.ApplyOk` | internal/store/store.go:598-881 | every transaction, successful or rolled back, keeps the invariants |
| `StoreRuns.EveryRun` | internal/store/store.go:598-881 | after any sequence of transactions IPv4 and IPv6 addresses are pairwise distinct (revoked rows included), keys differ, gateways and exits are agents, no active peer exits through a peer with an exit, none through itself |
| `StoreRuns.EveryAddressHoused` | internal/store/admin.go:254-279 | in every reachable table all addresses are hosts of the current overlay networks, never a network address |
| `StoreRuns.MigrationNeverCollides` | internal/store/network.go:88-138 | the unique indexes hold after every single statement of a migration of any reachable table, onto any network |
| `StoreRuns.NewRowIsLowest` | internal/store/store.go:846-881 | in any reachable table a new row gets the lowest free host of each family, at most rows + 1 from the network address |
| `StoreRuns.InsertFailsWhenFull` | internal/store/store.go:873-880 | adding a row fails exactly when a network has no free host |
| `StoreRuns.InsertExactly` | internal/store/store.go:598-724 | a row is added unless a network is full: with the given key and role, the lowest free host of each family, and no exit node used or offered |
| `StoreRuns.ReEnrollExactly` | internal/store/store.go:728-822 | a returning peer keeps its row, gains the lowest free IPv6 host exactly when it has none and the network has IPv6, and fails exactly when that network is full |
| `StoreRuns.MigrateExactly` | internal/store/network.go:88-138 | a migration succeeds exactly when both networks have a host for every row; then row k of the listing sits at host k + 1 of both and is otherwise as before |
| `StoreRuns.RevokedClientMayChain` | internal/store/exit.go:107-115 | a run of eight transactions after which a revoked peer exits through a peer that has an exit |
| `StoreRuns.ChainFreeExactly` | internal/store/exit.go:46-132 | an assignment keeps the chain rule over all rows, revoked ones included, exactly when it clears or no row at all exits through the peer it is for |
| `StoreRuns.OthersChainFree` | internal/store/admin.go:168-252 | no other transaction makes a chain, revoked rows included |
| `StoreRuns.PeerStore.constructor` | internal/store/store.go:30-75 | a new store is the empty run |
| `StoreRuns.PeerStore.EnrollPeer` | internal/store/store.go:598-724 | an unauthorized or roomless enrollment changes nothing; a new key gets a row at the lowest free hosts; a known key keeps its row and gains an IPv6 host if it lacks one |
| `StoreRuns.PeerStore.ReEnrollPeer` | internal/store/store.go:728-822 | the existing row keeps its address and gains an IPv6 one if it lacks it |
| `StoreRuns.PeerStore.CreateStaticPeer` | internal/store/static.go:37-148 | succeeds exactly when the key is new and not blank, the gateway is an active agent and there is room; then the row is added at the lowest free hosts, else nothing changes |
| `StoreRuns.PeerStore.RevokePeer` | internal/store/admin.go:341-361 | exactly an active row is marked revoked, anything else fails unchanged |
| `StoreRuns.PeerStore.RemovePeer` | internal/store/admin.go:175-190 | exactly a revoked row goes, with the rules that name it and every gateway and exit reference to it; all else stays |
| `StoreRuns.PeerStore.UpdatePeerAddress` | internal/store/admin.go:192-296 | succeeds exactly for an active row and hosts of the networks, in the families the mesh has, that no other row holds; then exactly the addresses change |
| `StoreRuns.PeerStore.SetAdvertiseExitNode` | internal/store/exit.go:20-28 | exactly the offer of the row changes and existing assignments stay |
| `StoreRuns.PeerStore.SetExitNode` | internal/store/exit.go:46-132 | succeeds exactly for an active agent, and where an exit is named, one that is another active agent, offers itself, has no exit, while no active peer exits through the row; then the exit of the row, and nothing else, becomes the one asked for, cleared when none is |
| `StoreRuns.PeerStore.FirstOverlayHosts` | internal/store/network.go:177-191 | host i + 1 of the network for every i below n, or failure exactly when the network is too small |
| `StoreRuns.PeerStore.StagePeers` | internal/store/network.go:104-113 | every row is parked; the tables after each update are returned and the unique indexes hold in every one |
| `StoreRuns.PeerStore.PlacePeers` | internal/store/network.go:115-122 | every parked row gets its new hosts; the tables after each update are returned and the unique indexes hold in every one |
| `StoreRuns.PeerStore.ApplyNetworkMigration` | internal/store/network.go:88-138 | succeeds exactly when both networks are large enough; then row k of the listing sits at host k + 1 of both, else nothing changes; the unique indexes hold after every one of the updates |
| `Payload.BuildPeerEntries` | cmd/server/main.go:1220-1292 | the loops give the entries of the specification, which `Payload.EntryMeans`, `ListsMeans`, `PayloadReaches` and `DefaultsOnlyAtExit` state from the rows |
| `Payload.EntryMeans` | cmd/server/main.go:1220-1292 | an entry carries the pair's preshared key, the epoch on the pair's record or 0, an agent's candidates with the best as endpoint and neither for a static peer, and the configured keepalive or 25, never 0 |
| `Payload.ListsMeans` | cmd/server/main.go:1230-1245 | a row has an entry exactly when it is visible and is an agent, has no gateway, or has self as gateway |
| `Payload.PayloadKeysPrivate` | internal/psk/psk.go:29-44 | entries of any two payloads carry the same preshared key exactly when they are the two ends, or one end, of one pair |
| `Payload.GatewayRoutesFor` | cmd/server/main.go:1297-1305 | the routes are those of the mobiles pinned to self, in order |
| `Payload.PayloadNoRepeat` | cmd/server/main.go:1220-1292 | no prefix occurs twice across all allowed IPs |
| `Payload.AddressesDelivered` | cmd/server/main.go:1220-1292 | a visible peer's address is in the payload exactly unless it is a routed mobile whose gateway is neither self nor visible |
| `Payload.NothingElse` | cmd/server/main.go:1220-1292 | every other route is one of the two defaults |
| `Payload.AddressesAre` | cmd/server/main.go:1387-1394 | a peer is reached at its IPv4 address and, when it has one, at its IPv6 address, and nowhere else |
| `Payload.DefaultsOnlyAtExit` | cmd/server/main.go:1270-1278 | the default routes and the exit mark are in the entry of the assigned exit node and in no other |
| `Payload.EveryPayload` | internal/store/store.go:949-974 | both hold for every peer in every reachable store state |
| `Payload.VisibilityMutual` | internal/store/store.go:900-945 | of two active agents each sees the other or neither does, across default policy, wildcard rules and exit pairings |
| `Payload.DataPathVisible` | internal/store/store.go:895-945 | under any policy a gateway sees its active mobiles, and an active client and its active exit node see each other |
| `Payload.PayloadReaches` | internal/store/store.go:895-945 | in every reachable store state a payload carries an address of another active peer exactly when the policy allows all, the data path ties the two, or a rule has each end open or on one of them, and the same of its gateway where a third agent routes it |
| `Payload.DenyIsolates` | internal/store/store.go:900-945 | under default-deny and without a rule covering both, a payload carries an address of another active peer exactly when that peer is self's routed mobile, exit client or exit node, in every reachable store state |
| `Payload.PairAgrees` | cmd/server/main.go:1220-1292 | each is in the other's payload or neither is, with equal preshared key and equal punch epoch |
| `EndToEnd.PayloadAdmissible` | cmd/server/main.go:1220-1292 | every payload is a wish list the device sync is proved for: one entry per key, no prefix wanted twice |
| `EndToEnd.DeviceMatches` | cmd/agent/sync.go:23-102 | after a sync each listed peer is on the device with its preshared key and keepalive, aimed at its best candidate unless it has completed a handshake, and every one of its prefixes routes to it |
| `EndToEnd.DeviceHasOnly` | cmd/agent/sync.go:23-102 | after a sync the device has exactly the peers the payload lists |
| `EndToEnd.OverlayReaches` | cmd/server/main.go:1205-1219 | after a sync the route of any visible peer's overlay address leads to that peer, or to its gateway when it is a mobile routed by another agent |
| `EndToEnd.RoutedExactly` | cmd/agent/sync.go:23-102 | after a sync a prefix routes to a key exactly when the payload's entry for that key lists it |
| `EndToEnd.InternetGoesToExit` | cmd/server/main.go:1270-1278 | after a sync the default routes lead to the active exit node under any policy, and there are none without one |
| `EndToEnd.ClearedExitRoutesNothing` | internal/store/exit.go:117-132 | once an agent's exit node is cleared, its device has no default route after the next sync |
| `EndToEnd.ChosenExitRoutes` | internal/store/exit.go:46-132 | once an exit node is set, both default routes lead to it after the next sync |
| `EndToEnd.TrafficToPeer` | cmd/server/main.go:1205-1219 | by longest prefix, a packet for a visible peer's overlay address leaves for that peer or its gateway and for no one else, also when an exit node is set |
| `EndToEnd.TrafficElsewhere` | cmd/server/main.go:1270-1278 | a packet for any other address leaves for the active exit node, and for no one without one |
| `EndToEnd.DevicesAgree` | internal/psk/psk.go:29-44 | two active agents that both synced have each other as peers or neither does, with one preshared key |
| `EndToEnd.DeviceKeysPrivate` | internal/psk/psk.go:29-44 | the devices of one mesh hold the same preshared key for a peer exactly when they are the two ends, or one end, of one pair |
| `UdpRelay.LatchedIsLastNamed` | internal/relay/relay.go:299-338 | on each leg the latched address is the source of the last WireGuard-shaped datagram that was the first or not transport data |
| `UdpRelay.ForwardedExactly` | internal/relay/relay.go:299-338 | a datagram goes on exactly when it is shaped, comes from its leg's address and the other leg has one; it goes there and nowhere else |
| `UdpRelay.ActiveIsLastAccepted` | internal/relay/relay.go:307-337 | a session's activity is the time of its last datagram from a latched address, or of its opening |
| `UdpRelay.ShapesOf` | internal/relay/relay.go:257-286 | the lengths and types that pass for WireGuard |
| `UdpRelay.StrangersIgnored` | internal/relay/relay.go:314-325 | unshaped datagrams and data from an unknown source change nothing and go nowhere |
| `UdpRelay.OfferIsHandedLeg` | cmd/server/relay.go:199-204 | the two peers hold opposite legs, the smaller key the first, and the address offered for p is the one latched on the port p was handed |
| `UdpRelay.PortsExclusive` | internal/relay/relay.go:126-178 | live sessions never share a port, and the bound ports are exactly theirs |
| `UdpRelay.RelayServer.constructor` | internal/relay/relay.go:85-107 | a new relay has no session and no bound port |
| `UdpRelay.RelayServer.ListenUdp` | internal/relay/relay.go:126-144 | the lowest free port of the range is bound, or the one the system picks |
| `UdpRelay.RelayServer.Allocate` | internal/relay/relay.go:148-178 | idempotent per live session; with a range it fails exactly when fewer than two ports are free, and then changes nothing; asking marks the session used; what other sessions heard is kept |
| `UdpRelay.RelayServer.Forward` | internal/relay/relay.go:307-337 | a datagram from its leg's address goes to the address the other leg last named and marks the session used; any other goes nowhere and marks nothing |
| `UdpRelay.RelayServer.Observed` | internal/relay/relay.go:186-203 | the addresses of a live session are the last named sources of its legs |
| `UdpRelay.RelayServer.Cleanup` | internal/relay/relay.go:205-232 | exactly the sessions neither asked for nor carrying a datagram that counted for more than ten minutes end, and their ports are free again |
| `Candidates.SortIsStable` | cmd/server/main.go:1104-1112 | the sort falls in priority, keeps every candidate and the order of ties |
| `Candidates.StableSortUnique` | cmd/server/main.go:1105 | no other list is a stable descending sort |
| `Candidates.SortCandidates` | cmd/server/main.go:1104-1112 | the result is the stable sort cut to six |
| `Candidates.EndpointCandidates` | cmd/server/main.go:999-1100 | the passes offer, skip blanks and repeats, sort and cut as the specification says |
| `Candidates.EveryListGood` | cmd/server/main.go:999-1112 | every list is free of repeated endpoints, falling in priority and at most six long |
| `Candidates.DiscoveredLast` | cmd/server/main.go:1019-1056 | behind one NAT the discovered public addresses (STUN, UPnP) come after every other path |
| `Candidates.PinnedFirst` | cmd/server/main.go:1057-1068 | across NATs an operator-pinned endpoint comes before every other |
| `Candidates.KindsInOrder` | cmd/server/main.go:999-1100 | every list follows the order stun6, host, lan, host6, pinned, stun, upnp behind one NAT, and pinned, stun6, upnp, host, stun, host6, lan across NATs |
| `Candidates.CandidatesExactly` | cmd/server/main.go:999-1100 | before the cut an address is a candidate exactly when it is the public or LAN address or was reported and is not a private one of another subnet, in both cases alike |
| `Candidates.AppendThenTop` | cmd/server/main.go:1193-1195 | appending to the cut list and cutting again equals one sort-and-cut of everything |
| `Candidates.ObservedExactly` | cmd/server/main.go:1159-1196 | adding the observed candidate to the cut list is as good as gathering it with the others exactly when its endpoint was not gathered, made the cut, or ranks too low |
| `Candidates.ObservedDiffers` | cmd/server/main.go:1182-1186 | for a peer across NATs with one candidate of each kind, the LAN address is cut as seventh and comes back when the relay observes the peer at it |
| `Candidates.PairCandidates` | cmd/server/main.go:1159-1196 | the list gains the address last named on the leg the peer was handed, unless it is loopback or listed, and stays good |
| `Uapi.BuildIpcSet` | cmd/agent/wgbackend.go:43-97 | the builder writes the text of the specification |
| `Uapi.ParseUapi` | cmd/agent/wgbackend.go:103-173 | the loop gives the device of the specification, or the error of the first bad line |
| `Uapi.PrintHasNoBlankLine` | cmd/agent/wgbackend.go:43-97 | printed text never contains a blank line |
| `Uapi.ParseOfPrint` | cmd/agent/wgbackend.go:43-242 | parsing printed text succeeds with the same device fields and the peers in order, removed peers bare and keepalives as printed in seconds |
| `Uapi.PeerRoundTripsExactly` | cmd/agent/wgbackend.go:43-242 | a peer comes back unchanged exactly when it is not removed and its keepalive is in whole seconds, or it is removed with nothing else to say |
| `Uapi.PeerSaysExactly` | cmd/agent/wgbackend.go:60-93 | the lines of a peer set a field exactly when its entry asks for it: a removal sets nothing else, any other entry its update-only and replace-routes flags, key, endpoint, keepalive and routes |
| `Uapi.DeviceSaysExactly` | cmd/agent/wgbackend.go:46-59 | the device lines set a field exactly when the configuration has it, and ask to replace all peers exactly when it does |
| `Uapi.FailureSticks` | cmd/agent/wgbackend.go:103-173 | a line that does not parse fails the whole text |
| `UapiGet.ParseOfReport` | cmd/agent/wgbackend.go:99-242 | the report of any device, with handshake times and byte counters, parses back to that device; a peer that never had a handshake has none |
| `UapiText.HexRoundTrip` | cmd/agent/wgbackend.go:245-257 | hexadecimal keys read back as they were |
| `UapiText.DecimalRoundTrip` | cmd/agent/wgbackend.go:50-84 | 64-bit decimals read back as they were |
| `LogTail.EachLineOnce` | cmd/agent/proxytail.go:56-120 | over any polls, missing and rotated files included, the lines given since the follower last positioned itself are exactly the non-empty complete lines after that position, in order and once each, behind those given before |
| `LogTail.OneStretch` | cmd/agent/proxytail.go:56-88 | for a log that only grows the position is the size it had at the first poll |
| `LogTail.ProxyTailer.Delivers` | cmd/agent/proxytail.go:56-173 | after any polls and drains, drained events followed by the queue are the recognized lines logged, in order, less overflowed oldest ones, each with 2000 behind it |
| `LogTail.QueueMeans` | cmd/agent/proxytail.go:148-173 | drained followed by queued is everything accepted less overflowed events |
| `LogTail.PushOk` | cmd/agent/proxytail.go:148-153 | accepting an event keeps the queue within 2000 and drops at most the oldest, which has 2000 accepted behind it |
| `LogTail.PushedExactly` | cmd/agent/proxytail.go:148-153 | the queue holds 2000 events, and one more drops the oldest |
| `LogTail.DrainOk` | cmd/agent/proxytail.go:157-173 | draining moves the oldest events out in order |
| `LogTail.ProxyTailer.constructor` | cmd/agent/proxytail.go:49-54 | a new follower is not positioned and its queue is empty |
| `LogTail.ProxyTailer.Ingest` | cmd/agent/proxytail.go:122-154 | over-long and unrecognizable lines are skipped, others join the queue within the bound, all accounted for |
| `LogTail.ProxyTailer.Drain` | cmd/agent/proxytail.go:157-173 | up to max oldest events are returned and removed |
| `LogTail.ProxyTailer.ReadNew` | cmd/agent/proxytail.go:93-120 | the complete lines are ingested, the offset stops after the last newline, every recognized line is drained, queued or overflowed |
| `LogTail.ProxyTailer.PollFile` | cmd/agent/proxytail.go:56-88 | a poll positions, rewinds, waits or reads as the run of all looks so far says, and no accepted event is lost on the way |

## Left out

- HTTP handlers, JSON, WebSocket and QUIC dialing, TLS, ACME and the PROXY protocol: plumbing over libraries.
- SQL text, driver behaviour and schema migrations: tables and transactions are modelled, a transaction is atomic.
- Setup keys: whether a key is accepted is an input of an enrollment; counting its uses would only add easy members.
- Hostnames, tokens, listen ports and observed addresses of a row: they take part in no property here.
- Enrollment responses: they are built from rows without the exit and gateway columns, so payload results are for the report path.
- iptables, netlink, resolver and firewall programming: effects of foreign commands.
- STUN, UPnP and NAT-PMP discovery: their results are inputs.
- HKDF, SHA-256 and other cryptography: the key derivation is an arbitrary function, taken as injective only where keys of different pairs are told apart; the pair id is taken as injective.
- Address and CIDR text: endpoints and prefixes are tokens with reversible, newline-free and comma-free printing.
- A ConfigureDevice call that fails half-way: a sync is stated for a call that succeeds.
- Reports stored and then answered with an error: acceptance and storage are one outcome.
- Packet decoding in the capture (parseFlowTuple): a captured packet arrives as its flow and length.
- `DeviceSync.SyncSettles`: the wish list is taken as plain additions, which is what payload entries become (`EndToEnd.PayloadAdmissible`).
- `Uapi.BuildIpcSet`: a keepalive's seconds go through float64 in the source; here they are any whole number less than a second away, exact below 2^24 seconds.
- `Candidates.EndpointCandidates`: whether an address shares a /24 with self is an input.
- `UdpRelay.RelayServer.Forward`: the two forwarding loops interleave between datagrams, not within one.
- `LogTail.ProxyTailer.ReadNew`: a file that shrinks between the size check and the read is not modelled.
- `LogTail.EachLineOnce`: a rotation in place to a file at least as long as what was read cannot be told from an append.
- Proxy events of a rejected report: the source drops them, here draining is where the log property ends.
- WebSocket hub, signal hub, access-log and log rings, DNS normalization, web and Windows interfaces: easy members.
