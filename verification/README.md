# Inari agent: a verified model of its stateful core

The Inari agent runs inside a tenant cluster and dials out to a control plane. It keeps a catalogue of cluster
capabilities in step with a gateway, executes commands that are delivered at least once, and relays proxied
requests through a tunnel. This project models the four parts of the agent that carry state over time and proves
what they promise for every input, every run and every interleaving of their goroutines.

`dafny verify dfyconfig.toml` checks everything.

## How the model is built

* **Capabilities.** `Inventory`, `Splitter`, `Checksum`, `Snapshot`, `Sync`, `Overtaking` and `Aggregator`. The
  aggregator is a class whose snapshot and digest cache are updated in place; its batching loop takes the outcome of each select as
  a script, so a theorem about every script is one about every timing. `Sync` holds a gateway that folds the
  updates with the same upsert/delete rule and deletes missing entries only on an empty full-sync update, and
  `Overtaking` lets a replay interleave with the batches, since two goroutines send them.
* **Commands.** `Journal` has an API server with resource versions, an append-only log of writes, other
  writers who may act before every call, and lost requests or responses. `Dispatcher` is the class and, beside it,
  runs of deliveries, crashes, restarts and foreign writes. Crashing in the middle of a delivery is a delivery that
  is refused (its handler may have run, its record may have landed) followed by a crash.
* **Sessions.** `Backoff`, `Rotation`, `Readiness`, `SendQueue`, `Clients` and `Lifecycle`. The callback that
  `Lifecycle` delivers reaches the readiness tracker and the command gate in two separate steps, with commands,
  crashes and restarts interleaved.
* **Tunnel.** `ByteMeter`, `ConnWriter`, `Connection`, `Registry`, `History`, `Fates`, `Handler` and `Schedules`.
  `Connection` is a step machine in which each next action of the connection's goroutine, of its inbound pump and of
  the outside world is a step; `Registry` puts any number of them under one registry, with every lookup and the action
  it leads to as separate steps. `History` tells from the actions alone what a connection must have become, and `Fates`
  proves that under every schedule it has. `Handler` has the same operations in their imperative form, with the pump's
  read buffer as an array, and `Schedules` proves that its two loops, each with the other pump charging the same
  counter in between, are schedules of the step machine.

SHA-256, protobuf and JSON are function parameters, with only JSON's round trip assumed. Clocks, random draws,
network outcomes and schedules are parameters. In the step machines any sequence of steps is a schedule and a step that
is not possible does nothing, so "for every sequence" covers every interleaving.

## Results worth knowing

* Greedy splitting is optimal: no order-preserving split with the same chunk rule uses fewer chunks.
* The digest cache stays exact except after one kind of event, an upsert that cannot be marshalled over an entry
  that could: its old digest stays behind (`Snapshot.CacheExactness`, an equivalence).
* A name-only DELETE also removes entries of that kind whose *group* equals the name. It is the documented
  kind-and-name deletion exactly when no other entry has that group (`Snapshot.DeletesByKindAndName`).
* A replay is promised to leave the gateway with the agent's entries. Amid batches it does so if and only if no entry
  that later batches leave alone was new to the copy (the terminal update drops it) or listed by a chunk sent after
  the batch that deleted or replaced it (the chunk brings it back) (`Overtaking.ReplayAmidBatches`).
* The terminal update carries the checksum of the copy, and dropping an overtaking entry leaves the gateway with
  just the copy: the checksums match when the entry was lost (`Overtaking.DroppedEntriesGoUnnoticed`).
* A failed journal write is not retried: the next delivery is answered from memory, so an acknowledged command can
  be absent from the journal (`Dispatcher.LostRecordIsNeverRetried`). Among no other writers and below the bound, an
  answer is durable if and only if it was loaded at start or its Record's first read was served and its first write
  request reached the server, whatever was replied then (`Dispatcher.DurableExactlyWhenRecorded`).
* The state checksum tells any change of an entry apart, but keys and digests are hashed without separators, so
  states of different entries can share one (`Snapshot.ChecksumDetectsChange`, `Checksum.DifferentKeysMayCollide`).
* The 45s cache margin works because it exceeds the 30s rotation margin, and any margin that does not exceed it
  fails for some token (`Rotation.CacheMarginMustExceedRotationMargin`).
* The byte cap holds under every schedule exactly when the cap plus one longest charge of each pump stays below
  2^63 (`ByteMeter.CapHoldsExactlyWithHeadroom`).
* The readiness probe is exact exactly when the last disconnect is no later than any other of the same outage, which
  the client guarantees by firing its callback on real transitions only (`Readiness.ProbeIsExactWhen`).

## Model

| member | source | states |
|---|---|---|
| Splitter.SplitByByteBudget | internal/capability/aggregate.go:29-50 | the chunks concatenate to the input, are non-empty, fit the budget (2 MiB where none is set) or hold one oversize member, and are the fewest of any such order-preserving split |
| Splitter.SplitIsMinimal | internal/capability/aggregate.go:25-28 | from any position on, the greedy split needs no more chunks than any other admissible split |
| Splitter.SuffixNeedsNoMore | internal/capability/aggregate.go:36-45 | starting the greedy split later never costs more chunks |
| Checksum.SortedListingUnique | internal/capability/checksum.go:51 | a set of keys has only one sorted listing, so sorting removes map iteration order |
| Checksum.LessIsLexicographic | internal/capability/checksum.go:51 | the sort order is decided at the first difference, a proper prefix coming first |
| Checksum.ChecksumDigests | internal/capability/checksum.go:46-58 | the checksum is a function of the digest map alone, whatever order the map is ranged over |
| Checksum.StateChecksum | internal/capability/checksum.go:16-29 | recomputation skips nil and unmarshallable entries, lets later entries win, and combines the result the same way |
| Checksum.LaterEntriesWin | internal/capability/checksum.go:16-29 | recomputation knows exactly the keys some present, marshallable entry digests under, and the last such entry wins |
| Checksum.ChecksumTellsApart | internal/capability/checksum.go:46-58 | two digest maps of the same keys have the same checksum if and only if all digests agree, as long as the hash does not collide on them |
| Checksum.DifferentKeysMayCollide | internal/capability/checksum.go:53-56 | two entries, and one entry whose key spells out the first one's key and digest and the second one's key, have the same checksum |
| Snapshot.CacheExactness | internal/capability/aggregate.go:184-207 | the digest cache stays exact over an event if and only if it is not an undigestible upsert over a digested entry |
| Snapshot.RunKeepsWellKeyed | internal/capability/aggregate.go:184-207 | over every sequence of events keys stay their values' keys, digests stay within the snapshot, and the snapshot is the fold of the events |
| Snapshot.CacheStaysExactIff | internal/capability/aggregate.go:184-207 | over every sequence of events the digest cache is exact at every moment if and only if no undigestible upsert meets a digested entry |
| Snapshot.ListDigestsOf | internal/capability/checksum.go:16-29 | recomputing over a listing digests exactly the listed entries |
| Snapshot.IncrementalChecksumIsExact | internal/capability/aggregate.go:94-101 | after every sequence of events that does not spoil the cache the incremental checksum equals the recomputed one over the snapshot listed in any order |
| Snapshot.ChecksumDetectsChange | internal/capability/checksum.go:31-58 | two snapshots of the same keys have the same checksum if and only if every entry marshals alike, as long as the hashes do not collide on them |
| Snapshot.NameOnlyDelete | internal/capability/aggregate.go:188-201 | with slash-free parts a name-only DELETE removes from snapshot and digests precisely the kind's entries whose name or group is the name |
| Snapshot.DeletesByKindAndName | internal/capability/aggregate.go:181-183 | it removes exactly the kind-and-name matches if and only if no other entry of the kind has the name as its group |
| Snapshot.DelimitedRun | internal/capability/aggregate.go:192-195 | a slash-delimited name inside a key is one of the key's two inner parts |
| Aggregator.Aggregator.ApplyEvent | internal/capability/aggregate.go:184-207 | the in-place update, loop over the snapshot included, equals the specified event function |
| Aggregator.Aggregator.SendChunks | internal/capability/aggregate.go:240-245 | chunks are sent in order until one is refused, and the refusal is reported |
| Aggregator.Aggregator.ReplayFullState | internal/capability/aggregate.go:219-233 | sends chunks of a listing of the snapshot and then the terminal update, as far as the client accepts, and reports completion |
| Aggregator.Aggregator.Drain | internal/capability/aggregate.go:154-173 | a batch is the arrivals up to its size limit, the window or the end of input, each applied; only a cancellation abandons it |
| Aggregator.Aggregator.Run | internal/capability/aggregate.go:143-178 | for every order of arrivals, window ends, closure and cancellation: arrivals are applied in order, grouped into batches within the limit, the batches' updates sent as far as accepted, and only a cancellation leaves arrivals unsent |
| Aggregator.AccountBatch | internal/capability/aggregate.go:174-176 | one more batch abandoned on cancellation, sent in full, or refused part-way keeps the account of state, batches and sent updates |
| Sync.ReceiveChunks | internal/capability/aggregate.go:235-246 | non-empty chunks fold at the receiver like their concatenation |
| Sync.ReceiverTracksSnapshot | internal/capability/aggregate.go:143-207 | for every batching and splitting, a receiver holds exactly the aggregator's snapshot after the last chunk of each batch |
| Sync.ChunkChecksumsDescribeReceiver | internal/capability/aggregate.go:235-246 | every chunk of a batch carries the checksum the receiver recomputes over its own catalogue after that batch |
| Sync.ReplayInstallsSnapshot | internal/capability/aggregate.go:209-233 | a completed replay leaves the receiver with exactly the copied snapshot, whatever it held before |
| Sync.ReplayChecksumsDescribeCopy | internal/capability/aggregate.go:226-232 | every update of a replay carries the checksum recomputed over the copied snapshot, listed in any order |
| Sync.AbortedReplayLosesNothing | internal/capability/aggregate.go:214-218 | a replay cut off anywhere has refreshed the entries it sent and removed none |
| Sync.TerminalsAreCompletedReplays | internal/capability/aggregate.go:227-274 | however a run of batches and any number of replays cut off anywhere interleave, the empty full-sync updates are exactly the completed replays |
| Overtaking.SurvivesTerminalIff | internal/capability/aggregate.go:214-218 | whatever interleaved before it, an entry survives the terminal update, with its value, if and only if the replay listed it and the catalogue held it |
| Overtaking.EntryAfterReplay | internal/capability/aggregate.go:209-233 | entry by entry, after a replay amid incremental updates: unlisted entries are gone, entries whose chunk came last are as in the copy, all others are up to date |
| Overtaking.ReplayAmidBatches | internal/controller/agent_controller.go:340-343 | for every interleaving of a replay with a run of batches the gateway ends with exactly the aggregator's snapshot if and only if no entry the rest of the run leaves alone was new to the copy or listed by a chunk that came too late |
| Overtaking.LateChunksUndoBatch | internal/capability/aggregate.go:220-231 | chunks sent after a batch that followed the copy undo all of it: deleted entries come back, replaced ones revert, added ones go |
| Overtaking.CopyIsInstalledIff | internal/capability/aggregate.go:214-218 | the terminal update leaves just the copy if and only if listed entries updated after their chunk were left as listed |
| Overtaking.DroppedEntriesGoUnnoticed | internal/capability/aggregate.go:226-232 | when the interleaved updates are about unlisted entries, the gateway recomputes the terminal update's own checksum although every entry they left is missing |
| Overtaking.Refold | internal/capability/aggregate.go:154-176 | events already in the copy, sent after it, change nothing |
| Journal.ApiServer.Update | internal/command/journal.go:97-102 | a write happens only over the very version that was read: just when the request arrives and nobody wrote since |
| Journal.ConfigMapJournal.Evict | internal/command/journal.go:88-96 | keeps the own entry and min(n, 1000) entries, all unchanged, for every iteration order |
| Journal.ConfigMapJournal.Record | internal/command/journal.go:62-106 | against every schedule of other writers and lost requests or responses: every write it makes adds its entry to the very contents it replaced, evicted to the bound; all other writes are the others'; success means the last write is its own; three attempts absorb every race that spares the last; and without other writers the schedule alone decides whether a write lands and whether it succeeds |
| Journal.ConfigMapJournal.Load | internal/command/journal.go:34-51 | returns every entry decoded, nothing when the object is missing, and with a served request fails if and only if some entry does not decode |
| Journal.BelowBoundNothingIsLost | internal/command/journal.go:53-58 | up to the bound every other writer's entry survives a Record |
| Journal.EvictionCount | internal/command/journal.go:89-96 | above the bound exactly the excess is evicted and never the recorded entry |
| Journal.OwnWritesLoseOnlyByEviction | internal/command/journal.go:53-96 | of all the writes of a Record, one loses another writer's entry only by eviction, when it leaves exactly 1000 entries, and never alters one |
| Journal.AloneOnlyAdds | internal/command/journal.go:67-106 | without other writers and below the bound the contents afterwards are those before, with the entry added once a write landed |
| Dispatcher.Dispatcher.HandleEvent | internal/command/dispatcher.go:86-141 | one delivery does to the process, the journal and the reply exactly what the delivery relation allows, in which the journal changes only as Record may change it |
| Dispatcher.Dispatcher.AttachJournal | internal/command/dispatcher.go:62-76 | loads the journal's acks without overriding known ones, or changes nothing when loading fails, which it does exactly when some entry does not decode or the request is lost |
| Dispatcher.CompletesAtMostOnce | internal/command/dispatcher.go:26-30 | in every run, within one process lifetime a command's handler completes without error at most once |
| Dispatcher.UnseenCommandIsExecuted | internal/command/dispatcher.go:106-141 | an unseen command at a connected process runs its handler, registered by kind or type name, once; an error leaves nothing behind; otherwise the handler's ack, or "accepted" where there is none, is remembered |
| Dispatcher.HandlersRunExactlyWhenDue | internal/command/dispatcher.go:95-125 | in every run a handler has run exactly once for each delivery of its unseen id to the connected process, and completed for each of those without error |
| Dispatcher.TransientFailureIsRetried | internal/command/dispatcher.go:123-125 | after a handler erred, the next delivery of its id to the connected process, whatever happened in between, runs it again |
| Dispatcher.MalformedIsRefused | internal/command/dispatcher.go:87-93 | an event without a decodable, non-empty command id is refused and changes nothing |
| Dispatcher.AnsweredIsRecorded | internal/command/dispatcher.go:130-141 | executing and answering a command means its ack is durable and remembered |
| Dispatcher.MemorySurvives | internal/command/dispatcher.go:60-76 | a remembered ack is remembered by every process, across crashes and restarts, as long as each restart still finds it in the journal |
| Dispatcher.RedeliveryIsAnswered | internal/command/dispatcher.go:95-100 | every later delivery of an executed and answered id changes nothing and returns the recorded ack, provided each restart in between still found its entry |
| Dispatcher.LostRecordIsNeverRetried | internal/command/dispatcher.go:130-138 | when no write of a Record reaches the server, the delivery is refused, the next one is answered with the ack, and the journal is as it was |
| Dispatcher.DeliverTwiceLosingTheRecord | internal/command/dispatcher.go:95-138 | the same through two calls of HandleEvent, ending with an answer whose ack the journal does not hold |
| Dispatcher.DurableExactlyWhenRecorded | internal/command/dispatcher.go:60-138 | in every run without other writers and below the bound, what a process remembers is durable if and only if it was loaded at start or its Record got a write through |
| Dispatcher.AnswersAreDurableExactlyWhen | internal/command/dispatcher.go:95-141 | the same for every answer given |
| Backoff.DelayClosedForm | internal/stream/client_connect.go:282-296 | after k failures the delay is min(Max, Initial times m to the k), with m = 2 where no multiplier and five minutes where no maximum is set, only the first delay being uncapped |
| Backoff.DelaysScale | internal/stream/client_connect.go:282-296 | with any multiplier above one a delay is the previous one scaled, to the nanosecond, or the maximum |
| Backoff.JitterBounds | internal/stream/client_connect.go:276-280 | a wait lies between half of the delay and all of it |
| Backoff.JitterReaches | internal/stream/client_connect.go:276-280 | every wait from half of the delay up to all of it can be drawn |
| Backoff.WaitsAreJitteredPowers | internal/tunnelagent/client.go:97-103 | every wait after a failure is within half and all of min(Max, Initial times m to the k), k counting the failures since the start or the last rotation; no initial interval means one second doubling up to five minutes |
| Clients.ConnectClient.SetConnected | internal/stream/client_connect.go:201-210 | the callback fires only on real transitions and keeps gate, tracker and alternation in step |
| Clients.ConnectClient.Run | internal/stream/client_connect.go:225-274 | sessions are served until one meets shutdown, the delivered transitions are up and down of each established one, and waits follow the policy with a reset at each rotation |
| Clients.EverySessionIsDelivered | internal/stream/client_connect.go:201-239 | every established session is told as it came up and as it went down, in order, and no other session is |
| Clients.TunnelClient.Run | internal/tunnelagent/client.go:67-105 | the tunnel client serves and waits by the same policy |
| Rotation.TimerBounds | internal/stream/client_connect.go:367-376 | the rotation timer is never negative, never after expiry, and at least three quarters of a live token's remaining life |
| Rotation.LifeLeftAtRotation | internal/tunnelagent/client.go:188-195 | when the timer fires a quarter of the token's life is left, but no more than 30s |
| Rotation.CacheMarginMustExceedRotationMargin | internal/stream/token_oauth2.go:56-61 | a cache margin forces a new exchange after every rotation if and only if it exceeds 30s |
| Rotation.OAuth2TokenSource.TokenWithExpiry | internal/stream/token_oauth2.go:36-67 | reuses the cached token while it has 45s left, otherwise exchanges, keeping the cache on failure |
| Rotation.RotationForcesExchange | internal/stream/token_oauth2.go:53-61 | in every run no session after a rotation reuses the rotated session's token |
| Rotation.ExchangesOnlyWhenDue | internal/stream/token_oauth2.go:36-67 | a cached token with 45s left is reused without an exchange; otherwise the grant is used and cached, or its failure leaves the cache alone |
| Rotation.TokenServesUntilTheMargin | internal/stream/token_oauth2.go:53-61 | in every run a token serves all sessions that ask while it has 45s left, without an exchange |
| Readiness.StreamTracker.Check | internal/health/health.go:45-54 | fails exactly when armed, disconnected, and the last disconnect is at least the grace period ago |
| Readiness.ProbeIsExactWhen | internal/health/health.go:33-54 | the probe equals "down without a break for the grace period" at all times if and only if no earlier disconnect belongs to the outage |
| Lifecycle.FailsClosed | internal/command/dispatcher.go:95-104 | in every run, while the gate's last transition is a disconnect or there is none, an unrecorded command is refused and changes nothing and a recorded one is answered |
| Lifecycle.DeliveredTransitionsAlternate | internal/controller/agent_controller.go:160-203 | in every run the transitions delivered to the gate alternate starting with connect, and the gate follows the last |
| Lifecycle.GateFollowsTheClient | internal/controller/agent_controller.go:160-203 | in every run, between callbacks, gate and tracker are up exactly when the client last reported its session established, and during one the tracker is told first |
| Lifecycle.ReadyzReportsOutages | internal/controller/agent_controller.go:165-176 | in every run the probe fails exactly when the delivered transitions show an unbroken outage of at least the grace period |
| SendQueue.EveryEventIsInOnePlace | internal/stream/client_connect.go:445-460 | under every schedule each accepted event is queued, in one pump's hand, once on one wire, or the single event its pump failed to send |
| SendQueue.NoSendIsLost | internal/stream/client_connect.go:169-185 | under every schedule each event stamped by Send is in its sender's hand, accepted at exactly one position of the queue, or given up, and only one of these |
| SendQueue.EveryActionCounts | internal/stream/client_connect.go:400-460 | under every schedule the queue has accepted every send that got a slot and every pong that found room, and what left it is what pumps took |
| SendQueue.WiresCarryWhatWasSent | internal/stream/client_connect.go:445-460 | under every schedule a pump's wire carries exactly what its stream took, and the pump is over exactly when a send failed or its session ended |
| SendQueue.WiresFollowQueueOrder | internal/stream/client_connect.go:169-185 | each wire follows queue order and no stamped number appears twice on the wires |
| SendQueue.OnlySendsConsumeNumbers | internal/stream/client_connect.go:415-439 | under every schedule the counter is the number of Sends, the event numbered n is the n-th stamped one, and unnumbered events are pongs |
| ByteMeter.ChargeKeepsCap | internal/tunnelagent/handler.go:309-325 | with headroom a charge keeps the cap, and after one refusal every later charge is refused |
| ByteMeter.CapHoldsExactlyWithHeadroom | internal/tunnelagent/handler.go:316-318 | over every schedule of charges the cap holds if and only if one longest charge of each pump fits below 2^63 above it |
| ByteMeter.WhatFitsIsGranted | internal/tunnelagent/handler.go:309-325 | charges that fit the cap together are all granted, in any order, to the byte and to the side |
| ConnWriter.ConnWriter.Write | internal/tunnelagent/handler.go:359-363 | appends exactly what the current target takes and reports a short write, and a closed pipe takes nothing |
| ConnWriter.ConnWriter.UpgradeTo | internal/tunnelagent/handler.go:367-372 | closes the pipe if there is one, switches the target to the socket, and moves no byte |
| ConnWriter.ConnWriter.HalfClose | internal/tunnelagent/handler.go:376-397 | the pipe is closed afterwards, once in all, no byte moves, and the socket is shut down only after the switch |
| Connection.StepKeepsConn | internal/tunnelagent/handler.go:175-325 | every action of either goroutine and of the outside keeps the connection's invariant |
| Connection.RefusalIsFinal | internal/tunnelagent/handler.go:311-325 | after a refused charge no action is granted bytes and no refusal is repeated |
| Registry.RunInvariant | internal/tunnelagent/handler.go:81-171 | every schedule keeps the registry exact, frames routed to their id, and every connection's invariant |
| Registry.RegistryFindsTheLiveConnection | internal/tunnelagent/handler.go:104-129 | under every schedule an id is registered to a connection if and only if that is the live connection of the id |
| Registry.FramesReachTheirConnection | internal/tunnelagent/handler.go:131-151 | a frame is only ever queued on a connection of the id it was addressed to |
| Registry.EndingRemovesOnlyItself | internal/tunnelagent/handler.go:165-171 | the delete by id of an ending connection removes its own entry and no other, before its done channel is closed |
| Registry.OpenNeverDisturbs | internal/tunnelagent/handler.go:104-127 | an open changes something if and only if no connection of its id is live, and never touches an existing one |
| Registry.ResetOutlastsTheOldConnections | internal/tunnelagent/handler.go:81-95 | once every connection registered at the reset has closed its done channel, whatever is registered was opened since |
| Registry.InboundBytesAreAPrefix | internal/tunnelagent/handler.go:240-266 | the bytes at the first target and then the socket are a prefix of the accepted frames, with at most one switch and one pipe close |
| Registry.NothingIsWrittenAfterHalfClose | internal/tunnelagent/handler.go:240-266 | under every schedule the bytes written are a prefix of the accepted frames up to and including the first half-close |
| Registry.CapHoldsOnEveryConnection | internal/tunnelagent/handler.go:240-325 | in every interleaving of the pumps, bytes written plus bytes framed stay within the cap |
| Registry.EndedConnectionsToldTheirStory | internal/tunnelagent/handler.go:198-235 | an ended connection emitted a failed open, or a result, frames and at most one final Close; frames are sized, charged, a prefix of the body, and all of it on "complete" |
| Fates.ConnectionsCloseForTheirReason | internal/tunnelagent/handler.go:198-235 | under every schedule: a refused dial is an open failure; otherwise "complete" is closed with exactly if the body ended, "read-error" or "max-lifetime-exceeded" exactly if a read failed while the context was live or expired, and nothing if it was cancelled or the cap cut it off |
| Fates.TargetFollowsUpgrade | internal/tunnelagent/handler.go:190-223 | under every schedule the target is the body pipe or discard until an upgraded open switches it, and the pipe is closed exactly when the target was switched or the pump ended by stop, refusal or half-close |
| Fates.FirstTargetStandsStill | internal/tunnelagent/handler.go:365-372 | once the target is switched no schedule puts another byte on the first one |
| Fates.TrafficIsItsHistory | internal/tunnelagent/handler.go:131-151 | under every schedule accepted frames, body, context and overflow notices are exactly what the connection's actions say |
| Fates.EveryFrameIsAccountedFor | internal/tunnelagent/handler.go:131-151 | under every schedule each frame that found its connection is on its way, queued, dropped because the connection was done, or reported as overflow |
| Fates.CancelsAreNotForgotten | internal/tunnelagent/handler.go:81-164 | under every schedule a connection that a hub close, reset or overflow asked to cancel is cancelled or about to be, and no other |
| Fates.ConnectionIsItsHistory | internal/tunnelagent/handler.go:104-235 | under every schedule a connection is what its own actions made of a new one |
| Registry.TraceBeforeFarewell | internal/tunnelagent/handler.go:198-230 | until it takes leave a connection has emitted nothing, a failed result, or a result and frames |
| Registry.RefusalsAreReportedOnce | internal/tunnelagent/handler.go:311-325 | each refused charge is reported once, at most twice per connection, and has cancelled it by the time the pump is over; leaving without a Close needs a cancelled context |
| Registry.NothingIsWrittenAfterPumpEnd | internal/tunnelagent/handler.go:240-266 | once the inbound pump is over no schedule writes another byte |
| Registry.NothingIsGrantedAfterRefusal | internal/tunnelagent/handler.go:311-325 | once a charge was refused no schedule grants another on either side |
| Handler.Handler.OpenConn | internal/tunnelagent/handler.go:104-129 | registers a new connection unless the id is empty, the request missing or the id taken |
| Handler.Handler.DeliverFrame | internal/tunnelagent/handler.go:131-151 | queues the frame on the connection of its id, or reports overflow and cancels that connection, and touches no other |
| Handler.Handler.Push | internal/tunnelagent/handler.go:138-150 | the select on a looked-up connection: queued, dropped because it is done, or reported full and cancelled |
| Handler.Handler.CloseFromHub | internal/tunnelagent/handler.go:153-164 | cancels the connection of that id only and sends nothing |
| Handler.Handler.ResetAll | internal/tunnelagent/handler.go:81-95 | cancels every registered connection, changes nothing else about it and sends nothing |
| Handler.Handler.Unregister | internal/tunnelagent/handler.go:166-171 | removes whatever is registered under the connection's id and closes its done channel |
| Handler.Handler.ChargeBytes | internal/tunnelagent/handler.go:311-325 | adds with wrap-around, grants up to the cap, otherwise notifies and cancels |
| Handler.Handler.InboundPump | internal/tunnelagent/handler.go:240-266 | the loop, with the target switched and the counter charged in between, leaves queue, write target, counter, context and notices exactly as the specified turns do |
| Handler.DrainedIsFaithful | internal/tunnelagent/handler.go:240-266 | over every sequence of turns, target switches included, the bytes written are a prefix of the frames taken off the queue, all of them while the pump goes on, and nothing is taken after a half-close |
| Handler.WholeQueueIsWritten | internal/tunnelagent/handler.go:240-266 | frames that fit the cap get through: each turn that lets it writes one whole frame until the queue is empty |
| Handler.Handler.OutboundPump | internal/tunnelagent/handler.go:270-307 | every frame still holds the bytes of its read at the end although all reads share one buffer; frames, then at most one cap notice, are handed over in order; and the pump ends as specified |
| Handler.PumpedSpec | internal/tunnelagent/handler.go:276-292 | frames are non-empty, no larger than a read, a prefix of the body, and all of it while the pump goes on |
| Handler.PumpEndsAsItsRead | internal/tunnelagent/handler.go:270-307 | a read is refused exactly when its data exceeds the cap; otherwise the pump goes on exactly when more is to come and closes with exactly the reason that belongs to the read's end and the context |
| Handler.WholeBodyIsFramed | internal/tunnelagent/handler.go:270-292 | a body that fits the cap is framed whole |
| Handler.CompleteMeansWholeBody | internal/tunnelagent/handler.go:293-296 | closing with "complete" means the last read hit the end of the body and all of it was framed |
| Schedules.OutboundPumpIsASchedule | internal/tunnelagent/handler.go:270-307 | from any state about to read, with the inbound pump charging in between, some sequence of the machine's steps ends where the loop does, with the same frames and notices emitted |
| Schedules.InboundPumpIsASchedule | internal/tunnelagent/handler.go:240-266 | from any idle state, with the target switched and the outbound pump charging in between, some sequence of the machine's steps ends where the inbound loop does, with the same bytes written and frames consumed |
| Schedules.EveryConnectionCanEnd | internal/tunnelagent/handler.go:175-235 | from every state some continuation takes the connection to its end |

## Left out

- Networking, TLS, HTTP and the RPC library (internal/tunnelagent/relay.go): a relay call returns an arbitrary result, a body is an arbitrary sequence of reads.
- Liveness: whether a blocked pipe or socket write ends, hence whether ResetAll returns.
- Handler.Handler.ResetAll: does not wait for the done channels, since the connections act meanwhile; Registry.ResetOutlastsTheOldConnections says what the wait achieves.
- Handler.Handler.DeliverFrame: looks up and pushes without anything in between; Handler.Handler.Push and the Registry machine cover a connection that ends in between.
- Dispatcher.DurableExactlyWhenRecorded: for runs in which nobody else writes the journal and it stays below its bound; otherwise Dispatcher.AnsweredIsRecorded and Dispatcher.MemorySurvives say what remains.
- The table of methods that carry no request body (GET, HEAD, OPTIONS, TRACE): whether a body is allowed is a parameter of an open.
- Delivery past Handler.Send: the session queue may drop messages, and between sessions no sender is installed, so frame properties hold at the point of hand-over.
- Concurrent HandleEvent calls for one id: the lifecycle loop is the only caller and delivers one event at a time.
- The checksum a replay carries while watchers run: copy and checksum are taken under separate locks; the model replays with no event in between.
- The gateway itself: only the documented finalisation rule is modelled, starting from a gateway that is not in the middle of another full sync.
- Backoff.DelayClosedForm: exact arithmetic instead of float64, which agrees while products stay below 2^53 nanoseconds, and no overflow of durations.
- Splitter.SplitByByteBudget: sizes are summed without int overflow.
- SendQueue.EveryEventIsInOnePlace: the queue and pumps are modelled as values and steps rather than as objects, since several goroutines share them; sequence numbers do not wrap.
- Registry.CapHoldsOnEveryConnection: requires headroom below 2^63; ByteMeter.CapHoldsExactlyWithHeadroom says what happens without it.
- The aggregator's nil-client guard, metrics, logging and event ids.
- Ack and NACK event construction, version-skew warnings, dead-man switch and handshake contents.
- The status streamer and addon scanner resets that hang on the same callback.
- Kubernetes watchers and mappers, ArgoCD, git, OCI, registration, credential redemption, charts and scripts: plumbing or single-branch mappings.
