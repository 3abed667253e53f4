# Protocol model of the Aedes broker

Aedes is an MQTT 3.1.1 broker. Its protocol logic is a set of callback chains that share mutable state: the fields
of a client, the broker's registry, and what persistence holds. This project models that logic as transition systems,
one step per callback or promise boundary, and proves properties of every run: any interleaving, any answer of the
hooks and of storage, any number of reconnections, except where "Left out" says otherwise.

Most modules have the same layout. A `State` and a total function `Step` say what one callback does; an event whose
callback is not due changes nothing. `After(run)` is the state after a sequence of events. The theorems are lemmas
about `After`. Where the program updates fields in place or loops, a class or a method does the same thing statement by
statement and its `ensures` ties the new state to `Step` (or to an independent definition). What `Step` itself does is
pinned by the history modules: they say, over whole runs and from the events alone, why each flag, listener, entry, write
and outcome is there (`Histories.dfy` has the inductions they share). Some fields of these states
exist only for the theorems: they record what happened (what was written, published, stored, enqueued).

| file | what it models |
|---|---|
| `Histories.dfy` | inductions over runs: what certain steps bring about, switch on and off, or have behind them |
| `InboundQos2.dfy` | the receive side of QoS 2, method B of section 4.3.3 of MQTT 3.1.1 |
| `InboundHistory.dfy` | that every handled PUBLISH and PUBREL is answered, or its connection destroyed |
| `OutboundSession.dfy` | the outgoing queue of one persistent client: enqueue, identifier, PUBLISH, PUBREC/PUBREL, acknowledgement, replay |
| `OutboundReplay.dfy` | what a replay of that queue writes and leaves behind |
| `OutboundIds.dfy` | where the identifiers of queued messages come from, over whole runs |
| `OutboundRaces.dfy` | what a PUBREC that overtakes its own PUBLISH does, and a message given two identifiers |
| `OutboundHistory.dfy` | what each step writes, which messages leave the queue, which storage calls are under way; the handshake of a clean session |
| `PacketIds.dfy` | the 16-bit identifier counter (section 2.3.1) |
| `DeliveryFilter.dfy` | no-local, the per-broker counter watermark, `authorizeForward` |
| `WriteAhead.dfy` | enqueue before emit, store before listen, and the two exclusions of `$` topics |
| `ListenHistory.dfy` | what SUBSCRIBE, UNSUBSCRIBE and a restored session bring about, and what is listened to, enqueued and delivered for that |
| `Lifecycle.dfy` | the connect pipeline, packets before CONNACK, dispatch, timers, the will, two-phase close |
| `ConnectionHistory.dfy` | which DISCONNECTs are processed, and that they silence the will |
| `Admission.dfy` | who is authorised, what closes a client, its keepalive, and the connect series that succeeds |
| `WillHistory.dfy` | when `finish` has the will deleted, and that every will can be settled |
| `SeriesHistory.dfy` | the answers behind CONNACK in order, the records of a connection, and when it counts as connected |
| `DrainQueue.dfy` | back-pressure: callbacks that wait for the socket to drain |
| `DrainOutcomes.dfy` | what each of these callbacks is told, and why |
| `Registry.dfy` | `clients` and `connectedClients`, takeover in one broker and across brokers |
| `Takeover.dfy` | takeover, eviction, announcements of other brokers, and clients that stay behind, over whole runs of the registry |
| `RegistryHistory.dfy` | who is registered, closed and finished, and why |
| `Subscribe.dfy` | deduplication of a SUBSCRIBE and the alignment of SUBACK (section 3.9.3) |
| `SubscriptionTable.dfy` | the subscription table of a client against its listeners on the emitter |
| `SubscriptionHistory.dfy` | what a client listens to, told by what it asked for |
| `Combinators.dfy` | `runParallel` and `runSeries` |
| `TopicScan.dfy` | `validateTopic` against the grammar of section 4.7.1 |
| `Heartbeat.dfy` | which brokers of a cluster count as dead |

## Hypotheses

The code does not establish these; the theorems that need one name it, and a companion lemma shows what happens
without it.

- `InboundQos2.LookupsAlone`: while a QoS 2 PUBLISH that found nothing is between its lookup and its store, no other
  PUBLISH of that identifier looks up. Packets are dispatched without waiting, so a client can break it
  (`OverlappingLookupsPublishTwice`). A rejected lookup means "absent", as the handler reads it.
- `InboundQos2.NoEarlyDelete`, for one theorem: no PUBREL deletes an identifier whose message is stored and not yet
  published. After such a delete the client can always have it published twice in a row (`EarlyDeleteAllowsTwoPublishes`),
  and such a delete can happen (`EarlyDeleteHappens`).
- `OutboundSession.Disciplined`: a message is enqueued once (one matching filter per client); an identifier is free when
  it is given out (`CollidingIdsMisdirectAck`), and goes to a message that has none yet (`TwoIdentifiers`,
  `FirstIdentifierIsForgotten`, `TwoIdentifiersHappen`); a PUBREC does not replace an entry whose PUBLISH still waits in a
  replay or in a storage call. The last one is exact: after every PUBREC of a disciplined run that breaks it, storage
  answers and replay steps alone can put the PUBLISH back (`EarlyPubrecIsUndone`), and one reconnection more can write it
  again (`EarlyPubrecIsPublishedAgain`). `NoLoss` needs none of this. `DeliveryRoundTrip` shows that an undisturbed
  delivery keeps the discipline in any state.
- `OutboundIds.Spaced` replaces the part about free identifiers by one about allocations: whatever this connection gave
  out and is still in flight is fewer than 65535 allocations old, and no identifier left over from an earlier connection
  comes up. `DisciplinedIffSpaced` shows that this is exactly what is needed.
- `SubscriptionTable.Disciplined`: no filter is added while its removal is under way
  (`AddingALeavingFilterBreaksAgreement`), and the emitter answers each removal once.
- `WriteAhead.SeparateRun`: packets that concern one filter do not overlap (`OverlappingPacketsLeaveItUnstored`), and a
  filter that is denied is not listened to with other options (`DeniedFilterIsStored`). `WriteAhead.SteadyRun`: from the
  lookup of a message's subscribers to its emission, no SUBSCRIBE, UNSUBSCRIBE or restoring is under way for a filter the
  message is delivered through (`OpenUnsubscribeDeliversUnqueued`); those of other filters may be.
- `Takeover.TakeoverWaitsForFinish`: a client reaches `registerClient` once.
- `Heartbeat.Monotone`: the clock does not go back (`ClockGoingBackPublishes`).
- `Combinators.AtMostOnceEach`: no item calls back twice (`AnsweringTwiceCompletesEarly`).

The persistence library is not part of this model. It is given by these contracts: `outgoingUpdate` replaces the entry of
the packet's broker and counter, or for a PUBREL the entry of its identifier, and rejects when there is none;
`outgoingClearMessageId` removes the first entry with the packet's identifier, and returns nothing when there is none;
called with a refused packet that has no identifier yet (lib/client.js:147-149) it removes the entry with the same broker
and counter; `outgoingStream` yields the entries present when it was opened, in queue order; `addSubscriptions` stores all requests it
is given; `streamWill` skips the wills of the brokers it is given; `delWill` and `putWill` answer in the order of their
calls, and a rejected call has no effect. A promise rejection that no handler catches is counted; what the process does
about it is not part of this model.

## What turned out otherwise

- `validateTopic` accepts filters that section 4.7.1 forbids: `a#` and `+a`. `ScanAgainstGrammar` gives the exact
  difference.
- `broker.publish` can be called twice for an identifier between two successful deletes of it, even when lookups do not
  overlap: a PUBREL may delete the stored message before its PUBLISH goes on (`EarlyDeleteHappens`). Over a whole run the
  publishes of an identifier still exceed its deletes by at most one (`PublishesPerDelete`).
- A failed `broker.publish` leaves the message in the incoming store, so retransmissions are acknowledged and the message
  is never delivered (`FailedPublishLooksStored`, `FailedPublishIsFinal`). The comment at lib/handlers/publish.js:57-59
  speaks of the store failing only.
- A rejected `incomingDelPacket` and a rejected `delWill` in `storeWill` pass through `finally` (lib/handlers/pubrel.js:52,
  lib/handlers/connect.js:198-199): the handler goes on, and the rejection is caught by nobody (`PubrelOutcome`).
- A client that answers every PUBLISH with PUBREC can get the PUBLISH and then the PUBREL and then the same PUBLISH again,
  on one connection: the listeners are restored (lib/handlers/connect.js:184-192) before the replay opens (229-251), so a
  message delivered in between is replayed, too, and the replay stores it as unreleased (`PublishAfterPubrecHappens`).
- A queued message that is emitted while the replay has it before it is published under two identifiers; the queue keeps
  the second, and the acknowledgement of the first is good for nothing (`TwoIdentifiersHappen`,
  `FirstIdentifierIsForgotten`).
- An acknowledgement on a clean session, whose deliveries are not stored, removes an entry that an earlier persistent
  session has left under that identifier (`CleanAckTakesLeftover`).
- The watermark drops a message that a later one of the same broker has overtaken (`OvertakenMessageIsDropped`), and only
  such messages (`WatermarkRefinesSeen`).
- `connectedClients` grows by one too many each time `registerClient` finds a registered client already flagged closed,
  because `close` then calls back at once; `ConnectedClientsCount` counts exactly these, and `CountGoesWrong` is one.
- A client that is authorised and closes before it is registered removes whoever is registered under its identifier and
  is not waiting for it: `FinishEvictsOther` says exactly when, `EvictionHappens` shows a run.
- A client that has finished before it is registered is registered all the same, and no close removes it
  (`FinishedClientStays`); `UnfinishedIff` says exactly when every registered client is unfinished.
- A filter that is denied is stored with the rest of its packet (`DeniedFilterIsStored`).
- SUBACK has one code per filter left after the deduplication, and so one per filter of the packet exactly if no filter is
  requested twice (`SubackFitsPacketIff`); section 3.9.3 makes no such exception.
- The comment at lib/client.js:381 says that `finish` might run twice; `CloseIsOneShot` shows that it does not.
- A closed client goes on dispatching the packets that had been queued before CONNACK, and accepts a CONNECT among them:
  a will can then be published although a DISCONNECT has been processed (`DisconnectAfterFinishHappens`), and a write to
  the dead socket parks its callback after `finish` (`LateConnectParksAfterFinish`).
- The offline path excludes wildcard filters for `$SYS/` topics only, the live path for all `$` topics
  (`ExclusionsDiffer`).

## Model

| member | source | states |
|---|---|---|
| InboundQos2.PublishedAtMostOnce | lib/handlers/publish.js:46-68 | in every run each stored message goes to `broker.publish` at most once, and every PUBREC answers an identifier whose message had been stored before it was written |
| InboundQos2.ExactlyOnceAtQuiescence | lib/handlers/publish.js:46-68 | when no chain is left, every message behind a PUBREC has been published exactly once, and that publish either completed or failed |
| InboundQos2.StoresSeparatedByDelete | lib/handlers/publish.js:52-66 | if lookups of one identifier never overlap, two stored messages of one identifier are separated by a successful delete |
| InboundQos2.PublishesPerDelete | lib/handlers/publish.js:56-66 | if lookups never overlap, over any run the calls of `broker.publish` for an identifier are its effective deletes, plus one if it is in the store, minus the messages not yet published; so at most one more than its deletes |
| InboundQos2.PublishesSeparatedByDelete | lib/handlers/publish.js:56-66 | if in addition no delete of an identifier takes effect while a message of it waits to be published, two publishes of it always have a delete between them |
| InboundQos2.EarlyDeleteAllowsTwoPublishes | lib/handlers/pubrel.js:45-53 | without that condition, in every run: right after such a delete the client need only send the identifier again to have it published twice in adjacent steps, without overlapping lookups |
| InboundQos2.EarlyDeleteHappens | lib/handlers/pubrel.js:29-53 | such a delete is reached from an empty session by one PUBLISH and one PUBREL |
| InboundQos2.LiveUntilDeleted | lib/handlers/pubrel.js:45-53 | over any stretch of a run a stored message stays live, or some step of it is a successful delete of its identifier |
| InboundQos2.OnlyDeleteReleases | lib/handlers/pubrel.js:45-53 | no step other than a successful delete of its identifier ends the life of a stored message |
| InboundQos2.RunsKeepOneLive | lib/handlers/publish.js:52-66 | if lookups do not overlap, at most one message per identifier is live, it is the one in the store, and a chain about to store finds the identifier absent |
| InboundQos2.OverlappingLookupsPublishTwice | lib/handlers/publish.js:52-66 | without that hypothesis: two chains of one identifier that both look up before either stores publish two messages, in any state |
| InboundQos2.DuplicateIsAcknowledged | lib/handlers/publish.js:52-55 | a retransmitted PUBLISH whose identifier is in the store gets a PUBREC for the stored message and changes neither store nor messages |
| InboundQos2.FailedPublishLooksStored | lib/handlers/publish.js:60-66 | after a failed publish the message is still the one in the store, so retransmissions count as duplicates |
| InboundQos2.FailedPublishIsFinal | lib/handlers/publish.js:52-66 | however the run goes on, a message whose publish failed is never completed and never tried again |
| InboundQos2.PublishedOutcome | lib/handlers/publish.js:56-67 | a new identifier handled without interference: exactly one message stored and published once, also when its connection has gone; PUBREC if the publish succeeds and the connection is open, otherwise the connection is destroyed |
| InboundQos2.UnstoredOutcome | lib/handlers/publish.js:60-66 | a failed store: no publish, no PUBREC, the connection is destroyed |
| InboundQos2.RefusedOutcome | lib/handlers/publish.js:83-85 | on an open or a closed connection, a PUBLISH refused by `authorizePublish` touches nothing but the connection |
| InboundQos2.PubrelOutcome | lib/handlers/pubrel.js:29-58 | PUBCOMP goes out in every case on an open connection; the identifier leaves the store exactly if it was there and the delete succeeds; a rejected delete leaves one unhandled rejection |
| InboundQos2.Session.HandlePublish | lib/handlers/publish.js:46-68 | the imperative handler, also for a packet that is dispatched after its connection has gone, ends where its chain of callbacks ends; PUBREC exactly if the connection was open and the message is a duplicate, or stored and published |
| InboundQos2.Session.StoreThenPublish | lib/handlers/publish.js:56-67 | store before publish before PUBREC; a failed store publishes nothing |
| InboundQos2.Session.HandlePubrel | lib/handlers/pubrel.js:29-58 | PUBCOMP on an open connection, whatever happens; open or not, the identifier stays only if the delete fails, and then a rejection stays unhandled |
| InboundHistory.PublishIsAnswered | lib/handlers/publish.js:46-85 | in every run, for every PUBLISH that has been handled to its end, whatever was handled beside it: an error destroyed its connection, or its PUBREC was due and was written if the connection was open by then |
| InboundHistory.OpenConnectionGetsPubrec | lib/handlers/publish.js:60-68 | so a client that keeps its connection gets a PUBREC with its identifier for each PUBLISH that is handled to its end |
| InboundHistory.PubrelIsAnswered | lib/handlers/pubrel.js:45-58 | every PUBREL handled to its end got its PUBCOMP if the connection was open by then |
| InboundHistory.EveryPacketCanBeAnswered | lib/handlers/publish.js:46-68 | in every run and for every packet still being handled, whatever else is under way: good answers to it alone end its chain, with one PUBREC or PUBCOMP for its identifier if its connection is open |
| InboundHistory.OpenIff | lib/handlers/publish.js:60-85 | a connection is open if and only if it was opened and neither the client nor an error in one of its chains has destroyed it since |
| OutboundSession.NoLoss | lib/client.js:122-156 | in every run, whatever fails or interleaves: a message once enqueued is in the queue at the end, or a step of the run removed it by an acknowledgement, a refusal, a clean replay (also by a clear that was under way when the connection was replaced) or `emptyOutgoingQueue` |
| OutboundSession.LostOnlyByRemoval | lib/handlers/connect.js:229-273 | the same for one step of any state |
| OutboundSession.RunsKeepInv | lib/client.js:122-156 | in disciplined runs one identifier belongs to one message at a time, across queue, storage calls under way and replay, and no PUBLISH is still to be written for a message past its PUBREC |
| OutboundSession.StagesMoveForward | lib/handlers/pubrec.js:10-20 | an entry goes from no identifier to PUBLISH with one, to PUBREL with the same one, to gone, and never back |
| OutboundSession.NoPublishAfterPubrec | lib/handlers/connect.js:229-273 | once the PUBREC of a message is processed, no later write on this or any later connection is its PUBLISH |
| OutboundSession.PublishMeansSent | lib/client.js:139-145 | a PUBLISH of a queued message is written only in a step whose queue holds it, unreleased, under that identifier |
| OutboundRaces.EarlyPubrecIsUndone | lib/handlers/connect.js:229-251 | the hypothesis on PUBREC is exact: in every disciplined run, after a PUBREC that replaces an entry whose PUBLISH still waits, some answers of storage and steps of the replay, however many items are ahead, put the PUBLISH back in its place |
| OutboundRaces.EarlyPubrecIsPublishedAgain | lib/handlers/connect.js:253-273 | and with one reconnection more that PUBLISH is written again after its PUBREC |
| OutboundRaces.PublishAfterPubrecHappens | lib/handlers/connect.js:229-251 | a run from the start on one connection with a client that only answers what it gets: PUBLISH, PUBREL and the same PUBLISH again are written |
| OutboundRaces.ReconnectPublishes | lib/handlers/connect.js:229-273 | from any state, a reconnection with an undisturbed replay writes every PUBLISH in the queue under its identifier |
| OutboundSession.StaleReplayUndoesPubrec | lib/handlers/connect.js:238-248 | in any sound state: a replay whose next item is that PUBLISH puts it back into the queue and writes it again on the same connection |
| OutboundRaces.TwoIdentifiers | lib/client.js:128-156 | in any state of an open persistent session: a live delivery of the message the replay turns to next publishes it under one identifier and the replay under another, which is the one the queue keeps |
| OutboundRaces.FirstIdentifierIsForgotten | lib/handlers/pubrec.js:10-20 | then the acknowledgement of the first identifier removes nothing, and a PUBREC of it is rejected and ends the connection |
| OutboundRaces.TwoIdentifiersHappen | lib/client.js:128-156 | a run from the start that leads there, disciplined up to the second allocation |
| OutboundSession.ReplayResendsPubrel | lib/handlers/connect.js:253-273 | a replay writes a stored PUBREL again, whatever `authorizeForward` would say, and leaves the queue alone |
| OutboundReplay.ReplayCompletes | lib/handlers/connect.js:229-273 | a replay that finishes without error, whatever interleaves: on a clean session none of its steps wrote anything and nothing queued at its opening is left; otherwise every entry queued at its opening was refused and is gone, or its PUBLISH or PUBREL, under its final identifier, stands among the writes made since on this connection, and these writes are in queue order |
| OutboundReplay.ReplayHasOpening | lib/handlers/connect.js:229-236 | every replay under way was opened exactly by a step of this connection, so the theorem applies to every replay that finishes |
| OutboundReplay.WrittenItemIsSent | lib/handlers/connect.js:261-272 | an entry counts as written only in a step that writes it, with the identifier the queue then holds for it |
| OutboundSession.AckRemovesItsMessage | lib/handlers/puback.js:1-9 | in disciplined runs an acknowledgement removes the message that carries its identifier and no other |
| OutboundSession.LateClearRemovesItsMessage | lib/handlers/connect.js:268-270 | in disciplined runs a clear left behind by a replaced connection takes its own message or none |
| OutboundSession.CollidingIdsMisdirectAck | lib/handlers/puback.js:1-9 | with two messages under one identifier the acknowledgement leaves the younger one in the queue, whichever it answers |
| OutboundIds.SpacedRunIsDisciplined | lib/qos-packet.js:9-18 | in every run in which each identifier in flight is fewer than 65535 allocations old when the next one is given out, and no leftover of an earlier connection comes up, every identifier is free when it is given out |
| OutboundIds.DisciplinedIffSpaced | lib/qos-packet.js:9-18 | for sessions that store their deliveries this is exact: identifiers are free throughout a run if and only if its allocations are spaced like that |
| OutboundIds.SpacedAckRemovesItsMessage | lib/handlers/puback.js:1-9 | so in such runs an acknowledgement removes the message that carries its identifier and no other |
| OutboundIds.RunsKeepBooksRight | lib/qos-packet.js:9-15 | in every run every identifier spoken for was given out by an allocation on record, and those of this connection are the counter's sequence at the recorded index |
| OutboundIds.ClaimsAreAssigned | lib/client.js:132-145 | no step other than an allocation makes an identifier belong to a message to which it did not belong before |
| OutboundSession.DeliveryRoundTrip | lib/client.js:122-156 | in any state of a disciplined run, also during a replay: enqueue, delivery, PUBREC and PUBCOMP of a new message keep the discipline, write one PUBLISH and then one PUBREL under one identifier, and leave the queue as it was |
| OutboundHistory.CleanRoundTrip | lib/handlers/pubrec.js:13-16 | on a clean session, in any state: delivery, PUBREC and PUBCOMP write one PUBLISH and one PUBREL under one identifier if the connection is up and nothing otherwise, move the counter on, and leave a queue without that identifier alone |
| OutboundHistory.CleanAckTakesLeftover | lib/handlers/puback.js:1-9 | if the queue has an entry under that identifier, left over from a persistent session, the acknowledgement removes it |
| OutboundHistory.EveryWriteIsDue | lib/client.js:128-156 | at every step of every run exactly what is due is written: a delivery on a clean session, a stored delivery of the current connection, a replayed entry that is stored and not refused, a PUBREL for a PUBREC that was stored or came on a clean session; and nothing on a dead connection |
| OutboundHistory.LeavesIff | lib/client.js:147-155 | in disciplined runs a message leaves the queue exactly by an acknowledgement of it, a refusal, the replay of a clean session, a clear left behind, or `emptyOutgoingQueue` |
| OutboundHistory.PendingIff | lib/client.js:139-145 | an update is under way if and only if a live delivery, or the replay of a replaced connection, asked for it and it was not answered since |
| OutboundHistory.LateIff | lib/handlers/connect.js:253-273 | another storage call of a replaced connection is under way if and only if its replay waited for it then and it was not answered since |
| OutboundHistory.UpIff | lib/client.js:446-459 | a connection can be written to if and only if, since its CONNECT, the network has not ended it and no storage call for it was rejected or found nothing |
| OutboundSession.Session.DeliverQoS | lib/client.js:128-156 | a live delivery, also on a dead connection: an identifier is used up; direct write on a clean session if it can be written to, storage call on a persistent one, removal of the entry when refused |
| OutboundSession.Session.DoWriteQoS | lib/client.js:139-145 | writes only after storage took the identifier; otherwise the connection fails and the queue is untouched |
| OutboundSession.Session.HandlePubrec | lib/handlers/pubrec.js:10-20 | also on a dead connection storage is called; PUBREL is written only after the entry was replaced, and at once on a clean session, as `OutboundHistory.CleanRoundTrip` and `EveryWriteIsDue` say in terms of events |
| OutboundSession.Session.HandlePuback | lib/handlers/puback.js:1-9 | returns the removed entry, and nothing exactly if storage rejects or no entry has the identifier; a rejection fails the connection |
| OutboundSession.Session.ClearQueue | lib/handlers/connect.js:238-248 | an entry with an identifier keeps it, one without gets the next |
| OutboundSession.Session.EmptyQueueFilter | lib/handlers/connect.js:253-273 | the decision about one replayed entry: failed, to be cleared, written, or stream stopped |
| PacketIds.FreshIdClosedForm | lib/qos-packet.js:9-15 | from a start in 1..65535 the k-th fresh identifier is (start - 1 + k) mod 65535 + 1 |
| PacketIds.AllFreshIdsValid | lib/client.js:39 | every identifier handed out is legal if and only if the counter starts in 1..65535 |
| PacketIds.FreshIdsCollide | lib/qos-packet.js:9-15 | two allocations give the same identifier if and only if they are a multiple of 65535 apart |
| PacketIds.NextIdUnused | lib/qos-packet.js:9-15 | if all identifiers in use come from the last 65534 allocations, the next one is not in use |
| PacketIds.WindowIsTight | lib/qos-packet.js:9-15 | one allocation more and the next identifier collides |
| PacketIds.IdSource.Assign | lib/qos-packet.js:9-18 | a packet that carries an identifier keeps it and the counter stands still; otherwise it gets the next fresh one |
| DeliveryFilter.WatermarkRefinesSeen | lib/client.js:92-101 | at every step of every run the watermark decides as a filter that remembers every message, if and only if the packet was not overtaken; an overtaken one is dropped as a duplicate, and nothing extra is ever forwarded |
| DeliveryFilter.AgreeIffNothingLate | lib/client.js:432-444 | over a whole run the two filters agree if and only if no message in it was overtaken |
| DeliveryFilter.InOrderAgrees | lib/client.js:432-444 | with non-decreasing counters between births they agree |
| DeliveryFilter.ForwardedIff | lib/client.js:92-101 | at every step of every run, told by the deliveries alone: forwarded if and only if it does not come back to its sender through no-local, `authorizeForward` agrees, and it has no broker or a positive counter above those of all earlier messages of that broker since its last birth |
| DeliveryFilter.PassedCountersIncrease | lib/client.js:432-444 | between two births of a broker the counters that pass strictly increase, so no message passes twice however many filters match |
| DeliveryFilter.WatermarkIsMaximum | lib/client.js:432-444 | in every run the watermark is itself a counter that passed, and the largest one since the last birth |
| DeliveryFilter.OvertakenMessageIsDropped | aedes.js:215 | two messages that arrive in reverse order: the first is lost |
| DeliveryFilter.FirstUnblockedDecides | lib/client.js:92-101 | of several handlers for one message those blocked by no-local leave it to the next, the first unblocked one alone decides, and all later ones find a duplicate |
| DeliveryFilter.AllDuplicates | lib/client.js:432-444 | a message at or below the watermark is forwarded by no handler and leaves the watermark alone |
| DeliveryFilter.Subscriber.Dedupe | lib/client.js:432-444 | new if and only if it has no broker or a counter above the watermark, which then moves to it |
| DeliveryFilter.Subscriber.GetToForwardPacket | lib/client.js:92-101 | forwards exactly the packets decided Forwarded; a refusal still moves the watermark, a no-local block does not |
| DeliveryFilter.Subscriber.BrokerBorn | aedes.js:161-172 | on a client it reaches, the birth of another broker forgets its watermark, that of the own broker nothing |
| WriteAhead.EnqueuedBeforeDelivered | aedes.js:305-359 | in every run in which packets on one filter do not overlap, and none on a filter that a message is delivered through is under way from the lookup of its subscribers to its emission, every message that reaches `deliverQoS` had been put into the queue before |
| WriteAhead.ListenedIsStored | lib/handlers/subscribe.js:124-186 | store before listen, over every interleaving of SUBSCRIBE, UNSUBSCRIBE, restored sessions and close: a filter that no packet is about to change is stored with the QoS it is listened to with |
| WriteAhead.ExclusionsDiffer | lib/handlers/subscribe.js:113-122 | what is delivered live was enqueued for; the converse fails exactly for filters that start with a wildcard and topics that start with `$` but not with `$SYS/` |
| WriteAhead.OpenUnsubscribeDeliversUnqueued | lib/handlers/unsubscribe.js:36-37 | in any state: a message published between the answer of `removeSubscriptions` and the removal of the listener is delivered and was never enqueued |
| WriteAhead.OverlappingPacketsLeaveItUnstored | lib/handlers/subscribe.js:138-182 | in any state: a SUBSCRIBE and an UNSUBSCRIBE of one filter that overlap can leave a listener without a stored subscription when both are over |
| WriteAhead.DeniedFilterIsStored | lib/handlers/subscribe.js:138-139 | in any state: a denied filter is stored with the QoS it was denied, while its old listener stays |
| ListenHistory.SubscribeTakesEffect | lib/handlers/subscribe.js:124-186 | in any state: once storage answers for a granted filter all requests of the packet are stored, and the filter then gets a listener with its requested QoS |
| ListenHistory.UnsubscribeTakesEffect | lib/handlers/unsubscribe.js:36-74 | in any state: the filters leave storage at once, and each its listener after that |
| ListenHistory.SessionIsRestored | lib/handlers/connect.js:184-192 | in any state: every stored filter that is not denied gets a listener with the QoS it is stored with |
| ListenHistory.ListeningIff | lib/handlers/subscribe.js:142-186 | in every run a filter is listened to if and only if some callback added it and none has taken it away since |
| ListenHistory.PassedIff | aedes.js:305-359 | a message is delivered if and only if it was emitted while the client listened to it with QoS, and enqueued if and only if it was looked up while a subscription to it with QoS was stored |
| ListenHistory.BetweenIff | aedes.js:305-359 | a message is about to be emitted if and only if it was looked up and not emitted since |
| Lifecycle.CloseIsOneShot | lib/client.js:303-404 | in every run `finish` has run at most once, and once it has, every callback passed to `close` has been called exactly as often as it was passed |
| Lifecycle.FinishFollowsClose | lib/client.js:348-404 | after any close `finish` runs at once if there is nothing to unsubscribe, and otherwise as soon as the emitter has answered |
| Lifecycle.ClosedForGood | lib/handlers/connect.js:113-118 | `closed` is never reset and a closed client never has a keepalive or connect timer armed, not even when `authenticate` answers late |
| Lifecycle.NothingCrashes | lib/client.js:465-478 | no run pushes to a null queue or refreshes a null timer; at most `queueLimit` packets wait; those dispatched from the queue are all queued ones in order, or none |
| Lifecycle.QueueDispatchedOnConnect | lib/client.js:480-489 | when the connect series succeeds every waiting packet is dispatched, once and in order |
| Lifecycle.WillPublishedAtMostOnce | lib/client.js:358-382 | the will goes to `broker.publish` at most once, only after `finish`, only if stored by then after a successful authentication, and not if a DISCONNECT had been processed by then |
| Lifecycle.WillSettled | lib/handlers/connect.js:194-207 | at quiescence the will was published if and only if `finish` found one, undisconnected and not refused; and persistence holds none of this connection unless a storage call on it was rejected |
| Lifecycle.DisconnectAfterFinish | lib/client.js:480-489 | the one exception: a CONNECT and a DISCONNECT still queued when the client closed are dispatched after `finish`, and the will is published all the same |
| Lifecycle.DisconnectAfterFinishHappens | lib/client.js:480-489 | a run from the start of a connection, for every queue limit of at least three, that ends like that |
| Lifecycle.RunsKeepInv | lib/handlers/connect.js:60-225 | the invariant behind these: close, timers, queue, will and pipeline phase fit together in every reachable state |
| ConnectionHistory.DisconnectSilencesWill | lib/handlers/index.js:50-56 | a DISCONNECT handled on a connecting or connected client before its `finish`, as it arrives or out of the queue: in every later run the will is never published |
| ConnectionHistory.DisconnectedIff | lib/client.js:358-370 | a client counts as disconnected if and only if a DISCONNECT was processed, and `finish`, once it has run, has seen that if and only if one was processed in time; told by the packets, those out of the queue by their places among the failing ones |
| Admission.AuthorizedIff | lib/handlers/connect.js:113-123 | a client is authorised if and only if `authenticate` has let it in while it was open |
| Admission.TurnedAwayGetsNoFurther | lib/handlers/connect.js:120-141 | a client that is refused while open gets its CONNACK and is closed by it, and never gets past authentication without another answer that lets it in |
| Admission.UnacceptableIsRejected | lib/handlers/connect.js:60-82 | in any state: a CONNECT with a bad version, identifier or keepalive is answered with an error code and closes the client, whether the answer could be written or not |
| Admission.DeclinedIsForgotten | lib/handlers/connect.js:50-57 | in any state: a CONNECT that `preConnect` declines leaves the client unconnected and free to send another; an error of it closes the client |
| Admission.WillPublishedIff | lib/client.js:361-378 | the will is published, once, if and only if `authorizePublish` was asked and agreed; then `finish` had found one and no DISCONNECT had come in time |
| WillHistory.WillDeletedInTurn | lib/client.js:361-378 | in every run `finish` asks storage to delete the will only after it was discarded, refused or published |
| WillHistory.AskedWillGoes | lib/client.js:361-370 | in any state: a will that `authorizePublish` agrees to is published and then deleted, a refused one is deleted |
| WillHistory.EveryWillCanSettle | lib/client.js:361-378 | in every run, once `finish` has run, good answers alone lead to quiescence, and a will that is being asked about or published is published on the way |
| Admission.NoWillUnlessDeclared | lib/handlers/connect.js:84-88 | without a CONNECT that declares one there is no will and none is published |
| Admission.ClosedIff | lib/client.js:303-330 | a client is closed if and only if one of these events closed it: a call, the socket, an error, a failing packet as it arrives or out of the queue, a full queue, or a bad answer in the connect series |
| Admission.FinishedHandlerMakesRoom | lib/client.js:60-80 | in any state: a handler that has finished makes room for the next packet unless the client is paused, and one that failed closes the client |
| Admission.LateAnswersChangeNothing | lib/handlers/connect.js:113-141 | in any state: an answer of `authenticate` after close changes nothing, and a refusal's CONNACK after close only ends the series |
| Admission.FinishWaitsForSubscriptions | lib/client.js:351-356 | in every run: an open client with subscriptions that is closed finishes with the emitter's answer and not before, one without them at once |
| Admission.KeepaliveArmed | lib/handlers/connect.js:147-159 | a client let in with a keepalive of k seconds has, while it is open, its timer armed with 1500 k + 1 milliseconds |
| Admission.NoKeepaliveUnlessArmed | lib/handlers/connect.js:147-159 | without such an answer no keepalive timer is armed |
| Admission.ConnectSucceeds | lib/handlers/connect.js:60-225 | a connect series whose answers are all good leaves the client connected, authorised, unpaused, with its timer armed and its will, if declared, in storage and in its keeping, and changes nothing else |
| SeriesHistory.ConnackHasItsAnswers | lib/handlers/connect.js:60-101 | a CONNACK that accepts a client has behind it, in order: `preConnect` agreed, the CONNECT was acceptable, `authenticate` let the open client in, its subscriptions were fetched, and restored |
| SeriesHistory.EveryStepIsRecorded | lib/client.js:465-478 | at every step: CONNACK counts as sent if one was written, exactly the packets that wait with room are queued, the callbacks given are those passed to `close`, storage calls on the will are answered in order, and a rejected `delWill` of the series is caught by nobody |
| SeriesHistory.NoCallbackIsForgotten | lib/client.js:303-404 | the callbacks given are, over the whole run, those passed to `close`, and once `finish` has run exactly these have been called |
| SeriesHistory.ConnectTimerStops | lib/handlers/connect.js:45-47 | a CONNECT that is accepted stops the connect timer for good |
| SeriesHistory.ConnectedIff | lib/handlers/connect.js:93-101 | a client counts as connected if and only if its connect series has ended well and `finish` has not run since |
| Lifecycle.Client.Finish | lib/client.js:358-385 | the second phase of close as far as will, flags and the callback of the close that started it go |
| Lifecycle.Client.Close | lib/client.js:303-330 | the first phase of close as far as flag, queue and timers go; a repeated close only calls back |
| Lifecycle.Client.BatchDone | lib/client.js:60-80 | the continuation of every handler: an error closes, a pause stops the count |
| Lifecycle.Client.HandleConnect | lib/handlers/connect.js:44-58 | the connect timer is cleared and the pipeline starts, closed or not |
| Lifecycle.Client.HandleDisconnect | lib/handlers/index.js:50-56 | the will is disarmed before the connection is destroyed |
| Lifecycle.Client.Dispatch | lib/handlers/index.js:10-66 | a second CONNECT and any packet before the first one fail the connection; every other packet refreshes the timer |
| Lifecycle.Client.PacketArrives | lib/client.js:465-478 | dispatched at once after CONNACK or as the first packet, otherwise queued, and an overflow closes |
| Lifecycle.Client.TakeAndDispatch | lib/client.js:483-485 | one queued packet leaves the queue's record and is dispatched |
| Lifecycle.Client.DispatchQueue | lib/client.js:480-489 | the loop dispatches the queue as it was when the loop began, also when a packet closes the client |
| Lifecycle.Client.Authenticated | lib/handlers/connect.js:113-160 | nothing happens on a closed client; otherwise authorised with a keepalive timer of one and a half intervals, or refused |
| Lifecycle.Client.SeriesDone | lib/handlers/connect.js:93-101 | the end of the connect series: connected and queue dispatched, or closed |
| Lifecycle.Client.WillDeleted | lib/handlers/connect.js:198-206 | the series goes on whether `delWill` succeeded or was rejected; the will is put only if `finish` has not cleared it meanwhile |
| Lifecycle.Client.WillPut | lib/handlers/connect.js:200-202 | a rejected `putWill` ends the connect series with an error, which closes the client |
| DrainQueue.DrainConservation | lib/client.js:225-301 | in every run, with or without a drain timeout: timer, listener and waiting callbacks stand and fall together, and every parked callback is settled exactly once, in the order of parking, or still waits |
| DrainQueue.EveryCallbackAnswered | lib/write.js:3-21 | after `finish` every callback ever given to `write` has been answered exactly once, and no timer or listener is left |
| DrainQueue.NothingWaitsAfterFinish | lib/client.js:394-396 | once `finish` has run nothing waits, and nothing will as long as the connection is not opened again |
| DrainQueue.WriteParksIff | lib/write.js:5-11 | a write parks its callback if and only if the connection is open, its buffer full and no error was seen |
| DrainQueue.LateConnectParksAfterFinish | lib/handlers/connect.js:93-98 | why that matters: a connect pipeline that completes after `finish` makes a later write park for ever |
| DrainQueue.StepConserves | lib/client.js:332-346 | each single step, including the writes that drained callbacks make in turn, loses, duplicates and reorders no callback |
| DrainOutcomes.EveryoneIsTold | lib/client.js:225-262 | at every step of every run: a close tells exactly the pending callbacks that the connection closed, a timer that fires that it took too long, a socket that drains and `finish` tell everything that waits that it drained, and nothing else tells anybody |
| DrainOutcomes.OutcomeHasCause | lib/client.js:332-346 | every outcome a parked callback was ever given comes from one step, and that step is its cause |
| DrainOutcomes.EveryWriteIsAnswered | lib/write.js:3-21 | at every step, for the writes of the program and of called listeners: those that find an open, errorless connection full park, all others are answered, with a failure if and only if the connection is not open or the write threw |
| DrainOutcomes.FlagsIff | lib/client.js:303-404 | closed, errored and finished each hold if and only if that has happened |
| DrainOutcomes.OpenIff | lib/write.js:5-7 | the connection counts as open if and only if it was opened and neither shut nor finished since |
| DrainQueue.Client.Write | lib/write.js:3-21 | the callback is parked or answered, never both |
| DrainQueue.Client.FlushPending | lib/client.js:341-346 | every waiting callback is scheduled, in order, with the same outcome, and none is left |
| DrainQueue.Client.HandleDrainTimeout | lib/client.js:244-262 | the listener goes with the timer |
| DrainQueue.Client.Close | lib/client.js:332-346 | close flushes once; a repeated close flushes nothing |
| DrainQueue.Client.EmitDrain | lib/client.js:225-238 | the listeners present when the socket drains are called oldest first; those added meanwhile wait |
| DrainQueue.Client.Finish | lib/client.js:394-396 | drains what is left and removes every listener |
| Registry.ConnectedClientsCount | aedes.js:236-270 | in every run `connectedClients` exceeds the size of `clients` by the number of registrations that found a closed client registered, so the two agree if and only if there was none |
| Takeover.TakeoverWaitsForFinish | aedes.js:236-246 | whatever happens in between: a newcomer that finds an open client under its identifier closes it, stays out of the registry until that one has finished, then takes the place of whoever is registered by then, and the count grows only if nobody is |
| Takeover.FinishEvictsOther | lib/client.js:390-392 | `finish` takes another client out of the registry if and only if the finishing client is authorised and another one, not waiting for it, is registered under its identifier |
| Takeover.EvictionHappens | lib/client.js:390-392 | a run of five steps in which an open client is taken out of the registry like that |
| Takeover.CountGoesWrong | aedes.js:236-251 | a run of five steps after which `connectedClients` is two and one client is registered |
| Takeover.UnfinishedIff | aedes.js:236-256 | at every moment of a run all registered clients are unfinished if and only if no step of it registers a client that has finished already |
| Takeover.FinishedClientStays | aedes.js:243-256 | a run in which a finished client is registered, and neither closing nor finishing it removes it |
| Takeover.AnnouncedClientLeaves | aedes.js:174-189 | another broker announces a client, in any run: nobody here is left alone; a closed holder leaves the registry; an open one is closed, and its `finish` takes it out and nobody else |
| RegistryHistory.RegisteredIff | aedes.js:236-270 | a client holds the place of its identifier if and only if it registered while the place was free or its holder closed, or was let in by the `finish` it waited for, and the place was not given away or vacated since |
| RegistryHistory.ClosedIff | aedes.js:236-246 | a client is closed if and only if it was closed itself, by a newcomer of its identifier, or by an announcement; and finished if and only if its `finish` was due once |
| Registry.RunsKeep | aedes.js:258-270 | in every run each entry is an authorised client under its own identifier, and at most one newcomer, of that same identifier, waits for a closing client |
| Registry.Broker.RegisterClient | aedes.js:236-246 | registers at once, or after the close of the present holder |
| Registry.Broker.Finish | lib/client.js:390-403 | unregisters by identifier, then lets the waiting newcomer in |
| Registry.Broker.CloseSameClients | aedes.js:174-189 | a takeover by another broker closes the client, or removes it when it is closed already |
| Subscribe.SubackAligned | lib/handlers/subscribe.js:195-207 | whatever the order of the answers: one SUBACK, exactly when every filter finished without error, with one code per filter: 128 if denied, the requested QoS otherwise |
| Subscribe.SubackFitsPacketIff | lib/handlers/subscribe.js:67-83 | SUBACK has as many codes as the packet has filters if and only if no filter is requested twice, and then they are in the order of the packet |
| Subscribe.DedupeKeepsIffDistinct | lib/handlers/subscribe.js:67-78 | the deduplication changes nothing if and only if the topics are distinct, and otherwise shortens the list |
| Subscribe.DeniedByVerdict | lib/handlers/subscribe.js:124-129 | a filter counts as denied if and only if its authorisation denied it in the course of the run |
| Subscribe.SubackIff | lib/handlers/subscribe.js:80-98 | SUBACK goes out if and only if every filter has been denied or been taken by the emitter |
| Subscribe.AddedAfterStored | lib/handlers/subscribe.js:124-139 | the emitter takes a filter only after it was granted and, on a persistent session, stored since |
| Subscribe.GrantedFilterFinishes | lib/handlers/subscribe.js:100-104 | in any state a filter that is granted finishes when storage and the emitter answer well |
| Subscribe.RejectedFilterFails | lib/handlers/subscribe.js:106-139 | a filter that the validation, storage or the emitter rejects fails |
| Subscribe.DedupeKeepsLastRequest | lib/handlers/subscribe.js:67-78 | one entry per requested topic, holding the last request for it |
| Subscribe.LastRequestIsLast | lib/handlers/subscribe.js:67-73 | the entry of a topic is a request of the packet after which that topic does not occur |
| Subscribe.Dedupe | lib/handlers/subscribe.js:67-78 | the two loops compute that list |
| SubscriptionTable.TableAgreesWithEmitter | lib/handlers/subscribe.js:142-186 | through subscribing, resubscribing, unsubscribing and closing: with no removal under way the listeners are exactly the table's entries, each with its recorded function |
| SubscriptionTable.CloseRemovesEverything | lib/client.js:351-356 | a closed client has no listener left, and no entry once the emitter has answered, because every stored filter passes the validation again |
| SubscriptionTable.RunsKeepInv | lib/handlers/unsubscribe.js:53-74 | the same with removals under way: an entry on its way out has no listener, every other one exactly one |
| SubscriptionTable.AddingALeavingFilterBreaksAgreement | lib/handlers/unsubscribe.js:58-70 | without the hypothesis the answer of the removal deletes the new entry: the client is not subscribed, or keeps a listener its table does not know |
| SubscriptionHistory.AddTakesEffect | lib/handlers/subscribe.js:170-186 | a valid filter on an open client, its removal not under way: it is in the table with its options and has exactly one listener, a new one unless the options were equal; other filters are left alone |
| SubscriptionHistory.AddIsRefused | lib/handlers/subscribe.js:105-174 | a closed client, and a filter that fails the validation, change nothing |
| SubscriptionHistory.RepeatedCloseIsIdle | lib/client.js:303-309 | closing a second time unsubscribes nothing |
| SubscriptionHistory.ListensToWhatItAskedFor | lib/handlers/subscribe.js:142-186 | over disciplined runs a filter is listened to if and only if it was asked for, valid and on an open client, and neither unsubscribed nor the client closed since |
| SubscriptionHistory.OptionsAreTheLast | lib/handlers/subscribe.js:176-186 | and its options are those of the last time it was asked for |
| SubscriptionHistory.SubscribeRoundTrip | lib/handlers/unsubscribe.js:53-74 | subscribing to a new filter and unsubscribing from it leave nothing behind once the emitter has answered |
| SubscriptionHistory.ClosedIff | lib/client.js:351-356 | the client is closed if and only if `close` was called |
| SubscriptionTable.Client.AddSub | lib/handlers/subscribe.js:142-186 | one new listener for a new filter, an exchange for changed options, nothing for equal ones, nothing on a closed client |
| SubscriptionTable.Client.DoUnsubscribe | lib/handlers/unsubscribe.js:53-74 | the listener goes at once, the entry with the emitter's answer |
| SubscriptionTable.Client.RemovalAnswered | lib/handlers/unsubscribe.js:63-70 | deletes the entry of that filter, whichever it is by then |
| SubscriptionTable.Client.Close | lib/handlers/unsubscribe.js:19-42 | all keys are unsubscribed, or none if one fails the validation |
| Combinators.ParallelCallsDoneOnce | lib/utils.js:96-119 | `done` is called at most once: with the first error, or without one if and only if every item has answered |
| Combinators.ParallelState | lib/utils.js:105-115 | where the combinator stands after any history of answers, in closed form |
| Combinators.AnsweringTwiceCompletesEarly | lib/utils.js:105-115 | an item that answers twice completes the whole without the other |
| Combinators.SeriesStopsAtFirstError | lib/utils.js:85-94 | action i + 1 starts exactly when the first i + 1 succeeded, and `done` is called once, with the error or after the last |
| Combinators.LaunchCallsOncePerItem | lib/utils.js:116-118 | the callbacks that come inside the launching loop are at most one per item |
| Combinators.ParallelRun.Cb | lib/utils.js:105-115 | the counter closes over the launch and any later callback |
| Combinators.ParallelRun.LaunchAll | lib/utils.js:116-118 | items that call back inside the loop give the same state as if they had called back in that order later |
| Combinators.SeriesRun.NextAction | lib/utils.js:89-92 | starts the next action or calls `done` |
| TopicScan.ScanAgainstGrammar | lib/utils.js:34-56 | a filter is valid by section 4.7.1 if and only if the scan passes it and no wildcard sits at index 1 after something else than `/`, or just before a last character that is not `/` |
| TopicScan.ScanAcceptsInvalidFilters | lib/utils.js:36-49 | `a#` and `+a` pass and are not valid |
| TopicScan.LevelsArePositions | lib/utils.js:38-56 | the level-wise grammar and the position-wise one are the same, for every suffix of a filter |
| TopicScan.ValidFilterByPosition | lib/utils.js:38-56 | valid if and only if each wildcard's neighbours allow it |
| TopicScan.TopicLevelCount | lib/utils.js:14-21 | counting separators gives the number of levels obtained by splitting |
| TopicScan.ValidateTopic | lib/utils.js:23-57 | accepted if and only if non-empty, within the level limit and passed by the scan; each error exactly when its cause holds, and the scan's errors name the first character that fails |
| Heartbeat.EvictionIsSound | aedes.js:123-126 | with a clock that does not go back, the check of a will passes if and only if its broker has no heartbeat in the last three intervals, as if the whole history had been kept |
| Heartbeat.SweepPublishesIff | aedes.js:138-148 | a sweep publishes a will if and only if its broker had no heartbeat in the three intervals before the sweep, and none in those before the will is checked |
| Heartbeat.KeptOrSilent | aedes.js:138-143 | the kept time is the last heartbeat; a missing broker has been silent for three intervals |
| Heartbeat.RegularBeaterKeepsItsWill | aedes.js:156-159 | a broker that beats again within three intervals of each beat never has its will published, however the sweeps fall |
| Heartbeat.ClockGoingBackPublishes | aedes.js:138-143 | a clock that goes back makes an evicted broker look dead at a time when it was alive |
| Heartbeat.Broker.StoreBroker | aedes.js:156-159 | the latest heartbeat replaces the earlier one |
| Heartbeat.Broker.DeleteOldBrokers | aedes.js:138-143 | whatever the order of the keys, exactly the silent brokers are deleted |
| Heartbeat.Broker.CheckWill | aedes.js:122-126 | the decision about one will |

## Left out

- Sockets, streams, the packet parser and serialiser, and the bodies of the emitter, the topic matcher and the persistence library: only the contracts above.
- The hooks `preConnect`, `authenticate`, `authorizePublish`, `authorizeSubscribe`, `authorizeForward`, `published`: arbitrary answers; that they may rewrite packets is not modelled, except that `authorizeSubscribe` keeps the topic.
- Payloads, `$SYS` notifications, event listeners and logging.
- The receive side of QoS 0 and 1, PINGREQ, retained messages, bridge mode, retain-as-published, broker shutdown.
- QoS downgrade on delivery, DUP on resend, and the maximum QoS over overlapping filters: the code does not do what the standard asks there.
- Arrival order between packets queued before CONNACK and packets parsed after it.
- `runFall`, `once` and `batch`, and the streaming of wills in `_clearWills` beyond the decision about one will.
- JavaScript's key order for topics that look like integers: `Subscribe.Dedupe` assumes insertion order, while the deduplication theorem does not mention the order.
- OutboundSession.Session.DeliverQoS: on a clean session a delivery is a direct write, because nothing is stored for it; the clear after a refusal takes effect within the same step; retained messages, which are written without a storage call, are not modelled.
- OutboundReplay.ReplayCompletes: the stream is worked through item by item; its internal buffering is not modelled, and entries enqueued after it was opened are not part of it.
- DeliveryFilter.Subscriber.BrokerBorn: the code resets the clients in `clients` only, and a client listens (lib/handlers/connect.js:184-192) before it is registered; a birth in between does not reach it, and messages of the reborn broker with low counters are then duplicates for it. Registration is not part of this filter.
- OutboundSession.NoLoss: a replay whose connection was replaced goes no further than the storage call that was under way; acknowledgements arriving on a replaced connection act on the queue like those of the current one, and their failure is taken to end the current one.
- Lifecycle.Client.Finish: the registry and the drain of the socket, in the same function of the program, are modelled in `Registry` and `DrainQueue`; a callback of `close` that calls back into the client is not.
- Lifecycle.WillSettled: storage calls answer in the order of their issue, and no other connection uses the client identifier.
- Lifecycle.Client.Close: the drain part of `close` is modelled in `DrainQueue`; whether anything is to be unsubscribed is a flag here, and that every filter can be unsubscribed is proved in `SubscriptionTable`.
- OutboundIds.DisciplinedIffSpaced: live deliveries on a clean session use up identifiers without storing anything; the exactness is stated for runs without them, the sufficiency (`SpacedRunIsDisciplined`) for all runs.
- Heartbeat.SweepPublishesIff: the decision of one sweep about one will; that `authorizePublish` may refuse it, and what several brokers that sweep at the same time do, is not modelled.
- DrainQueue.Client.EmitDrain: callbacks called by the emit may write, not close the client.
- Registry.RunsKeep: the client identifier is fixed when the client is authenticated; the announcements a broker makes to itself are ignored by the code and are no steps here.
- Subscribe.SubackAligned: a filter whose client closed while it was being authorised never answers, as in the code; the restored-session path sends no SUBACK and is not modelled here.
- SubscriptionTable.TableAgreesWithEmitter: adding to the emitter is taken to succeed; the level limit is the same at both ends.
- WriteAhead.EnqueuedBeforeDelivered: one connection of one persistent client; which filter matches which topic is a parameter; the QoS of the message is taken to be 1 or 2; authorisation is decided when a SUBSCRIBE arrives; a rejected storage call leaves its chain under way for the rest of the connection, so nothing is claimed for later messages delivered through its filters; an unsubscription by the broker itself, which stores nothing, only drops listeners.
