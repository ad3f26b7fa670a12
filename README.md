# Durable redelivery for persistent application sessions

This project models `ApplicationPersistenceProcessorImpl`, the TBMQ broker component that
redelivers persisted messages to MQTT "application" clients (persistent sessions) and tracks
their acknowledgements. Per client session it runs one processing task. The task loads the
client's persisted context, seeds the session's packet-id sequence and opens a consumer on the
client's log partition. Then it loops:

- poll a batch;
- build a round (reused or fresh packet ids, duplicate flags, PUBLISH messages by offset, then
  the carried-over PUBREL obligations by offset);
- deliver the round;
- await the acknowledgements;
- let the ack strategy either commit the round or narrow it for another attempt.

Every side effect is guarded by the session-liveness check `isClientConnected`. The processor
also keeps a registry of round contexts and tasks per client. The registry routes
PUBACK/PUBREC/PUBCOMP to the active round and supports stop, clear and shutdown.

Modules:

- `Messages`: the values (log records, round messages, packets, the persisted context) and
  `IsClientConnected`.
- `PacketIds`: the wrapping 16-bit id sequence and the `MsgIdSeq` object.
- `Ordering`: the stable sort by log offset.
- `RoundBuild`: id assignment, the merged round list, and the enumeration of persisted PUBREL
  obligations.
- `Pipeline`: one processing run as a state machine over values. There is one step function
  for each of the three places the loops can be: `PollNext`, `DeliverNext` and `DecideNext`.
  Folds over event sequences state the properties that span many steps.
  `PollNext` follows the code as written. `PollNextFixed` is the corrected step of the finding
  below; only the lemmas about that finding use it.
- `PersistenceProcessor`: the imperative layer.
  - `Processor` holds the two concurrent maps as `map` fields. It also keeps the traces of
    delivery-service calls (`sent`) and of other collaborator calls (`calls`).
  - `PackContext`, `PubRelSink` and `Consumer` are its collaborators.
  - `PersistedMsgsRun` is one run. Its three step methods are each proved equal to the
    matching `Pipeline` function.

The source's two nested `while` loops run until the session goes away. They become that state
machine, driven one step at a time by the environment:

- the outcome of each `isClientConnected` call is a `ClientProbe` argument;
- the poll result is an argument;
- the ack strategy's decision is an argument.

The interrupt flag is modelled as written: `Thread.interrupted()` clears it. So the re-check
before `consumer.commit()` can succeed right after the loop was left because of an interrupt.
`DeliverNext` and `DecideNext` state exactly when that commit happens.
`UndeliveredBatchCommitted` shows the consequence: a batch can be committed without any of
its messages having been sent.

## Model

| member | source | states |
|---|---|---|
| Messages.Delivery | application/src/main/java/org/thingsboard/mqtt/broker/service/mqtt/persistence/application/ApplicationPersistenceProcessorImpl.java:255-269 | the delivery callback keeps the message's packet id; a PUBREL message becomes a PUBREL packet and vice versa; a PUBLISH keeps topic, QoS, dup flag and payload |
| Messages.PersistedMsgCtx.MsgPacketId | application/src/main/java/org/thingsboard/mqtt/broker/service/mqtt/persistence/application/ApplicationPersistenceProcessorImpl.java:229 | an id is found exactly when the offset has one recorded, and it is the recorded one |
| PacketIds.NextId | application/src/main/java/org/thingsboard/mqtt/broker/service/mqtt/persistence/application/ApplicationPersistenceProcessorImpl.java:230 | the next id is always in 1..65535, is one more than the last id below 65535, and wraps from 65535 to 1 |
| PacketIds.IdAfterShift | application/src/main/java/org/thingsboard/mqtt/broker/service/mqtt/persistence/application/ApplicationPersistenceProcessorImpl.java:230 | drawing one id and then n more is the same as drawing n + 1 ids |
| PacketIds.IdAfterClosedForm | application/src/main/java/org/thingsboard/mqtt/broker/service/mqtt/persistence/application/ApplicationPersistenceProcessorImpl.java:230 | the n-th id drawn after `last` is (last + n - 1) mod 65535 + 1 |
| PacketIds.FreshIdsDistinct | application/src/main/java/org/thingsboard/mqtt/broker/service/mqtt/persistence/application/ApplicationPersistenceProcessorImpl.java:230 | among up to 65535 consecutive draws no two ids collide |
| PacketIds.MsgIdSeq.UpdateMsgIdSequence | application/src/main/java/org/thingsboard/mqtt/broker/service/mqtt/persistence/application/ApplicationPersistenceProcessorImpl.java:194 | the sequence continues after the persisted context's last packet id |
| PacketIds.MsgIdSeq.NextMsgId | application/src/main/java/org/thingsboard/mqtt/broker/service/mqtt/persistence/application/ApplicationPersistenceProcessorImpl.java:230 | hands out NextId of the last id and remembers it as the new last id |
| Ordering.SortByOffsetCorrect | application/src/main/java/org/thingsboard/mqtt/broker/service/mqtt/persistence/application/ApplicationPersistenceProcessorImpl.java:239 | sorting by offset yields a list in non-decreasing offset that is a permutation of its input |
| Ordering.InsertByOffsetSorted | application/src/main/java/org/thingsboard/mqtt/broker/service/mqtt/persistence/application/ApplicationPersistenceProcessorImpl.java:239 | inserting one message into an offset-ordered list keeps it ordered; the new head is that message or the old head |
| Ordering.InsertByOffsetAdds | application/src/main/java/org/thingsboard/mqtt/broker/service/mqtt/persistence/application/ApplicationPersistenceProcessorImpl.java:239 | inserting adds exactly that message and loses none |
| Ordering.InsertByOffsetWithOffset | application/src/main/java/org/thingsboard/mqtt/broker/service/mqtt/persistence/application/ApplicationPersistenceProcessorImpl.java:239 | an inserted message goes in front of all messages of its own offset and moves none of the others of any offset |
| Ordering.SortByOffsetStable | application/src/main/java/org/thingsboard/mqtt/broker/service/mqtt/persistence/application/ApplicationPersistenceProcessorImpl.java:239-244 | the sort is stable: for every offset, the messages with that offset come out in the order they went in |
| Ordering.SortByOffsetKeepsSorted | application/src/main/java/org/thingsboard/mqtt/broker/service/mqtt/persistence/application/ApplicationPersistenceProcessorImpl.java:239 | a list already in offset order, as a poll returns the log, is left unchanged by the sort |
| RoundBuild.AssignPacketIds | application/src/main/java/org/thingsboard/mqtt/broker/service/mqtt/persistence/application/ApplicationPersistenceProcessorImpl.java:227-238 | one PUBLISH per polled record, in the same order (its contents are stated by AssignPacketIdsAt) |
| RoundBuild.AssignPacketIdsAt | application/src/main/java/org/thingsboard/mqtt/broker/service/mqtt/persistence/application/ApplicationPersistenceProcessorImpl.java:227-238 | the i-th PUBLISH keeps record i's offset, topic, QoS and payload; it reuses the stored id for that offset, and only then is it a duplicate; otherwise its id is the one drawn after the fresh records before it |
| RoundBuild.AssignPacketIdsLastId | application/src/main/java/org/thingsboard/mqtt/broker/service/mqtt/persistence/application/ApplicationPersistenceProcessorImpl.java:230 | after a batch the sequence has advanced by exactly one id per record without a stored id |
| RoundBuild.FreshPacketIdsDistinct | application/src/main/java/org/thingsboard/mqtt/broker/service/mqtt/persistence/application/ApplicationPersistenceProcessorImpl.java:230 | two fresh records of one batch get different ids unless the batch needs more than 65535 fresh ids |
| RoundBuild.ReplayIsStable | application/src/main/java/org/thingsboard/mqtt/broker/service/mqtt/persistence/application/ApplicationPersistenceProcessorImpl.java:229-231 | a batch whose offsets all have stored ids draws no id; every message gets its stored id and is marked duplicate |
| RoundBuild.RoundMessages | application/src/main/java/org/thingsboard/mqtt/broker/service/mqtt/persistence/application/ApplicationPersistenceProcessorImpl.java:239-246 | the list given to init has one entry per PUBLISH and per PUBREL message (its layout is stated by RoundMessagesLayout) |
| RoundBuild.RoundMessagesLayout | application/src/main/java/org/thingsboard/mqtt/broker/service/mqtt/persistence/application/ApplicationPersistenceProcessorImpl.java:239-246 | the list given to init holds exactly the PUBLISH and PUBREL messages; all PUBLISH messages come first; each part is in non-decreasing offset and is a permutation of its input |
| RoundBuild.PubRelMessages | application/src/main/java/org/thingsboard/mqtt/broker/service/mqtt/persistence/application/ApplicationPersistenceProcessorImpl.java:206-208 | one PUBREL message per persisted (offset, packet id) entry, each entry exactly once, in some order |
| Pipeline.StartCommitted | application/src/main/java/org/thingsboard/mqtt/broker/service/mqtt/persistence/application/ApplicationPersistenceProcessorImpl.java:200-204 | after startup an offset is always committed; an existing committed offset is kept, and a missing one becomes the end offset |
| Pipeline.PollNext | application/src/main/java/org/thingsboard/mqtt/broker/service/mqtt/persistence/application/ApplicationPersistenceProcessorImpl.java:211-249 | one outer-loop step as written: a disconnected check stops the run and closes the consumer; a failed poll, or an empty poll with no PUBREL waiting, changes nothing; an empty poll with PUBRELs waiting but nothing committed yet also changes nothing (get(0) throws); otherwise a round is built, with ids advanced by the fresh count and the carry-over emptied; the first non-empty batch read before any commit commits its first offset, and the committed offset changes in no other way; a connected poll moves the read position to the batch's last record (an empty batch leaves it) and leaves the consumer open |
| Pipeline.PollNextFixed | application/src/main/java/org/thingsboard/mqtt/broker/service/mqtt/persistence/application/ApplicationPersistenceProcessorImpl.java:215-249 | the same step as evidently intended: an empty poll with PUBRELs waiting always builds a round; the first-message commit, the read position and the open consumer are as in PollNext |
| Pipeline.PollNextFixedDiffers | application/src/main/java/org/thingsboard/mqtt/broker/service/mqtt/persistence/application/ApplicationPersistenceProcessorImpl.java:215-223 | the as-written step and the corrected step differ exactly on a connected empty poll with PUBRELs waiting and nothing committed yet |
| Pipeline.PollStopsIffDisconnected | application/src/main/java/org/thingsboard/mqtt/broker/service/mqtt/persistence/application/ApplicationPersistenceProcessorImpl.java:310-315 | the run stops exactly when the thread was interrupted, the client is on another session, or its session is not CONNECTED |
| Pipeline.Deliveries | application/src/main/java/org/thingsboard/mqtt/broker/service/mqtt/persistence/application/ApplicationPersistenceProcessorImpl.java:255-269 | each pending message is delivered exactly once, in the order of the round list |
| Pipeline.DeliverNext | application/src/main/java/org/thingsboard/mqtt/broker/service/mqtt/persistence/application/ApplicationPersistenceProcessorImpl.java:250-271 | while connected, every pending message is sent once and the round awaits acks; otherwise nothing is sent and the loop is left; when the loop is left and the later re-check sees the session connected, consumer.commit() runs (CommitAll); in every other case the consumer is unchanged |
| Pipeline.Retained | application/src/main/java/org/thingsboard/mqtt/broker/service/mqtt/persistence/application/ApplicationPersistenceProcessorImpl.java:284 | the narrowed round holds exactly the pending messages whose packet id is in the reprocess map |
| Pipeline.RetainedAppend | application/src/main/java/org/thingsboard/mqtt/broker/service/mqtt/persistence/application/ApplicationPersistenceProcessorImpl.java:284 | narrowing a round list narrows its PUBLISH part and its PUBREL part separately |
| Pipeline.RetainedKeepsSorted | application/src/main/java/org/thingsboard/mqtt/broker/service/mqtt/persistence/application/ApplicationPersistenceProcessorImpl.java:284 | narrowing keeps the messages in offset order |
| Pipeline.RetryRoundKeepsLayout | application/src/main/java/org/thingsboard/mqtt/broker/service/mqtt/persistence/application/ApplicationPersistenceProcessorImpl.java:284 | a narrowed round still has its PUBLISH messages first and its PUBREL messages after, each part in offset order |
| Pipeline.LeaveRounds | application/src/main/java/org/thingsboard/mqtt/broker/service/mqtt/persistence/application/ApplicationPersistenceProcessorImpl.java:288-291 | leaving the round loop returns to polling; when the session is seen connected consumer.commit() runs (CommitAll), so the committed offset becomes just after the last record read; otherwise the consumer is unchanged; nothing else changes |
| Pipeline.CommitAll | application/src/main/java/org/thingsboard/mqtt/broker/service/mqtt/persistence/application/ApplicationPersistenceProcessorImpl.java:290 | commit() commits the position after the last record read, and nothing when nothing was read |
| Pipeline.DecideNext | application/src/main/java/org/thingsboard/mqtt/broker/service/mqtt/persistence/application/ApplicationPersistenceProcessorImpl.java:280-291 | a commit decision leaves the round loop and runs consumer.commit() only if the session is still connected; any other decision starts another round of exactly the reprocessed messages, without polling and without committing |
| Pipeline.CommittedRoundCommitsBatch | application/src/main/java/org/thingsboard/mqtt/broker/service/mqtt/persistence/application/ApplicationPersistenceProcessorImpl.java:213-291 | a connected poll of a non-empty batch, a connected delivery and a commit decision seen connected commit up to and including the batch's last record |
| Pipeline.UndeliveredBatchCommitted | application/src/main/java/org/thingsboard/mqtt/broker/service/mqtt/persistence/application/ApplicationPersistenceProcessorImpl.java:213-291 | a non-empty batch is polled, the round loop's check fails and the later re-check succeeds: the batch is committed with nothing sent |
| Pipeline.StoppedIsFinal | application/src/main/java/org/thingsboard/mqtt/broker/service/mqtt/persistence/application/ApplicationPersistenceProcessorImpl.java:211 | once the outer loop has exited, no later event changes the state or sends anything |
| Pipeline.FirstMsgCommittedOnce | application/src/main/java/org/thingsboard/mqtt/broker/service/mqtt/persistence/application/ApplicationPersistenceProcessorImpl.java:218-223 | over any run the first-message commit happens at most once, and never after it has happened |
| Pipeline.CarriedPubRelsInitOnce | application/src/main/java/org/thingsboard/mqtt/broker/service/mqtt/persistence/application/ApplicationPersistenceProcessorImpl.java:243-249 | the carried-over PUBREL messages enter the list given to init in at most one round of a run |
| Pipeline.PubRelsStuckAsWritten | application/src/main/java/org/thingsboard/mqtt/broker/service/mqtt/persistence/application/ApplicationPersistenceProcessorImpl.java:215-223 | as written: with PUBRELs carried over, nothing committed yet and only empty polls, any number of iterations leaves the state unchanged |
| Pipeline.EmptyPollBuildsPubRelRound | application/src/main/java/org/thingsboard/mqtt/broker/service/mqtt/persistence/application/ApplicationPersistenceProcessorImpl.java:215-249 | once the first message is committed, an empty poll with PUBRELs waiting builds a round of exactly those PUBRELs, by offset |
| Pipeline.EmptyPollBuildsPubRelRoundFixed | application/src/main/java/org/thingsboard/mqtt/broker/service/mqtt/persistence/application/ApplicationPersistenceProcessorImpl.java:215-249 | corrected: an empty poll with PUBRELs waiting builds a round of exactly those PUBRELs, by offset, whether or not anything was committed |
| Pipeline.PubRelsRedelivered | application/src/main/java/org/thingsboard/mqtt/broker/service/mqtt/persistence/application/ApplicationPersistenceProcessorImpl.java:215-269 | corrected: with PUBRELs carried over, the first poll builds a round and the next delivery sends a PUBREL for every carried-over obligation, without committing |
| PersistenceProcessor.PublishPending | application/src/main/java/org/thingsboard/mqtt/broker/service/mqtt/persistence/application/ApplicationPersistenceProcessorImpl.java:251-252 | the new context's pending PUBLISH map, by packet id, covers every PUBLISH of the round and holds only those |
| PersistenceProcessor.PubRelPending | application/src/main/java/org/thingsboard/mqtt/broker/service/mqtt/persistence/application/ApplicationPersistenceProcessorImpl.java:251-253 | the new context's pending PUBREL map, by packet id, covers every PUBREL of the round and holds only those |
| PersistenceProcessor.ShutdownProgressStep | application/src/main/java/org/thingsboard/mqtt/broker/service/mqtt/persistence/application/ApplicationPersistenceProcessorImpl.java:319-324 | visiting one more registered client removes its context and appends its cancel and save to the calls, keeping the record of what destroy has done accurate |
| PersistenceProcessor.PubRelSink.Add | application/src/main/java/org/thingsboard/mqtt/broker/service/mqtt/persistence/application/ApplicationPersistenceProcessorImpl.java:249-251 | the PUBREL collection a round context fills has set semantics |
| PersistenceProcessor.PackContext.constructor | application/src/main/java/org/thingsboard/mqtt/broker/service/mqtt/persistence/application/ApplicationPersistenceProcessorImpl.java:251-253 | the new round context tracks the round's PUBLISH and PUBREL messages and shares the fresh PUBREL collection |
| PersistenceProcessor.PackContext.OnPubAck | application/src/main/java/org/thingsboard/mqtt/broker/service/mqtt/persistence/application/ApplicationPersistenceProcessorImpl.java:114 | a PUBACK resolves the PUBLISH with that id |
| PersistenceProcessor.PackContext.OnPubRec | application/src/main/java/org/thingsboard/mqtt/broker/service/mqtt/persistence/application/ApplicationPersistenceProcessorImpl.java:127 | a PUBREC resolves the PUBLISH with that id and records its PUBREL obligation for the next round |
| PersistenceProcessor.PackContext.OnPubComp | application/src/main/java/org/thingsboard/mqtt/broker/service/mqtt/persistence/application/ApplicationPersistenceProcessorImpl.java:138 | a PUBCOMP resolves the PUBREL with that id |
| PersistenceProcessor.PackContext.Clear | application/src/main/java/org/thingsboard/mqtt/broker/service/mqtt/persistence/application/ApplicationPersistenceProcessorImpl.java:281 | a committed round's context tracks nothing any more |
| PersistenceProcessor.Consumer.Poll | application/src/main/java/org/thingsboard/mqtt/broker/service/mqtt/persistence/application/ApplicationPersistenceProcessorImpl.java:214 | a poll moves the read position to the batch's last record |
| PersistenceProcessor.Consumer.CommitAt | application/src/main/java/org/thingsboard/mqtt/broker/service/mqtt/persistence/application/ApplicationPersistenceProcessorImpl.java:203 | commit(partition, offset) sets the committed offset and nothing else |
| PersistenceProcessor.Consumer.Commit | application/src/main/java/org/thingsboard/mqtt/broker/service/mqtt/persistence/application/ApplicationPersistenceProcessorImpl.java:290 | commit() commits everything read so far |
| PersistenceProcessor.Consumer.UnsubscribeAndClose | application/src/main/java/org/thingsboard/mqtt/broker/service/mqtt/persistence/application/ApplicationPersistenceProcessorImpl.java:305 | the consumer is closed and nothing else changes |
| PersistenceProcessor.Processor.ProcessPubAck | application/src/main/java/org/thingsboard/mqtt/broker/service/mqtt/persistence/application/ApplicationPersistenceProcessorImpl.java:107-116 | with a registered context the PUBACK resolves that PUBLISH; without one, nothing at all changes (the frame is only that context) |
| PersistenceProcessor.Processor.ProcessPubRec | application/src/main/java/org/thingsboard/mqtt/broker/service/mqtt/persistence/application/ApplicationPersistenceProcessorImpl.java:118-129 | without a registered context exactly one PUBREL for that packet id is sent to the session; with one, nothing is sent and the context resolves the PUBLISH and records the PUBREL obligation |
| PersistenceProcessor.Processor.ProcessPubComp | application/src/main/java/org/thingsboard/mqtt/broker/service/mqtt/persistence/application/ApplicationPersistenceProcessorImpl.java:131-140 | with a registered context the PUBCOMP resolves that PUBREL; without one, nothing at all changes |
| PersistenceProcessor.Processor.Deliver | application/src/main/java/org/thingsboard/mqtt/broker/service/mqtt/persistence/application/ApplicationPersistenceProcessorImpl.java:255-269 | the delivery service receives exactly the round's packets, in the order of the round list, for that session |
| PersistenceProcessor.Processor.StartProcessing | application/src/main/java/org/thingsboard/mqtt/broker/service/mqtt/persistence/application/ApplicationPersistenceProcessorImpl.java:142-156 | a new task is registered for the client, replacing any earlier one; nothing else changes |
| PersistenceProcessor.Processor.FailStartup | application/src/main/java/org/thingsboard/mqtt/broker/service/mqtt/persistence/application/ApplicationPersistenceProcessorImpl.java:150-153 | a run that fails disconnects that session with reason ON_ERROR and the fixed message |
| PersistenceProcessor.Processor.StopProcessing | application/src/main/java/org/thingsboard/mqtt/broker/service/mqtt/persistence/application/ApplicationPersistenceProcessorImpl.java:158-174 | the client leaves both maps; its task, if any, is cancelled; the removed context, or none, is saved |
| PersistenceProcessor.Processor.ClearPersistedMsgs | application/src/main/java/org/thingsboard/mqtt/broker/service/mqtt/persistence/application/ApplicationPersistenceProcessorImpl.java:176-183 | the client's consumer group is deleted and then its persisted context is cleared |
| PersistenceProcessor.Processor.ShutdownClient | application/src/main/java/org/thingsboard/mqtt/broker/service/mqtt/persistence/application/ApplicationPersistenceProcessorImpl.java:320-323 | for one client, destroy cancels the task, removes the context and saves it |
| PersistenceProcessor.Processor.ShutdownAll | application/src/main/java/org/thingsboard/mqtt/broker/service/mqtt/persistence/application/ApplicationPersistenceProcessorImpl.java:319-324 | every registered client is visited once, in some order; each loses its context and gets a cancel and a save |
| PersistenceProcessor.Processor.Destroy | application/src/main/java/org/thingsboard/mqtt/broker/service/mqtt/persistence/application/ApplicationPersistenceProcessorImpl.java:317-326 | destroy visits every registered client once, in some order, with a cancel and a save of its context; the task map stays as it is; the executor is shut down last |
| PersistenceProcessor.PersistedMsgsRun.Start | application/src/main/java/org/thingsboard/mqtt/broker/service/mqtt/persistence/application/ApplicationPersistenceProcessorImpl.java:191-208 | the sequence is seeded from the loaded context, the committed offset follows StartCommitted, and the persisted PUBREL obligations are enumerated |
| PersistenceProcessor.PersistedMsgsRun.BuildPublishes | application/src/main/java/org/thingsboard/mqtt/broker/service/mqtt/persistence/application/ApplicationPersistenceProcessorImpl.java:227-238 | the stream's mapping stage, drawing ids from the session object, produces exactly AssignPacketIds |
| PersistenceProcessor.PersistedMsgsRun.PollStep | application/src/main/java/org/thingsboard/mqtt/broker/service/mqtt/persistence/application/ApplicationPersistenceProcessorImpl.java:211-249 | one outer-loop step changes the run's state exactly as PollNext says |
| PersistenceProcessor.PersistedMsgsRun.DeliverStep | application/src/main/java/org/thingsboard/mqtt/broker/service/mqtt/persistence/application/ApplicationPersistenceProcessorImpl.java:250-269 | the run's state follows DeliverNext; a new context holding the round is registered for the client; the sent trace grows by exactly DeliverNext's packets |
| PersistenceProcessor.PersistedMsgsRun.DecideStep | application/src/main/java/org/thingsboard/mqtt/broker/service/mqtt/persistence/application/ApplicationPersistenceProcessorImpl.java:275-291 | the run's state follows DecideNext; a commit clears the round context, and any other decision leaves it as it is |

## Left out

- Threads and timing: the executor and `Future`, `Future.cancel`, `Thread.sleep` after a failed iteration, and the timeout of `ctx.await`. Cancelling a task is a `CancelTask` entry in the call trace. An interrupt appears only through `isClientConnected`'s probe. Waiting is the environment choosing when the next step happens.
- Concurrency between the acknowledgement handlers and the processing task is not modelled. Each operation runs atomically on the shared objects.
- Stats and logging (`init()`, `createApplicationProcessorStats`, `clearApplicationProcessorStats`, `stats.log`, all `log.*` calls) have no effect on the state.
- Collaborators whose code is not part of this model are given contracts:
  - `ApplicationPackProcessingContext`: pending maps keyed by packet id; a PUBREC records the PUBREL obligation in the collection the context was built with.
  - The session `MsgIdSeq`: wraps from 65535 to 1.
  - The log consumer: `commit()` commits the position after the last record read.
  - The ack and submit strategies: the decision is an argument; `process` hands every pending message to the callback once, in the order of the round list; `update` keeps the pending messages whose packet id is in the reprocess map.
  - The context store, `queueAdmin` and the disconnect actor become entries of the call trace.
- A delivery, build or strategy call throwing an exception inside the round loop is not modelled. The only exceptions modelled are a failed poll and the `get(0)` of an empty batch; both go to the catch block, which changes no state.
- `ProtoConverter.convertToPublishMsg` is taken to copy topic, QoS and payload.
- Pipeline.CarriedPubRelsInitOnce: is about the steps of the loop alone. PUBRECs that arrive during a round add new obligations to the run's current collection (`PackContext.OnPubRec` writes to the sink the run holds). The next round then takes those in. They are new obligations, not the ones carried in at the start.
- PersistenceProcessor.Processor.Destroy: the visiting order of `forEach` over the concurrent map is unspecified. The contract states only that each client is visited once, in some order; `order` is a ghost witness.
- PersistenceProcessor.PersistedMsgsRun.DecideStep: the source passes the whole reprocess map to `submitStrategy.update`; the model passes only its keys. It keeps the pending messages with those packet ids and ignores the map's values.
- Two choices follow the code: PUBREL messages come after the new PUBLISH messages (lines 241-245), and freshly drawn ids are not recorded in the persisted offset-to-id map (lines 227-238).
- Packet ids are not guaranteed unique across a round's PUBLISH and PUBREL messages, because stored and fresh ids can coincide. `RoundBuild.FreshPacketIdsDistinct` covers fresh ids only.

## Findings

| source | as written | input that shows it | evidently intended | confidence | as-written member | corrected member |
|---|---|---|---|---|---|---|
| application/src/main/java/org/thingsboard/mqtt/broker/service/mqtt/persistence/application/ApplicationPersistenceProcessorImpl.java:215-223 | when nothing has been committed yet, `publishProtoMessages.get(0)` runs even when the batch is empty but PUBREL messages are waiting; it throws, and the catch block only backs off | a run starting with one persisted PUBREL obligation and a log with no new record: every poll is empty, so the PUBREL is never sent until a new message arrives | commit the first offset only for a non-empty batch, and still build the round of waiting PUBRELs | not executed | Pipeline.PubRelsStuckAsWritten | Pipeline.PubRelsRedelivered |
