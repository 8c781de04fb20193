# ForgeLink: a Dafny model of its control engine and telemetry path

ForgeLink collects telemetry from industrial devices and sends control requests to them. This project
models the parts where order, failure and restart interact, and proves what they keep in every run.

* **Control engine.** Many `submit` calls race over an `active` registry, a durable journal and one
  queue per device. One worker per device runs entries and settles them. `Engine.dfy` is a transition
  system: one program counter per submit, worker and shutdown, one step per stretch of code in which no
  other task can be seen to act. Journal writes may fail, workers may die, shutdown may ask for a
  worker's abort and read its queue before the abort takes effect, the process may crash and reopen its
  journal, and clocks only move forward. The theorems hold for every run (`Exec(s0, actions)`) of that
  system. `EngineFile.dfy` pairs every run with what its journal file holds.
* **Journal.** `Journal.dfy` has the log format, replay, recovery, compaction and expiry as functions;
  `FileJournal.dfy` is the object that appends to the file and keeps the map in place.
* **Device queue.** `DeviceQueue.dfy` is the object with four priority levels, aging, cancellation, and
  the drain at a stop. The engine model uses it as a set from which the worker picks.
* **Telemetry.** `Pipeline.dfy` is the batching loop, `Forward.dfy` the store-and-forward loop over QoS 1
  (section 4.3.2 of MQTT 3.1.1), `ForwardProgress.dfy` what its turns get done, `Ledger.dfy` the receiver's
  account.
* **Smaller cores.** `Validate.dfy` (command parameters), `Identifiers.dfy` and `Mapping.dfy` (ids and
  sequence numbers), `ValueCodec.dfy` (bytes at the driver boundary; floats are bit patterns of section
  3.4 of IEEE 754-2019).

## How to read the engine theorems

A submit is named by its index; the receipt it creates and the queue entry it builds carry the same
name. `cells` are receipts written, `active` maps a key to the submit that registered it, `owner` (history)
to the submit that inserted its record. Three parts of the state record what happened and are read by no
step. `hist` has, among others, submits that gave up their receipt unwritten (`dropped`), entries lost with a
worker that alone knew of them (`stranded`), entries whose executor answered with the engine's own code of
a failed journal write (`imitated`) and the record a submit found in the journal (`met`). `doubts` has, per device, when a run last ended without a definite
answer. `marks` has, since the process started and per key, who inserted the record (`latest`) and who settled
it last (`last`); per submit, who has tried to settle (`tried`), whose last try missed the record because the
write failed or was given up (`failed`), and whose last try shutdown gave up (`gaveUp`); and the keys of which
a record expired or was replaced under a live request (`early`), a journal write failed (`ioFailed`), shutdown
gave a journal write up (`skipped`), or a submit reached the journal before the one it joined (`disordered`).

Eight natural claims are false of the code as written. Each has a run that shows it and an exact condition.

* A receipt somebody waits for is not always written (`EngineHang.WaiterHangs`). It is answered, or going
  to be, if and only if its registrant did not leave through one of the two branches that drop it and its
  entry was not lost with a worker (`EngineWaiters.WaiterAnsweredIff`); for a key nothing unusual happened
  to, nobody waits in vain (`EngineOwners.WaitersHaveAnOwner`).
* A receipt with a definite outcome is not always what the journal stores
  (`EngineWitness.ReceiptWithoutRecord`). `EngineMatch.ReceiptMatchesIff` says exactly when it is; while no
  record of its key expires under a live request it always is (`EngineOutcome.ReceiptMatchesJournal`).
* An Indeterminate receipt does not always mean that the journal says so too, or still shows the request as
  running: the journal may store a success (`EngineResettle.IndeterminateOverSuccess`).
  `EngineOutcome.ReceiptMatchesJournal` says exactly when they agree: unless the receipt's own try to write
  the record failed after an earlier try had reached it. They always agree for receipts a submit writes
  (`EngineOutcome.SubmitReceiptAgrees`) and those a worker writes of entries it did not adopt from a dead one
  (`EngineOutcome.WorkerReceiptAgrees`).
* A shutdown can lose an accepted entry (`EngineWitness.EntryLostAtStop`). It loses one if and only if an
  entry was in the worker's hands and in no structure when shutdown read the queue, or a worker died with one
  (`EngineShutdown.NothingLostIff`). Where no worker dies by itself, that is the moment between taking an
  entry off the queue and entering it as running (`EngineShutdown.UnseenIffPicked`).
* A device can start its next entry right after a run of unknown outcome, without the cooldown
  (`EngineWitness.DeathSkipsCooldown`): if the worker died with the run in its hands. Otherwise the cooldown
  is kept (`EngineSerial.StartsAreSerial`). A restart of the process forgets cooldowns in the same way.
* Replaying the journal file can report corruption, and the engine itself can bring that about: an entry
  settled by a worker that is aborted before the receipt is settled again by shutdown
  (`EngineResettle.SettledTwice`, `EngineResettle.FileUnreadable`). A settlement keeps the file readable if
  and only if the file holds none for the record yet (`EngineFile.FileReadableIff`,
  `JournalTheorems.SettleReplayableIff`); a run whose settlements are the first of their records leaves a
  readable file (`EngineFile.FreshRunReadable`).
* The forward loop can write a batch twice, and hold a batch whose record has already been acknowledged
  and deleted (`Forwarding.DeletedInSlot`, `Forwarding.WrittenTwice`). `Forwarding.InOnePlace` says exactly
  which batches and when.
* The ledger's observation count depends on the order of delivery exactly when two deliveries of one
  number differ in size (`Ledgers.ObservationsOrderIrrelevantIff`).

Where the code and its comments disagree the model follows the code: the ledger's watermark starts at 0,
not at -1, so number 0 always counts as a duplicate (`apps/bench/src/accounting.rs:26-40`).

## Model

| member | source | states |
|---|---|---|
| `EngineOnce.AtMostOneExecution` | crates/control-engine/src/engine.rs:461-839 | in every run, with failing writes, cancellations, aborts, worker deaths and crashes: no insertion starts the executor twice, and whoever starts it inserted the record and registered the active entry |
| `EngineOnce.NoReexecutionBeforeExpiry` | crates/control-engine/src/engine.rs:445-459 | two executions of one key, across any number of restarts, belong to two insertions of which the later happened strictly after the earlier record's expiry |
| `EngineOnce.StepOnce` | crates/control-engine/src/queue.rs:446-646 | every step keeps the invariant behind at-most-once: only accepted, unstarted entries wait, and a start belongs to an accepted entry |
| `EngineSerial.StartsAreSerial` | crates/control-engine/src/queue.rs:446-646 | whenever an executor call begins on a device, worker deaths included: all earlier calls on it are over, none has begun on it since the stop, and the whole cooldown has passed since its last run without a definite answer, if that run ended in the hands of a worker that lived to record it |
| `EngineWitness.DeathSkipsCooldown` | crates/control-engine/src/queue.rs:453-474 | in every state in which an entry runs and another is ready: if the worker dies, the device may start the other one at the same instant, however long the cooldown |
| `EngineWitness.RunsNextReached` | crates/control-engine/src/queue.rs:446-646 | such a state is reached from the start, under any cooldown |
| `EngineStop.AcceptedEntriesStayVisible` | crates/control-engine/src/queue.rs:165-184 | until shutdown reads the queue, wherever a worker can be aborted, every accepted entry has its receipt or is in the waiting levels, `running` or `draining` |
| `EnginePlaces.WrittenAtStopIff` | crates/control-engine/src/queue.rs:292-395 | in every run, once a device's stop is complete, an entry its queue ever accepted has its receipt if and only if it was not lost with a worker that died, or whose queue shutdown read, while only that worker knew of it |
| `EnginePlaces.StepPlaced` | crates/control-engine/src/queue.rs:165-184 | every step, worker deaths included, keeps: an accepted entry has its receipt or will be found by whoever is to settle it, if and only if it is not lost; and where a worker stands fixes what the queue's structures hold |
| `EngineShutdown.NothingLostIff` | crates/control-engine/src/queue.rs:317-395 | in every run, when shutdown has settled all it took, every entry ever accepted has its receipt if and only if no worker died with one before and none was in the worker's hands alone when shutdown read the queue |
| `EngineShutdown.UnseenIffPicked` | crates/control-engine/src/queue.rs:580-617 | where no worker dies by itself, that is: the worker was not between taking an entry off the queue and entering it as running |
| `EngineShutdown.ShutdownCompletes` | crates/control-engine/src/queue.rs:355-395 | once shutdown has read the queue, its own steps, a bounded number of them, bring it to its end whatever the worker does |
| `EngineWitness.EntryLostAtStop` | crates/control-engine/src/queue.rs:580-617 | a run after which shutdown is complete and an accepted entry has no receipt |
| `EnginePlaces.ReceiptsWrittenOnce` | crates/control-engine/src/queue.rs:487-527 | no step overwrites a receipt, although the drain keeps two copies of an entry and workers may die anywhere |
| `EngineStop.HonestReceipts` | crates/control-engine/src/queue.rs:678-710 | a receipt saying Timeout or Cancelled belongs to an entry whose executor never started; a started one carries the executor's answer or Indeterminate, and the latter if it was cut off |
| `EngineStop.StepStops` | crates/control-engine/src/queue.rs:601-643 | every step but a worker's own death keeps all receipts honest and leaves no entry to a next worker |
| `EngineReasons.ReasonForReceipt` | crates/control-engine/src/queue.rs:896-960 | in every run, worker deaths included, why the receipt of a request handed to a queue says what it says: success or failure only if the executor answered exactly so; Timeout only past its deadline; Indeterminate only if the executor said so, its run was cut short by a timeout or cancellation after it began, its settlement missed the disk or its worker was gone; Cancelled, where no worker dies by itself, only if it was cancelled or after a stop; and no other status |
| `EngineReasons.TimeoutsWait` | crates/control-engine/src/engine.rs:730-736 | in every run, of a request whose receipt says Timeout: as much time as its check allowed has passed since that check |
| `EngineReasons.StepReasoned` | crates/control-engine/src/queue.rs:446-646 | every step keeps those reasons for all that is picked, run, adopted, drained or settled, and leaves every record running until it has a result with a final status |
| `EngineReasons.RestartReports` | crates/control-engine/src/journal.rs:275-293 | a restart at any point of any run keeps exactly the unexpired records: unsettled ones get an Indeterminate result of their own key with code EXECUTION_INTERRUPTED, no payload and the time of the restart; settled ones are unchanged |
| `EngineBarred.PickedTooLateNeverRuns` | crates/control-engine/src/queue.rs:570-600 | in every run, a request that was cancelled, or whose deadline had passed, when its worker picked it is never executed |
| `EngineReplies.InsertMeets` | crates/control-engine/src/journal.rs:385-422 | the insert step finds a record exactly if the journal has one under the key that had not expired when the request was made, and puts a running record of the request's own hash exactly if it found none and the file could be written |
| `EngineReplies.FoundIsAnswered` | crates/control-engine/src/engine.rs:526-608 | in every run, a submit that found a record is refused if and only if the record has another hash; of its own hash, it answers with the stored result if there is one, waits if the request still runs under another submit, and otherwise says EXECUTION_INTERRUPTED |
| `EngineReplies.NothingMadeUp` | crates/control-engine/src/engine.rs:526-839 | in every run, a submit that found no record answers at once only with a rejection or an unknown outcome of its own key: with JOURNAL_UNAVAILABLE if its record was not written, with IDEMPOTENCY_RACE if another submit held the key; it is refused only after a stop |
| `EngineReplies.AnswerIsReceipt` | crates/control-engine/src/engine.rs:1158-1250 | in every run, what a submit answers at once is what the receipt it wrote says |
| `EngineKeys.ResultsStayHome` | crates/control-engine/src/queue.rs:955-960 | in every run, receipts and stored results carry the key of their own request |
| `EngineRegistry.RegistryHasOnlyLive` | crates/control-engine/src/engine.rs:526-839 | in every run, the active entry of a key is a request of that key whose submit registered it and is still at work, or has handed it to a queue where it has no receipt yet; once the receipt is written and the submit has returned the key is free |
| `EngineRegistry.StepTidy` | crates/control-engine/src/queue.rs:962-1079 | every step keeps that, and that whoever is about to publish a result has taken its key off the registry |
| `EngineWaiters.WaiterAnsweredIff` | crates/control-engine/src/engine.rs:526-608 | in every run, what somebody waits for is written, or its writer is alive or will find the entry, if and only if the registrant did not take a dropping branch and the entry was not lost with a worker |
| `EngineWaiters.GivenUpNeverWritten` | crates/control-engine/src/engine.rs:592-608 | a receipt that was dropped, or whose entry was lost with a worker, stays unwritten in every continuation of the run |
| `EngineHang.WaiterHangs` | crates/control-engine/src/engine.rs:534-546 | a concrete run after which a submit waits forever for a dropped receipt |
| `EngineOwners.WaitersHaveAnOwner` | crates/control-engine/src/engine.rs:461-839 | for every key whose registrants reach the journal first, whose journal writes succeed, no record of which expires under a live request and none of whose entries is lost with a worker, since the process started: every receipt waited for is written or its writer is alive |
| `EngineOwners.StepSettled` | crates/control-engine/src/engine.rs:610-630 | every step keeps for every such key: an unsettled record belongs to the submit that holds the key, and whoever removes the key from the registry has seen its record settled |
| `EngineMatch.ReceiptMatchesIff` | crates/control-engine/src/queue.rs:901-1079 | in every run, worker deaths included, whoever writes the receipt of a request that inserted a record: the record is its own and stores this result if and only if it was neither purged nor inserted again and the last settlement that reached it was the request's own, its last try having reached it, or wrote the same result |
| `EngineMatch.StepTold` | crates/control-engine/src/queue.rs:901-1079 | every step keeps: whoever is about to publish has seen a settlement reach its record, which if it was its own wrote this outcome; or its try missed the record and it claims nothing, unless shutdown gave the try up |
| `EngineOutcome.ReceiptMatchesJournal` | crates/control-engine/src/queue.rs:901-1079 | if no record of its key has expired under a live request since the process started, the record is still the request's own; it stores the receipt's result, or still runs and the receipt is Indeterminate, if and only if the last try reached the record, or missed it with no try before having reached it (or one that wrote the same); a definite outcome not given up is always stored; worker deaths and restarts may happen anywhere |
| `EngineOutcome.SubmitReceiptAgrees` | crates/control-engine/src/engine.rs:1158-1250 | in every run, for such a key, a receipt a submit writes is what the record stores, or is Indeterminate and the record still runs |
| `EngineOutcome.WorkerReceiptAgrees` | crates/control-engine/src/queue.rs:901-1079 | the same in every run for a receipt a worker writes of an entry it did not adopt from a dead worker |
| `EngineOutcome.UndisturbedReceiptAgrees` | crates/control-engine/src/queue.rs:901-1079 | so where no worker dies by itself, for every receipt a worker writes |
| `EngineTries.StepTries` | crates/control-engine/src/engine.rs:1158-1250 | every step keeps: a submit that has not come to settling has not tried to, and one that settled by itself tried once |
| `EngineTries.StepQueuesTry` | crates/control-engine/src/queue.rs:487-643 | every step keeps: nobody has tried to settle what a worker is still to settle, except what it adopts |
| `EngineCodes.StepCoded` | crates/control-engine/src/queue.rs:901-1079 | every step keeps: a stored result has the code of a failed write only if the executor answered with it |
| `EngineResettle.IndeterminateOverSuccess` | crates/control-engine/src/queue.rs:453-474 | a run in which a worker dies between journal and receipt and the next one's write fails: the receipt is Indeterminate, the record stores the success |
| `EngineAgree.StepGrounded` | crates/control-engine/src/engine.rs:1158-1250 | every step keeps, key by key: a live inserter still owns its record, a registrant without a record keeps its claim, and nobody whose insertion failed is about to settle a live owner's record |
| `EngineAgree.StepOwned` | crates/control-engine/src/engine.rs:1158-1250 | every step keeps, key by key: the last settlement of a live owner's record is the owner's |
| `EngineWitness.ReceiptWithoutRecord` | crates/control-engine/src/engine.rs:526-608 | a run in which a record expires under its request: the receipt claims a rejection while the record is another request's and unsettled |
| `EngineFile.FileFollows` | crates/control-engine/src/journal.rs:385-458 | with the file journal paired to every step, the map the engine sees is the map the file journal holds, and of records inserted since the last restart the file holds a settlement exactly if one reached them |
| `EngineFile.RestartReadsFile` | crates/control-engine/src/journal.rs:206-306 | the restart of the engine model is what opening the file finds, leaving out made-up completion times |
| `EngineFile.FileReadableIff` | crates/control-engine/src/journal.rs:424-441 | after a run in which the file journal settled no record twice, a further settlement, also of a record found by a restart, leaves the file readable at all later times if and only if the file holds none for that record; for one inserted since the last restart: if and only if no settlement has reached it |
| `EngineFile.FreshRunReadable` | crates/control-engine/src/journal.rs:206-306 | after a run whose settlements are each the first of a record inserted since the last restart, with restarts anywhere, the file can be opened at any later time and reports exactly the engine's unexpired records: settled ones as they are, unsettled ones Indeterminate with code EXECUTION_INTERRUPTED and no payload |
| `EngineFile.FileExists` | crates/control-engine/src/journal.rs:385-458 | every such run has a file, and so has every run without a restart |
| `EngineResettle.SettledTwice` | crates/control-engine/src/queue.rs:355-395 | a run in which shutdown overwrites a success the journal has stored: the worker was aborted between journal and receipt |
| `EngineResettle.FileUnreadable` | crates/control-engine/src/journal.rs:255-275 | after that run and shutdown's settlement every file journal's file is corrupt once the record has expired |
| `JournalTheorems.ReplayRefinesMap` | crates/control-engine/src/journal.rs:206-306 | after any inserts, settles, failed writes, purges, restarts and compactions in any order of the map, if no insert was settled twice, replaying the file later finds exactly the unexpired live records: a settled one with exactly what was settled, one that was not with an Indeterminate result of its own key, code EXECUTION_INTERRUPTED and no payload |
| `JournalTheorems.ReplayFailsIff` | crates/control-engine/src/journal.rs:206-275 | for every file: replaying fails exactly if a line does not parse or settles a key that has before it neither an unexpired record nor an expired one still waiting for its settlement, and it names the first such line |
| `JournalTheorems.SettleReplayableIff` | crates/control-engine/src/journal.rs:424-441 | a settlement keeps the file replayable at all later times if and only if the key's last insert was pending |
| `JournalTheorems.ExecHeld` | crates/control-engine/src/journal.rs:309-441 | after any operations the file holds a settlement for a record exactly if one was made since its insertion, or the file was rewritten when the map had a result for it |
| `JournalTheorems.SettledTwiceCorrupts` | crates/control-engine/src/journal.rs:255-275 | settling a record twice makes the file unreadable once the record has expired |
| `JournalTheorems.ReinsertedOnlyAfterExpiry` | crates/control-engine/src/journal.rs:385-422 | across restarts a key is inserted again only strictly after the earlier record expired |
| `JournalTheorems.CompactReplays` | crates/control-engine/src/journal.rs:309-358 | a file compacted in any order of the keys replays to the map it was written from |
| `JournalTheorems.ReopenFaithful` | crates/control-engine/src/journal.rs:206-306 | opening the file, with or without compaction, keeps file and map in agreement |
| `FileJournals.FileJournal.TryInsert` | crates/control-engine/src/journal.rs:385-422 | Duplicate with the stored record exactly if the key has an unexpired one of this hash, Conflict exactly if it has one of another hash, otherwise Inserted, or an error if the line cannot be written; only Inserted changes anything: one line at the end of the file and one running record |
| `FileJournals.FileJournal.Settle` | crates/control-engine/src/journal.rs:424-441 | a known key gets the result and its status, after one line at the end of the file; a failed write changes nothing; an unknown key is a success without effect |
| `FileJournals.FileJournal.PurgeExpired` | crates/control-engine/src/journal.rs:448-458 | keeps exactly the entries that have not expired, unchanged, counts the others, and rewrites the file only if there were some |
| `FileJournals.FileJournal.Compact` | crates/control-engine/src/journal.rs:309-358 | writes each unexpired entry once, in some order |
| `FileJournals.FileJournal.Open` | crates/control-engine/src/journal.rs:206-306 | fails exactly on a corrupt file, with the offending line; otherwise every replayed record that is not settled gets an Indeterminate result of its own key with code EXECUTION_INTERRUPTED, no payload and the time of opening, every settled one is unchanged, and the file is rewritten exactly if an expired record was skipped |
| `DeviceQueues.DeviceQueue.Enqueue` | crates/control-engine/src/queue.rs:187-215 | refuses exactly when closed or full; otherwise the entry goes to the end of its level; the counter stays the number of entries and within capacity |
| `DeviceQueues.DeviceQueue.Cancel` | crates/control-engine/src/queue.rs:237-259 | marks the first request of that name, from the lowest level up and from the head back, or else the running one, and no other; NotFound exactly when there is none |
| `DeviceQueues.DeviceQueue.Pick` | crates/control-engine/src/queue.rs:532-586 | nothing exactly when cooling or empty; otherwise the head of the level with the greatest effective priority (`EffectiveIff`), ties to the higher base; it is cancelled, expired or ready as of the moment it is taken; levels stay first in first out over all operations |
| `DeviceQueues.DeviceQueue.Scanned` | crates/control-engine/src/queue.rs:551-569 | the scan finds the level of maximal effective priority, ties to the higher base |
| `DeviceQueues.EffectiveIff` | crates/control-engine/src/queue.rs:556-569 | one level for each full aging step of nanoseconds the head has waited, up to 3, exactly while it is neither cancelled nor past its deadline; without a policy the base; the exact condition also for aging steps beyond an i64, which wrap |
| `DeviceQueues.WaitedIff` | crates/control-engine/src/queue.rs:558-562 | a head has waited at least a number of milliseconds exactly if that many nanoseconds, and no more than an i64 of them, lie between the clock and its arrival; the same for a clock that went back |
| `DeviceQueues.ChoiceUnique` | crates/control-engine/src/queue.rs:551-569 | there is only one level that can be chosen |
| `DeviceQueues.AgedBypass` | crates/control-engine/src/queue.rs:551-569 | a ready head that has waited (3 - base) x aging is passed over only for a higher level whose head has effective priority 3 too |
| `DeviceQueues.DeviceQueue.DrainFront` | crates/control-engine/src/queue.rs:487-522 | a closed queue moves all that waits behind what is being settled, lowest level first, and says exactly when nothing is left |
| `DeviceQueues.DeviceQueue.SettleTracked` | crates/control-engine/src/queue.rs:165-184 | leaves the list without its longest front part of written receipts |
| `DeviceQueues.DeviceQueue.Drain` | crates/control-engine/src/queue.rs:487-527 | the drain ends, with every entry that had no receipt settled exactly once |
| `DeviceQueues.DeviceQueue.TakeAbandoned` | crates/control-engine/src/queue.rs:355-374 | shutdown takes the running entry, all levels and the draining list, and leaves nothing |
| `Pipelines.Pipeline.Receive` | crates/data-pipeline/src/pipeline.rs:226-260 | takes the observation into its device's partial batch, which moves to the back of the outbox exactly when it is full; keeps the books, the buffer count and its bound of 16 batches |
| `Pipelines.Pipeline.Aggregate` | crates/data-pipeline/src/pipeline.rs:343-356 | adds one observation to its device and keeps the books |
| `Pipelines.Pipeline.Cut` | crates/data-pipeline/src/pipeline.rs:363-396 | a device's partial batch becomes the reference chunks and the device's next number moves past them |
| `Pipelines.Pipeline.Flush` | crates/data-pipeline/src/pipeline.rs:363-396 | in any order of the devices, all partial batches become batches behind what the outbox held, whole unless longer than the limit, and the books stay right |
| `Pipelines.Pipeline.Emit` | crates/data-pipeline/src/pipeline.rs:264-274 | the front of the outbox leaves, and `buffered` stays pending plus outbox without underflow |
| `Pipelines.Pipeline.Drain` | crates/data-pipeline/src/pipeline.rs:398-455 | a graceful stop takes the rest of the input, emits further batches in order up to the budget and drops the others only after that many |
| `Pipelines.Pipeline.Terminate` | crates/data-pipeline/src/pipeline.rs:317-340 | when the output is gone the rest of the input is taken and everything not emitted is counted as dropped |
| `Pipelines.Pipeline.DropRest` | crates/data-pipeline/src/pipeline.rs:459-487 | the rest of the outbox is dropped and counted, batch by batch and observation by observation |
| `Pipelines.Run` | crates/data-pipeline/src/pipeline.rs:175-307 | for all events: the loop sees every event up to the first that ends it, and each does what it should (`Stepped`): an ingested observation is passed over only while 16 full batches are held, a flush leaves nothing pending, a permit emits the front of the outbox; with at most that many ingestions the observations received are exactly those ingested, in order, followed by the final input; batches are non-empty, within the limit, of one device, numbered without gaps, and carry each device's arrivals in order; on a settled end every observation received is counted exactly once as emitted or dropped |
| `Pipelines.Pipeline.Wake` | crates/data-pipeline/src/pipeline.rs:203-301 | what one event does to all the loop holds: taken, flushed, emitted, settled or nothing |
| `Pipelines.ChunksGood` | crates/data-pipeline/src/pipeline.rs:363-396 | the reference chunks continue a device's numbering and respect the limit |
| `Pipelines.ChunksCarry` | crates/data-pipeline/src/pipeline.rs:363-396 | the chunks carry exactly what was cut, for that device only |
| `Pipelines.ChunksFull` | crates/data-pipeline/src/pipeline.rs:363-396 | every chunk but the last is full |
| `Pipelines.NumberedFromZero` | crates/data-pipeline/src/pipeline.rs:226-260 | of two batches of a device the later has the larger number, the next one exactly if none lies between |
| `Pipelines.Conserved` | crates/data-pipeline/src/pipeline.rs:398-487 | once nothing is held back, arrivals are the emitted and then the dropped batches, device by device, and the counters add up |
| `Forwarding.InOnePlace` | apps/collector/src/tasks.rs:435-804 | after any rounds every batch taken is recorded in the log, in the retry slot, in the lost queue or dropped; only the newest can be in hand; it is both in hand and recorded exactly if a push given up by the loop was written; a batch no longer in hand has more than one record exactly if a record of it was acknowledged and deleted while the slot held it |
| `Forwarding.LogInOrder` | apps/collector/src/tasks.rs:435-679 | after any rounds the log holds the records found at start and then the batches in order of arrival, none skipped and all but the newest for certain, and what was deleted was acknowledged |
| `Forwarding.TurnValid` | apps/collector/src/tasks.rs:460-667 | every turn keeps the accounts; once a publish was interrupted no turn hands out or deletes a record |
| `Forwarding.PushCallBooks` | crates/local-buffer/src/lib.rs:287-297 | a push keeps the accounts whether it is answered or times out and stays in the channel |
| `Forwarding.PushBooks` | crates/local-buffer/src/worker.rs:1024-1174 | whatever the buffer does with a push of the batch in hand keeps the accounts, whether or not the loop hears of it |
| `Forwarding.FlushBooks` | crates/local-buffer/src/worker.rs:916-960 | so does writing or failing a push that waited for room |
| `Forwarding.DeletedInSlot` | apps/collector/src/tasks.rs:478-534 | a turn after which a batch is acknowledged and deleted while the retry slot holds it |
| `Forwarding.WrittenTwice` | apps/collector/src/tasks.rs:478-534 | a run of three turns that writes one batch twice |
| `Forwarding.Forwarder.PushBatch` | apps/collector/src/tasks.rs:356-400 | the loop over disk errors ends as specified: stored, returned to the caller with its push possibly still queued, or, after a lasting error or too many disk errors, in the lost queue or dropped |
| `Forwarding.Forwarder.SettleLost` | apps/collector/src/tasks.rs:405-418 | into the lost queue, or dropped if that is full |
| `Forwarding.Forwarder.PublishHead` | apps/collector/src/tasks.rs:687-804 | hands out the oldest record not in flight after serving what is queued; deletes it only on acknowledgement; an interruption leaves it in flight |
| `Forwarding.Forwarder.RetryRound` | apps/collector/src/tasks.rs:478-534 | pushes the batch in the slot before anything else and publishes only while that push times out, as specified |
| `Forwarding.Forwarder.Turn` | apps/collector/src/tasks.rs:460-667 | one turn of the loop changes its variables exactly as the specification of which the accounts are proved |
| `Forwarding.Run` | apps/collector/src/tasks.rs:435-679 | a whole run in place is the run of the specification, so the places of all batches and the order of the log are right at its end |
| `ForwardProgress.TurnPublishes` | apps/collector/src/tasks.rs:548-804 | a turn that asks the buffer and is answered publishes the oldest record not in flight: acknowledged, it is deleted; refused, it stays and is put back; interrupted, it stays in flight and the loop takes no more |
| `ForwardProgress.TurnFindsNothing` | apps/collector/src/tasks.rs:548-667 | with the pipeline closed and nothing to publish, the loop ends exactly if it drains |
| `ForwardProgress.TurnTakes` | apps/collector/src/tasks.rs:548-667 | a turn that listens to the pipeline takes the next batch: it becomes the log's next record if the push lands, fills the retry slot if the push is late or stalls, and is lost or dropped if it is refused for good; at the end of the pipeline it learns so |
| `ForwardProgress.DiskErrors` | apps/collector/src/tasks.rs:356-400 | after a disk error on every one of the allowed tries the push is given up |
| `ForwardProgress.TurnRetries` | apps/collector/src/tasks.rs:478-534 | a batch in the slot is offered before anything else, and the slot is free once it is written |
| `ForwardProgress.RetryPublishes` | apps/collector/src/tasks.rs:478-534 | while it is not, the oldest record is published to make room |
| `ForwardProgress.TurnExpires` | apps/collector/src/tasks.rs:460-477 | past the drain deadline the loop ends, with the batch in the slot in the lost queue, or dropped if that is full |
| `ForwardProgress.BufferWrites` | crates/local-buffer/src/worker.rs:916-1174 | a push the loop no longer waits for is written when the buffer serves it, unless it is there already, or once there is room for it |
| `ForwardProgress.DrainCompletes` | apps/collector/src/tasks.rs:460-679 | once the pipeline has closed and a stop was asked for, more rounds with a willing broker than there are records left end the loop with every record that was ready acknowledged |
| `Ledgers.DeviceLedger.Record` | apps/bench/src/accounting.rs:39-62 | after every delivery watermark, gaps and counters agree with the plain account of all deliveries |
| `Ledgers.DeviceLedger.OpenGaps` | apps/bench/src/accounting.rs:51-54 | exactly the skipped numbers become gaps |
| `Ledgers.RecordAll` | apps/bench/src/accounting.rs:39-67 | for all deliveries the ledger agrees with the plain account, and received plus loss candidates is the watermark |
| `Ledgers.AfterAgrees` | apps/bench/src/accounting.rs:39-62 | one delivery keeps ledger and plain account in agreement, including number 0 and numbers beyond 63 bits |
| `Ledgers.NothingUncounted` | apps/bench/src/accounting.rs:64-67 | received numbers and gaps together are 1 up to the watermark |
| `Ledgers.OrderIrrelevant` | apps/bench/src/accounting.rs:26-67 | watermark, gaps and all counts but that of observations depend only on the multiset delivered |
| `Ledgers.ObservationsOrderIrrelevantIff` | apps/bench/src/accounting.rs:39-62 | the observation count is independent of the order exactly when deliveries of one number have one size |
| `Identifiers.MessageIdRoundTrip` | crates/data-pipeline/src/batch.rs:57-65 | the parser recovers session, device and sequence from every message id, whatever bytes they hold |
| `Identifiers.MessageIdInjective` | crates/data-pipeline/src/batch.rs:57-65 | different components give different message ids |
| `Identifiers.ObservationIdRoundTrip` | crates/domain-model/src/mapper.rs:99-111 | the parser recovers device, path, sequence and session from every observation id |
| `Identifiers.ObservationIdInjective` | crates/domain-model/src/mapper.rs:99-111 | different components give different observation ids |
| `Mapping.SequenceAllocator.Allocate` | crates/device-manager/src/sequence.rs:32-37 | hands out the device's next numbers and leaves other devices alone |
| `Mapping.SequenceAllocator.Reset` | crates/device-manager/src/sequence.rs:45-47 | only this device starts from 0 again |
| `Mapping.MapBatch` | crates/device-manager/src/pipeline.rs:52-134 | observations for the known items in order, or the first error (`MappedKeepsReadings`, `MappedFailsIff`); every reading consumes a number either way |
| `Mapping.MappedKeepsReadings` | crates/device-manager/src/pipeline.rs:52-90 | every reading of a known item yields one observation, in order, with the item's path, the reading's own number and the value that was read; others yield none |
| `Mapping.MappedFailsIff` | crates/device-manager/src/pipeline.rs:52-134 | a batch fails exactly if a reading of a known item has no session or a path outside the device's domain, and the first such reading decides the error |
| `Mapping.FirstSegmentEnds` | crates/domain-model/src/standard.rs:27-30 | the domain prefix of a path ends before the first dot |
| `Mapping.MappedInRange` | crates/device-manager/src/pipeline.rs:52-90 | a batch's observations are numbered upwards within the range allocated to it |
| `Mapping.SessionIdsDistinct` | crates/device-manager/src/pipeline.rs:52-134 | all observations of a session through one allocator never reset have different ids, across successful, failed and abandoned batches |
| `Mapping.RunSession` | crates/device-manager/src/pipeline.rs:52-134 | running the batches through the allocator yields exactly those observations |
| `Validate.AcceptsIff` | crates/control-engine/src/validate.rs:386-550 | with distinct field names a parameter passes all checks if and only if it fits its type without loss, at every depth |
| `Validate.LosslessIff` | crates/control-engine/src/validate.rs:401-421 | acceptance means fitting for all values of a type exactly when no struct schema in it names a field twice |
| `Validate.PresentIsOneToOne` | crates/control-engine/src/validate.rs:409-417 | equal length and every declared field present force a one-to-one correspondence of fields and values |
| `Validate.LeafIff` | crates/control-engine/src/validate.rs:507-550 | a number sent to an integer type is accepted exactly if it is an integer in range, and for floats below 2^53; float targets take exact integers and numbers that do not overflow |
| `Validate.IntegerRangeExact` | crates/control-engine/src/validate.rs:552-572 | for integer value and bounds the float fallback never changes the exact comparison |
| `Validate.WithinRangeIff` | crates/control-engine/src/validate.rs:552-601 | for every kind of value and bound: integers are compared exactly, an integer and a float as floats, an infinity lies beyond every number, and NaN or what is no number excludes nothing |
| `Validate.FloatRangeExact` | crates/control-engine/src/validate.rs:557-571 | a finite float passes finite float bounds exactly if min <= value <= max |
| `Validate.MixedRange` | crates/control-engine/src/validate.rs:557-571 | an integer against float bounds, and a float against integer bounds, goes by the rounded integer |
| `Validate.ValidateCommand` | crates/control-engine/src/validate.rs:257-349 | accepted exactly when the command exists, no name repeats, required parameters are there and no parameter has a fault (`FaultTells`); otherwise the first failing check decides, and names the first repeated name, a missing parameter or the first parameter with a fault; the payload is the parameters |
| `Validate.FindDuplicate` | crates/control-engine/src/validate.rs:269-278 | the first repeated name is found exactly if there is one |
| `Validate.FindMissing` | crates/control-engine/src/validate.rs:279-287 | the first missing required parameter is found exactly if there is one |
| `Validate.FindFault` | crates/control-engine/src/validate.rs:288-331 | the first parameter with a fault decides the error |
| `Validate.FaultTells` | crates/control-engine/src/validate.rs:288-331 | where no struct schema names a field twice, a fault says exactly this: the parameter is undeclared; it carries an infinity or NaN; it does not fit its type; it fits and is outside its range; and none of these if and only if it is accepted |
| `Validate.AcceptedParametersFit` | crates/control-engine/src/validate.rs:288-331 | every parameter of an accepted command fits the type, and lies between the bounds, of the first descriptor of its name |
| `ValueCodec.DecodeEncode` | crates/driver-abi/src/tag.rs:231-358 | for every tag but single precision, decoding an accepted encoding gives the value |
| `ValueCodec.EncodeDecode` | crates/driver-abi/src/tag.rs:231-358 | for every tag but single precision, encoding what accepted bytes decode to gives the bytes |
| `ValueCodec.LoaderRoundTrip` | crates/driver-loader/src/driver.rs:117-131 | every scalar value encodes under the loader's tag and decodes to itself; complex values have no tag |
| `ValueCodec.EncodesIff` | crates/driver-abi/src/tag.rs:231-283 | a value encodes exactly under a tag of its kind whose range it lies in; which refusal comes first |
| `ValueCodec.EncodedDigits` | crates/driver-abi/src/tag.rs:231-283 | an integer's bytes are its digits to base 256, lowest first and in two's complement, as many as its tag is wide |
| `ValueCodec.DecodesIff` | crates/driver-abi/src/tag.rs:284-358 | bytes decode exactly under a scalar tag whose length they have, a truth value being 0 or 1 and a string well-formed |
| `ValueCodec.TagRoundTrip` | crates/driver-abi/src/tag.rs:106-133 | tags and types translate into each other except the two complex types; exactly 0 to 13 are translatable |

## Left out

- Worker deaths: `AcceptedEntriesStayVisible`, `HonestReceipts`, `StepStops`, `UnseenIffPicked`, `UndisturbedReceiptAgrees` and what `ReasonForReceipt` says of cancellations assume that no worker dies by itself. While a dead worker's entries are being adopted they are in no structure, and one of them that was started can be settled as cancelled after a second death. All other engine theorems hold with deaths.
- Atomicity: a journal append takes effect whole or not at all, a compaction succeeds or has no effect, and accepting an entry and spawning a worker is one step. An abort takes effect where the worker waits, and from there the worker takes no further step.
- Late writes of an aborted settlement task, which the code describes as last writer wins.
- `submit`, the worker and shutdown are steps on values, not methods on objects: their interleaving is the subject.
- InMemoryJournal, the status query, authorization, rate limits, preconditions and audit records of the engine.
- Queue-depth gauges and all metrics: increments happen outside the locks.
- DeviceQueue.Drain: takes over a queue whose first draining entry and whose waiting entries have no receipt, which is what `EnginePlaces.StepPlaced` keeps.
- The local buffer is a contract (serve pushes in order, append idempotently by id, keep one that finds no room, hand out the oldest, delete, restore): its memory window, paging, recovery on start and its retention clean-up, which deletes unsent records by age, are not modelled. A batch is its number in order of arrival, since message ids are distinct (`Identifiers.MessageIdInjective`). A call for the next record that the buffer has not got to yet counts as failed.
- The cancellation path of the batching loop stops without an account; the model stops there too.
- Sequence numbers and counters are unbounded; the 64-bit overflow of a batch or observation number is not modelled.
- Single-precision narrowing is an arbitrary function, and rounding of integers to double precision an arbitrary monotone one.
- Hashing of payloads: the hash is an opaque string.
- REST, MQTT, SQLite, YAML and JSON, file permissions, plugin loading, property writes and their scaling, configuration checks, health snapshots and bench reports: I/O, foreign code or one-branch facts.
- Wall-clock durations and progress under the scheduler: time is a parameter, and safety is what is proved.
