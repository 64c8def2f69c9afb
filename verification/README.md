# Verification of the ACTrust device SDK's stateful components

Dafny models of the parts of the SDK that keep state across failures and threads, with proofs of what
they guarantee over whole runs:

- **Key-value store** (`Kv*.dfy`, `Crc32.dfy`). The storage region is two superblocks, an array of
  records and two journal slots. `KvDisk` gives the writes an operation plans and every way a power loss
  can cut them: before, after, or in the middle of a write, which leaves a cell whose CRC check fails.
  `KvCrash` proves atomicity and convergence of recovery, `KvHistory` that any history of operations and
  crashes is a run of a finite map, `KvFormat` what the first format survives, `KvLife` the same for a
  region's whole life from blank through openings, operations, restarts and crashes, `KvReorder` what
  happens on a device that reorders unsynced writes. `KvStore` is the store itself, updated in place under
  any script of storage faults, proved to be a run of that model. `KvCodec`, `KvImages` and `Crc32` tie cells to
  bytes.
- **Message queue** (`BoundedQueue`, `MessageQueue`, `Ring`). Two semaphores, two locks and a close
  protocol under every interleaving of any number of threads.
- **Core** (`JobPool`, `JobQueue`, `JobRing`, `CoreLifecycle`, `CoreRetry`, `CoreTeardown`, `CoreRuns`, `CoreControl`,
  `Registration`). The
  reference-counted pool, the job queue, the life of the core from init to a teardown that can fail and be
  retried at every step, and the challenge-response registration shared with the downlink task.
- **MQTT control plane** (`MqttTable`, `MqttClient`, `MqttClosing`, `MqttSenders`, `MqttTeardown`, `MqttSlots`,
  `MqttStranded`, `MqttFlow`, `MqttControl`).
  Generations, operations in flight, subscription slots with tokens, and the closing protocol, with the
  agent as an environment that may complete any operation it holds, with any status, at any time.
- **Slot store** (`SlotStore`). Replacing a file by temporary file, backup, rename and rollback, under any
  script of failing, interrupted and short system calls.
- **Release gate** (`ReleaseGate`). Two greedy matchers and the embedding relation both decide.

Protocols are state machines over their atomic sections; the proofs are invariants kept by every step and
inductions over runs. Next to each machine stands a class with the source's fields whose methods are proved
to be those steps.

## What the code does not do

Some promises one would expect are false of the code. Each has a lemma with the exact condition.

- The record and the superblock that publishes it are written without a sync between them, in a transaction
  (`source/components/kv/source/kv.c:1098-1116`) and again whenever recovery redoes one
  (`source/components/kv/source/kv.c:864-878`). On a device that may keep, lose or tear unsynced writes
  independently, an outstanding transaction survives any number of power losses if and only if the superblock
  has not outrun the record in the last one (`KvReorder.SurvivesIffOrdered`, `KvReorder.SurvivesLossesIff`). If
  it has and the record's cell is as it was, the old records come back unnoticed, and if their number is not the
  published one every later operation fails. This concerns ports of `storage.h`, whose contract leaves flushing
  to `actrust_storage_sync` (`source/adapter/include/adapter/storage.h:11-13`). The adapters that ship with the SDK
  sync inside every write and erase (`source/adapter/platform/linux/storage.c:403-407` and `445-448`), so the
  window cannot arise on them.
- A region opens if and only if it is not stuck (`KvLife.OpensExactlyUnlessStuck`). It gets stuck by a tear
  in the very first journal write (`KvFormat.TornFirstJournalIsFatal`), or by a tear that leaves foreign bytes
  at the start of superblock 0, in the first format or in any transaction that publishes that superblock
  (`KvLife.TornFirstSuperLocksOut`): recovery would accept the disk, opening refuses it for good. A device
  that tears byte by byte cannot do the latter to a formatted region (`KvCodec.MixedSuperKeepsPrefix`,
  `KvLife.ReopensForEver`), and a format cut between whole writes always opens.
- Closing the job queue is safe in every run if and only if at most one thread ever consumes
  (`JobQueue.SafeIffOneConsumer`); with any two, one can be left blocked for ever.
- Whatever has happened before, the core loses its service (it has its lock, takes posts, and nobody executes them)
  if and only if (`CoreRetry.ServiceLostIff`): with no teardown pending, the service's wait for a job fails, or it
  returns after a teardown's job; or a teardown is taken back while the service is gone, because no pool entry is
  free, because its job cannot be queued, or because the service it needs cannot be started. It stays so until a
  teardown is claimed (`CoreRetry.ServiceStaysLostIff`), and over every run the loss goes back to one such step
  (`CoreRetry.LostSince`). No callback is made meanwhile (`CoreRetry.NothingIsExecuted`).
- A teardown cannot always be resumed. With the service gone, before an attempt or between two, some run ends it if
  and only if (`CoreTeardown.TearDownIff`): it is beyond its job phase; or it is pending in state DEINIT and its
  job has succeeded, or there is a free pool entry and a free place in the queue; or the core is READY or INIT_FAILED and
  there is one of each for every job it needs, two if the service that ended or failed is still to be joined.
  Otherwise no number of attempts ever releases the lock. One queued connect and one failed wait are enough when the
  pool has one entry (`CoreRuns.NeverTornDownIsReachable`).
- A subscription slot can be left waiting for an answer that nothing in flight can bring: exactly when a
  connect, a cancelled connect or an aborted disconnect starts a new generation without sweeping the table, or
  a replay's command goes out after its generation has passed (`MqttStranded.StrandedExactly`). It stays so,
  and its topic is refused, until the client reconnects by itself (`MqttStranded.StrandedUntilReconnect`).
- An MQTT teardown cancels what is queued only once. In every run, whatever the other calls are doing, it can come
  to its end if and only if not: the cancelling is over, a command is in the queue, and no process loop runs
  (`MqttTeardown.TeardownEndsIff`). A connect admitted before the close can bring that about
  (`MqttTeardown.WedgedIsReachable`).

## Model

| member | source | states |
|---|---|---|
| Crc32.ComputeUpdate | source/components/kv/source/kv.c:206-225 | the bit-by-bit loops compute the byte-wise update of the polynomial division |
| Crc32.UpdateInjective | source/components/kv/source/kv.c:206-225 | for fixed data the update is injective in the register |
| Crc32.StepsLinear | source/components/kv/source/kv.c:206-225 | any number of bit steps distributes over exclusive or |
| Crc32.UpdateByWord | source/components/kv/source/kv.c:206-225 | up to four bytes fed one at a time are one word loaded at once |
| Crc32.WindowsDiffer | source/components/kv/source/kv.c:206-225 | from one register value, two windows of up to four bytes with the same result are equal |
| Crc32.BurstDetected | source/components/kv/source/kv.c:206-230 | buffers that agree outside four consecutive bytes have the same CRC if and only if they are equal |
| Crc32.CheckValue | source/components/kv/source/kv.c:206-230 | the checksum of the digits "123456789" is 0xCBF43926, the check value of CRC-32 (ITU-T V.42) |
| KvCodec.RoundTrip16 | source/components/kv/source/kv.c:232-256 | a 16-bit number written and read is itself |
| KvCodec.RoundTrip32 | source/components/kv/source/kv.c:238-264 | a 32-bit number written and read is itself |
| KvCodec.RoundTrip64 | source/components/kv/source/kv.c:245-273 | a 64-bit number written and read is itself |
| KvCodec.SuperRoundTrip | source/components/kv/source/kv.c:329-349 | a superblock decodes to itself |
| KvCodec.PublishedSuperReadsBack | source/components/kv/source/kv.c:667-725 | the superblock a commit publishes is read back as valid, with its generation and count |
| KvCodec.SuperDamageDetected | source/components/kv/source/kv.c:317-349 | damage to up to four consecutive checked bytes of a valid superblock makes it invalid |
| KvCodec.RecordRoundTrip | source/components/kv/source/kv.c:280-304 | a record decodes to itself |
| KvCodec.RecordImage | source/components/kv/source/kv.c:280-304 | any image of the right length is what its decoding encodes to |
| KvCodec.SetRecordReadsBack | source/components/kv/source/kv.c:1282-1293 | the record a set writes validates and reads back as exactly its key and value |
| KvCodec.DeletedRecordReadsBack | source/components/kv/source/kv.c:1346-1375 | the record a delete writes reads back as a free slot |
| KvCodec.JournalRoundTrip | source/components/kv/source/kv.c:369-403 | a journal entry decodes to itself |
| KvCodec.WrittenJournalReadsBack | source/components/kv/source/kv.c:687-713 | the PREPARED and the COMMITTED entry a transaction writes are read back as valid, with every field |
| KvImages.NextNumber | source/components/kv/source/kv.c:245-273 | the eight bytes of a counter's successor stand for one more, unless it wraps |
| KvImages.CellsWellFormed | source/components/kv/source/kv.c:667-713 | whatever the bytes of a region are, the cells that decoding and validation make of them keep their bounds |
| KvImages.SuperImage | source/components/kv/source/kv.c:714-725 | the image of a published superblock is read as its cell, or as invalid with a current prefix when its count exceeds the capacity |
| KvImages.JournalImage | source/components/kv/source/kv.c:1072-1090 | the image of a PREPARED or COMMITTED entry is read as that entry of the plan |
| KvImages.TransactionMeans | source/components/kv/source/kv.c:1067-1132 | on every region, each of a transaction's eight calls does to the bytes what the planned write does to the cells |
| KvImages.PrefixBytes | source/components/kv/source/kv.c:928-941 | the first bytes 52 54 43 41 02 00 mean the current layout, 52 54 43 41 01 00 the older one, and twelve zeros nothing yet; the cell of the whole superblock has the same prefix |
| KvImages.SuperBytes | source/components/kv/source/kv.c:329-338 | a published superblock starts with these eight bytes |
| KvImages.JournalBytes | source/components/kv/source/kv.c:369-403 | where magic, version, state, operation, record and commit magic of an entry stand, byte for byte |
| KvImages.InvalidWhateverTheChecksum | source/components/kv/source/kv.c:642-712 | the field values that make a record, a superblock or an entry invalid, in numbers |
| KvCodec.JournalDamageDetected | source/components/kv/source/kv.c:351-425 | damage to up to four consecutive bytes of a valid journal's header or record makes it invalid |
| KvDisk.CutAppend | source/components/kv/source/kv.c:797-880 | a cut of two write sequences in a row is a cut of the first or the first whole and a cut of the second |
| KvRecords.SetIsMapUpdate | source/components/kv/source/kv.c:1252-1302 | writing a key's record, or a free one for a new key, is a map update that keeps keys unique |
| KvRecords.FreeIsMapRemove | source/components/kv/source/kv.c:1346-1375 | freeing a record removes exactly its key |
| KvRecords.UsedIsMapSize | source/components/kv/source/kv.c:753-771 | with unique keys the number of records in use is the size of the map |
| KvCrash.InvMeaning | source/components/kv/source/kv.c:667-713 | at every point between writes: a valid superblock, at most one valid journal, a newer journal based on the selected superblock, and otherwise a count equal to the records in use and unique keys |
| KvCrash.RecoveryKeepsView | source/components/kv/source/kv.c:797-880 | recovery accepts every such disk; cut anywhere it leaves the same map, completed it settles the disk on it |
| KvCrash.RecoveryConverges | source/components/kv/source/kv.c:727-880 | any number of cut recoveries and a complete one reach the map of an uninterrupted one, and a second recovery writes nothing |
| KvCrash.AfterPrepared | source/components/kv/source/kv.c:1067-1132 | once the PREPARED journal is on the disk every later cut yields the map after |
| KvCrash.TransactionAtomic | source/components/kv/source/kv.c:1067-1132 | every cut, torn writes included, yields the map before or the map after, and the invariant |
| KvCrash.TransactionSettles | source/components/kv/source/kv.c:1067-1132 | a whole transaction ends with no journal, the one record changed and the generation advanced |
| KvHistory.FindKeyMeaning | source/components/kv/source/kv.c:1009-1044 | the search finds a slot exactly when the key is in the map, and the slot holds its value |
| KvHistory.ServeRefines | source/components/kv/source/kv.c:1252-1407 | each operation on a settled disk replies and changes as the finite map does; a set reports no resource exactly when the key is absent and every slot is used |
| KvHistory.ExecuteRefines | source/components/kv/source/kv.c:991-1407 | with a key of one to the longest length and a value up to the longest, recovery and service together, complete or cut anywhere, are one step of the map or none |
| KvHistory.InvalidExactly | source/components/kv/source/kv.c:1252-1387 | exactly an empty key, a longer key and a longer value are refused as invalid, and nothing is written then |
| KvHistory.HistoryRefines | source/components/kv/source/kv.c:797-1407 | for every history of operations on an open region, cut anywhere any number of times, the invariant holds throughout and the maps are a run in which an interrupted operation took effect entirely or not at all |
| KvHistory.UntouchedKey | source/components/kv/source/kv.c:1252-1407 | a key no operation touches keeps its value through any history with crashes |
| KvHistory.LastSetWins | source/components/kv/source/kv.c:1252-1344 | a get returns the value last set, whatever happens to other keys in between |
| KvFormat.OpenErasesOnlyUnformatted | source/components/kv/source/kv.c:913-989 | opening erases only a region without a valid superblock that is blank or has a valid format journal |
| KvFormat.OpenKeepsRecords | source/components/kv/source/kv.c:797-989 | with a valid superblock, opening changes no record but the one an outstanding journal names, however it is cut |
| KvFormat.RecoverReasons | source/components/kv/source/kv.c:797-880 | exactly when recovery refuses, and with which reason, in terms of the selected superblock and entry |
| KvFormat.OpenReasons | source/components/kv/source/kv.c:913-989 | opening is unsupported exactly for a region that is too small or starts with the older layout, and finds no resource exactly for one that starts like ours with neither a valid superblock nor anything in the journal |
| KvFormat.OpensUnlessStuck | source/components/kv/source/kv.c:838-989 | a region whose format was cut or torn opens as the empty map if and only if it is not stuck |
| KvLife.OpeningIsRecovery | source/components/kv/source/kv.c:913-951 | on every disk that satisfies the invariant opening is recovery, unless the first superblock starts with the bytes of another or an older layout |
| KvLife.OpensExactlyUnlessStuck | source/components/kv/source/kv.c:913-989 | every region that started blank, formatted and with data or not, opens if and only if it is not stuck; a completed opening leaves it sound with the same map, a cut one leaves the map |
| KvLife.TornFirstSuperLocksOut | source/components/kv/source/kv.c:938-940 | for every transaction that publishes superblock 0 there is a cut that holds the new map, that recovery accepts and that opening refuses |
| KvLife.LifeRefines | source/components/kv/source/kv.c:913-1407 | from blank through any openings, operations, restarts and crashes: an open region is sound, the map changes only by operations and as the finite map does, all or nothing when cut, and an opening succeeds if and only if the region is not stuck |
| KvLife.SetSurvivesReopening | source/components/kv/source/kv.c:1252-1344 | an acknowledged set is what a later get returns, through any crashes and reopenings that do not touch the key |
| KvLife.ReopensForEver | source/components/kv/source/kv.c:913-989 | where no tear changes how superblock 0 starts, no opening after the first successful one is ever refused |
| KvCodec.MixedSuperKeepsPrefix | source/components/kv/source/kv.c:329-338 | any byte-wise mixture of two valid superblocks still starts with the magic and version opening looks for |
| KvFormat.FormatIsSafe | source/components/kv/source/kv.c:773-989 | that holds after any number of interrupted openings of a blank region |
| KvFormat.WholeCutOpens | source/components/kv/source/kv.c:773-989 | cut between any two whole writes, the format of a blank region later opens as the empty map |
| KvFormat.TornFirstJournalIsFatal | source/components/kv/source/kv.c:913-989 | a tear in the first format journal makes every later opening refuse |
| KvReorder.TransactionWindow | source/components/kv/source/kv.c:1090-1116 | between the two syncs around it a transaction has an outstanding entry and writes its record and the superblock that publishes it |
| KvReorder.RecoveryWindow | source/components/kv/source/kv.c:860-878 | so does every recovery that redoes an outstanding entry |
| KvReorder.SurvivesIffOrdered | source/components/kv/source/kv.c:860-878 | in either window, with any content in the record's cell and the other superblock old, invalid or new, the transaction survives if and only if the new superblock is not there over other records than it publishes |
| KvReorder.SurvivesLossesIff | source/components/kv/source/kv.c:797-880 | over any number of such losses, each in the recovery from the one before, it survives if and only if that holds in the last |
| KvReorder.LostRecordIsNotNoticed | source/components/kv/source/kv.c:797-880 | from every outstanding entry a loss can keep the superblock alone; recovery accepts it, the records stay the old ones, and the next recovery fails exactly when their number is not the published one |
| KvStore.Region.Recover | source/components/kv/source/kv.c:797-880 | recovery in place, under any faults, is a cut of the planned writes, and complete when it succeeds |
| KvStore.Region.Open | source/components/kv/source/kv.c:913-989 | opening in place is a cut of the opening plan, and complete when it succeeds; without faults each reason is given exactly when the region size, the first superblock and the journal say so |
| KvStore.Region.Transaction | source/components/kv/source/kv.c:1067-1132 | the transaction in place is a cut of its eight calls, and complete without faults |
| KvStore.Region.FindRecord | source/components/kv/source/kv.c:1009-1044 | the loop finds the last match and counts the records in use, and fails on a bad record |
| KvStore.Region.FindFreeRecord | source/components/kv/source/kv.c:1046-1061 | the first free slot; a read error looks like a full array |
| KvStore.Region.Set | source/components/kv/source/kv.c:1252-1302 | a completed or interrupted step of the history model; without faults, invalid exactly when a length is out of bounds, otherwise the key is set if it is there or there is room, and no resource if not |
| KvStore.Region.Delete | source/components/kv/source/kv.c:1346-1375 | the same; without faults, invalid exactly when the key length is out of bounds, otherwise the key is removed, or was not there |
| KvStore.Region.Get | source/components/kv/source/kv.c:1304-1344 | the same; without faults, invalid exactly when the key length is out of bounds, otherwise the value, its length if there is too little room, or no resource |
| KvStore.Region.Exists | source/components/kv/source/kv.c:1377-1407 | the same; without faults, invalid exactly when the key length is out of bounds, otherwise whether the key is there |
| Ring.RingBuffer.Put | source/components/queue/source/queue.c:441-444 | storing at the tail appends to the contents |
| Ring.RingBuffer.Get | source/components/queue/source/queue.c:527-530 | taking from the head removes the oldest item |
| BoundedQueue.RunInv | source/components/queue/source/queue.c:94-181 | the invariant of counters, tokens, exclusion and contents holds in every run |
| BoundedQueue.QueueIsFifo | source/components/queue/source/queue.c:367-536 | in every run, what left is a prefix of what was committed and the rest is inside, within capacity; while open, empty tokens, held ones and size make up the capacity and filled tokens and held ones the size |
| BoundedQueue.CommitIsFifoStep | source/components/queue/source/queue.c:367-536 | only commits change the contents, only while open, each as one operation of a bounded FIFO |
| BoundedQueue.PushCommits | source/components/queue/source/queue.c:367-449 | in every reachable state of an open queue with a free slot and the locks free, a push goes through step by step, its item is last and one token has changed sides |
| BoundedQueue.PopCommits | source/components/queue/source/queue.c:451-536 | and with an item a pop goes through and hands out the oldest |
| BoundedQueue.FailureLeavesNoTrace | source/components/queue/source/queue.c:402-449 | a call whose wait or post fails leaves everything as it was when its token can be given back |
| BoundedQueue.ClosingTurnsAway | source/components/queue/source/queue.c:94-181 | from a close on every call turns back at its next look at the state, with its token given back or dropped as its kind of wait says; CLOSED means everybody is outside |
| BoundedQueue.ClosedQueueIsFrozen | source/components/queue/source/queue.c:268-288 | once out of OPEN the contents never change |
| BoundedQueue.QuiescenceIsFinal | source/components/queue/source/queue.c:183-200 | once no operation is in flight on a closing queue, none ever is again |
| MessageQueue.Queue.Enter | source/components/queue/source/queue.c:367-400 | admission in place is the admitting step |
| MessageQueue.Queue.CheckWait | source/components/queue/source/queue.c:94-181 | the section after a semaphore wait is the checking step |
| MessageQueue.Queue.CommitPush | source/components/queue/source/queue.c:421-449 | the locked section of a push appends the item |
| MessageQueue.Queue.CommitPop | source/components/queue/source/queue.c:506-536 | the locked section of a pop hands out the oldest item |
| MessageQueue.Queue.EndPush | source/components/queue/source/queue.c:402-449 | the doubly locked section of push with its decisions: stored if and only if the queue is open and the post works; otherwise the token goes back |
| MessageQueue.Queue.EndPop | source/components/queue/source/queue.c:487-536 | the same section of pop |
| MessageQueue.Queue.Push | source/components/queue/source/queue.c:367-449 | a whole push that does not wait is taken if and only if the queue is open, has a free slot and the post works |
| MessageQueue.Queue.Pop | source/components/queue/source/queue.c:451-536 | a whole pop that does not wait hands out the oldest item if and only if the queue is open, has one and the post works |
| MessageQueue.Queue.Close | source/components/queue/source/queue.c:268-288 | closing in place is the closing step |
| JobPool.AllocateThenRelease | source/core/source/core_job.c:64-168 | a job allocated and released is back on top of the stack and nothing else moved |
| JobPool.AllFree | source/core/source/core_job.c:64-168 | everything is on the free stack if and only if nothing is referenced |
| JobPool.Jobs.Alloc | source/core/source/core_job.c:64-89 | pops the stack and hands out the job with one reference, or reports an empty pool unchanged |
| JobPool.Jobs.Retain | source/core/source/core_job.c:91-115 | adds a reference exactly when there is one and room for another |
| JobPool.Jobs.Release | source/core/source/core_job.c:117-168 | drops a reference; the last one puts the index back |
| JobQueue.TokensBalance | source/core/source/core_job.c:292-401 | in every run tokens and tokens taken equal queued and announced jobs and unconsumed wake-ups, jobs leave in order, the ring does not overflow, and an empty-handed consumer means closed |
| JobQueue.EnqueueGoesThrough | source/core/source/core_job.c:292-330 | in every run an enqueue on an open queue with room and a working post puts its job last |
| JobQueue.DequeueGoesThrough | source/core/source/core_job.c:332-401 | in every run a dequeue with a token takes the first job |
| JobQueue.WaitsAndWakes | source/core/source/core_job.c:211-240 | what a time-out, a wake-up and the end of a close change, and nothing else |
| JobQueue.CloseNeverStrands | source/core/source/core_job.c:211-240 | with one consumer a finished close always leaves a token for it |
| JobQueue.StrandedForever | source/core/source/core_job.c:332-401 | on a closed queue without tokens a waiter waits for ever |
| JobQueue.TwoConsumersStrandOne | source/core/source/core_job.c:211-240 | for any two of any number of threads, a run in which only they act and one ends there |
| JobQueue.SafeIffOneConsumer | source/core/source/core_job.c:211-401 | no run ever leaves a consumer blocked on a closed queue if and only if at most one thread consumes |
| JobRing.Jobs.Enqueue | source/core/source/core_job.c:292-330 | enqueueing in place is refused closed or full, and otherwise, if the post works, posts a token and stores the job behind the others |
| JobRing.Jobs.EndDequeue | source/core/source/core_job.c:372-401 | the second half of a dequeue hands out the oldest job, or none |
| JobRing.Jobs.Dequeue | source/core/source/core_job.c:332-401 | a whole dequeue hands out the oldest job for one token, or says that the queue is closed and empty, that no token came in time, or that there was no job for the token |
| JobRing.Jobs.Close | source/core/source/core_job.c:211-240 | closing in place posts the wake-ups that are due, stops at a post that fails, and a later call resumes there |
| CoreLifecycle.StepInv | source/core/source/core_api.c:352-532 | every step of posters, service and teardown keeps flags, phases, resources, pool and order consistent |
| CoreLifecycle.CallbacksExactlyOnce | source/core/source/core_service.c:113-175 | until one of the failures in `Faults`, failed joins included, callbacks are a prefix of the accepted jobs, each once and in order; uninitialised, all of them |
| CoreLifecycle.PoolIsAccounted | source/core/source/core_job.c:64-168 | in every run each pool entry has one reference per job posted, queued or executed in it; uninitialised, every entry is free |
| CoreLifecycle.RejectedPostLeavesNoTrace | source/core/source/core_api.c:112-150 | a post that cannot be queued returns its entry and changes nothing |
| CoreLifecycle.QueuedOnlyInItsState | source/core/source/core_api.c:152-187 | in every run a posted job is in the queue only because an earlier post found the core in the state for its kind and no teardown pending |
| CoreLifecycle.QueuedInItsState | source/core/source/core_api.c:112-187 | in every run, in that state, with an entry and a place, it gets in |
| CoreLifecycle.JobsMoveTheState | source/core/source/core_ops.c:716-764 | the state each kind of job leaves, successful or not, in every run; nothing else the service does changes it |
| CoreLifecycle.BeginsInitialising | source/core/source/core_api.c:242-328 | an initialisation leaves INITING with the pool and the queue as large as asked for and its own job the only one |
| CoreLifecycle.FailedJoinGivesUp | source/core/source/core_api.c:424-429 | a failed join gives up the attempt and nothing else |
| CoreLifecycle.PhaseNeverGoesBack | source/core/source/core_api.c:352-532 | while a teardown stays pending its phase never goes back, through any failures and retries |
| CoreLifecycle.PhaseMeansReleased | source/core/source/core_api.c:424-516 | reaching a phase means the service, then the queue and all jobs, then the pool are released |
| CoreLifecycle.RetryResumes | source/core/source/core_api.c:352-406 | in every run the claim of a retry keeps the phase; it submits the job and starts the service again exactly when the service is gone without having completed it successfully, and else only waits; until a fault the core is left for a retry, or a service that is left has the job on its way |
| CoreLifecycle.SuccessIsClean | source/core/source/core_api.c:508-531 | success ends uninitialised with no lock, all flags cleared, all entries free and every accepted job called back |
| CoreRetry.ServiceLostIff | source/core/source/core_api.c:406-422 | from every state that has not lost it, a step loses the service if and only if it is one of the five named |
| CoreRetry.ServiceStaysLostIff | source/core/source/core_api.c:372-404 | once lost, every step leaves it lost except the claim of a teardown of a READY or INIT_FAILED core |
| CoreRetry.LostSince | source/core/source/core_api.c:338-422 | in every run a core without its service has lost it at one such step and has been without it since |
| CoreRetry.TakenBack | source/core/source/core_api.c:338-350 | a teardown taken back restores the state it found and is no longer pending; the queue is as it was, or drained after a failed start |
| CoreRetry.UnfaultedIsReady | source/core/source/core_api.c:365-404 | without an earlier fault such a teardown was a retry, so what it restores is READY whatever the core had been |
| CoreRetry.NothingIsExecuted | source/core/source/core_service.c:147-175 | from then on no callback is made until a teardown or an initialisation starts the service |
| CoreRetry.OnlyAfterFailedJoin | source/core/source/core_api.c:379-404 | a pending teardown is claimed over only if a join has failed before |
| CoreRetry.FailedStartLeavesNoService | source/core/source/core_api.c:415-422 | after it the next connect is taken and queued with nobody to execute it |
| CoreRuns.ServiceLostIsReachable | source/core/source/core_api.c:379-422 | a run from the start through a failed initialisation and a failed teardown job that ends there, READY |
| CoreTeardown.TearDownIff | source/core/source/core_api.c:352-531 | in every state with the service gone and no attempt in progress, some run releases the lock if and only if the named phase, state, pool and queue allow it |
| CoreTeardown.LostTearDownIff | source/core/source/core_api.c:379-422 | a core that has lost its service can be torn down if and only if it is READY or INIT_FAILED with an entry and a place for one job, or two if the service is still to be joined |
| CoreTeardown.DoomedForEver | source/core/source/core_api.c:406-413 | where they do not allow it, no step of any thread ever does, and the lock is never released |
| CoreTeardown.Served | source/core/source/core_service.c:147-175 | a service that is waited for and has a teardown's job ahead comes to it, and the teardown to its end |
| CoreRuns.NeverTornDownIsReachable | source/core/source/core_api.c:406-413 | a run from the start through a queued connect, a claimed teardown and a failed wait that ends READY, without a service, and can never be torn down |
| CoreControl.PostOutcome | source/core/source/core_api.c:112-187 | a post queues one job in a fresh entry exactly if no teardown is pending, the core is in the state for its kind, and entry, place and copy are there; otherwise everything is as it was |
| CoreControl.FinishStopsWhereItFails | source/core/source/core_api.c:472-531 | a teardown resumed at any phase stops at the first step that fails with that phase kept, or ends clean |
| CoreControl.RetriesEndIff | source/core/source/core_api.c:472-531 | beyond its job phase, a teardown retried any number of times ends if and only if some attempt can release the queue, the same or a later one the pool, and the same or a later one the lock |
| CoreControl.Context.SubmitJob | source/core/source/core_api.c:112-187 | submission in place succeeds exactly then: connect in READY, disconnect in UNREGISTERED or REGISTERED, register in UNREGISTERED, send in REGISTERED |
| CoreControl.Context.DrainPendingJobs | source/core/source/core_api.c:189-210 | the loop gives every queued job back to the pool |
| CoreControl.Context.ClaimTeardown | source/core/source/core_api.c:352-409 | the claim section in place |
| CoreControl.Context.FinishTeardown | source/core/source/core_api.c:472-531 | the final section in place, and it succeeds exactly when every remaining resource can be released |
| CoreControl.Context.RetryAll | source/core/source/core_api.c:352-531 | a caller that retries in place succeeds exactly under that condition, and otherwise leaves a teardown that can be retried |
| Registration.StepInv | source/core/source/core_ops.c:1042-1286 | every step of the service and the downlink task keeps context, semaphores and history consistent |
| Registration.RegisteredOnlyByHandshake | source/core/source/core_ops.c:1189-1286 | registration sets REGISTERED only after, in order and since the job began: a session named and asked with, its challenge received while open, exactly that nonce and nothing else signed, its "ok" received while the result was open, and the marker persisted |
| Registration.BecomesRegisteredBy | source/core/source/core_ops.c:716-764 | only the end of a registration, or another job while the marker is stored, makes the core REGISTERED |
| Registration.MarkerMeansHandshake | source/core/source/core_ops.c:691-725 | a device that starts without the marker has it only after a complete handshake |
| Registration.RegisteredMeansHandshake | source/core/source/core_ops.c:716-764 | such a device is REGISTERED, in whatever way and after any restarts, only after a complete handshake in which exactly the challenge's nonce was signed |
| Registration.OnlyExpectedMessagesCount | source/core/source/core_ops.c:111-256 | in every run a message has any effect if and only if it is for the session and is the first challenge while one is open or a result while that is open |
| Registration.MessageEffect | source/core/source/core_ops.c:145-256 | in every run a challenge that counts leaves its nonce if there is room and a result that counts says whether it was "ok", either wakes the task, and any other message changes nothing |
| Registration.WaitsDecide | source/core/source/core_ops.c:1090-1105 | in every run a wait goes on exactly if it ended with a token and the answer hoped for |
| Registration.HandshakeRegisters | source/core/source/core_ops.c:1189-1286 | from every reachable state between jobs of an UNREGISTERED core, for every session and nonce that fit, the steps of a good handshake can be made one after the other and end REGISTERED with the marker stored |
| Registration.PostsOnlyLiveSemaphores | source/core/source/core_ops.c:1243-1264 | a posted semaphore exists, and none is posted after the job clears the context |
| Registration.Handshake.Matches | source/core/source/core_ops.c:111-139 | the comparison of lengths and bytes is equality with the session |
| Registration.Handshake.HandleChallenge | source/core/source/core_ops.c:145-199 | the handler in place; a challenge that counts leaves its nonce and ok, or not ok if it cannot be copied, and is posted; another one changes nothing |
| Registration.Handshake.HandleResult | source/core/source/core_ops.c:201-256 | the handler in place; a result that counts leaves ok if and only if its status is "ok", and is posted; another one changes nothing |
| MqttTable.ReserveMeaning | source/components/mqtt/source/mqtt.c:545-590 | a subscribe is refused as already there exactly when its topic is in the table and taken exactly when it is not and there is room; an unsubscribe is taken exactly when its topic is active |
| MqttTable.ReserveValid | source/components/mqtt/source/mqtt.c:545-590 | a reservation keeps topics and tokens apart and empty slots zeroed |
| MqttTable.SubscribeRollsBack | source/components/mqtt/source/mqtt.c:1151-1164 | a rolled-back subscribe restores every slot exactly |
| MqttTable.UnsubscribeRollsBack | source/components/mqtt/source/mqtt.c:1151-1164 | a rolled-back unsubscribe or replay restores every topic and state |
| MqttTable.Subscriptions.ReserveSlot | source/components/mqtt/source/mqtt.c:545-590 | the one-pass loop finds the topic and the first free slot |
| MqttTable.Subscriptions.Rollback | source/components/mqtt/source/mqtt.c:1151-1164 | rollback in place |
| MqttTable.Subscriptions.Answer | source/components/mqtt/source/mqtt.c:1421-1454 | the slot part of a completion in place |
| MqttTable.Subscriptions.Sweep | source/components/mqtt/source/mqtt.c:1693-1704 | the loop clears every pending subscribe and reactivates every pending unsubscribe |
| MqttTable.Subscriptions.ReplayAll | source/components/mqtt/source/mqtt.c:1324-1358 | when no session is present (section 3.2.2.2 of MQTT 3.1.1) exactly the active topics whose command is queued are requested again, once each, in slot order, each under a token given out by this replay; an active one that cannot be queued stays active; no other slot changes |
| MqttClosing.CountersAreExact | source/components/mqtt/source/mqtt.c:415-476 | in every run the counters are the numbers of live operations, API calls and callbacks, and the process flag is whether a loop runs |
| MqttClosing.QuietIsStable | source/components/mqtt/source/mqtt.c:1891-1959 | from closing with no API call, callback, operation and process loop, no step of any thread, the teardown's cancelling included, admits one again; after the cancelling the claim flag does not come back either |
| MqttClosing.TeardownClaimsWhileIdle | source/components/mqtt/source/mqtt.c:1189-1208 | on an idle closing client the teardown's own receive raises the claim flag, exactly until it has cancelled everything |
| MqttClosing.QuietForEver | source/components/mqtt/source/mqtt.c:1891-1959 | once closing and quiet a run stays so, with connection and table frozen; once idle after the cancelling, idle for ever |
| MqttSenders.RunMatched | source/components/mqtt/source/mqtt.c:1324-1358 | in every run the commands being sent and their senders, connects or replays, match one for one |
| MqttTeardown.TeardownEndsIff | source/components/mqtt/source/mqtt.c:1933-1959 | in every run, with the other calls anywhere, a teardown of a closing client can come to its end if and only if not: the cancelling is over, a command is queued, and no process loop runs |
| MqttTeardown.EndsOnlyWhenIdle | source/components/mqtt/source/mqtt.c:1933-1959 | in every run a teardown ends only with everything cancelled, no operation live, nobody inside and the claim flag down |
| MqttTeardown.WedgedForEver | source/components/mqtt/source/mqtt.c:1939-1949 | with a command queued after the cancelling and no process loop, no run ever ends a teardown |
| MqttTeardown.WedgedIsReachable | source/components/mqtt/source/mqtt.c:614-636 | a run from the start that ends there: a connect admitted before the close |
| MqttSlots.TableInEveryState | source/components/mqtt/source/mqtt.c:545-603 | in every run each topic is in at most one slot, taken slots have different tokens, empty slots are zeroed |
| MqttSlots.StaleForEver | source/components/mqtt/source/mqtt.c:1394-1466 | in every run an operation whose generation has passed is inert at every later completion: no connection state, result or slot changes |
| MqttSlots.OldTokenIsInert | source/components/mqtt/source/mqtt.c:1421-1428 | a completion whose token its slot no longer has changes nothing |
| MqttSlots.CompletionTouchesItsOwnSlot | source/components/mqtt/source/mqtt.c:1421-1454 | in every run a completion that changes a slot changes the one its request reserved, still with its topic and in the state it left, to active or empty as answered |
| MqttSlots.CompletionFitsTheState | source/components/mqtt/source/mqtt.c:673-691 | a completion moves the connection only within its generation and from the state that waits for it |
| MqttSlots.HandedOutOnlyIfFitting | source/components/mqtt/source/mqtt.c:1219-1247 | in every run an operation is with the agent only because an earlier receive of this very operation, followed from place to place, found its generation current and the state fitting its type |
| MqttSlots.UnqueuedRequestRestores | source/components/mqtt/source/mqtt.c:2197-2277 | a subscribe or unsubscribe that cannot be queued restores every topic and state and changes nothing else |
| MqttFlow.ServedWell | source/components/mqtt/source/mqtt.c:1217-1466 | a queued operation of the current generation, in the state that fits it, is handed out, and its success has the effect it is for |
| MqttFlow.ConnectConnects | source/components/mqtt/source/mqtt.c:2040-2115 | from every state that allows it a connect answered with success ends CONNECTED in a new generation with nothing left in flight |
| MqttFlow.RequestIsGranted | source/components/mqtt/source/mqtt.c:2197-2277 | a subscribe to a new topic with a slot empty ends active under a new token, an unsubscribe of an active one empty |
| MqttFlow.PublishIsDelivered | source/components/mqtt/source/mqtt.c:1394-1466 | a publish answered with success leaves connection and table as they were |
| MqttFlow.DisconnectDisconnects | source/components/mqtt/source/mqtt.c:1394-1466 | a disconnect answered with success ends DISCONNECTED |
| MqttFlow.ReconnectReconnects | source/components/mqtt/source/mqtt.c:1693-1704 | a process loop that gets the connection back ends CONNECTED with every unanswered request settled, and replays without a session |
| MqttFlow.GateOutcomes | source/components/mqtt/source/mqtt.c:415-476 | what admission and leaving change, open and closing |
| MqttFlow.CallOutcomes | source/components/mqtt/source/mqtt.c:614-717 | where a connect or disconnect that does not go well leaves the connection, and when one returns success |
| MqttFlow.LoopOutcomes | source/components/mqtt/source/mqtt.c:1693-1704 | how the process loop loses the connection, and that an attempt connects only in its own generation |
| MqttFlow.ReplayStarts | source/components/mqtt/source/mqtt.c:1324-1358 | a completion replays exactly when it is a successful connect that counts and there is no session |
| MqttFlow.RefusedOnlyFails | source/components/mqtt/source/mqtt.c:1219-1247 | an operation the receive has turned away only ever fails |
| MqttStranded.StrandedExactly | source/components/mqtt/source/mqtt.c:614-717 | after any step of any thread a waiting slot is beyond the reach of everything in flight if and only if it was and the step is not the client's own reconnect, or the step starts a generation without a sweep while no replay may put the slot back, or sends a replay's command after its generation |
| MqttStranded.StrandedUntilReconnect | source/components/mqtt/source/mqtt.c:1693-1704 | in every run such a slot stays exactly as it is and its topic is refused until the client reconnects by itself |
| MqttStranded.StrandedIsReachable | source/components/mqtt/source/mqtt.c:706-717 | a run from the start in which a disconnect times out over a queued subscribe, with no further connect |
| MqttControl.Control.ApiEnter | source/components/mqtt/source/mqtt.c:429-439 | admission in place, exactly when open |
| MqttControl.Control.ApiLeave | source/components/mqtt/source/mqtt.c:441-454 | leaving in place; the teardown is signalled exactly when closing and idle |
| MqttControl.Control.DeinitBegin | source/components/mqtt/source/mqtt.c:1891-1913 | the closing section in place; closing is never undone, begun exactly with no callback and no other teardown in progress and the client closing already or not connected or connecting |
| MqttControl.Control.ConnectBegin | source/components/mqtt/source/mqtt.c:614-636 | a new generation in place, exactly in INITIALIZED, or in DISCONNECTED without a process loop |
| MqttControl.Control.ConnectCancel | source/components/mqtt/source/mqtt.c:693-704 | cancelling in place |
| MqttControl.Control.RetryBegin | source/components/mqtt/source/mqtt.c:1693-1704 | the reconnect section in place, table kept valid |
| MqttControl.Control.Receives | source/components/mqtt/source/mqtt.c:1217-1235 | the check before handing out, in place, on the process loop's or the teardown's thread: valid exactly in its own generation and in CONNECTING for a connect, DISCONNECTING for a disconnect, CONNECTED otherwise |
| MqttControl.Control.Completes | source/components/mqtt/source/mqtt.c:1394-1466 | the completion in place, and whether to replay |
| MqttControl.Control.Requests | source/components/mqtt/source/mqtt.c:2197-2277 | subscribe and unsubscribe under the lock, in place |
| MqttControl.Control.Ask | source/components/mqtt/source/mqtt.c:2197-2277 | a whole subscribe or unsubscribe: turned away or not queued it leaves topics, states, connection and counters as they were; queued, there is one operation more and its slot waits under a new token |
| MqttControl.Control.ConnectTooLate | source/components/mqtt/source/mqtt.c:2040-2115 | a connect that times out ends disconnected, and its late completion is turned away whatever its status |
| MqttControl.Control.CloseThenTry | source/components/mqtt/source/mqtt.c:429-439 | once a teardown has begun no call is admitted |
| SlotStore.Directory.WriteAll | source/adapter/platform/linux/security.c:249-271 | it succeeds exactly if the calls go through, interrupted ones tried again and short ones gone on with; success means all bytes were appended, and no other file changes |
| SlotStore.Directory.CopySlot | source/adapter/platform/linux/security.c:302-324 | success means the copy is the slot's complete content; interruptions do not stop it |
| SlotStore.Directory.CreateBackup | source/adapter/platform/linux/security.c:326-375 | success means a complete backup under a name that was free; otherwise no file is left unless its removal is refused; nothing that existed changes |
| SlotStore.Directory.Replace | source/adapter/platform/linux/security.c:483-522 | the new content is in the slot, synced like its name, with temporary file and backup gone; or the old one is back, unless the call that puts it back is refused, and then its backup is kept; no other file is left unless its removal was refused |
| SlotStore.Directory.Write | source/adapter/platform/linux/security.c:381-528 | at every moment the slot holds old or new content and no older file is touched; a success means exactly the new bytes, with content and name synced; with no clean-up call refused it changes the slot alone, and an error nothing; a refused one leaves the old bytes in a kept, synced backup; when no call fails it succeeds exactly if the slot may be written and one of a hundred names is free for each new file |
| SlotStore.Directory.Rewrite | source/adapter/platform/linux/security.c:381-528 | a second write succeeds after a first one |
| ReleaseGate.CheckApiHeader | tools/release/check_release.py:180-193 | nothing is left over if and only if the old header embeds in order into the new one; otherwise the leftovers start at the first declaration that cannot be placed; the additions are exactly the new declarations without the places of the old ones |
| ReleaseGate.CheckAbiHeader | tools/release/check_release.py:245-260 | no declaration is reported if and only if the old header embeds |
| ReleaseGate.CheckApi | tools/release/check_release.py:173-195 | accepts if and only if every old header embeds, for any compatibility relation |
| ReleaseGate.CheckAbi | tools/release/check_release.py:241-262 | accepts if and only if every old header embeds, for any compatibility relation |
| ReleaseGate.BothGates | tools/release/check_release.py:173-262 | the two gates accept the same pairs of releases |

## Left out

- Crypto backends, TLS, certificates, JSON text, NTP, logging, the network and device adapters, and the
  Android and SIMCom copies: thin layers or near duplicates that would add only easy members.
- coreMQTT, coreMQTT-Agent and the backoff library: an environment that may do anything at any time.
- Failing mutex operations: the source mostly ignores them; locks are atomic sections here.
- Storage handles, namespaces and their locks in the key-value store; sizes are symbolic, and the 64-bit
  generation is unbounded.
- KvCodec.SuperRoundTrip, KvCodec.RecordRoundTrip, KvCodec.JournalRoundTrip: the encoders are functions on
  byte sequences, not loops that fill a buffer.
- KvDisk.CutAppend: a torn write is one whose CRC check fails; a tear that leaves a valid CRC by chance is not
  modelled. `Crc32.BurstDetected` says which damage cannot do that.
- BoundedQueue.QueueIsFifo: deadlines are nondeterministic; the polling loop of a wait is steps of the
  machine rather than one method, and the loop that waits for quiescence is its observation.
- JobQueue.TokensBalance: a wait for a token succeeds or times out; a post may fail.
- CoreLifecycle.CallbacksExactlyOnce: after a failed wait of the service, a retried teardown that cannot queue its
  job or start the service, or a pending teardown claimed over, only flags, phases and the pool are claimed. A post
  whose semaphore fails counts as one that could not be queued. An init that fails before the service runs leaves
  the core uninitialised and is not a step. Teardown cancels no job in execution.
- CoreTeardown.TearDownIff: while a service is alive or an attempt is in progress, what the service still executes
  decides as well; those states are not covered.
- Registration.RegisteredMeansHandshake: the signing key that a connect also asks for is not modelled.
- Registration.RegisteredOnlyByHandshake: signing is an event that names what is signed; signature
  verification is the cloud's. A failed copy of a JSON string is taken to leave the stored nonce as it was.
- MqttSlots.CompletionTouchesItsOwnSlot: generations and tokens are unbounded where the source's 32-bit
  counters skip zero and wrap.
- MqttClosing.CountersAreExact: in a replay, taking the token and counting the operation are one step; the
  source does them in two sections of a thread that is itself counted.
- MqttTable.Subscriptions.ReplayAll: the loop alone, without other threads between its sections; with them the
  machine keeps the invariants above.
- MqttClosing.QuietForEver: memory freed after the last counter reaches zero is not modelled.
- SlotStore.Directory.Write: a failing call changes nothing, other processes respect the directory lock, and
  a missing slot is reported as missing.
- ReleaseGate.CheckApi: how headers become declarations and which replacements are compatible are parameters.
