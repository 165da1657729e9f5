# php-analyze: the recorder, the shipper and what joins them

A Dafny model of the profiler's recorder → channel → shipper pipeline, with proofs about whole runs.

## What is modelled

**The recorder.** `TraceModel.dfy` gives the per-request trace as a value and each observer operation as a function on
it: the depth gate and the cap gate, the accept tail, the end with its drop matcher, the flush, the shutdown drain.
`Runs.dfy` plays event sequences; the budget each cap gate reads is part of the event, so statements over all event
sequences hold whatever other threads do to the budget. On top of it: the depth-truncation theorem over call trees with
calls still open at shutdown (`Forest.dfy`), which end closes which begin (`Matching.dfy`), referential integrity of the
batches of a request (`Integrity.dfy`), independence from the flush thresholds (`Batching.dfy`), and the allocation-free
begin refining the owning one (`LazyPath.dfy`, over `CallSites.dfy`, `FunctionKeys.dfy`). `Recorder.dfy` has the same
operations in the form the source has them, as methods updating a live trace, its dictionary (a hash table over any
hasher, `Dictionary.dfy`), the shared budget and counters (`Accounting.dfy`) and the channel (`Flush.dfy`); every method
is proved equal to its function on trace values.

**The two threads.** `Pipeline.dfy` is a state machine of the request thread and the shipper thread. One action is one
atomic operation, so a sequence of actions is an interleaving. Over every sequence: byte-budget conservation
(`PipelineBudget.dfy`), the cap overshoot bound (`PipelineCap.dfy`), record conservation and exact drop stamps
(`PipelineRecords.dfy`), the two-signal shutdown (`PipelineShutdown.dfy`). `PipelineRuns.dfy` shows that every
trace of this system follows a run of `Runs.dfy`: the batches handed off for it are the first batches of that run, so what
is proved of all runs holds of them. `PipelineDelivery.dfy` shows that the batches sent are a subsequence of these.
`PipelinePlays.dfy` shows that any request can be played to its end with every batch delivered, `PipelineProgress.dfy` that
a shipper with time delivers all that is queued, one out of time exits, and the module shutdown ends.

**The shipper.** `RunLoop.dfy` is the receive loops as methods, `Retry.dfy` the retry loop with its deadline read again
before every attempt, `Spawn.dfy` the spawn-once protocol under any number of callers.

**Text.** `Dump.dfy` is the diagnostic dump and its parser; `Config.dfy` numeric clamping, the skip list, its printed row
and the filter it feeds. `Text.dfy` and `Numerals.dfy` hold the string and number operations they rely on.

Strings are sequences of Unicode scalar values; a Rust `len()` is the UTF-8 length. Widths, wrap-around, saturation and
truncating casts are written out where the source has them. `recv_deadline` past its deadline may return a message or
time out; theorems hold for both. `debug_assert!` is taken as in a release build.

## Where the code differs from its comments

The model follows the code.

- `types.rs:557-559` and `:611-614` call `dropped_begins` a LIFO matcher for which a single counter suffices. Counts do
  line up (`Matching.MatchedAlways`), ends pair with their own begins exactly under the
  condition of `Matching.EndsPairIff`.
- `observer.rs:987-1012` says `categorise_lazy` mirrors `categorise` one for one. It does on exactly the sites of
  `CallSites.LazyAgreesIff`.
- `shipper/mod.rs:71-75` says `batches_drained` counts every batch consumed; it counts those sent. `:80-86` describes the
  abandoned count as read from the channel length; it counts what `try_recv` yields.
- `config.rs:214` and `:730-731` say an empty `skip_functions` switches filtering off; the code resolves it to the default list.
- `http.rs:80-81` bounds `retry_count` by 8; `config.rs:295` allows 10. `SleepTotal` holds for any count.
- Records in a batch refused because the receiver is gone or no sender is installed, abandoned at the deadline, or held
  by a stale trace are lost without being counted. `PipelineRecords.RecordsConserved` keeps them apart. A lost
  batch also loses the dictionary entries staged in it, so `Integrity.RequestDictComplete` is about batches handed off.

## Model

| member | source | states |
|---|---|---|
| `Forests.DepthTruncation` | crates/php-analyze/src/recorder/observer.rs:1328-1413 | For any request in which the cap refuses no begin, calls still open at shutdown included: the records handed off are exactly the post-order of its call tree cut at `max_depth`, each with pre-order id, tree parent, tree depth and first-seen function id; field by field, begin time and memory are those of the call's own begin, end time, memory and abnormality those of its own end (or of the shutdown, if left open), user and system CPU each its own difference clamped to 0..i64::MAX; the entries handed off are one per function in order of first sight; gate drops plus kept calls are all calls |
| `Forests.ForestRecorded` | crates/php-analyze/src/recorder/observer.rs:1583-1672 | The same for any closed sub-forest met anywhere in a run, the cap refusing none of its begins: it is recorded cut at the depth that remains and leaves stack, depth counter and drop matcher as they were |
| `TraceModel.RecordOfIff` | crates/php-analyze/src/recorder/types.rs:303-325 | A frame becomes exactly the record with its id, parent, function and depth, its begin values, the exit's end values, and user and system CPU each clamped from its own two readings |
| `TraceModel.BeginAcceptedIff` | crates/php-analyze/src/recorder/observer.rs:1328-1354 | A begin is accepted if and only if fewer than `max_depth` begins are open and what was read plus 64 bytes plus, for an unknown function, 24 bytes and both names fits the cap, or the cap is the largest `usize`; a refused one changes nothing but depth and one pending drop, saturating |
| `Runs.CapSilentIff` | crates/php-analyze/src/recorder/observer.rs:1328-1354 | The hypothesis of the two rows above, begin by begin: the cap refuses nothing if and only if the depth gate alone decides |
| `TraceModel.BeginMatchedIff` | crates/php-analyze/src/recorder/observer.rs:1328-1354 | A begin keeps `virtual_depth = open frames + pending drops` (and frames within `max_depth`) if and only if it does not saturate the `u32` depth while a frame is open |
| `TraceModel.EndMatched` | crates/php-analyze/src/recorder/observer.rs:1583-1597 | An end keeps that relation, whether or not a begin matches it |
| `TraceModel.DepthCastLossless` | crates/php-analyze/src/recorder/observer.rs:1365-1413 | While the relation holds, the depth stored in a frame through the `u16` cast is the true depth |
| `Matching.MatchedAlways` | crates/php-analyze/src/recorder/types.rs:555-559 | After every event sequence, unmatched ends included, short of 2^32 calls open at once, the relation holds |
| `Runs.ShortRunsNeverSaturate` | crates/php-analyze/src/recorder/types.rs:604-609 | No sequence of fewer than 2^32 events saturates the depth counter |
| `Matching.EndsPairIff` | crates/php-analyze/src/recorder/types.rs:611-615 | The exact condition: every end of a run acts on exactly the begin it closes if and only if no accepted call that ends lies inside a dropped one |
| `Matching.PairingIff` | crates/php-analyze/src/recorder/types.rs:611-615 | At every point of a run an end arriving next would act on exactly the begin it closes if and only if no begin of the run is accepted while a dropped begin is open |
| `Matching.DepthGateAlonePairs` | crates/php-analyze/src/recorder/observer.rs:1328-1354 | When the cap refuses no begin, the depth gate alone never breaks the pairing |
| `Matching.CapDropMispairs` | crates/php-analyze/src/recorder/observer.rs:1564-1569 | Accept A, drop B at the cap, accept C: the end of C consumes the drop of B and the end of B emits C with the snapshot of B, two levels below its parent |
| `Integrity.RequestCallsComplete` | crates/php-analyze/src/recorder/observer.rs:1370-1412 | For every event sequence, mispairing drops included: the batches of a request carry each assigned call id 1..n exactly once, and every non-zero parent is a smaller id recorded later |
| `Integrity.RequestDictComplete` | crates/php-analyze/src/recorder/dictionary.rs:63-173 | For every event sequence, cap drops included: the dictionary lists of the request, end to end, are the functions of the accepted calls in order of first sight, with the name and file first seen, numbered 1..n; every record carries the id of its own function, which its own or an earlier batch defines |
| `Batching.BatchingTransparent` | crates/php-analyze/src/recorder/observer.rs:1682-1690 | Two runs that differ only in `flush_records`, `flush_bytes` and the budget readings that follow hand off the same records, the same entries and drop the same calls, the cap refusing no begin of either |
| `Batching.BatchSizes` | crates/php-analyze/src/recorder/observer.rs:1620-1672 | For every event sequence: between events fewer than `flush_records` records are pending, each batch has between one and `flush_records` records, and the shutdown batch at most `flush_records - 1` plus the open frames |
| `TraceModel.EndFlushesIff` | crates/php-analyze/src/recorder/observer.rs:1646-1690 | An end hands a batch off if and only if it records a call and, with that record, the buffer reaches `flush_records` or the estimate `flush_bytes`; the batch takes everything pending |
| `Batching.MidRequestBatchesDue` | crates/php-analyze/src/recorder/observer.rs:1646-1690 | For every event sequence: every batch handed off mid-request met the record or the byte threshold |
| `TraceModel.BeginAcceptInv` | crates/php-analyze/src/recorder/observer.rs:1467-1474 | What the gate projects for a call is exactly what the call is later billed: the miss at its begin and one record when its frame is popped |
| `TraceModel.DrainInv` | crates/php-analyze/src/recorder/observer.rs:231-245 | The shutdown drain keeps the estimate exact and adds one record per open frame |
| `TraceModel.ShutdownLeavesNothing` | crates/php-analyze/src/recorder/observer.rs:155-197 | After the shutdown flush nothing is left of the request; when there was no batch to flush there was no billed byte and no staged entry either |
| `Runs.EstimatesExact` | crates/php-analyze/src/recorder/types.rs:442-448 | After every event sequence the running estimate equals the whole-batch formula, and so does the estimate carried by every batch handed off |
| `CallSites.RenderLenExact` | crates/php-analyze/src/recorder/observer.rs:910-963 | The length counted with `ilog10` and the bit length equals the UTF-8 length of the rendered name, for every class, method, file, line and address |
| `Text.Utf8WidthIff` | crates/php-analyze/src/recorder/observer.rs:910-963 | The UTF-8 length charges a character one byte up to 7 bits, two up to 11, three up to 16, else four |
| `CallSites.LazyAgreesIff` | crates/php-analyze/src/recorder/observer.rs:1018-1102 | The allocation-free categorisation describes the same key and entry as the owning one if and only if the site has a name or takes the closure branch |
| `CallSites.SiteTable` | crates/php-analyze/src/recorder/observer.rs:777-863 | Which sites are internal, methods, closures (`{closure` names, and unnamed sites with a file) and functions; key, name, file and line of each, with the placeholder an unnamed one gets |
| `CallSites.UnnamedLazily` | crates/php-analyze/src/recorder/observer.rs:1018-1102 | What an unnamed site becomes in the allocation-free form: an internal is keyed by the low 32 bits of its address, methods and functions get the empty name, a site with a file is a closure |
| `CallSites.UnnamedMethodsCollide` | crates/php-analyze/src/recorder/observer.rs:1060-1072 | Any two unnamed methods of one class share a key in the allocation-free form, and share one in the owning form if and only if they are at the same address |
| `LazyPath.LazyProjectionExact` | crates/php-analyze/src/recorder/observer.rs:1454-1481 | The allocation-free gate projects exactly the bytes its accept tail and the later record bill |
| `LazyPath.AgreeingBegins` | crates/php-analyze/src/recorder/observer.rs:1433-1528 | For agreeing descriptions the two begin paths take the same decision and reach the same trace |
| `LazyPath.LazyRunRefines` | crates/php-analyze/src/recorder/observer.rs:1306-1528 | Over every run whose begins come from identified sites, the production path takes the same decisions and reaches the same trace, dictionary, estimate and batches as the owning path |
| `LazyPath.LazyRunIsARun` | crates/php-analyze/src/recorder/observer.rs:1133-1168 | For all sites, identified or not, a production run equals a run of the event model under the names the allocation-free form gives, so every theorem about runs covers the production path |
| `LazyPath.FirstBeginAgreesIff` | crates/php-analyze/src/recorder/observer.rs:777-863 | With room for both, the very first begin already tells the paths apart if and only if the site is not identified |
| `FunctionKeys.ToOwned` | crates/php-analyze/src/recorder/types.rs:181-265 | The owning key of a borrowed one is the only key that matches it, borrows back to it, and writes the same bytes to any hasher |
| `FunctionKeys.WritesInjective` | crates/php-analyze/src/recorder/types.rs:114-174 | Two keys write the same bytes to a hasher if and only if they are equal; the first byte tells the variants apart |
| `Dictionaries.SharedBucketIsCollision` | crates/php-analyze/src/recorder/types.rs:114-174 | Two different functions meet in one bucket only when they write different sequences on which the hasher itself collides |
| `Dictionaries.IdsBijective` | crates/php-analyze/src/recorder/dictionary.rs:142-156 | With distinct keys, ids and keys correspond one to one |
| `Dictionaries.Dictionary.ProbesAgree` | crates/php-analyze/src/recorder/dictionary.rs:97-138 | For any hasher over the written bytes, probing by borrowed key and by owning key find the same id: that of the one stored equal key, or none |
| `Dictionaries.Dictionary.ContainsKeyRef` | crates/php-analyze/src/recorder/dictionary.rs:132-138 | True if and only if the owning form of the borrowed key was interned |
| `Dictionaries.Dictionary.ContainsKey` | crates/php-analyze/src/recorder/dictionary.rs:164-166 | True if and only if the key was interned |
| `Dictionaries.Dictionary.Intern` | crates/php-analyze/src/recorder/dictionary.rs:63-79 | Updates the bucket table as lookup-or-insert on the list of keys, staging one entry on a miss |
| `Dictionaries.Dictionary.InternRef` | crates/php-analyze/src/recorder/dictionary.rs:97-124 | Hit exactly when the borrowed key was known, and then nothing changes; on a miss whatever the build closure returns is filed under the borrowed hash, which keeps the table sound if and only if that key is new and hashes alike; for the borrowed key itself it is lookup-or-insert |
| `Dictionaries.Dictionary.TakeNewEntries` | crates/php-analyze/src/recorder/dictionary.rs:171-173 | Moves the staged entries out and keeps every id |
| `Recorder.LiveTrace.constructor` | crates/php-analyze/src/recorder/types.rs:653-680 | A new trace with an empty dictionary of its own |
| `Recorder.LiveTrace.RecordDrop` | crates/php-analyze/src/recorder/types.rs:835-838 | One more pending drop, and exactly one more on this trace's shared counter |
| `Recorder.LiveTrace.PushRecord` | crates/php-analyze/src/recorder/types.rs:738-742 | The record joins the buffer and 64 bytes join the estimate and the budget alike |
| `Recorder.LiveTrace.PushDictEntryViaInternRef` | crates/php-analyze/src/recorder/types.rs:786-803 | Interns, and bills trace and budget by the staged entry on a miss only, for any build closure |
| `Recorder.LiveTrace.FlushIntoPendingBatch` | crates/php-analyze/src/recorder/types.rs:873-916 | Takes the pending batch off the trace |
| `Recorder.LiveTrace.DictMissCostRef` | crates/php-analyze/src/recorder/observer.rs:1537-1543 | The bytes a miss would add, zero for a known function |
| `Recorder.LiveTrace.BeginWouldAccept` | crates/php-analyze/src/recorder/observer.rs:1328-1354 | The two gates, in order, on the budget as read; the counter grows exactly on refusal |
| `Recorder.LiveTrace.BeginLazyWouldAccept` | crates/php-analyze/src/recorder/observer.rs:1454-1481 | The same gates for the allocation-free description |
| `Recorder.LiveTrace.BeginAccept` | crates/php-analyze/src/recorder/observer.rs:1365-1413 | The accept tail; budget and estimate move together |
| `Recorder.LiveTrace.BeginLazyAccept` | crates/php-analyze/src/recorder/observer.rs:1488-1528 | The allocation-free accept tail, rendering the name inside the miss |
| `Recorder.LiveTrace.BeginWithSnapshots` | crates/php-analyze/src/recorder/observer.rs:1306-1315 | A whole begin reaches the state the trace model says, and conserves budget minus what trace and queue owe |
| `Recorder.LiveTrace.BeginWithSnapshotsLazy` | crates/php-analyze/src/recorder/observer.rs:1433-1442 | The same for the production begin |
| `Recorder.LiveTrace.EndWouldAccept` | crates/php-analyze/src/recorder/observer.rs:1583-1597 | Consumes a pending drop or lets the end through |
| `Recorder.LiveTrace.HandOff` | crates/php-analyze/src/recorder/observer.rs:1660-1671 | Takes the batch and hands it off: queued, or given back and, on a full channel, counted |
| `Recorder.LiveTrace.FinishCallRecord` | crates/php-analyze/src/recorder/observer.rs:1620-1672 | One record for the popped frame, field by field from the frame and the exit, behind what was buffered; then one look at the thresholds; nothing for an empty stack |
| `Recorder.LiveTrace.EndWithSnapshots` | crates/php-analyze/src/recorder/observer.rs:1564-1569 | A whole end reaches the state the trace model says, queues or counts its batch, and conserves the budget balance |
| `Recorder.LiveTrace.IntoAbnormalCallRecord` | crates/php-analyze/src/recorder/types.rs:303-325 | The abnormal record of a frame, field by field from frame and exit |
| `Recorder.LiveTrace.DrainOpenFramesIntoBuffer` | crates/php-analyze/src/recorder/observer.rs:231-245 | The pop loop records every open frame, top first, each field by field from its frame and the one shared exit snapshot, abnormal |
| `Recorder.LiveTrace.Release` | crates/php-analyze/src/recorder/observer.rs:155-197 | Drain, one flush, last subtraction: afterwards the trace owes the budget nothing |
| `Recorder.RequestThread.RinitAllocateTrace` | crates/php-analyze/src/recorder/observer.rs:85-108 | A trace left over gives its bytes back; a new one takes its place |
| `Recorder.RequestThread.RshutdownReleaseTrace` | crates/php-analyze/src/recorder/observer.rs:155-197 | Takes the trace off the thread and releases it; the budget balance is unchanged |
| `Accounting.WrapAdd` | crates/php-analyze/src/recorder/accounting.rs:47-60 | Wrapping at every atomic addition or once at the end gives the same value |
| `Accounting.WrapPeriod` | crates/php-analyze/src/recorder/accounting.rs:47-60 | The counters come round after exactly 2^64 |
| `Accounting.Budget.Add` | crates/php-analyze/src/recorder/accounting.rs:47-49 | Adds modulo 2^64 |
| `Accounting.Budget.Sub` | crates/php-analyze/src/recorder/accounting.rs:58-60 | Subtracts modulo 2^64 |
| `Accounting.DropCounters.Bump` | crates/php-analyze/src/shipper/http.rs:381-387 | Adds to one trace's counter modulo 2^64 and to no other |
| `Flushing.TrySendBatch` | crates/php-analyze/src/recorder/flush.rs:80-146 | Queued exactly when a sender is installed, the receiver lives and there is room; otherwise the bytes are returned; the records are counted on the full arm only; what budget and queue owe stays balanced on every arm |
| `PipelineRuns.RequestsAreRuns` | crates/php-analyze/src/recorder/observer.rs:1133-1196 | For every trace at every point of every interleaving of the two threads there is a run of the event model such that the batches handed off for the trace are the first of that run; between events the live trace is the run's trace and they are all its flushed batches, after release all of its batches |
| `PipelineDelivery.DeliveredFromRun` | crates/php-analyze/src/shipper/mod.rs:299-453 | For every trace under every interleaving the batches delivered are a subsequence, in order, of the batches handed off, which are the first of one run |
| `PipelineDelivery.DeliveredOnce` | crates/php-analyze/src/shipper/mod.rs:299-453 | No call is delivered twice: the call ids delivered for a trace are among 1..n, each at most once |
| `PipelinePlays.RequestPlays` | crates/php-analyze/src/recorder/observer.rs:1133-1196 | With a channel of any capacity but zero, any sequence of calls can be played from process start: some interleaving leads to exactly the trace and the batches of its run, each begin with the budget its gate then read, every batch delivered |
| `PipelinePlays.RequestCompletes` | crates/php-analyze/src/recorder/observer.rs:155-197 | And it can be played to its end: the trace released, every batch of the run delivered, that of the shutdown included, the queue empty and the budget zero |
| `PipelineProgress.ShipperDrains` | crates/php-analyze/src/shipper/mod.rs:355-414 | Once the producer is gone and unless the deadline has passed, the shipper can go on to deliver the batch in flight and every batch queued, in order, and exit with an empty queue |
| `PipelineProgress.ShipperAbandons` | crates/php-analyze/src/shipper/mod.rs:382-403 | A drain whose deadline passes ends as well: the shipper can go on to an empty queue and exit, delivering nothing more |
| `PipelineProgress.ModuleShutdownEnds` | crates/php-analyze/src/shipper/mod.rs:730-768 | A module shutdown begun between requests can run to its end: deadline published, `Drain` queued if in time, received by somebody and fitting, sender gone, channel closed; without a sender it ends at once and changes nothing |
| `PipelineProgress.RefusedSpawnDisables` | crates/php-analyze/src/shipper/mod.rs:617-638 | After a refused spawn nothing is ever queued or delivered, whatever follows |
| `PipelineBudget.BudgetConserved` | crates/php-analyze/src/recorder/flush.rs:80-146 | At every point of every interleaving the budget plus a pending addition equals live estimate plus batches in hand, queued and in flight; it is never negative and no subtraction of either thread exceeds it |
| `PipelineCap.CapOvershootBounded` | crates/php-analyze/src/recorder/types.rs:713-742 | At every point of every interleaving without a saturated depth counter: budget + 64 * open frames <= cap + 64 * (max_depth - 1), and open frames <= max_depth |
| `PipelineRecords.RecordsConserved` | crates/php-analyze/src/recorder/types.rs:835-838 | For every trace at every point of every interleaving, against histories read off the actions alone: begins observed = open + buffered + in hand + queued + in flight + gate refusals + records of batches that met a full channel + records of batches the shipper could not encode or post + records sent + uncounted losses (no receiver, abandoned, stale trace); and the drop counter is the three kinds of drops, less the bump in progress on either thread |
| `PipelineRecords.SentIsDelivered` | crates/php-analyze/src/shipper/http.rs:381-387 | The records counted as sent are those of the batches delivered |
| `PipelineRecords.StampExact` | crates/php-analyze/src/shipper/encode.rs:84-91 | The `dropped_records` a batch is stamped with is what the gates, the full channel and the shipper have dropped of its trace so far, less the bump its request thread is about to make; no other action stamps |
| `PipelineRecords.StampsMonotone` | crates/php-analyze/src/shipper/encode.rs:84-91 | The `dropped_records` stamped on the batches of one trace never decreases and never exceeds the counter |
| `PipelineShutdown.TwoSignalShutdown` | crates/php-analyze/src/shipper/mod.rs:299-331 | After the deadline cell is published at most one more batch is received without a deadline, counted over the actions, whatever is queued and whatever becomes of the `Drain` message; every deadline in use is the published one |
| `PipelineShutdown.DrainSent` | crates/php-analyze/src/shipper/mod.rs:730-768 | The `Drain` message carries the published deadline and is queued exactly when it is sent in time to a live receiver with room |
| `PipelineShutdown.DrainTaken` | crates/php-analyze/src/shipper/mod.rs:299-331 | Taking it puts the shipper on the drain path with the published deadline |
| `PipelineShutdown.QueueBounded` | crates/php-analyze/src/shipper/mod.rs:730-768 | The channel never holds more than its capacity |
| `PipelineShutdown.NothingLeaks` | crates/php-analyze/src/shipper/mod.rs:730-768 | Once module shutdown and shipper are done, the queue holds no batch and, with no live trace, the budget is zero |
| `RunLoop.Shipper.DrainedConsume` | crates/php-analyze/src/shipper/mod.rs:432-453 | One batch: the handler's answer for the deadline given, or a failed encoding; its loss counted and noticed, its bytes given back once |
| `RunLoop.Shipper.AbandonResidual` | crates/php-analyze/src/shipper/mod.rs:382-403 | After the deadline: everything until `try_recv` finds nothing is abandoned, its bytes given back, each batch counted |
| `RunLoop.Shipper.RunDrainPhase` | crates/php-analyze/src/shipper/mod.rs:355-414 | Keeps the books; handles every batch, with the entry deadline, up to the first receive that times out, and completes exactly if none does; a completed drain leaves nothing unreceived and nothing abandoned |
| `RunLoop.Shipper.RunLoop` | crates/php-analyze/src/shipper/mod.rs:299-331 | For every message sequence the loop ends; batches received, in order, are those handled then those abandoned; each handled one failed to encode or has the outcome the handler gives for its position, with no deadline before the first signal and exactly the signalled one after; those handled are the batches before the first receive that times out; their number is drained + notices pushed + abandoned; every byte is returned once; every dropped record is counted once; the log names each position once and in order; completion means nothing abandoned and an empty channel |
| `RunLoop.SignalIff` | crates/php-analyze/src/shipper/mod.rs:299-331 | The signal is the first loop head that finds the cell written or the message after the first `Drain`, whichever comes first, with its deadline |
| `RunLoop.CompletesIff` | crates/php-analyze/src/shipper/mod.rs:355-414 | A run completes its drain if and only if there is no signal or no receive from the signal on times out |
| `Retry.Sooner` | crates/php-analyze/src/shipper/http.rs:66-71 | The earlier of the deadlines present |
| `Retry.RunWithRetry` | crates/php-analyze/src/shipper/http.rs:117-177 | The loop, with its heads, attempt starts and sleeps, is the run of `Retry.Course` |
| `Retry.Course` | crates/php-analyze/src/shipper/http.rs:117-177 | The whole course of a call: each iteration but the last made its attempt, failed, was not the last, and met no known deadline by the end of its backoff, and the next head comes exactly then; the last gave up before its attempt if a known deadline had passed, and otherwise ended as its attempt did, or for the deadline |
| `Retry.GivesUpIff` | crates/php-analyze/src/shipper/http.rs:134-166 | The loop gives up for a deadline if and only if one known at the head of its last iteration had passed there, or falls before the end of the backoff after a failed attempt that was not the last; before its attempt exactly in the first case |
| `Retry.UnforcedRunsOn` | crates/php-analyze/src/shipper/http.rs:117-177 | Where no known deadline forces it, a call runs to its first success or makes all `retry_count + 1` attempts |
| `Retry.AttemptsReported` | crates/php-analyze/src/shipper/http.rs:117-177 | Attempts reported are attempts made, at most `retry_count + 1`; `Sent` means the last one succeeded and no earlier one did; any other drop reason than the deadline means all were made and the last failed with it |
| `Retry.NoAttemptPastDeadline` | crates/php-analyze/src/shipper/http.rs:129-144 | No attempt starts at or after a deadline known at its iteration head, passed or published |
| `Retry.VisibleDeadlineBound` | crates/php-analyze/src/shipper/http.rs:146-166 | A deadline known on entry is overrun by at most one attempt |
| `Retry.BacklogBound` | crates/php-analyze/src/shipper/mod.rs:355-414 | However many batches are handled one after another once a deadline is known, together they overrun it by at most one attempt |
| `Retry.LateBacklogNoAttempt` | crates/php-analyze/src/shipper/http.rs:129-144 | Batches handled past a known deadline make no attempt and take no time, however many |
| `Retry.DeadlineBound` | crates/php-analyze/src/shipper/http.rs:287-296 | A deadline `d` published at any moment `p` ends the call by max(d + T, p + T + backoff of the iteration in progress), T bounding an attempt |
| `Retry.SleepTotal` | crates/php-analyze/src/shipper/http.rs:77-84 | The k sleeps of a call total base * (2^k - 1) if and only if k <= 32 or base is zero (beyond that the 32-bit factor sticks) |
| `Retry.BackoffExact` | crates/php-analyze/src/shipper/http.rs:77-84 | A backoff is base * 2^attempt, and base * (2^32 - 1) from the 32nd attempt on; the 64-bit product never saturates |
| `Spawn.SpawnAtMostOnce` | crates/php-analyze/src/shipper/mod.rs:583-639 | At every point of every interleaving of any number of callers: at most one spawn and at most one warning |
| `Spawn.GuardExclusive` | crates/php-analyze/src/shipper/mod.rs:604-619 | At every such point at most one caller is between winning the compare-exchange and giving it up |
| `Spawn.SettledOutcome` | crates/php-analyze/src/shipper/mod.rs:583-639 | When all callers are through: exactly one spawn; after success the handle is kept and nothing is disabled; after refusal the sender slot is empty, the failed flag set, no handle kept, one warning out |
| `Spawn.FailureIsFinal` | crates/php-analyze/src/shipper/mod.rs:617-638 | After a refusal has been reported, whatever callers follow: the flag stays set, sender, receiver and handle slots stay empty, nobody can spawn or warn again, and the guard is up exactly while a caller holds it |
| `Spawn.FlagEndsCalls` | crates/php-analyze/src/shipper/mod.rs:592-599 | Once the failed flag is set it stays set, and a call that had not passed it, or enters later, returns at its next step and touches nothing |
| `Spawn.CallsReturn` | crates/php-analyze/src/shipper/mod.rs:583-639 | No caller waits for another: it returns within eight steps of its own, whatever the others do |
| `Spawn.SuccessIsFinal` | crates/php-analyze/src/shipper/mod.rs:592-606 | After a success no later caller passes the compare-exchange |
| `Spawn.WindowReached` | crates/php-analyze/src/shipper/mod.rs:626-631 | Between the reset of the guard and the setting of the flag a second caller does win the compare-exchange; it finds no receiver |
| `Dump.DumpRoundTripIff` | crates/php-analyze/src/recorder/dump.rs:134-252 | The text of any flush blocks and trailer parses back to exactly what was written if and only if no name holds a newline or a tab, no file holds a newline, and no file ends in a carriage return |
| `Dump.ParseDetermines` | crates/php-analyze/src/recorder/dump.rs:134-252 | Two clean dumps that parse alike hold the same entries, kinds included, the same records, flush headers and drop count |
| `Dump.DictLineText` | crates/php-analyze/src/recorder/dump.rs:239-252 | The text of a dictionary line, with `function`, `method`, `closure` or `internal` for its kind |
| `Dump.FlushLineText` | crates/php-analyze/src/recorder/dump.rs:134-173 | The text of a flush line, with `records`, `bytes` or `rshutdown` for its trigger |
| `Dump.MarkerLineText` | crates/php-analyze/src/recorder/dump.rs:228-235 | The text of the end marker |
| `Dump.HexBytesAt` | crates/php-analyze/src/recorder/dump.rs:228-235 | The trace id is printed two lower-case hex digits to the byte, leading zeros kept |
| `Dump.MarkerSeenIff` | crates/php-analyze/src/recorder/dump.rs:311-348 | The end marker counts as seen if and only if some line begins with it |
| `Dump.CallComesBack` | crates/php-analyze/src/recorder/dump.rs:394-424 | Any call record, signed 64-bit fields included, is read back from its line |
| `Dump.FlushComesBack` | crates/php-analyze/src/recorder/dump.rs:353-371 | Any flush header is read back from its line |
| `Dump.NamesComeBackIff` | crates/php-analyze/src/recorder/dump.rs:373-392 | What a dictionary line keeps of name and file splits back into them if and only if both are clean |
| `Dump.ParseFlushLine` | crates/php-analyze/src/recorder/dump.rs:353-371 | The key loop is the fold over its parts, giving up on a part without `=` |
| `Dump.ParseDump` | crates/php-analyze/src/recorder/dump.rs:311-348 | The line loop is the fold over the lines |
| `Dump.Sink.WriteFlushBlock` | crates/php-analyze/src/recorder/dump.rs:134-173 | Appends the header, then the entries, then the records |
| `Dump.Sink.WriteTrace` | crates/php-analyze/src/recorder/dump.rs:183-238 | Appends what is still staged and buffered, the drop count and the end marker |
| `Numerals.UnsignedRoundTrip` | crates/php-analyze/src/recorder/dump.rs:394-404 | A printed unsigned number parses back if and only if it fits the width |
| `Numerals.SignedRoundTrip` | crates/php-analyze/src/recorder/dump.rs:404-410 | Every printed 64-bit signed number parses back, and begins with a minus sign exactly when negative |
| `Numerals.CpuDelta` | crates/php-analyze/src/recorder/observer.rs:1634-1644 | The CPU delta of a record is the difference clamped to 0..i64::MAX |
| `Config.ClampDirective` | crates/php-analyze/src/config.rs:572-598 | The value asked for, or the bound it passes; one warning exactly when that value was out of range, the default included |
| `Config.FromIniValues` | crates/php-analyze/src/config.rs:374-437 | The numeric directives: every resolved number is the allowed one nearest to the one given or its default, the cap at or above the flush threshold, and the warnings name the directives that were moved, in order; with the master switch off all are defaults without a warning; otherwise no range warning if and only if every directive given was in range, and then each is kept |
| `Config.LimitsOf` | crates/php-analyze/src/recorder/types.rs:513-525 | Resolved limits meet what the recorder's theorems ask for |
| `Config.ResolvedCapBound` | crates/php-analyze/src/config.rs:389-400 | Whatever the directives, every interleaving stays within the overshoot bound of the resolved cap, far below the word size |
| `Config.ParsedWellFormed` | crates/php-analyze/src/config.rs:739-762 | Whatever the directive, the skip set is non-empty and holds only trimmed, lowercase, comma-free names |
| `Text.WhitespaceTable` | crates/php-analyze/src/config.rs:739-762 | Trimming removes exactly the 25 characters of the Unicode White_Space property |
| `Config.RowRoundTripIff` | crates/php-analyze/src/bootstrap.rs:882-887 | Re-parsing the printed row gives back the set it lists, in any listing order, if and only if the set is non-empty and well-formed |
| `Config.SortedListingUnique` | crates/php-analyze/src/bootstrap.rs:882-887 | A set has one sorted listing, so the row does not depend on iteration order |
| `Config.SkipListTakesEffect` | crates/php-analyze/src/recorder/observer.rs:1210-1235 | A call is skipped if and only if it is internal and internals are skipped, or its name (`class::name` for a method) differs in ASCII letter case only from some trimmed entry or, with no entry set, from a default name |

## Left out

- Engine and PHP bindings: extracting a call site, reading names, INI registration, lifecycle shims, unwinding. Call sites and snapshots are inputs.
- Clocks, CPU usage and memory readings: arbitrary 64-bit values; in `Retry.dfy` a clock moved only by attempts and sleeps.
- MessagePack bytes, HTTP and TLS: an attempt is any outcome after any bounded time; encoding works or fails.
- Wire structures: field-by-field copies, of which only the live drop-counter read is kept.
- More than one request thread: the pipeline has one request thread and one shipper, as in a process of the FPM or CLI kind.
- Memory orderings and mutex poisoning: each atomic operation or mutex-held access is one indivisible step.
- A panicking shipper thread and joining its handle.
- Overflow of the `call_id` (2^64) and `fn_id` (2^32) counters, which the source answers with a panic: ids are unbounded.
- Pipeline.Bumped: does not wrap the drop counters at 2^64, which no run reaches; `Accounting.DropCounters` does wrap.
- Retry.RunWithRetry: sleeps last exactly their backoff and reading clock or deadline takes no time.
- Matching.MatchedAlways: for runs that do not saturate the 32-bit depth counter, as are `Matching.EndsPairIff`, `Matching.PairingIff`, `Matching.DepthGateAlonePairs`, `Forests.DepthTruncation` and `PipelineCap.CapOvershootBounded`; `TraceModel.BeginMatchedIff` says exactly which begin breaks the relation at saturation.
- Config.FromIniValues: does not resolve the server URL, the token and the CPU mode, nor push their warnings; `warnings` are those of the numeric directives.
- Deadline values in the pipeline: which of two message arrivals or the timeout comes first is left open rather than timed.
- The text of drop notices and warnings, and draining the notice queue on the PHP thread.
- Server URL, token and CPU-mode directives, the other phpinfo rows, and how the standard library sorts.
- Opening the dump file and UTF-8 decoding of it; a file that holds the dumps of several traces.
- Test seams, the ingest stub, benches and fixtures.
