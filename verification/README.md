# Verification of TAMSin's ingest core

TAMSin ingests media into a TAMS store. Most of its difficulty is keeping a local account honest
about things it does not control: a remote store that may commit a request and lose the reply, a
byte stream that may drop or change under it, workers and resources shared by many inputs, and
metadata that others also write. This project models that core and proves what it promises.

| area | files |
|---|---|
| Object commit and recovery | `Results`, `RemoteStore`, `Verification`, `Registration`, `Lifecycle`, `Transfer`, `RollingCommit`, `RollingExecution` |
| Process event stream | `EventProtocol` (the language of streams), `EventEncoder`, `EventMailbox`, `EventOutput`, `ProgressTracker` |
| Resumable reading | `ByteRanges`, `ResponseBody`, `HttpSource`, `ResumableStaging`, `PinnedReader` |
| Shared resources | `SlotScheduling`, `StagingLedger`, `GraphLock`, `Backpressure`, `RunObserved`, `FlowGraphCommit` |
| Algorithms with a short specification | `BitRate`, `LinkSyntax`, `LinkHeader`, `LinkGrammar`, `JsonComparison`, `Metadata`, `Identity`, `Timeline`, `Cadence` |
| Decimal numbers and trimming | `Text` |

Objects that the program updates in place are classes here, with their loops and invariants.
Protocols that run under several locks or many goroutines (slots, the staging ledger, graph locks,
backpressure) are small-step systems whose steps are the program's critical sections; their main
results are about every run. `dafny verify dfyconfig.toml` checks the whole project.

## Assumed of the environment

- A POST that returned an error has finished having any effect; a typed partial reply names exactly
  the Segments that failed; listings are truthful; nobody else writes to the Flow.
- No deletion of a batch's Segments is outstanding when the batch begins, and Object IDs in a batch
  are distinct.
- An equal strong entity tag, S3 ETag or S3 version names equal bytes (section 8.8.1 of RFC 9110);
  If-Range and If-Match are honoured, stated ranges and lengths are true, and a full body ends
  cleanly only at its end. SHA-256 is represented by the bytes it absorbed.
- The weighted semaphore serves its waiters strictly in order.
- A Tracker hands over its revisions in order, which `ProgressTracker` proves of the Tracker itself.
- Sink calls, remote calls and held work end; deadlines and cancellation may strike anywhere.

Besides these, every remote answer, refusal and failure is arbitrary, so that a body that always gave
up would still be truthful. The environments therefore carry constants that say they are well behaved
(`calm`, `answersPosts`, `steady`, `reliable`, `granting`, `sound`, `accepting`), and the main
operations also promise success, or name the only reasons for failure, whenever these hold.

## Where the code falls short of its promise

- `internal/ingest/transfer.go:55-56` says the batch filter covers the batch's Segments. It is half
  open, so it misses a zero-duration Segment at the end of the span. A rolling resume then takes a
  registered Segment for missing. `RollingListingMissesInstant` is a batch that fails,
  `RollingListingShows` and `RollingTruthExact` are the exact condition, and `RegisterRollingChunk`
  keeps its promise in every other case. In the recovery of a lost reply the same miss is safe: the Segment is retracted.
- `preserveForeignMetadata` is not idempotent on a stored Flow without tags when this run generates a
  single source tag or a source list in another form (`Idempotent` has the exact condition,
  `FirstPlanNotStable` an input): the first re-plan after a creation then writes the list.
- A JSON tree that holds a malformed number differs from itself (`ReflexiveIffClean`).
- The peak bit rate can lie below the average when the Segments cannot be cut into runs that last
  between half and one and a half times the target (`PeakBelowAverage`); otherwise it cannot
  (`PeakReachesAverageExactly`).
- The NUL-joined identifiers are injective only on components without NUL (`JoinInjective`,
  `JoinAmbiguous`); the length-framed ones always are (`NamesInjective`).

## Model

| member | source | states |
|---|---|---|
| `Transfer.CommitReadyChunk` | internal/ingest/transfer.go:108-247 | one batch, for every store behaviour and in every verification mode: no Segment is posted before its Object was sent with its own size and digest to an allocated destination, and whatever this run leaves registered or ingested was sent so; no Object stays indeterminate and every disposition is true of the store at exit (absent when planned, rejected or retracted; present and not being deleted when registered or ingested; verified when ingested unless the mode is none, and in every mode when left registered; named by the error when stranded); nothing outside the batch changes; no error means all are ingested and published, and a calm environment gives no error |
| `Transfer.CommitChunk` | internal/ingest/transfer.go:79-104 | microbatches sized by the free upload workers: progress is a prefix, and at any failure every disposition of the whole chunk is still true |
| `Transfer.ChunkSize` | internal/ingest/transfer.go:25-43 | the longest non-empty prefix within the byte budget: within it unless a single Object, and the next Object would exceed it |
| `Transfer.CommitMissing` | internal/ingest/transfer.go:435-453 | chunks in order until one fails; either way the truth about every missing Object, and the same order and evidence of uploads |
| `Transfer.CheckChunk` | internal/ingest/transfer.go:222-237 | storage digests where the mode accepts them and the receipt has one, readback for the rest; success means every Object is stored and verified |
| `Transfer.UploadPool` | internal/ingest/transfer.go:157-189 | whatever the order of the workers' steps, every upload ends and an accepted digest is that of the bytes the store holds |
| `Transfer.UploadAll` | internal/ingest/transfer.go:157-192 | success means a receipt for every Object, whose digest, if any, is that of the bytes stored; nothing is registered and no other Object's bytes change |
| `Transfer.SendChunk` | internal/ingest/transfer.go:122-192 | destinations first and then every upload: success means every Object was sent with its own size and digest, nothing is registered, and in a calm environment it succeeds |
| `Transfer.SentIfClaimed` | internal/ingest/transfer.go:194-247 | an Object that was not in the store before and is left registered or ingested was sent by this run |
| `Transfer.CheckResumed` | internal/ingest/transfer.go:414-427 | listed Objects are verified when asked and published only then; otherwise untouched |
| `Transfer.RegisterPreparedObjects` | internal/ingest/transfer.go:396-454 | resume what a truthful listing shows, mark the Flow and commit the rest: true dispositions always, nothing posted that was not sent, what is left registered or ingested was sent, and without an error an Object is resumed exactly when it was listed and ingested otherwise; a calm environment gives no error |
| `Transfer.RegisterFlow` | internal/ingest/transfer.go:371-383 | after a complete listing every disposition is true and success means every Segment is in the store; a failed listing changes nothing; nothing is posted that was not sent |
| `Transfer.RegisterRollingChunk` | internal/ingest/transfer.go:385-394 | a batch that lists only its own span keeps the same promise whenever no registered Segment is an instant at the end of that span |
| `Transfer.RollingTruthExact` | internal/ingest/transfer.go:55-70 | what such a batch says of its Objects after its listing is true of the store if and only if none of its registered Objects is an instant at the end of its span |
| `Transfer.RollingListingShows` | internal/ingest/transfer.go:57-70 | the batch's own filter lists a registered Object of the batch if and only if it is no trailing instant |
| `Transfer.RollingListingMissesInstant` | internal/ingest/transfer.go:55-70 | a batch whose registered trailing instant its filter does not list |
| `Registration.ChunkTimerange` | internal/ingest/transfer.go:57-70 | the half-open span from the first start to the last end, or none when its width wraps 64 bits |
| `Registration.BatchFilterSees` | internal/ingest/transfer.go:57-70 | which Objects of a batch that span overlaps: all but trailing instants |
| `Registration.RegisterSegments` | internal/tams/client.go:186-221 | success means all are registered; a typed partial reply reports exactly those that are; any other error says nothing about which |
| `Registration.ReconcileRegistrationError` | internal/ingest/registration.go:32-107 | after a partial or lost reply every disposition of the batch is true of the store, and success means the whole batch is there and, unless the mode is none, verified; a lost reply about a batch that a calm environment took is success |
| `Registration.RollBackPartial` | internal/ingest/registration.go:37-54 | what a partial reply registered is retracted or stranded and named, and exactly the rest is rejected, absent from the store |
| `Registration.ResolveReadback` | internal/ingest/registration.go:56-107 | a readback after a lost reply: everything visible and verified, or every disposition true and an error |
| `Registration.ResolveIncomplete` | internal/ingest/registration.go:90-106 | what the readback did not show is retracted before anything is said about it |
| `Verification.VerifyAll` | internal/ingest/verify.go:63-148 | every Object ends verified, retracted or stranded, with its disposition and evidence, and the error names exactly those that did not verify; in a calm environment an Object is verified if it is registered with its own bytes and retracted otherwise |
| `Verification.VerifyPool` | internal/ingest/verify.go:90-111 | for every interleaving of the workers each Object reaches one outcome that is true of the store, only Objects of the batch are retracted, and in a calm environment none that is listed with its own bytes is |
| `Verification.Step` | internal/ingest/verify.go:156-206 | one remote call of one Object: its next state is true of the store, and an Object goes on to deletion only after a cancellation or failed call, a missing listing, or a differing or absent digest |
| `Verification.RetractRegisteredObjects` | internal/ingest/registration.go:112-157 | every Object ends retracted and absent or stranded and named; in a calm environment all are retracted |
| `RemoteStore.Store.Delete` | internal/tams/deletion.go:20-57 | a deletion may take effect, be pending or fail; only the Segment asked for is touched |
| `RemoteStore.Store.PollDeletion` | internal/tams/deletion.go:59-147 | confirmed absence means the pending Segments are gone |
| `RemoteStore.Store.Post` | internal/tams/client.go:186-213 | any subset of a request may commit, and only of that request; a typed partial reply is exact |
| `ObjectResults.SetObjectDisposition` | internal/ingest/result_projection.go:26-33 | changes the disposition of that ID and nothing else |
| `ObjectResults.SetObjectVerification` | internal/ingest/result_projection.go:35-45 | changes the verification and its method of that ID and nothing else |
| `Lifecycle.LifecycleLog.ObserveObjectBatch` | internal/ingest/lifecycle.go:69-97 | publishes each finished Object of the batch once, with its final disposition, also when the observer fails |
| `Lifecycle.LifecycleLog.ObserveRemainingObjects` | internal/ingest/lifecycle.go:99-129 | at the end every Object of a Flow not yet published is published once; exactly those still planned outside a dry run are closed as unattempted |
| `Lifecycle.PublishedStays` | internal/ingest/lifecycle.go:69-134 | what was published stays true while unpublished Objects change |
| `EventOutput.AnySchedule` | internal/cli/ingest_events.go:92-640 | for every sequence of the public methods, flush ticks, the cancellation watcher and reporters, with any arguments: each log is legal and extends all earlier ones, and none holds a cancellation recorded after a freeze returned |
| `EventOutput.UncancelledBetween` | internal/cli/ingest_events.go:542-602 | a log whose reader knows of no new cancellation has recorded none since |
| `EventOutput.Output.Finish` | internal/cli/ingest_events.go:405-516 | success: the stream ends in run.finished, after a diagnostic if there was a cause, and a frozen interruption decides the exit code; the outcome is interrupted exactly for the interrupted exit code, otherwise partial exactly when some input's record says it succeeded and some that it failed, otherwise failed exactly for another exit code than 0 or a failed input, otherwise succeeded; finishing twice changes nothing; it succeeds while nothing was refused |
| `EventOutput.Output.WriteRunFinished` | internal/cli/ingest_events.go:479-506 | the last record carries that verdict on the terminal records before it and on the exit code |
| `EventOutput.VerdictsCounted` | internal/cli/ingest_events.go:479-506 | some input failed, or succeeded, in the records exactly when the count of those is positive |
| `EventOutput.Output.FailTheRest` | internal/cli/ingest_events.go:445-467 | inputs without a terminal record get one, in source order |
| `EventOutput.Output.EmitRunFinished` | internal/cli/ingest_events.go:479-506 | total, succeeded, failed, retries and outcome of the last record are what it is handed, and those counts are of the stream before it |
| `EventOutput.Output.FreezeTerminal` | internal/cli/ingest_events.go:542-573 | the first freeze decides, later ones repeat it, and no cancellation is recorded after it returns |
| `EventOutput.Output.Cancelled` | internal/cli/ingest_events.go:526-602 | a cancellation before the freeze is recorded once; after it, never |
| `EventOutput.Output.Declare` | internal/cli/ingest_events.go:166-187 | declares exactly the items in order and seals the manifest once |
| `EventOutput.Output.PlanFlow` | internal/cli/ingest_events.go:203-228 | a Flow is planned once, after its input started |
| `EventOutput.Output.ObjectsCompleted` | internal/cli/ingest_events.go:234-269 | success appends exactly the batch's Object records, after the input's start record if that was not out yet |
| `EventOutput.Output.Result` | internal/cli/ingest_events.go:334-403 | success gives the input its one terminal record, after its progress is sealed and every waiting snapshot of it, or a newer one of the same phase, is written; the stream then ends with exactly its Flow records, a diagnostic if it failed, and that record; it succeeds for a declared input without one whose summaries are those of the stream, while nothing was refused |
| `EventOutput.Output.WriteFlow` | internal/cli/ingest_events.go:355-375 | a Flow's terminal summary is written only when it equals the tally of its streamed Objects |
| `EventOutput.Output.Retry` | internal/cli/ingest_events.go:319-332 | a written retry is counted once |
| `EventOutput.Output.Flush` | internal/cli/ingest_event_progress.go:35-63 | every waiting snapshot it chose, or a newer one of the same phase, is written, nothing of what it chose is left, and the stream stays legal while reporters go on |
| `EventOutput.Output.Close` | internal/cli/ingest_events.go:310-317 | closing a finished stream cannot fail it or add to it |
| `EventOutput.Output.Emit` | internal/cli/ingest_events.go:618-641 | one record more, or the failure retained and the stream unchanged |
| `EventMailbox.Mailbox.Report` | internal/cli/ingest_events.go:271-308 | exactly when a snapshot takes the place of the one that waits: its input is open, it shows some verification, and it does not follow an accepted one too soon without completing its phase or sealing its totals |
| `EventMailbox.Mailbox.Take` | internal/cli/ingest_event_progress.go:35-58 | takes exactly the chosen snapshots, by input and then strictly by revision |
| `EventMailbox.InOrder` | internal/cli/ingest_event_progress.go:38-58 | the map's values in that order, each once |
| `EventMailbox.Mailbox.Interference` | internal/cli/ingest_events.go:271-308 | any number of concurrent reports: nothing reaches a sealed input, nothing waiting disappears, and it is only replaced by something newer |
| `EventEncoder.Encoder.Emit` | internal/ingestevent/codec.go:56-131 | exactly when a record is accepted; sequence numbers are contiguous and elapsed time never decreases |
| `EventEncoder.Encoder.Finalize` | internal/ingestevent/codec.go:133-151 | fails unless the terminal record was written, and repeats its answer |
| `EventProtocol.AtMostOnce` | internal/cli/ingest_events.go:92-640 | the only hello comes first, nothing follows run.finished, and starts, plans, finishes, manifest and cancellation occur at most once |
| `EventProtocol.ProgressOrdered` | internal/cli/ingest_event_progress.go:35-77 | progress lies between its input's start and finish with strictly increasing revision across both phases |
| `EventProtocol.RunAccounted` | internal/cli/ingest_events.go:479-506 | before run.finished every declared input has its terminal record, total = succeeded + failed = declared, and a recorded cancellation decides the outcome |
| `EventProtocol.FlowSummaryMatchesStream` | internal/cli/ingest_events.go:365-367 | a Flow's terminal summary is the tally of the Object records before it |
| `EventProtocol.TallyConserves` | internal/ingest/object_summary.go:6-32 | dispositions add up to the total and verification counts never exceed it |
| `ProgressTracker.Tracker.Report` | internal/progress/progress.go:96-190 | reports leave in revision order, each valid, and neither work nor totals ever go back |
| `ProgressTracker.Tracker.SetTotals` | internal/progress/progress.go:129-159 | exactly which totals are accepted, and that final totals stay |
| `ProgressTracker.Tracker.Advance` | internal/progress/progress.go:161-183 | exactly which work is accepted |
| `ResumableStaging.Staging.Stage` | internal/ingest/stage.go:52-162 | success: the file is one whole representation the server sent, the digest absorbed exactly it, and the lease counts exactly its bytes; failure leaves nothing counted; at most retries + 1 bodies are read; with a steady source, room and a sound disk it fails only after a cancellation or when the attempts are used up |
| `ResumableStaging.Staging.CopyAll` | internal/ingest/stage.go:97-139 | at every head of the resume loop file, digest, size and lease agree and the file is a prefix of one representation |
| `ResumableStaging.Staging.Copy` | internal/ingest/pipeline.go:1394-1421 | whatever ends the copy, the file gained the next bytes of the body, and the digest lags only after a failed write |
| `ResumableStaging.Staging.Write` | internal/ingest/staging_capacity.go:445-459 | a short write counts what was written and absorbs nothing |
| `HttpSource.HttpItem.Get` | internal/source/resolver.go:418-529 | continuing means the body is the rest of the recorded representation; otherwise it is a whole new one, now recorded; a steady server is always continued from |
| `HttpSource.S3Item.Get` | internal/source/resolver.go:754-859 | the same for an object pinned by version and ETag |
| `HttpSource.HttpItem.RecordRepresentation` | internal/source/resolver.go:406-417 | only a strong tag is kept, with the length the response states |
| `ResponseBody.Body.Read` | internal/source/range.go:118-150 | the claimed bytes in order, and a clean end only after all of them |
| `ByteRanges.RangeRoundTrip` | internal/source/range.go:19-55 | a printed Content-Range reads back if and only if it is a range of a 64-bit length |
| `ByteRanges.UnsatisfiedRoundTrip` | internal/source/range.go:41-55 | the same for the unsatisfied form, and neither is read as the other |
| `ByteRanges.ValidateCompleteRange` | internal/source/range.go:72-92 | a range is accepted exactly when it starts at the offset, ends at the last byte, and agrees with the known total and length |
| `ByteRanges.CompleteRangeAccepted` | internal/source/range.go:72-92 | the range a server states for everything from an offset on is accepted |
| `ByteRanges.StrongExactly` | internal/source/range.go:94-106 | a strong tag is an opaque text in quotes, without blanks, quotes or control characters in it |
| `PinnedReader.Reader.Read` | internal/source/bridge.go:161-195 | over any drops and reconnections the bytes are the snapshot's at the position, and end of file means its end; each round spends an attempt; where every range is served it fails only when the attempts are used up |
| `PinnedReader.Reader.Seek` | internal/source/bridge.go:141-159 | moves exactly inside the representation |
| `PinnedReader.Reader.OpenAt` | internal/source/snapshot.go:119-149 | an opened body carries exactly the snapshot from the offset on |
| `PinnedReader.Reader.ReconnectsBounded` | internal/source/bridge.go:117-195 | reconnections are at most retries times (1 + bytes / 2^20) |
| `SlotScheduling.EveryRunFinishes` | internal/ingest/transfer.go:272-365 | under any schedule and cancellations no run is longer than its work, and one that cannot continue has finished every task and returned every slot |
| `SlotScheduling.NoDeadlock` | internal/ingest/pipeline.go:1049-1085 | in every state of the invariant some task can step unless all are finished |
| `SlotScheduling.StepKeeps` | internal/ingest/transfer.go:272-365 | every acquisition and release keeps the slot accounting and the strict order of the semaphore's queue |
| `SlotScheduling.CancelKeeps` | internal/ingest/transfer.go:272-325 | a cancelled waiter leaves the queue and gives back what it held |
| `SlotScheduling.NotifyKeeps` | internal/ingest/transfer.go:290-295 | a release serves every waiter at the front that now fits, and only those |
| `SlotScheduling.HeavyAndRollingDeadlock` | internal/ingest/pipeline.go:1059-1063 | a run that stops for good when a weight-two and a rolling render meet, which a fixed segment duration rules out |
| `StagingLedger.EveryInterleaving` | internal/ingest/staging_capacity.go:179-443 | for any inputs and any interleaving from an empty ledger: the claims add up to the manager's total, which stays within the limit, used never exceeds reserved, and whoever waits holds nothing while another task holds something and can act |
| `StagingLedger.StepKeeps` | internal/ingest/staging_capacity.go:179-443 | every critical section keeps that invariant, and nobody waits on an open channel while nothing is reserved |
| `StagingLedger.WaiterDependsOnHolder` | internal/ingest/staging_capacity.go:206-244 | a task that waits on the open channel, in reserve or in reserveAdditional, holds nothing, while another holds something and can act |
| `StagingLedger.AllowanceStartsEmpty` | internal/ingest/pipeline.go:763-776 | the inputs that ask for an allowance before rendering are among those whose estimate is zero, so they reserve nothing first |
| `StagingLedger.LedgerDrains` | internal/ingest/staging_capacity.go:281-293 | when nobody can act, everything is released |
| `StagingLedger.ClampNeverFires` | internal/ingest/staging_capacity.go:281-293 | a release returns at most what is reserved |
| `StagingLedger.ZeroEstimate` | internal/ingest/staging_capacity.go:461-509 | nothing is reserved up front exactly for fast dry runs of streams and for local inputs that will not be segmented |
| `StagingLedger.EstimateExactly` | internal/ingest/staging_capacity.go:461-509 | an estimate is the staged bytes (none for a local input, the size but at least one byte for another) and, where an output is rendered, five percent or a mebibyte above the size, a rolling one at most a window; it is unknown exactly when the size is or FFmpeg arguments decide the output, and refused exactly when 105 times the size leaves 64 bits or a stream has no size |
| `StagingLedger.RequiredExactly` | internal/ingest/staging_capacity.go:461-509 | what is first asked of the manager is the estimate, the whole limit for an unknown one, and no more than the limit for a stream; it is refused exactly when the input cannot be streamed as asked, the estimate is refused, or nothing or too little is there for it |
| `GraphLock.EveryInterleaving` | internal/ingest/identity.go:161-190 | from an empty map the invariant holds in every interleaving |
| `GraphLock.StepKeeps` | internal/ingest/identity.go:170-190 | users equals the tasks inside, and each of them uses the lock the map names |
| `GraphLock.MutualExclusion` | internal/ingest/identity.go:170-190 | at most one task holds a root Flow |
| `GraphLock.EntriesAreUsers` | internal/ingest/identity.go:165-190 | an entry exists if and only if some task is inside |
| `GraphLock.Progress` | internal/ingest/identity.go:170-190 | a waiter is blocked only by a holder, and an idle lock map is empty |
| `RunObserved.Run.RunAll` | internal/ingest/pipeline.go:230-355 | every input is reported exactly once and fills its slot, and succeeded + failed is the number of inputs, for every schedule, cancellation and observer failure |
| `RunObserved.Run.Drain` | internal/ingest/pipeline.go:240-324 | each dispatched index is completed and reported once |
| `Backpressure.SegmentBackpressure.BeforeSink` | internal/media/segment_staging.go:39-56 | exactly when the process is stopped and when the call fails; a failure changes nothing; a stopped process keeps a pending Segment |
| `Backpressure.SegmentBackpressure.AfterSink` | internal/media/segment_staging.go:58-79 | the process still stands only above the low mark with another Segment pending, or if resuming it failed; a stopped process keeps a pending Segment |
| `Backpressure.EveryRun` | internal/media/segment.go:285-378 | in every interleaving, with errors and cancellation anywhere: until the first of them pending is announced minus sunk, and a stopped process has a Segment on its way to the sink; a run has at most five steps a Segment and two more |
| `Backpressure.EveryRunEnds` | internal/media/segment.go:341-378 | a run that can go no further has shut down with nothing left anywhere; without an error everything announced was sunk and the process runs |
| `Backpressure.StoppedIsResumed` | internal/media/segment_staging.go:58-79 | a stopped process is resumed by a sink call, at the latest by the one that sinks the last of what was pending or has been announced since |
| `Backpressure.StopIsTemporary` | internal/media/segment_staging.go:39-79 | whenever the process stands in an error-free run, a later sink call of that run resumes it |
| `RollingExecution.Execution.Accept` | internal/ingest/rolling.go:126-171 | a prepared Object of a known Flow joins the end of its Flow's backlog; the whole backlog is flushed exactly when a live stream's evidence becomes complete, and otherwise when the staging area asks or a limit is reached; it is left below both limits, or below the count limit while the evidence is incomplete |
| `RollingCommit.FlowCommit.FlushBatch` | internal/ingest/rolling.go:182-233 | one batch of a Flow, whatever its store does: everything said of its Objects is true when it returns, and so is still everything said of the batches before it; what is called registered or ingested was sent; after an error exactly what was planned is unattempted |
| `RollingExecution.Execution.Flush` | internal/ingest/rolling.go:182-233 | moves exactly one Flow's backlog, in order, to its account, whether or not the store takes it |
| `RollingExecution.Execution.Settle` | internal/ingest/rolling.go:220-223 | the shared byte and object counts stay the sums over the Flows, so their clamps at zero never act |
| `RollingExecution.Execution.Finish` | internal/ingest/rolling.go:240-252 | every Flow is flushed even after another failed: nothing waits, and of every Object of every Flow what is said is true of the store and counted in the summary, and what is called registered or ingested was sent |
| `RollingExecution.Execution.AlwaysAccounted` | internal/ingest/rolling.go:126-252 | at every moment of the run everything said of what was flushed is true of each Flow's store, and the summary is its tally |
| `FlowGraphCommit.CommitFlowGraph` | internal/ingest/flow_graph.go:150-193 | every Flow's disposition is true of the store after any failure: written ones are there, unattempted and unchanged ones are as they were |
| `BitRate.Accumulator.Add` | internal/media/bitrate.go:57-98 | after any measurement the kept peak is the maximum over all contiguous runs so far that last between half and one and a half times the target, although prefixes are discarded |
| `BitRate.Accumulator.Result` | internal/media/bitrate.go:100-113 | the average over everything, and that peak, or the average when it is zero |
| `BitRate.Accumulator.constructor` | internal/media/bitrate.go:57-70 | for a target that is not negative the least duration of an eligible run is the target's half and the greatest its one and a half, both rounded down; a negative one is truncated toward zero |
| `BitRate.PeakExactly` | internal/media/bitrate.go:57-98 | the kept peak is zero without an eligible run, and otherwise attained by one and reached by none other |
| `BitRate.PeakUnique` | internal/media/bitrate.go:57-98 | the maximum is unique |
| `BitRate.PeakReachesAverage` | internal/media/bitrate.go:57-113 | if the sequence can be cut into eligible runs whose rates fit 64 bits, the peak is at least the average |
| `BitRate.PeakReachesAverageExactly` | internal/media/bitrate.go:57-113 | the durations can be cut so if and only if the peak reaches the average for all byte counts whose rates fit |
| `BitRate.PeakAtLeastAverage` | internal/media/bitrate.go:57-113 | in particular when every Segment lasts at least half the target |
| `BitRate.PeakBelowAverage` | internal/media/bitrate.go:57-113 | a sequence that cannot be cut, with its peak below its average |
| `LinkHeader.CursorRoundTrip` | internal/tams/pagination.go:144-174 | paging over printed fields continues exactly to the one unanchored link with a next relation in any case, ends exactly when no link is next, whatever commas, semicolons and quotes the links contain |
| `LinkHeader.FieldsBack` | internal/tams/pagination.go:144-323 | reading printed fields gives what their links say, in order |
| `LinkHeader.LinkBack` | internal/tams/pagination.go:242-323 | parsing a printed link gives its meaning |
| `LinkHeader.NextPageURL` | internal/tams/pagination.go:144-174 | the loop computes that reading: malformed, anchored, ambiguous or the cursor |
| `LinkHeader.UniqueNext` | internal/tams/pagination.go:144-174 | the cursor is t if and only if exactly one link is well formed, has rel=next by its parameters alone, is unanchored and has target t, and every other is well formed and elsewhere; there is none if and only if all are elsewhere |
| `LinkHeader.MeaningExactly` | internal/tams/pagination.go:242-323 | a link means something exactly when it has at most one relation parameter, of relation types, and no anchor without a value; it is next exactly when a word of its relation spells next in any case, and anchored exactly when an anchor has a value |
| `LinkGrammar.AcceptedExactly` | internal/tams/pagination.go:242-323 | of all texts, a link value is accepted exactly when it is spelled as a target and parameters with any blanks, unquoted values, relation lists and escapes, and they are well formed; then it means what it spells |
| `LinkGrammar.SplitExactly` | internal/tams/pagination.go:182-240 | the only split of a field is at all commas outside targets and quoted strings; it fails exactly when one stays open or a line breaks |
| `LinkGrammar.NextPageExactly` | internal/tams/pagination.go:144-174 | for any field lines: paging continues to t exactly when one value of all lines is an unanchored next link to t and every other is blank or a well-formed link elsewhere, and ends exactly when all are |
| `LinkSyntax.SplitLinkValues` | internal/tams/pagination.go:182-240 | the scanner computes the split of a field at the commas outside targets and quoted strings |
| `LinkSyntax.JoinSplit` | internal/tams/pagination.go:182-240 | joining the split values with commas gives back the field |
| `LinkSyntax.ParseLinkValue` | internal/tams/pagination.go:242-323 | the parser's loop computes the link it specifies |
| `LinkHeader.QuotedBack` | internal/tams/pagination.go:467-487 | an escaped quoted string decodes to its text |
| `JsonComparison.NoMismatchIffEqual` | internal/ingest/json_values.go:25-136 | no mismatch if and only if the trees are equal and hold no malformed number |
| `JsonComparison.FirstDifference` | internal/ingest/json_values.go:25-132 | a mismatch is the first difference in sorted-key preorder, and its pointer evaluates to the recorded value in both trees |
| `JsonComparison.FirstUnique` | internal/ingest/json_values.go:80-132 | there is at most one first difference |
| `JsonComparison.PointerRoundTrip` | internal/ingest/json_values.go:209-213 | a printed pointer parses back to its tokens |
| `JsonComparison.EscapeExactly` | internal/ingest/json_values.go:209-213 | the two replacements in turn escape each character once, a tilde as ~0 and a slash as ~1 |
| `JsonComparison.LessExactly` | internal/ingest/json_values.go:81-92 | keys are ordered by the first character in which they differ, or by length when one begins with the other |
| `JsonComparison.OrderKeys` | internal/ingest/json_values.go:81-92 | collecting and sorting gives the one ascending order of both key sets |
| `JsonComparison.ReflexiveIffClean` | internal/ingest/json_values.go:171-190 | a tree equals itself if and only if it holds no malformed number |
| `Metadata.Idempotent` | internal/ingest/flow_graph.go:298-356 | planning the same write again changes nothing if and only if the stored Flow had tags, this run generates none, or those it generates are settled: no single source tag, and a source list only in the form it would be written |
| `Metadata.ReplanUnchanged` | internal/ingest/flow_graph.go:59-130 | a write planned against a stored Flow and made is, planned again, neither refused nor made a second time if and only if it holds no malformed number and that condition holds |
| `Metadata.ReplanAfterCreation` | internal/ingest/flow_graph.go:59-130 | the same for a Flow the run created, if and only if it is clean, names the assigned Profile and its tags are settled |
| `Metadata.FirstPlanNotStable` | internal/ingest/flow_graph.go:324-356 | a first plan with a single source tag, which the second rewrites |
| `Metadata.FieldsKept` | internal/ingest/flow_graph.go:298-323 | structural fields follow the generated Flow alone, foreign fields stay, descriptions change only on request |
| `Metadata.TagsKept` | internal/ingest/flow_graph.go:324-347 | in the merged Flow itself, where the stored one has tags: a foreign tag this run does not set keeps its value, a tag it sets has that value, and a leftover under Tamsin's prefix is gone |
| `Metadata.SourcesUnion` | internal/ingest/flow_graph.go:328-356 | in the merged Flow the listed sources are exactly those either side named, and none is named singly |
| `Metadata.CreditsKept` | internal/ingest/flow_graph.go:328-356 | a merged Flow names a source exactly when the stored or the generated one does, and lists it once, in order |
| `Metadata.TagsNew` | internal/ingest/flow_graph.go:324-327 | where the stored Flow has no tags, the generated ones are taken as they are |
| `Metadata.RequestCarries` | internal/ingest/flow_graph.go:59-130 | what is sent for a stored Flow is the merged Flow, its tags included, or with a Profile the same without the fields the Profile settles and with its identity |
| `Metadata.CreationCarries` | internal/ingest/flow_graph.go:59-130 | what is sent for a Flow not in the store, or planned in a dry run, says the same of the generated one |
| `Metadata.PlannedExactly` | internal/ingest/flow_graph.go:59-130 | a stored Flow is replaced exactly by a run that agrees with it on input revision, for streamed inputs media, Source and Profile; which refusal each disagreement of revision or media gives; and a write is a change exactly when the merged Flow differs |
| `Metadata.SameMediaExactly` | internal/ingest/flow_graph.go:92-112 | the media agree exactly when the five guarded fields are equal, apart from a vfr=false the service added where this run states a frame rate |
| `Metadata.IdentityKept` | internal/ingest/flow_graph.go:59-130 | a replaced Flow keeps its input revision, Source and Profile |
| `Metadata.SourcesCommute` | internal/ingest/flow_graph.go:328-356 | the sources of the merged Flow do not depend on the order of runs |
| `Metadata.CollectProvenanceSources` | internal/ingest/flow_graph.go:358-377 | adds exactly the trimmed texts of a string or a list |
| `Metadata.ProjectionRestores` | internal/ingest/flow_profiles.go:184-268 | for a Flow that matches its Profile, expanding the reduced PUT gives back every technical field, except possibly the average bit rate |
| `Identity.NamesInjective` | internal/ingest/identity.go:69-86 | equal names come from equal component sequences |
| `Identity.BuildIdentityName` | internal/ingest/identity.go:74-86 | the loop builds that framing |
| `Identity.UvarintBack` | internal/ingest/identity.go:81-83 | a varint reads back, with anything after it |
| `Identity.UvarintExactly` | internal/ingest/identity.go:81-83 | a number's varint is the one shortest text of its seven-bit groups, lowest first, with a continuation bit on all but the last |
| `Identity.JoinInjective` | internal/ingest/pipeline.go:1543-1546 | the NUL join tells NUL-free sequences apart |
| `Identity.JoinAmbiguous` | internal/ingest/pipeline.go:1543-1546 | among all sequences it identifies exactly single components without NUL |
| `Timeline.TimestampRoundTrip` | internal/media/timeline.go:41-69 | reading a printed timestamp gives it back on all of int64 |
| `Timeline.TimestampExactly` | internal/media/timeline.go:41-69 | whole seconds, a colon and the nanoseconds beyond them, after a sign |
| `Timeline.Nearest` | internal/media/timeline.go:15-40 | the rounding is to a nearest nanosecond, ties away from zero |
| `Timeline.NearestUnique` | internal/media/timeline.go:15-40 | there is only one such integer |
| `Timeline.ParseSecondsExactly` | internal/media/timeline.go:15-40 | an answer is the nearest nanosecond, and there is none exactly when that leaves 64 bits |
| `Timeline.TimeRangeInjective` | internal/media/timeline.go:88-100 | two timerange texts are equal only for the same start and duration, so matching them matches the Segments |
| `Timeline.TimeRangeRoundTrip` | internal/media/timeline.go:88-100 | a timerange text reads back: an instant in square brackets or a half-open span with both ends; there is none exactly for a negative duration or an end outside 64 bits |
| `Timeline.PlacementsTile` | internal/ingest/pipeline.go:1208-1256 | placing any measurements tiles the timeline and ends at start plus the durations, or fails exactly when a value leaves 64 bits or a duration is negative |
| `Timeline.PlaceAll` | internal/ingest/pipeline.go:1215-1225 | the loop computes that placement |
| `Timeline.NoGapNoOverlap` | internal/ingest/pipeline.go:1230-1256 | each Segment begins where the one before it ends |
| `Cadence.CadenceTimeline.Observe` | internal/media/presentation.go:279-345 | the two bounds are the least and greatest of all frame intervals of the placed timeline, across joins but not across missing evidence; it is invalid exactly after an invalid summary or a first frame not after the last; and the verdict is that of all the intervals |
| `Cadence.CadenceState.Observe` | internal/media/presentation.go:155-178 | the summary keeps the least and greatest step of the readable timestamps, and is invalid exactly after an unreadable one or a step that is not positive or not representable |
| `Cadence.FileVariable` | internal/media/presentation.go:180-207 | one file is variable exactly when two of its steps differ by more than a tick, and otherwise fixed exactly when it states a rate |
| `Cadence.FixedMeansNear` | internal/media/presentation.go:328-344 | fixed if and only if the spread is within tolerance and every measured interval is near nominal |
| `Cadence.VerdictExactly` | internal/media/presentation.go:328-344 | variable exactly when two intervals differ by more than a tick and a microsecond or one is that far from nominal; otherwise fixed exactly when a nominal interval is known |
| `Cadence.PlacedFromEnd` | internal/media/presentation.go:279-327 | a frame is placed as far from the Segment's end as it is from the end of the reference's last frame, each in its own time base |
| `Cadence.VariableStays` | internal/media/presentation.go:328-344 | with one time base and rate, once variable every later verdict is variable |

## Left out

- Transfer.UploadPool: a transfer to the storage is one step, and the reservation of upload slots is modelled in SlotScheduling.
- Transfer.RegisterRollingChunk: requires that no registered Segment is a trailing instant, because the promise is false without it.
- Verification.VerifyAll: worker pools interleave at the granularity of remote calls, and the several contexts and deadlines of recovery are one nondeterministic failure.
- EventOutput.Output.ObjectsCompleted: byte counts of Object records are left out of the summaries; a malformed count is a nondeterministic refusal.
- EventOutput.Output.Finish: event payloads other than identities, counts, outcome and exit code are left out.
- EventOutput.Output.Result: whether a rolling resume without verification streams every Object its summary counts is not claimed; the equality check itself is modelled.
- EventMailbox.Mailbox.Report: wall-clock sampling is an arbitrary choice of which snapshots come too soon.
- ResumableStaging.Staging.Stage: hashing a local file in place and the names of staged files are left out; the budget that may refuse bytes is an arbitrary answer here and modelled in StagingLedger.
- HttpSource.HttpItem.Get: header transport, redirects, idle timers and credentials are one nondeterministic response.
- SlotScheduling.EveryRunFinishes: a release of several slots by one task is one step, and transfers a sink waits for are its own, one at a time.
- StagingLedger.EveryInterleaving: setArtifact is its additions and subtractions; nothing is added to a lease while its own input waits in reserveAdditional, since nothing has been rendered yet; deadlock freedom of the ledger together with the graph locks is not claimed.
- Backpressure.EveryRun: a killed process is one that closes no more Segments, and a sink call is assumed to return.
- RunObserved.Run.RunAll: the contents of results are reduced to whether they failed.
- FlowGraphCommit.CommitFlowGraph: Flow values are opaque, and a plan's changed flag is taken as given.
- RollingCommit.FlowCommit.FlushBatch: an Object left unattempted after a failed listing is only known not to have been registered by this run.
- BitRate.PeakReachesAverageExactly: the whole sequence is taken to last at most 146 years, so that the rates of its counterexamples fit 64 bits.
- BitRate.Accumulator.Add: the running int64 sums are taken not to overflow.
- LinkHeader.CursorRoundTrip: is about one way of printing each link, LinkGrammar.NextPageExactly about every text; whether an extension relation type is an absolute URI is asked of the environment.
- JsonComparison.FirstDifference: Go's reflection over named containers is one JSON datatype.
- Metadata.ReplanUnchanged: the Flow read back is the one planned; what a service adds to it, other than vfr=false, is left out.
- Cadence.CadenceTimeline.Observe: reading compact FFprobe output is left out.
- Timeline.Nearest: reading decimal text as a rational number is left out; the number arrives as a fraction.
- Page limits and cycle detection of listings, which only bound a loop.
- RollingExecution.Execution.Flush: the removal of committed files and the published totals are left out; a batch may hold no instant that an earlier run registered, as in Transfer.RegisterRollingChunk.
- Flow Profile assignment and the schema and graph validations.
- HTTP, S3, the file system, FFmpeg and FFprobe execution, OAuth, command line, configuration and human output.
- Throughput estimates and other floating point; the chunk budget is an arbitrary natural number.
