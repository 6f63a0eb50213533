# Range accounting of a segmented downloader

A downloader cuts a file into byte ranges, fetches them with many workers over one or more sources,
cuts slow ranges again while they run, retries what fails, writes everything through one buffered
writer, hashes finished segments for a later resume, and at some point declares the file complete.
This project models how a byte is accounted for on that whole way, and proves what is promised about
it: no byte is lost or handed to the writer twice, a download that is declared finished has every byte,
an accepted file holds the source's bytes after any number of crashes, every run is bounded, and the
queue in front of it keeps its limits and its order. It proves as well that nothing is held back:
what arrives is written, what waits is started as soon as a source has room, what one session saved
the next does not fetch again, and what the queue answers comes true.

`dafny verify dfyconfig.toml` checks everything.

## How it is organised

| file | part of the program |
|---|---|
| Ranges, Files | inclusive byte ranges, sums over sequences; file contents and writes |
| Chunk, Delivery | one download worker, and what it does with what it receives |
| Ledger, Retry, Lanes | the monitor's byte ledger, its retry queues, the source scheduler |
| Health | a lane's health over any sequence of claims and releases |
| MonitorSpec, Monitor | the monitor as functions, and as the mutable object proved equal to them |
| Protocol | all of it running together: workers, the reliable channel, the monitor's select loop |
| Starts | what the monitor starts and what it leaves waiting |
| Partition, Bindings, Finish, OrderedLedger, Bounds, Delays, EmptyAttempts, Tombstones | what holds over every run |
| NeverClosing | one run of it, event by event, that does not finish |
| Split | the cut into initial ranges |
| Extents | the interval ledger and the coverage gate |
| Segments, Resume, Recorder | the stored segment ledger, the resume plan, the recorder |
| Writer, EndToEnd | the writer task; sessions, crashes and the final file |
| Carryover, Network | what a session hands on to the next; from the network to the file |
| Queue, QueueRuns, QueueReplies, Rename | the task queue, its interleavings, what its answers mean, its output names |

Objects that change in place are classes (DownloadMonitor, DownloadState, RetryHandler,
LaneScheduler, ResumeRecorder, FileWriter, TaskQueue), loops are loops, and every such method is proved
to compute a function of the old state. The theorems over whole runs are about those functions.

## What is assumed

- The network, the control commands, the clock, the disk and the interleaving are arbitrary. A worker's
  response is any sequence of data, end of stream and errors. Only Network asks that the data is the
  source's for the requested range (RFC 9110, section 14.4), and not empty at offset 0. What the concurrency manager decides is an arbitrary bisect, skewed bisect
  or kill at any moment.
- Terminal and bisect messages arrive once and in order per worker (a bounded channel that is awaited).
  Progress messages may be lost, repeated or invented everywhere except in OrderedLedger and in
  EmptyAttempts.FinishesIffNoCompleteFailure, where each arrives once, in the order it was sent.
  Tombstones lets it be lost, late and repeated, but not about a chunk that never existed.
- In one turn of the monitor's loop the reliable channel is polled before joined tasks, joined tasks
  before broadcast progress and the timer; a joined task has already sent what it sends.
- A range may be empty (`end == start - 1`): a worker that fails after its last byte reports one.
- In the queue, an aborted download counts as stopped at once, although its task stops only at its next
  await point; QueueRuns.TidyRuns counts the downloads that were not aborted.
- Sizes are below 2^63, so saturating arithmetic is written out only where it can be reached: an empty
  attempt counts as one byte, a zero-length write at offset 0 ends at byte 0.
- The segment hash is any function; the end-to-end theorem needs it to be free of collisions on the
  segments of the ledgers the sessions find, nothing about FNV-1a itself.

## Where the program differs from what is written about it

- CHANGELOG.md:12 promises that a server which never closes its stream no longer keeps a finished
  download waiting. A worker that has received everything and is then ended by the idle timeout
  reports an empty range, and no attempt at it can complete; from then on no tick finishes the run, and
  apart from a race on the last join it can only end with a permanent failure. EmptyAttempts proves
  this for every run, and that in an ordered run, with everything handed over and joined, the next tick
  finishes if and only if no worker failed after its last byte. NeverClosing is a run in which one
  did, of one worker and one byte.
- The three-part finish test at the end of the tick decides nothing: whenever it holds, the short
  circuit before it has already returned (Finish.FinishedIsShortCircuit).
- `push_back_retry_with_backoff` makes a deferred chunk ready at once; there is no back-off of 2 s.
- CHANGELOG.md:13 says that a failure without a ledger entry keeps its confirmed progress; the code adds
  nothing then (Ledger.PrefixBookedIff).
- A zero-length write at offset 0 marks byte 0 as written, and a one-byte file that holds nothing is
  accepted (Writer.EmptyWriteIsAccepted).
- Stored ledgers of version 1 are decoded but then rejected by `validate_shape`, so they are not
  migrated (Segments.ValidateShape).
- `max_chunks_per_source = Some(0)` never schedules anything per source (Lanes.IdleCanClaim).
- In the queue, the check in the second lock section of `pump` never fires (QueueRuns.NeverTakenBack).
  A result that is joined after its task was paused, resumed and started again removes the new entry,
  so more downloads than `max` can run (QueueRuns.StaleRunExceedsMax, QueueRuns.AccountedIff).
- Such a stale result, a failure that reaches a task queued again, and cancelling a finished task whose path
  was given out again let two tasks share a path or leave one without (QueueRuns.OwnPathsIff,
  QueueRuns.SharedPathRunCollides).
- When all candidates are taken, `resolve_rename` returns a taken name, and `enqueue` tries again without
  end (Rename.EnqueueRounds).
- The writer never shortens a file. A session that resumes on a file longer than the source is accepted
  by the writer and then refused by the length test after it, and nothing shortens the file for the
  next session (EndToEnd.AcceptedLength).

## Model

| member | source | states |
|---|---|---|
| Chunk.SplitRange | src/chunk.rs:43-62 | a cut exists exactly when twice the minimum is left; both sides keep the minimum; a plain cut halves within a byte, a skewed one leaves an eighth, or the minimum if that is more |
| Chunk.TakeTurn | src/chunk.rs:316-598 | one turn of the select loop, with the reports after the loop, is the worker's reaction to the input; that this writes what is received is Delivery.StreamIsWritten |
| Chunk.ChunkRun | src/chunk.rs:109-663 | a whole worker run from a fresh attempt is the specified run over its inputs |
| Chunk.ReactCarries | src/chunk.rs:316-663 | what one input makes a worker send: a completion, an announced half, nothing, or a failure with exactly what it still owes, whatever is measured |
| Chunk.ReactConserves | src/chunk.rs:316-663 | every byte owed before an input is afterwards written, announced or still owed, in exactly one way |
| Chunk.ReactTerminals | src/chunk.rs:601-663 | a worker that stops sends one terminal message, and it is a completion exactly if a nonempty attempt has everything and its stream ends or overruns |
| Chunk.ReactStops | src/chunk.rs:316-663 | a worker that stops without completing reports a failure, with the class of the fault that ended it; a cut leaves at least the minimum on both sides |
| Chunk.ExitCarries | src/chunk.rs:608-660 | with everything written, a nonempty attempt completes; the early-EOF branch is left to empty attempts |
| Chunk.RunConserves | src/chunk.rs:109-663 | for every input sequence the writes are one contiguous stretch, and written bytes, announced halves, the failure report and what is owed partition the range |
| Delivery.StreamIsWritten | src/chunk.rs:409-447 | over every run the written data is, byte for byte and in order, the received stream clipped at the end of the worker's range; while the worker goes on, all of it |
| Delivery.CutsExactly | src/chunk.rs:323-375 | a cut happens exactly when asked for with twice the minimum left, and shares out the rest as a plain or a skewed cut should |
| Delivery.ReportsKeepUp | src/chunk.rs:472-493 | over every run a worker is less than 64 KiB ahead of its last report, not at all at its end, and its last report before it stops is exact |
| Ledger.DownloadState.WithCompleted | src/state.rs:137-144 | the ledger starts from the resumed byte count, capped by the file size |
| Ledger.DownloadState.Complete | src/state.rs:155-164 | completion books the attempt's size and drops its entry |
| Ledger.DownloadState.PreservePartialExact | src/state.rs:180-190 | keeps the larger of the reported and the exact prefix, capped by the attempt, or the exact count when there is no entry |
| Ledger.DownloadState.Fail | src/retry.rs:150-159 | the ledger's side of a failure, with and without an entry |
| Ledger.DownloadState.Note | src/monitor.rs:392-414 | progress creates an entry or raises it, and moves its end |
| Ledger.DownloadState.Shrink | src/monitor.rs:479-487 | a bisect moves the end and caps what was counted |
| Ledger.DownloadState.Total | src/state.rs:197-205 | the total is booked bytes plus entries, capped by the file size |
| Ledger.ApplyGrows | src/state.rs:155-190 | a message that fits its entry never lowers the uncapped total |
| Ledger.CountsAreCapped | src/state.rs:155-204 | for any progress, what a completion, a failure and a cut may book or leave in an entry, and the total within the file |
| Ledger.PrefixBookedIff | src/retry.rs:150-157 | a failure books its exact prefix if and only if there is an entry or no prefix |
| Retry.RetryDelay | src/retry.rs:46-52 | the back-off lies between 1 s and 8.2 s |
| Retry.RetryHandler.Failed | src/retry.rs:160-311 | filing a failure, by class, attempt counters and batch delay |
| Retry.FailureFiledOnce | src/retry.rs:160-311 | a failed range is filed in exactly one queue; permanent exactly for a fatal class or after 30 counted failures |
| Retry.FailureDueTimes | src/retry.rs:226-310 | when a failed range is due: a back-off that doubles from a second to 8 s with less than 200 ms of jitter, staggered in a crowd, or 10 s in the delayed queue |
| Retry.EveryEleventhWaits | src/retry.rs:226-310 | one failure, given counters that are in step: every eleventh counted one waits in the delayed queue, the others at least a second in the retry queue |
| Retry.RetryHandler.Process | src/retry.rs:314-340 | the loop over the delayed queue moves its ripe front |
| Retry.ProcessConserves | src/retry.rs:314-340 | moving delayed entries loses and adds no range |
| Retry.FailureKeepsSorted | src/retry.rs:282-306 | with a clock that does not go back, filing keeps the delayed queue sorted |
| Retry.ProcessTakesAllRipe | src/retry.rs:314-340 | because the queue is sorted, stopping at the first unripe entry leaves nothing ripe behind |
| Retry.RetryHandler.PopReady | src/retry.rs:401-413 | takes the first ripe ticket; None exactly when nothing is ripe |
| Retry.RetryHandler.PushBackWithBackoff | src/retry.rs:426-433 | a deferred ticket goes to the back and is ready at once |
| Retry.RetryHandler.OnDownloadComplete | src/retry.rs:436-442 | a completion forgets both attempt counters |
| Retry.RetryHandler.FailStalled | src/retry.rs:454-465 | the stall escape files one failure unless there is one already |
| Lanes.FromCandidatesShape | src/lane.rs:302-361 | lanes are distinct, fastest first, idle and healthy, and exist when a candidate does |
| Lanes.CandidatesHaveLanes | src/lane.rs:302-361 | every candidate has its lane, with the source and the speed of the first candidate that names it |
| Lanes.CandidatesKeepOrder | src/lane.rs:345-352 | lanes of the same speed stand in the order of their candidates |
| Lanes.LaneScheduler.LaneHasCapacity | src/lane.rs:492-519 | capacity means below the worker, lane and per-source caps |
| Lanes.CapacityIff | src/lane.rs:504-519 | a lane has capacity exactly if one more chunk on it would exceed no cap |
| Lanes.BestLaneIsBest | src/lane.rs:367-380 | None exactly when no lane has capacity; else the fastest healthy one, or the fastest of all when no healthy one has capacity |
| Lanes.LaneScheduler.ClaimLane | src/lane.rs:880-886 | expiring blacklists, choosing and assigning, as one claim; which lane that hands out is Lanes.ClaimIsBest |
| Lanes.ClaimIsBest | src/lane.rs:367-402 | a claim is refused exactly when no lane has capacity, and otherwise goes to the first in order: healthy, or blacklisted 30 s ago or longer, before the others, then the fastest, then the first listed |
| Lanes.ClaimConserves | src/lane.rs:404-413 | a claim adds the new chunk to its lane's count and exceeds no cap |
| Lanes.LaneScheduler.ReleaseChunk | src/lane.rs:415-456 | health after success or failure, then the counter |
| Lanes.ReleaseConserves | src/lane.rs:415-424 | a release takes back exactly the chunk's unit; the saturating floor is not reached |
| Lanes.IdleCanClaim | src/lane.rs:504-526 | with nothing bound a lane can be claimed if and only if there is one and no cap is zero |
| Health.HealthIsHistory | src/lane.rs:382-456 | over any claims and releases a lane is blacklisted exactly if it failed three times since its last success or pardon, from its last failure on |
| Health.VerdictReachesLane | src/monitor.rs:429-461 | a completion counts as a success of the lane the chunk ran on, a failure as its failure, and no other lane changes |
| Monitor.DownloadMonitor.constructor | src/monitor.rs:58-88 | a new monitor is empty but for the resumed bytes |
| Monitor.DownloadMonitor.Orchestrate | src/downloader.rs:1100-1177 | the start of a session: a worker per initial range as far as lanes go, the rest buffered and tried once |
| Monitor.DownloadMonitor.HandleDownloadInfo | src/monitor.rs:368-528 | each message's effect on ledger, lanes, queues, tombstones and buffer; when a bisected half is started and when buffered is Starts.BisectStarts |
| Monitor.DownloadMonitor.DrainPending | src/monitor.rs:765-822 | buffered ranges are started in order until a lane is refused |
| Monitor.DownloadMonitor.RetryReady | src/monitor.rs:618-679 | the pop-or-defer loop ends; each ripe ticket is restarted under its id or queued again |
| Monitor.DownloadMonitor.NoteStall | src/monitor.rs:711-738 | six idle ticks with bytes missing file a failure |
| Monitor.DownloadMonitor.HandleTick | src/monitor.rs:533-762 | a whole tick, with both finish tests and the stall escape |
| MonitorSpec.HandleConserves | src/monitor.rs:368-528 | a message moves ranges between monitor and workers without losing or adding any |
| MonitorSpec.DrainConserves | src/monitor.rs:765-822 | draining the buffer conserves every measure of the ranges |
| MonitorSpec.RetryConserves | src/monitor.rs:618-679 | the retry loop conserves every measure of the ranges |
| MonitorSpec.TickConserves | src/monitor.rs:533-762 | so does a whole tick; the stall escape adds no range |
| Starts.RefusedIffFull | src/monitor.rs:902-909 | a lane is refused exactly when no lane has capacity, never without sources |
| Starts.BisectStarts | src/monitor.rs:488-526 | a bisected half is buffered, at the back, exactly when no lane has capacity, and started under the next id otherwise |
| Starts.BeginExact | src/downloader.rs:1100-1177 | a session starts its first ranges in order and buffers the rest only if no lane has capacity |
| Starts.RetryExact | src/monitor.rs:618-679 | the pop-or-defer loop restarts the ripe tickets in their order, as many as get a lane, and queues the others again behind the unripe ones |
| Starts.RestartExact | src/monitor.rs:595-679 | what a whole tick starts and leaves: buffered ranges first, then ripe tickets, each in order, and a rest only if no lane has capacity |
| Starts.TickLeavesOnlyBlocked | src/monitor.rs:595-679 | in any state, after a tick a buffered range or a ripe ticket is left only if no lane has capacity |
| Protocol.WorkerStepMeasure | src/chunk.rs:316-663 | a worker's step replaces what it was worth by what it sends and still is, even when progress is lost |
| Protocol.MonitorStepMeasure | src/monitor.rs:203-362 | every other step keeps what is open, but for completions read and ids minted |
| Protocol.BeginMeasure | src/downloader.rs:1100-1177 | the start opens exactly the initial ranges |
| Partition.LiveWorkersValid | src/chunk.rs:109-663 | every live worker's offset stays within its range |
| Partition.NeverStuck | src/monitor.rs:203-362 | while a run goes on every worker may meet any input and the monitor's loop has a next step: no behaviour is left out |
| Partition.StepKeepsPlaces | src/monitor.rs:443-526 | no step changes in how many places a byte is |
| Partition.PartitionAlways | src/monitor.rs:620-679 | in every reachable state each byte of the file is in exactly one place: trusted, handed to the writer, owed by a worker, in a message, waiting, buffered or permanently failed |
| Bindings.AlwaysBound | src/monitor.rs:429-461 | over every run no id is in two places and bindings match the chunks in flight |
| Bindings.LaneLoads | src/lane.rs:404-424 | over every run each lane's counter is the number of chunks in flight bound to it, and all caps hold |
| Finish.FinishedIsShortCircuit | src/monitor.rs:694-760 | a tick that says finished was told so by the short circuit |
| Finish.IdleDrainEmpties | src/monitor.rs:595-605 | with nothing in flight, a tick that starts nothing has nothing buffered |
| Finish.ReachesKnown | src/monitor.rs:215-254 | every run keeps the polling order's guarantee on the channel, unique ids and exact bindings |
| Finish.AlwaysJudged | src/monitor.rs:203-362 | over every run the download has given up exactly if a failure is permanent |
| Finish.FinishGateSafe | src/monitor.rs:694-707 | when a tick of any run says finished, every byte is trusted or handed to the writer exactly once, without trusting the ledger |
| OrderedLedger.ReactLedger | src/chunk.rs:316-663 | a worker's messages move the ledger by exactly what its attempt lost |
| OrderedLedger.TickNeverStalls | src/monitor.rs:711-738 | in an ordered run the stall counter stays zero; an idle tick finishes |
| OrderedLedger.LedgerExact | src/state.rs:155-204 | in every state of an ordered run booked bytes are the size less the open attempts, and the total never exceeds the size |
| OrderedLedger.TotalNeverDecreases | src/state.rs:197-204 | the reported total never goes back in an ordered run |
| OrderedLedger.JoinExitSafe | src/monitor.rs:271-277 | the early exit on the last join is right in an ordered run |
| OrderedLedger.FinishedRunIsWhole | src/monitor.rs:271-277 | only a tick or a join finishes a run, and then each byte is trusted or handed to the writer, once; for the join the run has to be in order |
| Bounds.CutsAndIds | src/chunk.rs:49-62 | every cut uses up a minimum chunk of what was missing; ids are the initial ranges and the halves that got one |
| Bounds.AttemptsPerId | src/retry.rs:200-224 | no id fails or is attempted more than 31 times in any run |
| Bounds.RunIsBounded | src/monitor.rs:498 | an explicit bound on the workers a run ever starts |
| Delays.AlwaysSorted | src/retry.rs:314-340 | over every run with a monotone clock the delayed queue is sorted |
| Delays.EleventhFailureWaits | src/retry.rs:226-310 | over every run the counters are in step, so of one id's counted failures the eleventh and the twenty-second wait in the delayed queue, the others at least a second in the retry queue |
| Delays.AlwaysForgotten | src/retry.rs:436-442 | over every run a chunk that is nowhere any more has left no attempt counter |
| Delays.TickLeavesNothingRipe | src/monitor.rs:606-679 | after a tick of any run nothing delayed is overdue, and a ripe ticket or a buffered range is left only if no lane has capacity, so never with one source |
| Tombstones.AlwaysTended | src/monitor.rs:398-427 | over every run entries belong to existing chunks without a tombstone, and an id that is nowhere any more has one |
| Tombstones.IdleTickDecides | src/monitor.rs:694-738 | however late progress arrives, a tick with nothing running, startable or waiting finishes or counts a stall, and the sixth in a row gives up |
| Tombstones.TickGivesUpIff | src/monitor.rs:711-738 | over every run a tick gives up if and only if it is at least the sixth in a row that found nothing to do with bytes missing |
| EmptyAttempts.EmptyReports | src/chunk.rs:376-394 | exactly when a worker reports an empty range |
| EmptyAttempts.EmptyNeverCompletes | src/chunk.rs:611-613 | no input lets an attempt at an empty range complete |
| EmptyAttempts.EmptyBlocksFinish | src/monitor.rs:694-707 | in every state a run reaches, while an empty range is open only the exit on a join can finish, with a message unread |
| EmptyAttempts.NeverClosedNeverFinishes | src/chunk.rs:532-554 | after an idle timeout on a worker that had everything, no later tick finishes the run |
| EmptyAttempts.RunCountsEmpty | src/chunk.rs:532-554 | the open empty ranges after a run are those before it and one for each time a worker failed after its last byte; none is ever closed |
| EmptyAttempts.FinishesIffNoCompleteFailure | src/monitor.rs:694-707 | in an ordered run, with everything handed over and joined, the next tick finishes if and only if no worker in the whole run failed after its last byte |
| EmptyAttempts.JoinFinishesIffNoCompleteFailure | src/monitor.rs:271-277 | the early exit on the last join, with nothing left to read, finishes the same runs |
| NeverClosing.HandedOverButUnfinished | src/chunk.rs:532-554 | the run in which one did: ordered, every byte handed over, nothing running, unread or left to join, and no tick finishes it |
| Split.FindWidest | src/downloader.rs:1219-1224 | the last of the widest ranges |
| Split.SplitResumeRanges | src/downloader.rs:1208-1239 | the splitting loop |
| Split.SplitKeepsBytes | src/downloader.rs:1208-1239 | splitting keeps the bytes and the total length |
| Split.SplitShape | src/downloader.rs:1208-1239 | order and disjointness are kept, the number is bounded, and it stops early only when no range can give two minimum halves |
| Split.SplitBalanced | src/downloader.rs:1231-1235 | from one range the widest stays within twice the narrowest and one |
| Split.SplitKeepsProper | src/downloader.rs:1071-1072 | a session may start from the split ranges wherever it could from the unsplit |
| Extents.MergeInOrder | src/util.rs:505-515 | the merging loop |
| Extents.AddCoveredRange | src/resume.rs:722-737 | push, sort, merge |
| Extents.MergeExact | src/resume.rs:745-757 | merging sorted ranges keeps their bytes and leaves them separated |
| Extents.AddDenotes | src/util.rs:500-518 | the list stays separated and gains exactly the bytes of the new range |
| Extents.MarkExactIff | src/util.rs:500-518 | marking a write is exact if and only if it is not a zero-length write at an unwritten offset 0 |
| Extents.EmptyWriteClaimsByteZero | src/util.rs:502-503 | the input for which it is not |
| Extents.CoverageGap | src/util.rs:435-459 | the gate passes if and only if every byte is covered, for any lists, and otherwise names the first maximal hole |
| Extents.CanonicalUnique | src/resume.rs:745-757 | a separated list of nonempty ranges is determined by its bytes |
| Files.PatchJoins | src/util.rs:526-534 | appending to the buffer is the same as writing the second piece after the first |
| Segments.LayoutTiles | src/resume.rs:132-145 | the tiles are nonempty and follow one another from the first to the last byte |
| Segments.BuildMetadata | src/resume.rs:132-154 | the loop builds that tiling without hashes |
| Segments.ValidateShape | src/resume.rs:281-324 | accepts exactly the current version, this size and this tiling |
| Segments.ShapedIffNewWithHashes | src/resume.rs:281-324 | which are exactly the new ledgers with any hashes |
| Segments.OverlapIff | src/resume.rs:681-687 | the looked-up positions are exactly the tiles a write inside the file touches |
| Segments.LedgerPartitions | src/resume.rs:255-279 | completed and remaining bytes add up to the file, and each byte is in one verified or remaining range |
| Resume.VerifyAgainstFile | src/resume.rs:327-364 | a hash stays exactly if the file is long enough and hashes to it |
| Resume.RecheckedIsRight | src/resume.rs:327-364 | what is verified is on disk, byte for byte, whatever the file held |
| Resume.PlanVerifiedRanges | src/resume.rs:541-562 | the cursor loop over the remaining ranges |
| Resume.ComplementCovers | src/resume.rs:541-562 | it computes the complement of the remaining ranges |
| Resume.VerifiedRangesAgree | src/resume.rs:541-562 | the complement of the remaining ranges and the merged hashed segments are the same list |
| Resume.PrepareSession | src/resume.rs:406-509 | the plan and the sidecar, for every state of sidecar and file; what is kept is Resume.PlanKeepsWhatStands |
| Resume.PlanIsRight | src/resume.rs:475-492 | a plan trusts only bytes that are on disk and right, and the sidecar stays honest |
| Resume.PlanKeepsWhatStands | src/resume.rs:475-492 | with a ledger of the right shape that can be saved, the file is kept, exactly the segments it still holds are trusted and exactly the others fetched |
| Resume.ScratchIff | src/resume.rs:406-509 | every other session starts from an empty file, a new ledger and all of the file to fetch; none starts exactly when the ledger to go on from cannot be saved |
| Resume.PlanIsProper | src/downloader.rs:652-674 | trusted and split remaining ranges partition the file, so a session can start from them |
| Recorder.CoversIff | src/resume.rs:739-743 | the single-interval test holds if and only if every byte of the segment is covered |
| Recorder.ResumeRecorder.RecordWrite | src/resume.rs:613-668 | recording a write, segment by segment, with its save |
| Recorder.ResumeRecorder.Flush | src/resume.rs:670-679 | the final save |
| Recorder.LookedUp | src/resume.rs:681-687 | exactly the segments a write reaches are looked at |
| Recorder.RecordRight | src/resume.rs:613-668 | a segment gets a hash exactly when its last byte was written, and it is that of the bytes on disk; the file is never too short |
| Carryover.RecordSaves | src/resume.rs:650-668 | the ledger is saved exactly when sixteen hashes wait or the last save is a second old, with a new one among them; what makes recording fail |
| Writer.FileWriter.FlushPending | src/util.rs:536-568 | writing the buffer out, with each failure |
| Writer.FileWriter.OnWrite | src/util.rs:522-571 | coalescing or writing out and buffering |
| Writer.FileWriter.Run | src/util.rs:493-679 | the task from the first command to the verdict |
| Writer.LoopRefines | src/util.rs:520-607 | file and buffer together are the direct writing of all commands, in order |
| Writer.AcceptedIsDirect | src/util.rs:520-679 | an accepted file is exactly the direct writing of everything received |
| Writer.BufferBounded | src/util.rs:494-534 | the buffer stays within 128 KiB or one larger command |
| Writer.AdjacentPiecesCoalesce | src/util.rs:522-534 | adjacent pieces that fit the buffer together are not written one by one |
| Writer.WriteOutsFail | src/util.rs:536-603 | a write-out that fails is an error and books nothing, but a failed write on TerminateAll is no error |
| Writer.AcceptedIff | src/util.rs:608-679 | an accepted file had no failure and has every byte written or trusted; without a ledger that is all it takes |
| Writer.LandLastSound | src/util.rs:572-603 | the lenient write on TerminateAll leaves only source bytes and marks nothing |
| Writer.AcceptedIsRight | src/util.rs:608-679 | an accepted file is the source, whatever the disk did |
| Writer.ExitLength | src/util.rs:520-679 | at the exit the file reaches no further than the source or the file the writer opened, and is no shorter than that file |
| Writer.EmptyWriteIsAccepted | src/util.rs:500-518 | the zero-length write that the gate accepts |
| EndToEnd.SessionIsRight | src/downloader.rs:625-726 | one session keeps the sidecar honest and accepts only files that start with the source |
| EndToEnd.AcceptedFileIsTheSource | src/downloader.rs:673-726 | over any number of sessions and crashes an accepted file starts with the whole source, and is the source if it has its length |
| EndToEnd.AcceptedLength | src/downloader.rs:727-776 | an accepted file is the source and passes the length test if and only if its session did not begin with a longer file; it is never too short, so its tail is not fetched again |
| Carryover.NextSessionTrusts | src/resume.rs:475-492 | after a clean exit the next session trusts a byte if its whole segment was trusted or written, and only then if the first save worked |
| Carryover.WholeSegmentsAreKept | src/downloader.rs:625-726 | so no run of the next session hands such a byte to the writer again |
| Carryover.StandingIsNotFetched | src/downloader.rs:652-674 | nor, for any stored ledger, a byte of a segment that it holds and the disk still has |
| Carryover.TrustedNeverFetched | src/downloader.rs:1071-1072 | in no state of any run is a trusted byte handed to the writer or open |
| Carryover.WorkingDiskEndsCleanly | src/util.rs:608-679 | every resumable session on a working disk has such a clean exit |
| Carryover.CrashCostsLessThanABatch | src/resume.rs:650-668 | at any moment without failure fewer than 16 hashes are missing in the sidecar |
| EndToEnd.FinishedIsAccepted | src/util.rs:663-673 | on a working disk the gate refuses no finished download, whether a tick finished it or, in an ordered run, a join |
| EndToEnd.FinishedDownloadIsTheSource | src/downloader.rs:625-776 | a session prepared from whatever a crash left that a tick or, in order, a join finishes, its writes being pieces of the source, is accepted on a working disk; its file starts with the source, and is the source if and only if the session did not begin with a longer file |
| Network.HandedIsGenuine | src/chunk.rs:409-447 | if the responses carry the source's bytes for the requested ranges, every write of every run is a piece of the source |
| Network.DownloadIsTheSource | src/downloader.rs:625-776 | the whole way, from such a network through any run to the file: a finished download on a working disk is accepted and is the source, if and only if the session did not begin with a longer file |
| Queue.TaskQueue.TryEnqueue | src/queue.rs:112-132 | a task is queued exactly if its path is free |
| Queue.TaskQueue.PauseTask | src/queue.rs:140-173 | pausing by where the task is; what its answer promises is QueueReplies.PauseStops |
| Queue.TaskQueue.ResumeTask | src/queue.rs:175-196 | resuming puts a paused task in front |
| Queue.TaskQueue.CancelTask | src/queue.rs:198-271 | cancelling by where the task is, and its path |
| Queue.TaskQueue.TakeNext | src/queue.rs:488-501 | the first lock section of the pump |
| Queue.TaskQueue.InstallTask | src/queue.rs:519-529 | the second lock section |
| Queue.TaskQueue.CompleteTask | src/queue.rs:534-567 | a joined result, whatever became of its task |
| QueueRuns.PlacesOverRuns | src/queue.rs:484-532 | under every interleaving the active limit holds, no task is in two places, paused and removed tasks are in none |
| QueueRuns.NeverTakenBack | src/queue.rs:519-526 | the second section's guard never fires |
| QueueRuns.RemovedStays | src/queue.rs:198-271 | Removed is final |
| QueueRuns.FirstComeFirstServed | src/queue.rs:484-532 | never-paused tasks start in the order of enqueueing, once, and are not overtaken |
| QueueRuns.AccountedIff | src/queue.rs:534-541 | exactly a stale result lets a download run that no task counts |
| QueueRuns.OwnPathsIff | src/queue.rs:542-563 | with a task going on when its status says so or a download of it runs: exactly stale results, failures of tasks that are queued again, and giving up a path another task has by now let two such tasks share a path, or one lose its own |
| QueueRuns.SharedPathRunCollides | src/queue.rs:542-563 | a run in which two tasks end up with one path |
| QueueRuns.TidyRuns | src/queue.rs:484-567 | without such steps at most `max` downloads that were not aborted run, and tasks that are going on have different paths |
| QueueRuns.StaleRunExceedsMax | src/queue.rs:534-567 | the run in which they are not |
| QueueReplies.PauseStops | src/queue.rs:140-173 | pausing is granted exactly to waiting, running and paused tasks; then the task is paused, in no place, its download stopped, every other task as it was; a refusal changes nothing |
| QueueReplies.PauseHolds | src/queue.rs:140-173 | over every run a pause that was granted holds: the task is not started before it is resumed |
| QueueReplies.NotStartedUntilResumed | src/queue.rs:140-271 | the same from any state, and a removed task is never started again |
| QueueReplies.ResumeGoesFirst | src/queue.rs:175-196 | exactly a paused task is resumed, to the front of the queue |
| QueueReplies.ResumedIsNext | src/queue.rs:484-501 | and it is the next task to start, unless another is resumed or it is paused or cancelled by then |
| QueueReplies.CancelRemoves | src/queue.rs:198-271 | cancelling is refused only between the pump's two sections; else the task is removed, in no place, its download stopped and its path given up |
| QueueReplies.JoinSettles | src/queue.rs:534-567 | a result completes or fails an active task, frees slot and path, and touches no paused, removed or other task |
| QueueReplies.NoIdleSlot | src/queue.rs:484-532 | when the pump can do nothing, no slot is idle while a task waits |
| Rename.CandidatesDiffer | src/queue.rs:364-390 | different numbers give different names, none the original |
| Rename.SuffixShape | src/queue.rs:364-390 | the number in brackets stands in front of the extension, which is what follows the last dot |
| Rename.DecimalReads | src/queue.rs:377-381 | the number reads back from its digits |
| Rename.ResolveRename | src/queue.rs:303-338 | the probing loop |
| Rename.RenameFindsFree | src/queue.rs:303-338 | the result is free if and only if a candidate is, and is found within one probe more than names are blocked |
| Rename.EnqueueRounds | src/queue.rs:112-133 | the loop in enqueue: undisturbed, its first round finds a free name exactly when a candidate is free; otherwise no round does |

## Left out

- HTTP, probing, headers, TLS, proxies, the single-stream download and the tail refill: network plumbing.
- The concurrency heuristics: their decisions are arbitrary commands here.
- Speeds, ETA, status messages, tracing, progress display, rate limiting, configuration updates: no effect on byte accounting.
- Classifying error texts: an arbitrary choice between local I/O, permanent and retriable.
- TerminateAll while the monitor still runs, and closed channels: they end a session, as a crash does in EndToEnd. A panicking worker task, which sends nothing, is not modelled.
- The monitor's broadcast and its Lagged branch: any progress may be lost or invented instead.
- The lookup of a lane's HTTP client after a claim: every lane has one.
- Encoding of the sidecar and its atomic replacement: a stored value that is saved whole or not at all. Its ETag fields are not modelled; the source does not change.
- I/O errors while checking a stored ledger against the file: the session does not start and nothing is written.
- `force_drain_delayed`, `coalesce_small_fragments`, `pop_ready_chunk_starved`: the monitor does not call them.
- Several clock readings within one tick or one scan: they are one reading.
- Directories, non-UTF-8 names and case-insensitive paths in renaming; the files deleted by cancelling, and waiting for all tasks.
- Bounds.RunIsBounded: bounds cuts, ids and attempts, not time; ticks may pass while a worker waits for data.
- Retry.RetryHandler.Failed: the ledger's part of `on_chunk_failed` is Ledger.DownloadState.Fail, and HandleDownloadInfo calls both.
- Rename.EnqueueRounds: takes a bound on the rounds, which the source does not have, and nothing else takes or frees a name between them.
- QueueRuns.TidyRuns: does not count downloads that were aborted and have not stopped yet.
- QueueRuns.PlacesOverRuns: task records are kept once, not copied into queue, active map and index as the source does, so differing copies cannot be expressed.
