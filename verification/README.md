# ScribeFlow: a Dafny model of job delivery, transcription and export

ScribeFlow accepts audio uploads, queues each as a job in RabbitMQ, and lets Python
workers transcribe them and store the transcript in Postgres. This project models the
parts of it that are easiest to get wrong and proves what they promise.
`dafny verify dfyconfig.toml` checks everything.

**The delivery protocol** (`Domain`, `Retry`, `Protocol`) is one transition system: the
rows of the `jobs` table, the files on disk, every message with the place it is in, the
uploads inside the API's `create`, any number of worker processes with at most one handler
each, and the progress writes still under way. Every `await` of `create`, `handle_message`
and `handle_failure` is one event and carries its own outcome: it took effect or not, it
raised or not. A confirmed publish and a database write that return normally did take
effect; one that raises may or may not have. Processes die at any point, the broker takes
unacknowledged messages back at any point, also while their handler still runs, and stale
delivery tags acknowledge nothing. `Run(Init(n), es)` is the state after *any* event list
`es` with `n` workers, so a statement about it is a statement about every schedule. The
event list is the adversary; impossible events are skipped.

**The programs** (`Adapters`, `Cluster`, `WorkerProcess`, `TranscriptionsService`,
`Consumer`, `Guarantees`) are the same code in imperative form, as methods that update a database, a
broker and a file store. Each is proved to leave exactly the state that the transition
system prescribes, whatever happens between its awaits and however each call ends; so
every theorem about runs holds of them. What they leave is also stated without the
transition system: column by column, answer by answer, reply by reply and delivery by
delivery (`Provenance`, `Answering`, `TranscriptionsService.CreateReplies`, `Consumer`).

**The transcription arithmetic** (`Rounding`, `Chunks`, `Transcriber`, `Progress`) covers
chunk planning, the fused transcription loop, the merged timeline and progress reporting,
on exact numbers. **Subtitles** (`Subtitles`, `Export`) covers the SRT and WebVTT printers
with parsers written for the proof; WebVTT timestamps follow section 4.1 of the W3C WebVTT
specification. **The broker's set-up** (`Topology`, `RetryQueue`) covers the declared
routing and the timing of the one retry queue.

## What the code does not keep

Several promises hold only under conditions, and those are stated as equivalences.

- *Scaling out.* No accepted job is stranded exactly when at most one worker process runs
  (`CounterRuns.NoStuckRowIff`). With two, `record_retry` is committed after the retry copy
  was published, so the copy can complete on the other worker first; the row then says
  `queued` with no message left. The transcript itself is never lost
  (`NoLoss.NothingLostAlways` has no condition).
- *`completed` is terminal* exactly with one worker for which neither the ack after the
  commit nor the commit itself raises misleadingly (`CounterRuns.CompletedStableIff`). That
  ack stands inside the same `try` as the pipeline.
- *`failed` is terminal* in the diagram, but only `completed` is skipped on redelivery: a
  failed job with a live copy is attempted again. It is terminal exactly without requeues
  and with at most one worker (`FailureRuns.FailedFinalIff`).
- The diagram's arrows are all there is, apart from that revival, exactly with at most one worker
  that is never misled, also not about `mark_processing` (`FailureRuns.DiagramIff`).
- *Every job ends `completed` or `failed`.* Fault-free runs end, and with any positive number
  of workers each accepted job then has exactly one outcome, a transcript or a dead copy. Its
  *status* says so on every run exactly with one worker (`Settlement.SettledIff`).
- The message schema says that a corrupted `x-retry-count` is parked immediately. The code
  attempts the job first; `Parking.CorruptCompletes` is the input, and
  `Parking.ParkedUntriedIff` says exactly when a message is parked without an attempt.
- `plan_chunks` ends exactly for an empty file or a positive chunk size
  (`Chunks.PlanEndsIff`); the settings do not check the latter.
- Subtitles read back exactly when no time is negative and no text holds a line break
  (`Subtitles.SrtRoundTripIff`); nothing removes line breaks inside a text, and with them two
  different transcripts print the same file (`Subtitles.LineBreaksCollide`).

## Model

The main results come first, then the programs, then the steps they rest on.

| member | source | states |
|---|---|---|
| NoLoss.NothingLostAlways | worker/main.py:112-195 | for any number of workers and any schedule, every accepted job has a stored transcript, a copy in the dead queue, or a live message not yet discharged |
| Provenance.StoredValuesTraced | worker/main.py:182-195 | for any workers and schedule, a stored transcript is one the pipeline returned while a worker attempted this job, a stored error is the text of an exception raised while a worker handled it, and stored progress was reported by an attempt at it, unless it is 0, or 1 beside a transcript |
| Answering.HandlerAnswers | worker/main.py:146-195 | a handler that ends by itself, whose first ack or nack takes effect and whose message nobody takes back, leaves the message parked if malformed or unknown, in the jobs queue with one more requeue if the status could not be read or a publish or outcome write raised, and acknowledged otherwise; never unacknowledged |
| BoundedWork.AttemptsBounded | worker/retry.py:22-26 | attempts plus all outstanding weights are at most 4 + 4 * requeues, hence attempts <= 4 * (1 + requeues), on every run |
| BoundedWork.CopiesBounded | worker/main.py:112-139 | active copies of a job number at most 1 + requeues, and at most the requeues once it has failed |
| BoundedWork.DecisionInRange | worker/retry.py:22-26 | every header a handler ever sees is on the ladder, so `decide` never indexes out of range |
| CounterRuns.NoStuckRowIff | worker/main.py:112-139 | no accepted job is ever stranded if and only if there is at most one worker |
| NoStuck.StrandedIsKept | worker/main.py:112-143 | with any number of workers a job left without a live message still has its transcript or a copy in the dead queue |
| CounterRuns.CompletedStableIff | worker/main.py:162-195 | every run keeps completed rows if and only if there is no worker, or one whose commit and post-commit ack never misreport |
| CompletedStable.CompletedForever | worker/db.py:75-103 | under that condition a completed row stays as it is over every continuation of the run |
| FailureRuns.DiagramIff | README.md:68-76 | statuses follow the diagram, but for revivals of failed jobs with a live copy, if and only if there is no worker, or one for which commit, post-commit ack and `mark_processing` never misreport |
| FailureRuns.FailedFinalIff | README.md:73-76 | failed is terminal if and only if there is no worker, or one and no requeues |
| StatusMachine.RevivalNeedsLiveCopy | worker/main.py:172-183 | with one worker and whatever fails, a failed job is attempted again only while a live copy of it is left |
| Parking.ParkedUntriedIff | shared/message-schema.md:66-69 | a delivered message with any header is parked without an applied `mark_processing` if and only if it is malformed or its job unknown and the rejection takes effect, or its count is used up, `mark_processing` raised having done nothing, and the dead copy is published |
| Parking.CorruptIsAttempted | worker/main.py:104-110 | so a corrupted count of a known, unfinished job is parked untried only after such a lost `mark_processing` |
| Parking.AnyHeaderCompletes | worker/main.py:181-189 | whatever its header says, a waiting message of a known, unfinished job is attempted; if that succeeds the job is completed with exactly this transcript after one more attempt, the message acknowledged, no copy made and nothing else changed |
| Parking.CorruptCompletes | worker/main.py:104-110 | the input that breaks the promise: a queued job with a corrupted count ends completed, with nothing parked |
| Provenance.DelaysAlways | shared/message-schema.md:51-56 | on every run a copy with count 1, 2 or 3 waits 10, 30 or 90 s in the retry queue |
| Provenance.CopiesKeepHeader | worker/main.py:114-136 | on every run a published copy has the body of the message it stands for; a retry copy has the next count, a dead copy the unchanged header |
| RowConsistency.ConsistentAlways | worker/db.py:63-108 | for any workers, faults and late progress writes: progress in [0, 1]; completed means progress 1, no error and a transcript agreeing with language and duration columns; failed means an error and a copy in the dead queue |
| Conservation.TokenConserved | worker/main.py:96-139 | without faults and with any number of workers, waiting copies + carrying handlers + dead copies + stored transcript is always exactly one for each accepted job |
| Conservation.HeaderCountsAttempts | worker/main.py:104-121 | in the same runs, attempts equal the header's count while a copy waits or its attempt has not begun, and one more from the start of the attempt to the publish of its successor or the commit |
| Conservation.QuiescentOutcome | worker/main.py:96-139 | with any positive number of workers, when nothing can move any more every accepted job has a stored transcript after 1 to 4 attempts, or exactly one dead copy after exactly 4 |
| Settlement.SettledIff | README.md:68-76 | every quiescent fault-free run leaves each accepted job completed after 1 to 4 attempts, or failed after exactly 4 with one dead copy, if and only if there is exactly one worker |
| FaultFree.MovesBounded | worker/main.py:96-195 | hence a fault-free run with any number of workers makes at most 64 moves for each accepted upload and 2 for each foreign message |
| Uploads.NoRowWithoutFile | api/src/transcriptions/transcriptions.service.ts:51-76 | wherever `create` stops, also inside its rollback, and with other uploads and purges around: every row's file exists |
| Uploads.MessageAfterRow | api/src/transcriptions/transcriptions.service.ts:58-69 | a job's first message is enqueued by its own `create` while its row is committed |
| Uploads.MessageBacked | api/src/transcriptions/transcriptions.service.ts:58-73 | every message of an accepted job names a row and a file that exist |
| Uploads.ValidOnlyAlways | api/src/transcriptions/transcriptions.service.ts:32-36 | on every run every row, every message and every upload past its arrival that was not aborted is of a file that passed the validation |
| TranscriptionsService.CreateReplies | api/src/transcriptions/transcriptions.service.ts:31-80 | no answer exactly if the process died; 415 exactly if it survived and the upload is invalid; 202 exactly if the publish returned; 503 exactly if the publish raised, the delete of the row returned and the removal of the file was made; 200 exactly if the lookup hit |
| TranscriptionsService.RejectedLeavesNothing | api/src/transcriptions/transcriptions.service.ts:32-36 | a rejected upload leaves no row and no message, and no temp file if its removal took effect |
| Uploads.NothingLeftBehind | api/src/transcriptions/transcriptions.service.ts:68-76 | if the API process survives and only the publish raises, an answered upload has exactly its row and its file when accepted, and neither when not |
| Uploads.DedupCloses | api/src/transcriptions/transcriptions.service.ts:40-66 | once an accepted job with a hash is completed, only uploads already past their lookup can have or get a row for it |
| Uploads.LookupHits | api/src/transcriptions/transcriptions.service.ts:40-49 | from then on every lookup that does not raise finds a completed job with the hash and adds no row |
| Wellformed.WfAlways | api/src/transcriptions/transcriptions.service.ts:51-76 | in every reachable state delivery tags are unique, headers are on the ladder, messages name published uploads and their file, and rows exist exactly while `create` says so, with their file |
| Transcriber.Transcribe | worker/transcriber.py:109-156 | the returned segments are those heard, chunk by chunk, in order and as many; each starts and ends within 0.005 s of the chunk start plus what was heard, with the heard text stripped at both ends; the full text is their texts with single spaces; the language is the first named or "unknown"; and the progress calls are exactly those of the chunks in order |
| Transcriber.TimelineOrdered | worker/transcriber.py:109-147 | the stored transcript has ids 0..n-1, starts in order, start <= end, and all times within the stored duration |
| Chunks.PlanEndsIff | worker/transcriber.py:36-43 | the planning loop ends if and only if the file is empty or the chunk size positive |
| Chunks.PlanPartitions | worker/transcriber.py:36-43 | chunk i starts at i chunk sizes, lengths are in (0, chunk size], neighbours meet, and the lengths sum to the duration |
| Chunks.CountIsCeiling | worker/transcriber.py:36-43 | the number of chunks is the duration over the chunk size, rounded up |
| Chunks.ProgressHonest | worker/transcriber.py:83-106 | reported progress is in [0, 1], at most the share of audio processed, and short of it by less than one chunk's share |
| Chunks.ProgressMonotone | worker/transcriber.py:96-106 | progress never goes back, within a chunk or across a boundary |
| Transcriber.CallsHonest | worker/transcriber.py:83-106 | one progress call for each segment of a sliced file, in [0, 1], at most the share of the file heard so far and short of it by less than one chunk's share |
| Transcriber.CallsExact | worker/transcriber.py:83-106 | in an unsliced file each call is exactly the share heard so far |
| Transcriber.AttemptWrites | worker/main.py:73-93 | one whole attempt, whatever the recogniser returns: at most ten writes, strictly increasing, in (0, 1] |
| Transcriber.AttemptClimbs | worker/transcriber.py:83-106 | with segment ends in order, the calls of a whole attempt climb through [0, 1] |
| Progress.ThrottleSound | worker/main.py:73-93 | for any calls up to 1, in any order: at most ten writes, strictly increasing even after rounding, and the mark trails by less than a tenth |
| Progress.IssuedAreCalls | worker/main.py:84-91 | every write is the two-decimal value of some call, and the mark is the fraction of the last write |
| Subtitles.SrtRoundTripIff | api/src/transcriptions/srt.util.ts:19-28 | reading `toSrt` gives the cues back if and only if no time is negative and every text is one line |
| Subtitles.VttRoundTripIff | api/src/transcriptions/srt.util.ts:30-40 | the same for `toVtt` |
| Subtitles.LineBreaksCollide | api/src/transcriptions/srt.util.ts:19-40 | without reference to a reader: the document of any two cues is also that of one segment with line breaks, so neither printer is injective |
| Subtitles.SampleDocuments | api/src/transcriptions/srt.util.spec.ts:30-49 | two cues, literally, in both formats |
| Subtitles.TimestampRoundTrip | api/src/transcriptions/srt.util.ts:6-17 | the timestamp parser inverts the printer for every millisecond count, hours unbounded |
| Export.TranscriptExported | api/src/transcriptions/srt.util.ts:19-40 | every ordered transcript is exported in both formats with its numbers, exact times and texts, if and only if no text holds a line break |
| RetryQueue.ReleasedIff | shared/message-schema.md:71-73 | a copy is back if and only if the latest expiry among it and all copies ahead of it has passed |
| RetryQueue.ReleasedAtLatestDue | shared/message-schema.md:71-73 | a copy comes back exactly at the latest expiry among it and all copies ahead of it |
| RetryQueue.OnTimeIff | shared/message-schema.md:71-73 | a copy comes back on time if and only if nothing ahead of it expires later |
| RetryQueue.DelayBounds | worker/main.py:114-121 | with the ladder's TTLs, never early and at most 90 s after its own publish, waiting copies included |
| Topology.DeclareSucceedsIff | worker/queue_topology.py:27-64 | succeeds if and only if nothing on the broker conflicts and the three queues have three names; then exactly these things were added |
| Topology.InSyncIff | api/src/queue/topology.ts:3-46 | against a broker set up by the API the worker adds nothing if and only if its settings name the same five things |
| Topology.Journeys | shared/message-schema.md:31-42 | jobs, retry and dead copies reach exactly their queue; rejected goes to dead, expired goes back to jobs, dead stays |
| WorkerProcess.HandleMessage | worker/main.py:146-195 | leaves exactly the state the transition system gives for the handler, for every interference, outcome and crash |
| WorkerProcess.HandleFailure | worker/main.py:96-143 | the same for `handle_failure`, from the reading of the header to its last await |
| WorkerProcess.ScheduleRetry | worker/main.py:113-122 | publish of the retry copy with the next count, then `record_retry` |
| WorkerProcess.ParkExhausted | worker/main.py:129-137 | publish of the dead copy with unchanged headers, then `fail` |
| WorkerProcess.RecordOutcome | worker/main.py:121-139 | the row update after the confirmed copy, then the ack or the nack |
| WorkerProcess.CommitAndAck | worker/main.py:188-195 | `complete`, then the ack, with `handle_failure` on a raise |
| WorkerProcess.AckCommitted | worker/main.py:189-195 | a raising post-commit ack enters `handle_failure` |
| WorkerProcess.DriveIsRun | worker/main.py:146-195 | whatever a handler does amid interference is a run of the transition system |
| WorkerProcess.HandlerEnds | worker/main.py:146-195 | a handler ends within nine awaits however they turn out, and leaves its worker idle |
| Consumer.Consume | worker/main.py:209-222 | one delivery at a time under the lock: the state after any number of deliveries, the worker free again, from a reachable state the guarantees below; and a waiting message of a known, unfinished job, consumed undisturbed, ends with the job completed, its transcript stored and the message gone |
| Consumer.ShiftsAreRun | worker/main.py:209-222 | what a worker does amid interference is a run in which exactly the messages that wait when their shift is reached are delivered to it, once each and in order |
| Consumer.ShiftAnswers | worker/main.py:209-222 | a delivered message is answered by the end of its shift, and the worker is free |
| TranscriptionsService.Create | api/src/transcriptions/transcriptions.service.ts:31-80 | leaves exactly the prescribed state for every schedule and crash, answers as `CreateReplies` says, and from a reachable state keeps the guarantees below |
| TranscriptionsService.Undo | api/src/transcriptions/transcriptions.service.ts:70-76 | the rollback: row first, then file, then 503; a raising delete escapes |
| TranscriptionsService.DriveIsRun | api/src/transcriptions/transcriptions.service.ts:31-80 | whatever a request does amid interference is a run of the transition system |
| Cluster.System.OnModuleInit | api/src/storage/storage.service.ts:28-31 | the purge at start-up is the run of one purge event for each file removed |
| Guarantees.RunKeeps | worker/main.py:96-195 | every run from a reachable state ends in one where consistency, no loss, bounded work, valid uploads only and (one worker) no stuck row hold |
| Retry.LadderDescends | worker/retry.py:22-26 | on every header the system writes, the TTL index is in range, a retry means a count below 3, delays lie in 10-90 s and grow, and each rung leaves one attempt less until the dead copy |
| Retry.DelaysByCount | worker/retry.py:5-26 | 10, 30 and 90 s for counts 0, 1 and 2, and dead exactly from 3 on |
| RowConsistency.TranscriptStays | worker/db.py:75-108 | once stored, a transcript is never removed from its row |
| NoLoss.KeptStep | worker/main.py:112-195 | no single event, fault or crash loses a job |
| BoundedWork.AccountStep | worker/main.py:104-139 | attempts made plus weights of messages and handlers, less an allowance for each requeue, never grow except by the job's one first publish |
| NoStuck.UnstuckAlways | worker/main.py:112-139 | the inductive invariant behind the next row: the only handler's message backs its job until a successor does |
| NoStuck.NeverStuck | worker/main.py:214-222 | with at most one worker, an accepted row in queued or processing always has a message in the jobs queue, in the retry queue or unacked |
| CounterRuns.RaceStrands | worker/main.py:121-139 | a schedule for any two or more workers, in which no call raises, that strands an accepted job with a stored transcript as `queued`, with no message left and nothing able to move |
| StatusMachine.ArrowStep | README.md:68-76 | with one worker that is never misled, every change of status is an arrow of the diagram, or failed to processing of a job with a live copy |
| StatusMachine.FailedFinal | README.md:68-76 | with one worker, a job that failed without any of its messages having been requeued stays failed |
| FailureRuns.LostStartNotDrawn | worker/main.py:182-195 | a `mark_processing` that raises having done nothing leads to queued -> failed, which is not drawn |
| FailureRuns.RequeuedRevives | worker/main.py:176-183 | a requeue after the dead copy was published revives a failed job, with any number of workers |
| FailureRuns.StalledRecordRevives | worker/db.py:94-101 | with two workers a stalled `record_retry` revives a failed job even without requeues |
| FaultFree.MoveBurns | worker/main.py:96-195 | without faults every move of a job strictly lowers a non-negative measure |
| Conservation.LedgerWork | worker/main.py:112-195 | the exact change of a job's ledger at each await of any handler |
| Conservation.InOrderAlways | worker/main.py:96-195 | the invariant behind the next rows, over every fault-free run of any number of workers |
| Provenance.StartWrites | worker/db.py:51-61 | an applied start: processing, one more attempt, progress 0, every other column and row as before |
| Provenance.CommitWrites | worker/db.py:75-92 | an applied commit: the transcript of this handler with its language and duration, progress 1, no error, every other column and row as before |
| Provenance.FailureWrites | worker/db.py:94-108 | an applied outcome write: queued or failed with the text of the exception, every other column and row as before |
| Provenance.ProgressWrites | worker/db.py:63-73 | a progress write changes the progress of a processing row and nothing else |
| Provenance.ReportQueued | worker/main.py:86-91 | a report becomes one pending write for its job |
| Answering.TagsDistinctAlways | worker/main.py:209-222 | no two handlers ever work with the same delivery tag |
| Answering.AnswerLands | worker/main.py:139-189 | the first ack or nack of a handler decides what becomes of its message |
| Answering.LongEnoughEnds | worker/main.py:146-195 | nine awaits are always enough for a handler to end by itself |
| Adapters.Database.GetStatus | worker/db.py:48-49 | the status of the row, or none |
| Adapters.Database.MarkProcessing | worker/db.py:51-61 | processing, one more attempt, progress 0, or untouched if the statement had no effect |
| Adapters.Database.UpdateProgress | worker/db.py:63-73 | writes progress only while the row is processing |
| Adapters.Database.Complete | worker/db.py:75-92 | transcript, language, duration, progress 1, no error, in one statement |
| Adapters.Database.RecordRetry | worker/db.py:94-101 | queued with the error, without a guard on the status |
| Adapters.Database.Fail | worker/db.py:103-108 | failed with the error, without a guard on the status |
| Adapters.Database.FindCompleted | api/src/transcriptions/transcriptions.service.ts:40-42 | a found row is completed and has the hash; none is found only if there is none; any such row may be the answer |
| Adapters.Broker.Ack | worker/main.py:139-139 | settles the message only if the delivery tag is current |
| Adapters.Broker.Nack | worker/main.py:143-143 | back to the jobs queue, or to the dead queue, only if the tag is current |
| Adapters.Broker.Publish | worker/main.py:121-136 | appends the copy, or raises with or without having done so |
| Adapters.Storage.Promote | api/src/storage/storage.service.ts:40-44 | moves the temp file to the job's own path |
| Adapters.Storage.Remove | api/src/storage/storage.service.ts:46-48 | removes at most that file and never raises |
| Adapters.Storage.PurgeStaleTempFiles | api/src/storage/storage.service.ts:51-57 | removes exactly the listed temp files whose unlink took effect, never a promoted file |
| Topology.DeclareTopology | worker/queue_topology.py:27-64 | performs the eight declarations in order, up to the first that raises |
| Topology.DeclareIdempotent | worker/queue_topology.py:1-4 | declaring again changes nothing |
| RetryQueue.ReleasesKeepOrder | shared/message-schema.md:71-73 | releases keep publishing order |
| Chunks.PlanChunks | worker/transcriber.py:36-43 | the loop returns the plan, and ends |
| Transcriber.StripCuts | worker/transcriber.py:66-66 | strip removes all whitespace at both ends and nothing else |
| Transcriber.JoinConcat | worker/transcriber.py:76-76 | the full text is the segments' texts with one space between |
| Transcriber.SingleChunkIsWholeFile | worker/transcriber.py:121-132 | whenever the file is not sliced, its one chunk is (0, duration) |
| Transcriber.TranscribeWav | worker/transcriber.py:83-93 | returns the segments heard and makes one progress call for each, none for an empty chunk |
| Transcriber.ShapedTimeline | worker/transcriber.py:59-69 | rounding keeps the order and the bounds; ids are 0..n-1 |
| Transcriber.FractionsClimb | worker/transcriber.py:83-106 | with segment ends in order, the progress calls of the whole job never go back |
| Progress.Reporter.Report | worker/main.py:84-91 | one call of the closure: a write and a new mark after a tenth, else nothing; afterwards the mark trails by less than a tenth |
| Progress.TenWrites | worker/main.py:73-93 | ten writes do happen |
| Subtitles.StoredTimeExact | api/src/transcriptions/srt.util.ts:7-7 | a time stored with two decimals is printed without loss |
| Subtitles.CuesRoundTrip | api/src/transcriptions/srt.util.ts:20-27 | a list of cues, however long, parses back to numbers, times and texts |
| Settlement.StatusesFitAlways | worker/db.py:51-108 | with one worker and no faults the status agrees with transcript and dead copy, but for the one write under way |
| PipelineReports.IssuedAreReports | worker/main.py:84-91 | every value an attempt issues is one the protocol admits as a progress write |

## Left out

- ffprobe, ffmpeg and Whisper: the pipeline is an arbitrary outcome, an error or the segments heard in each chunk; that they are ordered and inside their chunk is an assumption of `TimelineOrdered`, and that their ends do not decrease one of `AttemptClimbs`; the bounds on the writes need neither.
- Connection handling of the API's publisher and of aio-pika: a publish is confirmed or raises. A dropped connection appears as a requeue and as calls that raise.
- JSON, UUID and path checks, HTTP controllers, pagination, authentication, the health check, settings validation and the web UI; of message parsing, only "malformed or unknown goes to dead" is kept.
- Floating point and the precision of the `real` column: numbers are exact, `round` is half-to-even on them, and `Math.round` is half-up.
- sha256 is an uninterpreted string of the upload; UUIDs are fresh, so an upload's number stands for its id.
- Columns that no modelled operation reads (names, timestamps); the API's read operations.
- Broker durability and atomicity: persistent messages survive, and expiry and rejection move a message in one step. Server-named and reserved exchange or queue names in `Topology`.
- Delivery order of the jobs queue: any waiting message may be delivered next. A message prefetched but waiting for the in-flight lock counts as still in the jobs queue. Time: in `Protocol` a retry copy may expire at any moment; `RetryQueue` has the clock.
- A statement that a dying process has sent takes effect before the death or not at all; one that Postgres applies after the process died is not modelled.
- Graceful shutdown: cancelling the consumer and the grace period end in a run of the same kind, with or without a crash.
- Messages with a well-formed body that neither the API nor the worker published; foreign messages are malformed ones. `Parking` speaks of a well-formed body with any header; `decide` on a negative count indexes the tuple from its end or raises, which `Retry.Decide` has but no reachable state meets.
- Mutation of objects across coroutines: the methods of `WorkerProcess` and `TranscriptionsService` let others act only at awaits, as asyncio and Node do.
- A duplicate may be answered with a completed job whose own publish is still unconfirmed and which is rolled back later; `LookupHits` promises a completed job at the time of the lookup.
- Chunks.PlanChunks: requires a positive chunk size unless the file is empty, because the loop does not end otherwise (`PlanEndsIff`).
- Subtitles.TimestampRoundTrip: the printed exponent form of numbers of 10^21 and more is not modelled, so hours are digits however many there are.
- Export.TranscriptExported: WebVTT escapes and the markup that a text could contain are not interpreted; texts are compared as printed.
