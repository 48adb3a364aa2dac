# Datacat: models and proofs

Datacat is an ingestion service for events, logs and metrics. This project models the parts of it that hold state
or do arithmetic, and proves what they promise over whole runs. `dafny verify dfyconfig.toml` checks it.

| files | part of the system |
|---|---|
| `TokenBucket`, `IpWindow`, `RateLimit`, `RateLimiterObject` | the three levels of the rate limiter: as functions, and as objects updated in place |
| `PruneInvisible`, `PruneExact`, `Throughput`, `IpCap`, `RetryAfterSuffices` | its guarantees over runs in which sessions and windows are forgotten and re-created |
| `Admission`, `Tracking` | its decisions, what it tracks and its delays, exactly, from the history of checks |
| `Anomaly`, `BanSoundness`, `GuardRuns`, `GuardDetection` | the ban guard with its bounded maps and evictions |
| `Store`, `Ingest`, `IngestRuns`, `IngestFlushes` | staging, merge and partitions; the batcher; conservation and clean shutdown |
| `Pipeline`, `PipelineExact` | clients, network, channel, flush, purge and crash as steps: at most once, for ever |
| `Sdk`, `SdkRuns`, `SdkRetries`, `SdkFates` | the TypeScript client: queue, retries and beacons under every interleaving |
| `Csv`, `CsvRows`, `Decimal`, `Persistence`, `CopyColumns` | the CSV printer and a reader for it; from the flattened records to staging |
| `Otlp`, `Transport`, `Flatten`, `Logs`, `LogTransport`, `LogIds`, `Metrics`, `DedupId`, `PointId`, `SkewWindow`, `LogRows`, `PointRows`, `StoredValues`, `LogsIntake` | the two OTLP encodings, the capped flatteners, the ids of logs and points, and the admission of logs |
| `Alerts`, `AlertGroups`, `AlertRuns`, `AlertEngineRuns` | the alert state machine |

Most parts come twice. A class updates its fields in place, with the loops and branches of the source, and its
methods state the new state as a function of the old one; the theorems are about these functions and the runs
made of them.

What comes from outside is a parameter: the clock, the answers of databases, endpoints and notifiers, the entry
that an eviction picks among equal ones, the order in which a merge scans equal rows, the hash and the printer of
JSON values. The theorems hold for every choice of these; those about equal ids say what they ask of hash and
printer.

Where a promise of the source does not hold in general, the exact condition is proved:

- A prune is invisible, and a session stays within its rate, only if an idle session refills before it is
  forgotten; the configuration does not check it (`PruneExact`).
- As many bad requests within the window as the threshold says do not always ban: it takes one less than twice as
  many, and no number is enough when other addresses may evict the window that counts (`GuardDetection`).
- Idempotence for ever needs retention to outlast the skew window and the waiting of records together;
  `retention_days` is not checked against either (`PipelineExact`).
- The comment before `proto_to_logs` promises the same `log_id` for both transports. A negative integer loses its
  value in JSON, and bytes are kept as base64 text there and as hexadecimal digits in protobuf: when the rows are
  the same is in `LogTransport`, and when the ids are in `LogIds`.
- `deduplicated_total` also counts losses and what is still on its way, and misses as many duplicates as rows were
  left in staging before the start (`IngestRuns`).
- Rules whose names contain colons can share alert states (`AlertGroups`).
- With a cooldown, notifications need not alternate (`AlertRuns`).
- A Retry-After in the form of a date, or so large that it overflows, leaves a batch in the client's schedule for
  good (`SdkRetries`).
- The hashed bytes of a log do not separate the two ids, or a NUL from the separator (`DedupId`).

## Model

| member | source | states |
|---|---|---|
| Admission.DecisionExactly | backend/src/security/ratelimit.rs:134-196 | The converse as well, for every check of every run, prunes included if idle sessions refill before they are forgotten: it is refused by its session if and only if, with its events, some interval that ends now exceeds burst + rate * length (or the map is full); else by its IP if and only if the session did not pass within the window and ip_session_cap others did (or the map is full); and else it is allowed if and only if no interval exceeds the global bound |
| Admission.SessionTakesUnits | backend/src/security/ratelimit.rs:134-166 | A session that is tracked or finds room passes its level if and only if it holds a token for each event, and then has exactly as many fewer |
| Admission.GlobalTakesUnits | backend/src/security/ratelimit.rs:184-196 | So does the global bucket, for checks that get there |
| Tracking.TrackedExactly | backend/src/security/ratelimit.rs:199-205 | A session is tracked if and only if a check has seen it, less than twice the window, or 600 seconds if that is more, before every prune since |
| Tracking.TrackedIpExactly | backend/src/security/ratelimit.rs:206-213 | An IP is tracked if and only if a check has reached its window, and every prune since found a session that passed within the window |
| Tracking.RunKeepsLimits | backend/src/security/ratelimit.rs:139-171 | Over every run no more than max_tracked_sessions sessions and max_tracked_ips addresses are tracked |
| Tracking.DelayIsLeast | backend/src/security/ratelimit.rs:48-107 | The announced delay is the least number of whole seconds: a second earlier the same check is refused again, whichever level refused it |
| Tracking.GlobalRetrySucceeds | backend/src/security/ratelimit.rs:184-196 | A retry at or after the announced delay passes the global bucket, if nothing was allowed in between |
| Tracking.FullMapSaysOneSecond | backend/src/security/ratelimit.rs:139-171 | A full map refuses the untracked, announces one second and changes nothing there |
| Tracking.ZeroRateSaysForever | backend/src/security/ratelimit.rs:56-62 | Without a rate the delay is the largest that fits 32 bits |
| PruneExact.PruneInvisibleExactly | backend/src/security/ratelimit.rs:134-213 | Any two runs with the same checks and any prunes, in which no check meets a full map, answer alike, decisions and delays, if and only if an idle session refills before it is forgotten (burst < 1 or rate * 2 * max(window, 300 s) >= burst) or no session is ever tracked |
| PruneExact.SessionsBoundedExactly | backend/src/security/ratelimit.rs:134-213 | The bound burst + rate * length on what a session is admitted holds in all intervals of all runs, prunes included, if and only if the same condition holds; otherwise a constructed run exceeds it |
| PruneInvisible.PruneIsInvisible | backend/src/security/ratelimit.rs:199-213 | The sufficient half, by a bisimulation of two limiters that prune at different times: a session that one has forgotten is a full bucket, an IP an empty window |
| Throughput.SessionThroughput | backend/src/security/ratelimit.rs:48-63 | The events of a session that get past its level in any interval of any run, a request of none counting as one, are at most burst + rate * length, across prunes and re-creations |
| Throughput.GlobalThroughput | backend/src/security/ratelimit.rs:184-196 | The events allowed in any interval of any run are at most the global burst + rate * length, whatever the sessions and addresses |
| Throughput.FinerDenialsSpareGlobal | backend/src/security/ratelimit.rs:134-196 | A denial by session or by IP leaves the global bucket as it was; otherwise exactly the events of the request are taken from it and its answer decides |
| IpCap.SlidingWindowCap | backend/src/security/ratelimit.rs:79-108 | For every IP and every half-open window (t - w, t] of every run with prunes, at most ip_session_cap distinct sessions passed the IP level |
| RetryAfterSuffices.SessionRetrySucceeds | backend/src/security/ratelimit.rs:52-62 | A retry at or after the announced whole seconds passes the session level, whatever others did in between, if the cost is within the burst and the rate is positive |
| RetryAfterSuffices.AboveBurstNeverPasses | backend/src/security/ratelimit.rs:48-63 | The condition on the cost is exact: a cost above the burst never passes |
| RetryAfterSuffices.IpRetrySucceeds | backend/src/security/ratelimit.rs:95-107 | A retry at or after the announced delay of a full window lets any session of that IP in, whatever other IPs did |
| RetryAfterSuffices.ZeroCapNeverPasses | backend/src/security/ratelimit.rs:79-108 | The condition on the cap is exact: with cap 0 no session ever passes, in any state that can be reached |
| TokenBucket.Bucket.Take | backend/src/security/ratelimit.rs:48-63 | Updates tokens and last in place as the bucket function does, refill capped at the burst, and answers taken or the wait |
| TokenBucket.WaitSuffices | backend/src/security/ratelimit.rs:48-63 | After a refusal of an affordable request, waiting the announced time makes it pass |
| TokenBucket.RefillGrows | backend/src/security/ratelimit.rs:49-51 | Refilling at an intermediate instant loses nothing and earns at most what the rest of the time earns |
| IpWindow.Window.Record | backend/src/security/ratelimit.rs:79-108 | Drops expired sessions, renews or inserts in place, and answers the age at which the oldest one leaves |
| IpWindow.RecordedBounds | backend/src/security/ratelimit.rs:79-108 | The window never holds more than cap sessions, and one that passes is in it, stamped now |
| RateLimit.RunKeepsInv | backend/src/security/ratelimit.rs:134-213 | Every run keeps token counts within the burst, instants in the past, and no window above the cap |
| RateLimiterObject.RateLimiter.DoCheck | backend/src/security/ratelimit.rs:134-196 | The objects updated in place by a check are those of the function Check, level by level, with the same decision |
| RateLimiterObject.RateLimiter.DoPrune | backend/src/security/ratelimit.rs:199-213 | The maps updated in place by a prune hold exactly the sessions and windows of the function Prune |
| BanSoundness.EveryBanIsEarned | backend/src/security/anomaly.rs:86-125 | Over all runs with evictions and prunes, each ban is paid for by at least threshold bad requests of its IP in the window before it, and no bad request pays for two bans |
| BanSoundness.BannedAnswersAreJust | backend/src/security/anomaly.rs:69-83 | An IP that is answered to be banned was banned by an event of the run less than ban_duration before |
| BanSoundness.RunKeepsInv | backend/src/security/anomaly.rs:86-185 | In every reachable state both maps hold at most max(1, max_tracked_ips) entries and every counter is below the threshold |
| GuardRuns.FreshBanHolds | backend/src/security/anomaly.rs:111-125 | A request that bans takes effect at once and for the whole ban duration, also when the map was full of active bans |
| GuardRuns.BanLostExactlyWhen | backend/src/security/anomaly.rs:160-176 | An active ban disappears if and only if a full map of active bans makes room and it is the one soonest to expire that goes |
| GuardRuns.EndedBanGoes | backend/src/security/anomaly.rs:69-83 | A ban that has ended is forgotten by a prune and by a question about its address |
| GuardRuns.WindowLostExactlyWhen | backend/src/security/anomaly.rs:131-156 | A counting window disappears if and only if an untracked address needs its place and it is over, or an oldest of a map full of current ones, or a prune finds it two windows old; and only its own address changes it |
| GuardRuns.CountsExactly | backend/src/security/anomaly.rs:94-125 | A bad request counts in the window of its address if that began at most a window ago, and else begins one; it bans if and only if it is the threshold-th there, and counting then starts again |
| GuardRuns.UnknownIsIgnored | backend/src/security/anomaly.rs:86-92 | Over all runs requests from an unknown address leave no window, no ban and no other trace |
| GuardDetection.DetectsExactly | backend/src/security/anomaly.rs:86-125 | n bad requests within one window are sure to ban, over all runs that do not evict the window they are counted in, if and only if n >= 2 * threshold - 1 (a threshold of 0 acting like 1) |
| GuardDetection.SureToBanExactly | backend/src/security/anomaly.rs:86-156 | Evictions included, for every capacity of the maps: n >= 1 bad requests within one window are sure to ban, over all runs, if and only if the first one does (threshold at most 1) |
| GuardDetection.EvictionsEvade | backend/src/security/anomaly.rs:131-156 | With a higher threshold no number of requests is sure to: a run in which other addresses evict the window before each request |
| GuardDetection.BurstIsDetected | backend/src/security/anomaly.rs:86-125 | The sufficient half from any state of the guard: requests already counted make up for as many |
| GuardDetection.ThresholdAloneSuffices | backend/src/security/anomaly.rs:86-125 | threshold bad requests within one window are sure to ban if and only if a single one is |
| Anomaly.CounterInRange | backend/src/security/anomaly.rs:98-108 | The u32 counter of the window a bad request falls in is below the threshold before it is incremented, so it cannot overflow |
| Anomaly.RecordBadKeepsInv | backend/src/security/anomaly.rs:86-176 | Recording a bad request keeps the bounds of both maps, whichever minimal entry is evicted |
| Anomaly.AnomalyGuard.EnsureBadHeadroom | backend/src/security/anomaly.rs:131-156 | Makes room by dropping finished windows, and then one that is oldest |
| Anomaly.AnomalyGuard.EnsureBannedHeadroom | backend/src/security/anomaly.rs:160-176 | Makes room by dropping expired bans, and then one that is soonest to expire |
| Anomaly.AnomalyGuard.DoRecordBad | backend/src/security/anomaly.rs:86-125 | The two maps updated in place are those of the function RecordBad, for a legal choice of victims |
| Anomaly.AnomalyGuard.CheckBanned | backend/src/security/anomaly.rs:69-83 | Answers whether a ban is active and forgets an expired one, touching no other entry |
| LogsIntake.RefusesExactly | backend/src/logs/intake.rs:35-42 | Although the flattener stops early, the intake refuses as too large exactly the requests whose uncapped flattening exceeds the limit; limiter and queue are then untouched |
| LogsIntake.AcceptedIsAccounted | backend/src/logs/intake.rs:47-92 | Every in-window record of an accepted request is enqueued or counted as oversized or as refused by the full channel, and the others as skewed |
| LogsIntake.RefusalIsOneBadRequest | backend/src/logs/intake.rs:35-79 | Each refusal reports one bad request of the IP to the guard, enqueues nothing, and changes no counter but that of oversized records, and that only if the limiter refused |
| LogsIntake.ChargesSubmitted | backend/src/logs/intake.rs:42-75 | A request that is not too large is put to the limiter once, with all records submitted, the oversized included, on the account of the first record left, or of the IP; the answer is that of the limiter |
| LogsIntake.CostIsSubmittedExactly | backend/src/logs/intake.rs:68-68 | The cast to u32 keeps the number submitted if and only if it is below 2^32 |
| LogsIntake.SizedSplits | backend/src/ingest/mod.rs:116-140 | Each record decides by its own size, and those left keep their order |
| LogsIntake.LogsState.DoAcceptLogs | backend/src/logs/intake.rs:29-92 | The limiter, guard, channel and counters updated in place are those of the function AcceptLogs |
| LogsIntake.DropOversized | backend/src/ingest/mod.rs:116-140 | The loop keeps, in order, the records that are not over the size limit, and counts the others |
| Store.MergeExtends | backend/migrations/0002_functions.sql:45-64 | The merge keeps every stored row, stores every staged key, and under a new key stores a row received earliest; the count it returns is the growth of the table |
| Store.MergeIdempotent | backend/migrations/0002_functions.sql:45-64 | Copying and merging the same rows again, scanned in any order, changes nothing |
| Store.EnsuredCanMerge | backend/migrations/0002_functions.sql:27-39 | After partitions were ensured for what is staged, the merge does not fail for want of one |
| Store.PurgeBetween | backend/migrations/0002_functions.sql:68-91 | A purge between the two makes the merge fail if and only if it drops a day that is staged |
| Store.Database.MergeStaging | backend/migrations/0002_functions.sql:45-64 | Merges and empties staging, or changes nothing when a partition is missing |
| Store.Database.EnsurePartitionsForStaging | backend/migrations/0002_functions.sql:27-39 | The loop over the staged days creates exactly the missing partitions |
| Store.Database.DropPartitionsBefore | backend/migrations/0002_functions.sql:68-91 | The loop over the partitions drops exactly those before the day, with their rows, and counts them |
| Store.Database.EnsurePartitionWindow | backend/src/db/partitions.rs:9-22 | The loop over the offsets creates the partitions of exactly the days from today - past to today + future |
| Ingest.Ingestor.DoTryEnqueue | backend/src/ingest/mod.rs:161-177 | Enqueues the whole batch and counts it as received, or counts it as refused when the channel is full |
| Ingest.Spawn | backend/src/ingest/mod.rs:195-219 | Both ends of a new domain share one channel and one set of counters, all empty |
| Ingest.Batcher.DoFlushInner | backend/src/ingest/mod.rs:296-318 | COPY, partitions and merge in order, stopping where the environment makes a statement fail, with the effects of those before it |
| Ingest.Batcher.DoFlush | backend/src/ingest/mod.rs:269-292 | Counts success or failure, resets staging after a failure if that works, and always empties the buffer |
| Ingest.Batcher.OnReceive | backend/src/ingest/mod.rs:245-258 | Takes the batch at the head of the channel, and flushes a buffer that reaches the flush size |
| Ingest.Batcher.OnTick | backend/src/ingest/mod.rs:259-263 | Flushes what is buffered, and nothing when there is nothing |
| Ingest.Batcher.Shutdown | backend/src/ingest/mod.rs:235-244 | The draining loop ends with channel and buffer empty and computes the function Drain |
| IngestRuns.Conservation | backend/src/ingest/mod.rs:161-292 | Over every run with failed flushes, failed resets and purges, each occurrence of a record enqueued or found in staging is merged, lost, staged or waiting, in one of these; the counters count them; the buffer is below the flush size whenever the batcher waits |
| IngestRuns.DeduplicatedIsExactly | backend/src/ingest/mod.rs:95-111 | From any staging table, over all runs with purges, the statistic deduplicated_total is the duplicates, plus what was lost, inserted without a reply, staged or waiting, minus the rows found in staging, or 0; it is the number of duplicates if and only if the two corrections are equal, or there was no duplicate and the second is at least the first |
| IngestRuns.WaitingCountsAsDuplicate | backend/src/ingest/mod.rs:95-111 | A run in which it is wrong: a record that merely waits in the channel is reported as a duplicate |
| IngestRuns.ResidueHidesDuplicate | backend/src/ingest/mod.rs:95-111 | The other way it is wrong: a row left in staging before the start hides a duplicate |
| IngestRuns.TableGrows | backend/src/ingest/mod.rs:269-292 | Without a purge the rows inserted by merges are the growth of the table, and the stored keys are those merged |
| IngestRuns.CleanShutdown | backend/src/ingest/mod.rs:221-265 | From any staging table, when no flush failed: after shutdown staging is empty, every key enqueued, staged or old is stored unless a purge came to drop its day, old rows are unchanged, and new ones are records enqueued or staged under their key, however the records were split into flushes and in whatever order they were received; with nothing enqueued, staging and the old rows stay as they were |
| IngestRuns.UnpurgedShutdown | backend/src/ingest/mod.rs:221-265 | Without a purge the stored keys are then exactly the initial ones and, if anything was enqueued, the staged and enqueued ones |
| IngestRuns.EarliestWins | backend/migrations/0002_functions.sql:55-60 | When the records of each key, the staged ones first, went through in the order of their received_at, the stored one is an earliest one, whatever the split into flushes |
| IngestRuns.DrainIsRun | backend/src/ingest/mod.rs:235-244 | What shutdown does is one of the runs that the conservation theorem covers |
| IngestFlushes.FlushesAreCounted | backend/src/ingest/mod.rs:269-292 | Over all runs the counters of flushes and failures are the numbers of batches and ticks that flushed with and without success |
| IngestFlushes.StepFlushes | backend/src/ingest/mod.rs:245-263 | A batch flushes if and only if it brings the buffer to the flush size, a tick if and only if the buffer holds anything; otherwise the batch is appended and the tables stay as they are |
| IngestFlushes.RunKeepsPlaced | backend/migrations/0002_functions.sql:27-64 | Over all runs each stored row lies in the partition of its day, under its own key |
| IngestFlushes.PurgeExactly | backend/migrations/0002_functions.sql:68-91 | A purge leaves exactly the rows of that day or later, unchanged, and their partitions |
| IngestFlushes.DayHolds | backend/migrations/0002_functions.sql:27-39 | A day is the 86400 seconds of a UTC date, also before the epoch |
| Pipeline.AtMostOnce | backend/migrations/0002_functions.sql:45-91 | Over all runs (any sends and deliveries, full channel, failures after each statement, failed resets, crashes, restart drains, purges between any two statements) no key is inserted by two merges, if retention_days >= skew in days + the midnights a record may wait |
| PipelineExact.AtMostOnceExactly | backend/src/db/partitions.rs:28-47 | The bound is exact: lifetime at most once holds in all such runs if and only if retention_days >= ceil(max_past_skew / day) + the midnights a record may wait |
| PipelineExact.InsertedTwice | backend/src/db/partitions.rs:28-36 | With fewer days a concrete run without a single fault inserts the same key twice |
| Pipeline.AtMostOnceUnpurged | backend/migrations/0002_functions.sql:45-64 | Without a purge, at most once needs no bound at all |
| Pipeline.OnlyTrackedEventsAreStored | backend/src/events/model.rs:142-160 | Every stored row carries an event that a client tracked, unchanged, under its own key, and the only one tracked with that id |
| Pipeline.StepRemembers | backend/src/db/partitions.rs:28-36 | Every step keeps: what was ever inserted is still stored or too old for the purge to keep |
| CsvRows.ValuesInjective | backend/src/ingest/mod.rs:33-33 | The values of a row determine the record, whichever domain it is of, NULL apart from the empty string |
| CsvRows.WriteCsvRow | backend/src/ingest/mod.rs:33-33 | Each domain appends its own row |
| Csv.RoundTrip | backend/src/ingest/mod.rs:37-74 | A parser of section 2 of RFC 4180, with PostgreSQL reading an unquoted empty field as NULL, applied to printed rows returns exactly their fields, NULL apart from the empty string, with quotes, commas and line breaks inside |
| Csv.CsvBuffer.PushQuoted | backend/src/ingest/mod.rs:37-46 | The loop appends the value between quotes with every quote doubled |
| Csv.CsvBuffer.PushOpt | backend/src/ingest/mod.rs:49-53 | Appends a quoted value, or nothing for None |
| CsvRows.WriteEvent | backend/src/events/model.rs:65-83 | Appends the row of an event, its columns in the order of the COPY statement |
| CsvRows.WriteLog | backend/src/logs/model.rs:281-314 | Appends the row of a log, its columns in the order of the COPY statement |
| CsvRows.WriteMetricPoint | backend/src/metrics/model.rs:386-426 | Appends the row of a metric point, its columns in the order of the COPY statement |
| CsvRows.WriteBatch | backend/src/ingest/mod.rs:299-302 | The loop of a flush prints the rows of the buffer, in order |
| CsvRows.BatchIsReadBack | backend/src/ingest/mod.rs:299-302 | What is read from the text of a flush is the records of the buffer, column by column and in order |
| CsvRows.BatchTextInjective | backend/src/ingest/mod.rs:299-302 | Two batches of events, logs or metric points with the same text are the same batch |
| Persistence.LogTextInjective | backend/src/logs/model.rs:281-314 | From the flattened log to the printed text: a flush of other logs has another text, for printers that tell apart the instants, ids and JSON at hand |
| Persistence.PointTextInjective | backend/src/metrics/model.rs:386-426 | The same for flattened metric points |
| Persistence.CopyStagesBuffer | backend/src/ingest/mod.rs:299-306 | Reading the text printed for a buffer of events stages exactly its rows, in order, behind those already there, so that the merge sees the records that were buffered |
| CopyColumns.LogsAreReadByName | backend/src/logs/model.rs:262-314 | What is read from a flush of logs under each name of the COPY statement is that field of each log, in the order of the buffer |
| CopyColumns.PointsAreReadByName | backend/src/metrics/model.rs:366-426 | The same for metric points |
| CopyColumns.EventsAreReadByName | backend/src/events/model.rs:47-83 | The same for events |
| Persistence.PayloadInjective | backend/src/events/model.rs:65-83 | The payload that stands for the other columns of a staged event tells every one of them |
| Decimal.PrintIntInjective | backend/src/ingest/mod.rs:63-67 | Printed integers differ when the integers do |
| Flatten.CappedRefinesUncapped | backend/src/logs/model.rs:111-177 | The capped walk keeps the first max_records + 1 in-window records, exceeds the cap exactly when the uncapped one does, and otherwise has the same records and the same skew count |
| Flatten.BreakIsFinal | backend/src/logs/model.rs:121-135 | Leaving all loops at the label is the same as finishing them |
| Logs.OtlpToLogs | backend/src/logs/model.rs:111-177 | The nested loops with their labelled break compute the capped walk over the records of a JSON export |
| Logs.ProtoToLogs | backend/src/logs/grpc.rs:69-121 | The same for a protobuf export |
| Metrics.OtlpToMetrics | backend/src/metrics/model.rs:148-248 | The deepest loops, over numbers and histograms of each metric, compute the capped walk over its points, with their ids, correlation columns and receipt time |
| LogRows.JsonKeepsInside | backend/src/logs/model.rs:99-230 | Whatever a JSON export holds: no stored row is more than max_past_skew before its receipt or max_future_skew after it; up to the cap every record inside has its row, in order, with each column as the record, its scope and its resource say, and dropped_skew counts the others; above the cap one row too many is kept |
| LogRows.ProtoKeepsInside | backend/src/logs/grpc.rs:69-121 | The same for a protobuf export |
| PointRows.PointsKeepInside | backend/src/metrics/model.rs:138-316 | The same for the points of named metrics, gauges, sums and histograms in this order |
| LogRows.CorrelatedExactly | backend/src/otlp/mod.rs:12-59 | Tenant, actor and session are the first text that is not empty among their keys, in the record, and only if it has none, in its resource |
| StoredValues.StoredShows | backend/src/otlp/proto.rs:6-41 | The stored JSON shows the value that was sent, at any depth: numbers, texts and flags as they are, bytes in hexadecimal, of equal keys the last; doubles that are not finite and unknown variants as null |
| StoredValues.JsonStoredShows | backend/src/otlp/json.rs:75-121 | So does what the JSON intake stores, for portable values |
| StoredValues.HexDecodes | backend/src/otlp/proto.rs:45-52 | The hexadecimal text decodes to the bytes |
| StoredValues.NumbersAreRead | backend/src/otlp/json.rs:61-73 | By tolerance a number in place of a text is read, too: a fraction dropped, and what does not fit 64 bits cut off |
| StoredValues.TrimExactly | backend/src/otlp/json.rs:69-69 | The blanks around the text of a number all go, and nothing else does |
| Transport.ValuesAgreeExactly | backend/src/otlp/json.rs:75-101 | The JSON and protobuf encodings of a nested value are stored as the same JSON if and only if the value is portable: no negative integer and no non-empty bytes anywhere that counts |
| Transport.AttributesAgreeExactly | backend/src/otlp/proto.rs:31-41 | Attribute lists are stored alike if and only if the entry that counts for each key, the last, is portable |
| Transport.IntAgrees | backend/src/otlp/json.rs:61-73 | An integer survives the JSON encoding if and only if it is not negative |
| LogTransport.TransportsAgreeExactly | backend/src/logs/grpc.rs:68-121 | Up to a NULL against an empty text or a severity of 0: the two encodings of an export are stored as the same rows, in the same order, if and only if every record inside the skew window is portable, with its resource attributes and with ids in lower case; for printers that tell apart the two forms of a body |
| LogTransport.RowEqualExactly | backend/src/logs/grpc.rs:68-121 | Literally the same row, NULL apart from the empty text: if and only if the record is portable, its service is no empty text, and its JSON form names no empty severity text, no empty scope and no severity of 0 |
| LogTransport.TransportsEqualExactly | backend/src/logs/grpc.rs:68-121 | The same for whole exports: literally the same rows, in the same order, if and only if every record inside the window meets the stricter condition |
| LogTransport.TransportIndependence | backend/src/logs/grpc.rs:68-121 | With a cap, too, a portable export is stored alike over both transports, whatever the hash and the printer |
| LogIds.RecordIdsAgreeExactly | backend/src/logs/grpc.rs:68-121 | A record has the same log id over both transports if and only if its service name is the same text, its body and attributes are portable, and its ids are in lower case; for a hash and a printer that tell apart what they are given |
| LogIds.ServiceAgreesExactly | backend/src/logs/model.rs:121-128 | The service name is the same text if and only if it is not sent as bytes; other resource attributes do not matter |
| LogIds.RequestIdsAgreeExactly | backend/src/logs/grpc.rs:68-121 | All records of an export that are inside the window have the same ids over both transports if and only if each of them is as above |
| LogIds.CappedIds | backend/src/logs/grpc.rs:68-121 | The cap keeps equal ids equal, and the skew counts |
| LogIds.NegativeIntegerDiffers | backend/src/otlp/json.rs:75-82 | A record with the attribute -1 that has two different ids |
| DedupId.PreimagesAgreeExactly | backend/src/logs/model.rs:234-257 | For all records: the bytes hashed are the same if and only if the times are, and one text made of service, NUL, body, NUL, the two ids, the severity, NUL and the attributes |
| DedupId.TextsAgreeExactly | backend/src/logs/model.rs:234-257 | That text tells service, body, severity, attributes and the two ids put together, where they differ without a character that passes for the separator after them |
| DedupId.PreimageDecodes | backend/src/logs/model.rs:234-257 | With NUL-free service and body and ids of the standard lengths, the bytes are the same if and only if the whole keys are |
| DedupId.FreeIdsCollide | backend/src/logs/model.rs:249-250 | With ids of other lengths two different records have the same bytes: moving characters from one id to the other |
| DedupId.NulsCollide | backend/src/logs/model.rs:245-248 | With a NUL in service or body two different records have the same bytes |
| PointId.PointsAgreeExactly | backend/src/metrics/model.rs:319-356 | The bytes hashed for two points are the same if and only if their times, names, types, services, values, buckets and attributes are, where an absent number or text counts as 0 or empty; for texts without NUL where they differ |
| PointId.UnitsCollide | backend/src/metrics/model.rs:319-356 | Two points that differ only in their unit have the same id |
| PointId.LateTimesCollide | backend/src/metrics/model.rs:319-332 | An instant that does not fit 64 bits of nanoseconds counts as 0 |
| Alerts.AlertEngine.ProcessTransition | backend/src/alerting/eval.rs:187-241 | Updates one entry of the shared map as the transition function does: firing always, last_notified only when a notifier took the message |
| Alerts.AlertEngine.EvaluateGroupRule | backend/src/alerting/eval.rs:117-182 | The two loops leave the map of the function AfterGroupRule, and count the messages it sends; an error changes nothing |
| Alerts.AlertEngine.EvaluateCompositeRule | backend/src/alerting/eval.rs:58-88 | Any failing condition leaves everything as it was; otherwise all or any of the conditions decide |
| AlertGroups.FiringIsBreaching | backend/src/alerting/eval.rs:117-182 | After a successful evaluation the firing keys of the rule are exactly the groups that breached in it; vanished ones are resolved |
| AlertGroups.BreachesExactly | backend/src/alerting/rules.rs:165-174 | A number breaches as the comparator says, NaN never does |
| AlertGroups.CompositeCounts | backend/src/alerting/eval.rs:58-88 | A composite rule counts the conditions that are met: one is enough for any, and all are needed otherwise |
| AlertGroups.OtherKeysUntouched | backend/src/alerting/eval.rs:117-182 | No key outside the rule's own key space changes |
| AlertGroups.SharedKeyExactly | backend/src/alerting/eval.rs:141-165 | Two group rules share a key if and only if one prefix name:: extends the other |
| AlertGroups.IsolatedExactly | backend/src/alerting/eval.rs:117-182 | In every state, with every answer, clock and notifier, one rule leaves all keys of another as they are, if and only if neither prefix extends the other |
| AlertGroups.ColonFreeNamesApart | backend/src/alerting/eval.rs:141-165 | Distinct names without colons are enough |
| AlertGroups.ColonsCollide | backend/src/alerting/eval.rs:141-165 | With colons two rules do share a key: a concrete pair |
| AlertGroups.PassIsExact | backend/src/alerting/eval.rs:35-55 | After a pass over all rules, a key that no other rule of the pass uses fires exactly as its own rule breaches there, and stays as it was if that rule could not be computed |
| AlertGroups.NamedPassIsExact | backend/src/alerting/eval.rs:35-55 | Distinct names without colons are enough for that, for every rule and group |
| AlertRuns.CooldownApart | backend/src/alerting/eval.rs:187-241 | With a positive cooldown the i-th and j-th notification of a key are at least (j - i) cooldowns apart, also when the clock steps back |
| AlertRuns.FiringIsLastBreaching | backend/src/alerting/eval.rs:197-206 | firing is the last breaching value, notified or not |
| AlertRuns.NotifiesExactly | backend/src/alerting/eval.rs:187-241 | After any run the next evaluation is notified if and only if it changes the condition, a notifier takes it, and the last notification is no less than cooldown_secs ago |
| AlertRuns.NoCooldownSendsEdges | backend/src/alerting/eval.rs:200-241 | With cooldown 0 and delivered messages, the notifications are exactly the edges of the breaching sequence |
| AlertRuns.EdgesAlternate | backend/src/alerting/eval.rs:200-206 | The edges alternate, beginning with Firing, and their number tells whether the key fires |
| AlertRuns.SentAreEdges | backend/src/alerting/eval.rs:200-241 | No notification is ever sent without an edge |
| AlertRuns.SentIsSubsequence | backend/src/alerting/eval.rs:200-241 | In order, too: the notifications are a subsequence of the edges |
| AlertRuns.AlternatesExactly | backend/src/alerting/eval.rs:211-222 | Notifications that are all delivered alternate in all runs if and only if there is no cooldown |
| AlertRuns.ResolutionSwallowed | backend/src/alerting/eval.rs:211-222 | For every positive cooldown, a run in which two Firing messages follow each other |
| AlertEngineRuns.KeyFollowsRun | backend/src/alerting/eval.rs:35-182 | Over whole passes of the engine, with groups that come and go and rules that fail, the entry of a key is that of the run of what the passes say about it |
| AlertEngineRuns.CooldownInEngine | backend/src/alerting/eval.rs:35-241 | Over whole passes of the engine two notifications of a key are at least the cooldown of its rule apart |
| AlertEngineRuns.ReportsNotes | backend/src/alerting/eval.rs:117-182 | The number of messages that a group rule reports as sent is the number of keys it notified, vanished groups included |
| AlertEngineRuns.NamesOwnKeys | backend/src/alerting/eval.rs:141-165 | With distinct names without colons every key belongs to one rule |
| Sdk.EventQueue.Enqueue | sdks/typescript/src/queue/index.ts:32-39 | Appends the event after dropping the oldest that are over the limit, and answers these |
| Sdk.EnqueueBounds | sdks/typescript/src/queue/index.ts:32-39 | An enqueue leaves min(size + 1, max(1, maxSize)) entries, the new one last and before it the newest in order, also after requeues exceeded the limit |
| Sdk.EventQueue.Dequeue | sdks/typescript/src/queue/index.ts:44-46 | Takes the first n, or all, from the front, and keeps the rest in order |
| Sdk.EventQueue.Requeue | sdks/typescript/src/queue/index.ts:52-54 | Puts the items in front of the queue |
| Sdk.DatacatClient.DoTrack | sdks/typescript/src/client/index.ts:401-436 | Enqueues the event and reports what the queue dropped for it |
| Sdk.DatacatClient.DrainDueRetries | sdks/typescript/src/client/index.ts:98-114 | The two loops move exactly the due groups to the front of the queue, the last one due foremost, and keep the others in order |
| Sdk.DatacatClient.SendBatch | sdks/typescript/src/client/index.ts:208-256 | Settles a batch by its answer: delivered, refused, split into retried and abandoned, or lost when there was no token |
| Sdk.DatacatClient.SplitFailed | sdks/typescript/src/client/index.ts:219-231 | The loop splits a failed batch, in order, into the items that have a retry left, counted up, and the events that are given up |
| Sdk.DatacatClient.DoFlush | sdks/typescript/src/client/index.ts:260-269 | Terminates for batchSize >= 1 and sends everything due or queued, ended early only by a missing token |
| Sdk.DatacatClient.BeaconFlush | sdks/typescript/src/client/index.ts:289-356 | Sends what is due or queued once more and leaves the queue empty |
| Sdk.AllSent | sdks/typescript/src/client/index.ts:260-269 | A flush that is given its tokens leaves the queue empty: failures go to the schedule |
| SdkRuns.ExactlyOnePlace | sdks/typescript/src/client/index.ts:98-356 | Under every interleaving of tracking, any number of flush loops, retries and beacons, each tracked event is in exactly one place or has exactly one end, and an event not tracked in none |
| SdkRuns.StepConserves | sdks/typescript/src/client/index.ts:98-356 | Only tracking adds an occurrence of an event; every other step moves it |
| SdkFates.EndsExactly | sdks/typescript/src/client/index.ts:98-356 | Which end it is: under every interleaving an event is delivered if and only if a batch or a beacon that held it was acknowledged, rejected by a refusal, lost for want of a token, abandoned by a failure at its last attempt, beaconed by a beacon that failed, overflowed when a track found it not among the newest maxQueueSize - 1 |
| SdkFates.FailureReschedules | sdks/typescript/src/client/index.ts:216-246 | In every reachable state a failure schedules exactly the events of the batch that may be sent again, in one group, due after the seconds of the Retry-After, or else after min(100 * 2^m, 30000) ms, m being the attempts of its least tried event |
| SdkFates.BackoffDoubles | sdks/typescript/src/client/index.ts:35-38 | The wait starts at 200 ms and doubles up to 30 seconds |
| SdkFates.RetriesGoFirst | sdks/typescript/src/client/index.ts:98-114 | Of two groups that are due the one scheduled later goes to the front of the queue, and both go before what was queued |
| SdkFates.PendingKeepsOrder | sdks/typescript/src/client/index.ts:98-114 | What is not due keeps its order in the schedule |
| SdkFates.BatchesAreChunks | sdks/typescript/src/client/index.ts:260-269 | The i-th batch of a flush is the i-th part of the queue, each of batchSize events except the last |
| SdkFates.BeaconTakesDue | sdks/typescript/src/client/index.ts:289-295 | A beacon takes everything that is queued or due, and leaves exactly what is not due |
| SdkFates.UnloadIsRun | sdks/typescript/src/client/index.ts:289-356 | What the beacon method computes is one of the interleavings |
| SdkRetries.AttemptsAreBounded | sdks/typescript/src/client/index.ts:216-246 | Under every interleaving an event is sent in at most max(1, maxRetries) batches, an abandoned one in exactly as many, and the retry count of an item is its number of attempts |
| SdkRetries.HeldUntilDue | sdks/typescript/src/client/index.ts:98-114 | A scheduled retry stays scheduled, whatever else happens, until a flush reads a clock past its time |
| SdkRetries.StuckExactly | sdks/typescript/src/client/index.ts:98-114 | A scheduled retry stays in the schedule in every continuation if and only if its time is NaN or plus infinity |
| SdkRetries.HeaderSticksExactly | sdks/typescript/src/client/index.ts:191-197 | On the parsed Retry-After: a batch that has retries left is stuck if and only if the header is NaN or plus infinity, or so large that the delay or the instant overflows |
| SdkRetries.DueIsQueued | sdks/typescript/src/client/index.ts:98-114 | A flush that reads a clock past its time takes a retry out of the schedule and puts all its items in the queue |
| SdkRetries.DateIsForever | sdks/typescript/src/client/index.ts:191-197 | A Retry-After that is a date becomes NaN, so that the batch is scheduled and stays so in every continuation: neither sent nor reported |
| SdkRetries.FlushIsRun | sdks/typescript/src/client/index.ts:260-269 | What the flush method computes is one of the interleavings that these theorems cover |

## Left out

- RetryAfterSuffices.SessionRetrySucceeds: delays below 2^64 - 1 seconds, where the cast to u64 does not saturate, and a session that is tracked or finds room; a full map answers 1 second whatever the wait.
- Admission.DecisionExactly: runs whose prunes forget sessions before they refill; such a session starts again with a full bucket, as the run of `PruneExact` shows.
- LogsIntake.ChargesSubmitted: a cap of 2^32 records and more, where the cast to u32 wraps (LogsIntake.CostIsSubmittedExactly).
- GuardDetection.DetectsExactly: runs that evict the window that counts are in GuardDetection.SureToBanExactly instead.
- Pipeline.AtMostOnce: one server with a clock that never steps back, one writer, and ids that are never reused.
- LogIds.RecordIdsAgreeExactly: for a hash without a collision on the two forms of the record, and a printer that prints different values differently.
- Negative rates, bursts and durations, and a channel of capacity 0, which the runtime refuses.
- Rounding of f64: rates, tokens and burst sizes are exact reals.
- Races between threads: each call on the limiter and the guard is one step, so the bounds of the maps are not claimed for racing callers.
- SQL text, locking and the other internals of PostgreSQL; a statement has its whole effect or none. Nanoseconds that PostgreSQL rounds to microseconds, and the end-of-data marker of COPY.
- `flushPromise` of the client: it only limits how many loops run at once, and the theorems allow any number.
- The cache of the token manager, and the second request after a 401: they are part of one attempt.
- The trace flattener: a near copy of the log flattener.
- Transport.ValuesAgreeExactly: exports with a double that is not finite, which the JSON intake refuses as a whole and the gRPC one stores as null.
- PointId.PointsAgreeExactly: the values that are not finite are one value, and so are 0.0 and -0.0.
- Persistence.LogTextInjective: how the libraries print ids, instants, floats and JSON; asked is that two values at hand print differently when they differ.
- Scalar rules other than through the breaching value they compute, message texts, and the SQL of the rules.
- The exporter, the reader, companions, configuration, and the HTTP and gRPC servers.
- Counters wrap at 2^64 in the source and do not here.
