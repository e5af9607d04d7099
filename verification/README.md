# Metrify, modelled and proved in Dafny

Metrify collects runtime metrics. An agent polls them, queues them in a bounded
channel and sends them over HTTP or gRPC; a server keeps them in two maps, with a
journal in Postgres and a snapshot file. The repository also has two tools: an
analyzer that forbids calls of named functions, and a generator of `Reset` methods.

`dafny verify dfyconfig.toml` checks the whole project.

## Modules

| file | what it models |
|---|---|
| `Options`, `Lists` | an optional value and facts about lists |
| `Numbers`, `Updates` | int64 with wrap-around, floats with NaN and infinities, and what a list of updates does to the two maps |
| `RetryLoops` | what the two retry loops do against any outcomes |
| `Storage` | `MemStorage` as a class, with its database, its snapshot file and the histories of its calls |
| `ServerRuns`, `ServerTheorems`, `ServerJournal`, `ServerForeign` | runs of the server process: locks, interleaved updates, saves, reads and flushes |
| `ServerRecovery`, `ServerLives`, `ServerStop` | crashes, restarts and the graceful stop |
| `ServerRequests`, `ServerSync` | requests as runs, and when the snapshot of interval zero is current |
| `ServerProgress` | when a request or a flush can start, that it can be carried through, and that there is no deadlock |
| `Transports` | the HTTP handlers, the gRPC client and the gRPC service as classes |
| `Delivery` | the HTTP client's retries over a link that loses requests and answers |
| `Agent`, `AgentConservation`, `AgentShutdown`, `AgentPolls` | the agent's collectors and senders around the channel |
| `AgentSteps`, `AgentTicks`, `AgentDrains` | what each goroutine of the agent waits for, and whole ticks and whole reports as runs |
| `AgentCalls`, `AgentReports` | the client calls of a run, and those calls over that link, up to the server's counter |
| `Lexicographic`, `GoAst`, `NoCall`, `ResetGen`, `ResetOutput` | the two tools over Go syntax trees |

Objects whose methods update fields are classes; their methods are proved against
functions of the old state, and the laws are lemmas about those functions. The two
concurrent programs are step systems: a state, the steps that are enabled in it,
and the next state. A run is any sequence of enabled steps, so a lemma about
`Reachable` states or about `After(s, run)` covers every interleaving.

### Steps of the agent (`Agent.Enabled`, `Agent.Next`)

| steps | cmd/agent/main.go |
|---|---|
| `TickRuntime`, `SendRuntimeGauge`, `CountPoll`, `SendPollCount`, `StopRuntime` | the select, the range over the gauges, the increment, the send of `&pollCounter`, the return: 84-104 |
| `TickGopsutil`, `SendGopsutilGauge`, `StopGopsutil` | 115-129 |
| `TickSender`, `StopSender` | the select of a sender: 141-146 |
| `Receive`, `DrainDone`, `DrainClosed` | one receive, the default case, the closed channel, in both drain loops: 150-183 |
| `Serialise`, `CallReturns` | inside a client call: the body is made from the messages one by one, then the call ends: 156, 164, 177 |
| `Signal`, `Close` | 68-71 |

A send is enabled while the channel has room. After the close it would be enabled
and panic; that no reachable state panics is a theorem.

### Steps of the server (`ServerRuns.Enabled`, `ServerRuns.Next`)

| steps | source |
|---|---|
| `SkipRestore`, `RestoreLock`, `RestoreGauges`, `RestoreCounters`, `RestoreUnlock` | cmd/server/main.go:60-64, internal/service/storage.go:75-92 and 111-119 |
| `Lock`, `Load`, `Put`, `Save`, `Unlock` | one update under the write lock, the read of the old counter, the map write and the row apart: internal/service/storage.go:57-73 and 131-143 |
| `FlushLock`, `EncodeGauges`, `EncodeCounters`, `FlushUnlock`, `Write` | the snapshot is encoded under the read lock and written after it: internal/service/storage.go:94-109 and 121-129 |
| `GetLock`, `GetRead`, `GetUnlock` | internal/service/storage.go:39-55 |
| `Crash` | the process ends at any point; a write under way may leave half a file |

## What a reader may not expect

- PollCount is sent as a running total, through one shared address, and the server
  adds it up. After two polls its counter is too high even if every message is
  applied exactly once (`AgentPolls.PollCountIsRightOnlyOnce`); with p polls before the
  first report it is p * p (`AgentPolls.LatePollsCountSquares`).
- After the signal, `main` waits for collectors that may wait for a slot in a full
  channel no sender empties any more. The close can be reached exactly if a sender
  still lives or the pending sends fit (`AgentShutdown.ClosesIffSendsFit`), and for
  every set of gauges, number of senders and mode there is a run in which neither
  holds (`AgentShutdown.ShutdownCanHang`).
- `RetryDB` with `attempts = 3` makes at most two calls
  (internal/service/retry.go:37), so a save is given up after one retry.
- `UnmarshalJSON` replaces the maps under the read lock
  (internal/service/storage.go:81). Only the start-up order keeps it apart from
  readers (`ServerTheorems.StartUpOrderIsNeeded`).
- A snapshot file that holds `null` leaves both maps nil for the whole life of the
  process: every update panics, and a flush writes `null` maps again
  (`ServerForeign.ForeignFilePanics`).
- With interval zero two overlapping requests can leave the older snapshot in the
  file although both writes succeeded: the file is sure to be current only with one
  request at a time (`ServerSync.SyncFlushIsFreshIffOneAtATime`).
- With interval zero batch, plain-text and gRPC updates never reach the file by
  themselves. Even one of them alone leaves it behind, until the next single-metric
  request (`ServerSync.OtherUpdatesNeverFlush`,
  `ServerSync.BatchUpdateLeavesTheFileBehind`).
- With a positive interval the last flush happens at the cancel, while the HTTP server
  goes on for up to five seconds (cmd/server/main.go:132-140, 165-167). An update
  answered in that time is lost (`ServerStop.GracefulStopLosesTheLateUpdates`).
- The single-metric handler drops database errors (internal/handler/handler.go:162-166).
- The server's gRPC branch registers the service but never serves
  (cmd/server/main.go:80-93); the service is modelled as its method defines it.
- The HTTP client's timeout is `SetTimeout(8)`, eight nanoseconds
  (internal/agent/httpClient.go:30). An attempt normally expires before it is sent
  and is lost; the model leaves the fate of every attempt open.
- A gauge that is not finite is answered by `POST /value/` with 200 and an empty
  body (internal/handler/handler.go:132-136).
- The generator's dedup starts from the empty name, so it would drop a type without
  a name (cmd/reset/main.go:161-168); no parsed file has one.

## Model

| member | source | states |
|---|---|---|
| Numbers.WrapAbsorbs | internal/service/storage.go:70 | int64 addition that wraps at each step ends where wrapping once at the end does |
| Numbers.WrapIsTheOnly | internal/service/storage.go:70 | the wrapped value is the only int64 congruent to the exact sum modulo 2^64 |
| Updates.CounterFold | internal/service/storage.go:66-73 | after any updates a counter is the wrap of its first value plus all its deltas, and it exists iff it did or was counted |
| Updates.CounterExact | internal/service/storage.go:66-73 | it is the exact sum iff that sum fits into int64, whatever overflowed on the way |
| Updates.CountersOrderFree | internal/service/storage.go:66-73 | two orders of the same updates leave the same counters |
| Updates.LastIndex | internal/service/storage.go:57-64 | the index of the last write of a gauge, -1 iff there is none |
| Updates.GaugeIsLastWrite | internal/service/storage.go:57-64 | a gauge is its last write, or unchanged without one |
| RetryLoops.RetryIsDetermined | internal/service/retry.go:11-29 | the outcomes of the calls fix the number of calls, the sleeps and the answer of Retry |
| RetryLoops.RetryDBIsDetermined | internal/service/retry.go:31-60 | the same for RetryDB, which also stops at the first error that is not retryable and makes at most max(0, attempts - 1) calls |
| RetryLoops.RetryFindsFirstSuccess | internal/service/retry.go:17-28 | Retry returns the first success iff it comes within the attempts, with no call after it; otherwise max(0, attempts) calls were made |
| RetryLoops.RetryDBFindsFirstSuccess | internal/service/retry.go:37-59 | RetryDB returns it iff it comes before the last attempt and every failure before it is retryable; otherwise it stops at the first that is not, or after max(0, attempts - 1) calls |
| RetryLoops.TotalSleep | internal/service/retry.go:23-25 | k slept failures take k*base + step*k*(k-1)/2 together |
| RetryLoops.DelaysAt | internal/service/retry.go:23-25 | the i-th sleep takes base + step*i |
| RetryLoops.RetryGivesUp | internal/service/retry.go:11-29 | when Retry gives up it returns the last failure, wrapped, and has slept after every failure |
| RetryLoops.RetryDBGivesUp | internal/service/retry.go:31-60 | when RetryDB gives up it returns a failure that is not retryable as it is, without a sleep after it, and otherwise the last one, wrapped |
| Storage.RetryDB | internal/service/retry.go:31-60 | the loop around Exec meets the account of RetryDB, and exactly a returned success leaves one row |
| Storage.MemStorage.constructor | internal/service/storage.go:21-29 | both maps exist and are empty |
| Storage.MemStorage.GetCounter | internal/service/storage.go:39-46 | the counter and whether it exists; zero when it does not, also for a nil map |
| Storage.MemStorage.GetGauge | internal/service/storage.go:48-55 | the same for gauges |
| Storage.MemStorage.SaveDB | internal/service/storage.go:131-143 | one or two Execs, the second iff the first failed with SQLSTATE 08006, 53300 or 40P01; which error comes back is decided by the database; a row iff none; it sleeps one second before the second Exec and three more after a second such failure; nothing without a database |
| Storage.MemStorage.UpdateGauge | internal/service/storage.go:57-64 | the gauge is set in memory even if the save fails; the row is there iff no error is returned; a nil map panics and changes nothing |
| Storage.MemStorage.UpdateCounter | internal/service/storage.go:66-73 | the same with the wrapped sum |
| Storage.MemStorage.UnmarshalJSON | internal/service/storage.go:75-92 | both maps become what the document decodes to, even when an error is returned; one made from two maps gives exactly those back, without error |
| Storage.MemStorage.MarshalJSON | internal/service/storage.go:94-109 | fails exactly when a gauge is not finite; otherwise the document decodes to both maps |
| Storage.MemStorage.ReadFromFile | internal/service/storage.go:111-119 | a missing or malformed file is an error and changes nothing; any other replaces both maps |
| Storage.MemStorage.FlushToFile | internal/service/storage.go:121-129 | with a gauge that is not finite the file is untouched and an error returned; otherwise it holds the encoding iff the write succeeds |
| Storage.SnapshotRoundTrip | internal/service/storage.go:75-109 | encoding succeeds iff every gauge is finite, and decoding gives both maps back, nil ones as nil |
| Storage.FlushThenRead | internal/service/storage.go:111-129 | a flush succeeds iff every gauge is finite and the write does; reading the file then, by the same store or another, restores both maps exactly, and without success no map changes |
| Storage.Session | internal/service/storage.go:39-73 | any calls leave the replay of their updates, and each Get was answered from the replay of the updates before it |
| Storage.ToldAt | internal/service/storage.go:39-55 | what that says of the i-th answer |
| Storage.PerformAll | internal/service/storage.go:57-73 | any updates leave their replay in the maps and one row for each successful save in the journal, in that order; which saves succeed is decided by the database |
| Storage.HealthySaves | internal/service/storage.go:131-143 | a database that never fails has one Exec and no error for each save |
| Storage.RowsOfAll | internal/service/storage.go:131-143 | and then the journal grows by exactly the rows of the updates, in order |
| Storage.RowsAccountForDeltas | internal/service/storage.go:66-73 | row sum plus unsaved deltas grow by exactly the deltas |
| Storage.JournalMatchesCounter | internal/service/storage.go:66-73 | counter minus first value equals the growth of the row sum plus failed deltas modulo 2^64 |
| Storage.JournalMatchesGauge | internal/service/storage.go:57-64 | a gauge whose last update was saved has in the map the value of its last row |
| ServerRuns.StepKeepsInv | internal/service/storage.go:39-129 | every step keeps: lock discipline, maps equal to the replay of the log, every document on its way to the file the image of a prefix, every answer the fold at its lock |
| ServerRuns.RunKeepsInv | cmd/server/main.go:60-98 | so does every run, with crashes and restarts |
| ServerRuns.PutShape | internal/service/storage.go:57-73 | the map write under the lock adds to the counter value that is still the current one: no update is lost between read and write |
| ServerTheorems.MapAccessIsExclusive | cmd/server/main.go:60-98 | in every run no map write, by a handler or by restore, overlaps another map access |
| ServerTheorems.StartUpOrderIsNeeded | internal/service/storage.go:81-89 | were a reader started before restore is over, restore would replace the maps while it reads |
| ServerTheorems.LockHoldersCanMove | internal/service/storage.go:39-109 | a goroutine that holds the lock always has a step |
| ServerTheorems.MapsAreTheFold | internal/service/storage.go:57-73 | in every interleaving the maps are the replay of the updates in lock order, counters their wrapped sums |
| ServerTheorems.CounterAnswersAreTheFold | internal/service/storage.go:39-46 | each GetCounter answers with the fold of the prefix of that order that its answer records |
| ServerTheorems.GaugeAnswersAreTheFold | internal/service/storage.go:48-55 | each GetGauge answers with the last write of that prefix |
| ServerTheorems.GetAnswersAsOfItsLock | internal/service/storage.go:39-55 | that prefix is all updates up to the lock of the Get: whatever others do until the read, it answers with the memory as it was when it took the lock |
| ServerTheorems.AnswersNeverGoBack | internal/service/storage.go:39-55 | a later answer of a process never comes from a shorter prefix |
| ServerTheorems.MapsAreNeverNil | internal/service/storage.go:75-92 | over all runs that restore only files this program wrote, neither map is ever nil |
| ServerForeign.StepStaysNil | internal/service/storage.go:57-109 | every step of a life keeps which maps are nil, in memory and in what is on its way to the file |
| ServerForeign.ForeignFilePanics | internal/service/storage.go:75-92 | in the whole life after restoring any file: a map is nil iff the file has no object for it, exactly the updates of a nil map panic and none is ever stored, and what a flush writes has again no object for it |
| ServerTheorems.FileIsAPrefix | internal/service/storage.go:94-129 | in every interleaving the file is the memory after some prefix of the updates, and the rest of them leads to the memory now |
| ServerTheorems.DumperNeverGoesBack | cmd/server/main.go:155-174 | with a positive interval that prefix never gets shorter while the process lives, whenever the file holds a snapshot |
| ServerTheorems.NoFlushKeepsTheFile | cmd/server/main.go:155-158 | with a negative interval nothing ever changes the file |
| ServerTheorems.WhoFlushes | cmd/server/main.go:116-125 | by the sign of the interval only the dumper, only handlers, or nobody has bytes on their way to the file |
| ServerSync.OtherUpdatesNeverFlush | internal/handler/handler.go:168-174 | and of the handlers only that of single metrics: with interval zero no run of other updates, crashes included, ever changes the file |
| ServerJournal.StepKeepsJournal | internal/service/storage.go:57-73 | every step keeps: the journal is the old one plus a row for each successful save, in lock order, at most the newest update unsaved |
| ServerJournal.JournalIsTheSavedUpdates | internal/service/storage.go:57-73 | so it is in every reachable state: exactly one row for each save that succeeded, none for one that failed |
| ServerJournal.JournalMatchesMemory | internal/service/storage.go:57-73 | in every interleaving, whenever the lock is free, a counter's change equals the growth of its row sum plus its failed deltas modulo 2^64 |
| ServerJournal.GaugeJournalMatchesMemory | internal/service/storage.go:57-64 | and a gauge whose last update was saved has in memory the value of its last row |
| ServerJournal.RowsOnlyGrow | internal/service/storage.go:131-143 | no step and no crash removes or changes a row |
| ServerRecovery.RestartBringsBackTheLastWrite | cmd/server/main.go:60-64 | after a crash at any point the next process serves from the state marshalled for the last successful write, and from nothing if there is none or the file was torn |
| ServerRecovery.RestartLosesTheRest | cmd/server/main.go:60-64 | the lost updates are exactly those after that marshal |
| ServerRecovery.StartUpReachesServing | cmd/server/main.go:60-66 | start-up always reaches serving |
| ServerStop.StepOfLastFlush | cmd/server/main.go:165-167 | every step after the dumper took the lock for its last flush keeps: memory untouched until the lock is free, then only longer, and the file untouched until the write |
| ServerStop.FileAfterTheLastFlush | cmd/server/main.go:132-167 | after the last flush of a graceful stop: it writes iff the gauges were finite at its lock, and if that write succeeds the file is current at the end iff the updates since the lock changed nothing |
| ServerStop.GracefulStopLosesTheLateUpdates | cmd/server/main.go:132-167 | the next process then begins with the memory of that lock: whatever was updated and answered later is lost |
| ServerProgress.RequestsStartWhenTheLockIsFree | internal/service/storage.go:39-73 | whatever the interval an update can start iff nobody holds the lock, a Get iff nobody writes |
| ServerProgress.DumperFlushesWhenTheLockIsFree | cmd/server/main.go:155-172 | the idle dumper can flush iff the interval is positive and nobody writes, whatever was updated before |
| ServerProgress.HandlerFlushesWhenTheLockIsFree | internal/handler/handler.go:168-174 | a handler that has to flush can iff nobody writes |
| ServerProgress.NobodyStartsEarly | cmd/server/main.go:60-98 | before restore is over only restore itself has steps |
| ServerProgress.WholeUpdate | internal/service/storage.go:57-73 | from every state with a free lock an update can be carried through alone: it is the newest, its row is there iff its save succeeds, and what remains is a flush iff the interval is zero and it came to the single-metric handler |
| ServerProgress.WholeGet | internal/service/storage.go:39-55 | and so can a Get, which answers with the memory and changes nothing else |
| ServerProgress.AnyFlush | internal/service/storage.go:94-129 | and a flush: with finite gauges and a successful write the file is current, with a gauge that is not finite it is untouched |
| ServerProgress.DumperBringsTheFileUpToDate | cmd/server/main.go:165-170 | from every state in which nobody writes the dumper alone can make the file current, if the gauges are finite |
| ServerProgress.ComesToRest | cmd/server/main.go:66-98 | there is no deadlock: from every serving state, once no request comes in, everybody can finish |
| ServerProgress.DumperCatchesUp | cmd/server/main.go:155-172 | so with a positive interval the file can always be made current again, but for a gauge that is not finite |
| ServerProgress.CrashAndRestart | cmd/server/main.go:60-64 | after a crash in any serving state the next process gets to serving, with the memory of the last successful write or with nothing |
| ServerLives.StepKeepsPast | cmd/server/main.go:60-64 | every step keeps: what the process began with, or would begin with now, is the replay of the updates that survived all earlier lives |
| ServerLives.MemoryIsTheSurvivors | cmd/server/main.go:60-64 | after any run with any number of crashes the memory is the replay of exactly the surviving updates of each earlier life, those before its last successful marshal, and all of the present one |
| ServerLives.BaseIsFirstOrEmpty | cmd/server/main.go:60-64 | that replay starts from the first file or from nothing |
| ServerSync.FileIsCurrentMeans | internal/service/storage.go:121-129 | the file holds exactly the memory iff the updates after its marshal changed nothing, so it does when there are none |
| ServerSync.SyncFlushFollowsTheLastRequest | internal/handler/handler.go:148-181 | with interval zero and requests one by one, of any kind and with any fate of their writes, whenever none is under way: without a request nothing has changed, and after requests the file is up to date iff the last one came to the single-metric handler, all gauges were finite and its write succeeded |
| ServerSync.SyncFlushIsFreshIffOneAtATime | internal/handler/handler.go:168-174 | from any reachable rested state whose file is current, finite single-metric requests with successful writes, at most n at once and with any Gets between, always end with a current file iff n is at most one |
| ServerSync.SomeStateIsRested | internal/handler/handler.go:168-174 | such states are reachable |
| ServerSync.BatchUpdateLeavesTheFileBehind | internal/handler/handler.go:192-220 | from each of them any one batch update alone leaves the file as it was, and so no longer current unless it changed nothing |
| ServerSync.SyncFlushCanEndStale | internal/handler/handler.go:168-174 | from any unlocked state two overlapping requests, of counters or finite gauges, can end with the file one update behind, both writes successful |
| ServerSync.OverlapEndsBehind | internal/handler/handler.go:168-174 | if that state is reachable so is the end, and its file is current iff the second update changed nothing |
| Transports.MetricFromProto | internal/rpc/server.go:75-106 | exactly a metric with an id and a known type is accepted, and what is accepted converts back to what was read of it |
| Transports.WireRoundTrip | internal/agent/grpc_client.go:103-131 | over whole batches: conversion succeeds only for well-typed metrics, keeps their type, and the server reads all back, without hash and unused payload, iff no id is empty |
| Transports.GRPCClient.UpdateMetrics | internal/agent/grpc_client.go:61-87 | one metric that does not convert and nothing is sent; otherwise one request with all of them in order, without retry |
| Transports.GRPCClient.UpdateMetric | internal/agent/grpc_client.go:57-59 | the same for one metric |
| Transports.StoreOne | internal/handler/handler.go:162-166 | anything but a gauge counts as a counter; a missing payload panics and saves nothing; otherwise the save is made and fails iff the database fails it |
| Transports.Handler.UpdateMetrics | internal/handler/handler.go:148-181 | 400 iff both payloads are missing, 200 even if the save fails; the row is there iff the database takes it; with sync flushing the file then holds the new maps if they can be encoded and the write succeeds |
| Transports.Handler.UpdateMetricsBatch | internal/handler/handler.go:192-237 | applies every metric up to the first that panics, collects in order exactly the errors of the saves that the database fails, and answers 200 iff there are none; with a database that never fails there is one row for each metric, in order |
| Transports.ErrorsInOrder | internal/handler/handler.go:204-220 | the error of a failed save is in the list after exactly those of the failed saves before it |
| Transports.Handler.GetMetrics | internal/handler/handler.go:103-137 | 404 iff the metric is unknown, else the request with the stored value, or an empty body where that value is not finite |
| Transports.HttpServeStore | internal/handler/handler.go:204-220 | database errors do not change what the batch handler does to the maps |
| Transports.HttpServeRows | internal/handler/handler.go:204-220 | the journal grows by the rows of the metrics whose saves did not fail, in order |
| Transports.HandledUpToMeans | internal/handler/handler.go:204-220 | which metrics are handled before a panic |
| Transports.StoreWireMetric | internal/rpc/server.go:53-69 | one metric of a request: invalid ones change and save nothing; otherwise the answer is Internal iff the database fails the save, which changes the map but adds no row |
| Transports.ValidUpToMeans | internal/rpc/server.go:52-56 | a prefix is served only if all its metrics are valid |
| Transports.MetricsService.UpdateMetrics | internal/rpc/server.go:42-73 | the maps hold exactly the prefix before the invalid metric, or the prefix with the metric whose save the database failed; the reply tells which, and every save before succeeded |
| Transports.WireServeStore | internal/rpc/server.go:52-70 | what the served prefix does to the maps |
| Transports.HttpEffect | internal/handler/handler.go:192-220 | a proper batch never panics and is applied in full whatever the database does |
| Transports.GrpcEffect | internal/rpc/server.go:52-70 | a proper batch is applied up to the first failed save, that one included, in full on success |
| Transports.SendSingly | internal/handler/handler.go:148-181 | the single-metric handler in sequence leaves the replay of the batch, whatever becomes of its writes |
| Transports.SendByRpc | internal/agent/grpc_client.go:61-87 | client conversion and service together leave the replay of a prefix, of all of the batch on success, as always with a database that never fails |
| Transports.ThreeTransports | internal/handler/handler.go:148-237 | the same proper batch by three transports: both HTTP ways always leave the same maps, and so does gRPC when it answers without error, as it always does without a database or with one that never fails |
| Transports.PostThenAsk | internal/handler/handler.go:103-181 | a metric posted to /update/ is what /value/ answers next: the gauge as it was sent, the counter with the delta added |
| Transports.RpcThenAsk | internal/rpc/server.go:42-106 | the same for a metric sent over gRPC, also when its save failed |
| Delivery.Link.Post | internal/agent/httpClient.go:89-91 | one attempt is applied during the attempt or never, and what the client sees is what the handler answered, or an error |
| Delivery.AttemptsBound | internal/agent/httpClient.go:89-91 | no more attempts arrive than are made, and an answer 200 shows an arrival |
| Delivery.Retry | internal/service/retry.go:11-29 | the loop meets the account of Retry and leaves the body handled once for each attempt that arrived |
| Delivery.SendRequest | internal/agent/httpClient.go:63-101 | a call goes on until an attempt is answered or maxRetry are made, sleeping 1, 3, 5 and more seconds after the failures, and succeeds iff the last one was answered 200; then it was applied 1 to maxRetry times, otherwise 0 to maxRetry times |
| Delivery.FatesDecide | internal/agent/httpClient.go:89-101 | what happens to the requests decides a call: it succeeds iff the first attempt that is answered is within its attempts and reached the handler, no attempt follows it, and all are made if there is none (for a batch, if no save fails) |
| Delivery.ResponsiveSucceeds | internal/service/retry.go:17-28 | over a link that turns nothing away and answers one of any three attempts every call succeeds |
| Delivery.SendAll | internal/agent/httpClient.go:42-61 | a sequence of calls, each made as SendRequest makes it and where the one before ended, leaves each body applied that often, in order, never more than three times |
| Delivery.DeliveredIs | internal/agent/httpClient.go:42-61 | that store is the replay of the expanded list of updates |
| Delivery.DeliveredCounter | internal/agent/httpClient.go:63-101 | a counter ends as the wrapped sum of delta times applications |
| Delivery.RetriesInflate | internal/agent/httpClient.go:63-101 | with non-negative deltas a counter grows by at most maxRetry times what exactly-once delivery adds, and by at least that if no call is lost |
| Delivery.DeliveredGauges | internal/agent/httpClient.go:63-101 | if every call is applied at least once the gauges end as if each had been applied exactly once |
| AgentConservation.StepIsAChange | cmd/agent/main.go:74-186 | every step of the agent sends, takes, hands over or switches without touching where other messages are |
| AgentConservation.StepKeepsInv | cmd/agent/main.go:74-186 | every step keeps conservation and each sender's order |
| AgentConservation.Conservation | cmd/agent/main.go:29-186 | in every interleaving of the collectors and any number of senders: messages handed over, held by senders and in the channel are together the messages sent, each once; at most 1000 wait, and those are the newest |
| AgentConservation.SendersKeepOrder | cmd/agent/main.go:132-186 | each sender takes a subsequence of the send order and hands over a prefix of it |
| AgentConservation.OneSenderIsFifo | cmd/agent/main.go:132-186 | with one sender, handed over, held and channel are exactly the send order |
| AgentSteps.RuntimeMoves | cmd/agent/main.go:84-104 | the runtime collector can go on iff it has not returned and its next step is no send into a full channel; it returns only from its select, and only after the signal |
| AgentSteps.GopsutilMoves | cmd/agent/main.go:115-129 | the same for the other collector |
| AgentSteps.SenderMoves | cmd/agent/main.go:141-183 | a sender that has not returned can always go on |
| AgentSteps.SenderChooses | cmd/agent/main.go:141-183 | a drain receives iff the channel has something, takes the default case iff it is empty and open, and the other iff it is empty and closed; the select stops a sender only after the signal |
| AgentSteps.MainMoves | cmd/agent/main.go:68-71 | main cancels once, and closes iff both collectors have returned, whatever the senders do |
| AgentSteps.NobodyReturnsBeforeTheSignal | cmd/agent/main.go:61-71 | before the signal all goroutines are at work |
| AgentTicks.WholeTick | cmd/agent/main.go:88-102 | with room in the channel a tick sends the gauges in the order of the range and then PollCount, having counted the poll |
| AgentTicks.OtherTick | cmd/agent/main.go:119-128 | a tick of the other collector sends the gauges and no PollCount |
| AgentDrains.DrainEnds | cmd/agent/main.go:150-168 | a drain that ends is over, and its client call, if it took anything, is for exactly what it took, in order |
| AgentDrains.WholeReport | cmd/agent/main.go:141-183 | from every reachable state a sender in its select can by itself empty the channel and be in its select again, or return if the channel is closed; with a batch by exactly one client call with the whole channel in order, none if it is empty, and without by one call for each message |
| AgentShutdown.NeverSendsAfterClose | cmd/agent/main.go:68-71 | no reachable state panics on the closed channel, sends to it or closes it twice |
| AgentShutdown.QuietStep | cmd/agent/main.go:74-130 | with the senders gone every step but a tick uses up one of the remaining steps and leaves it open or not whether the pending sends fit |
| AgentShutdown.ShutdownCompletesIffSendsFit | cmd/agent/main.go:68-71 | after the signal, with no live sender and no further tick, every run ends, and where it ends the channel is closed iff the pending sends fitted into the free slots |
| AgentShutdown.OverfullNeverCloses | cmd/agent/main.go:70-71 | if they do not fit, no run at all closes the channel |
| AgentShutdown.LiveSenderCloses | cmd/agent/main.go:141-183 | while one sender lives it can make room whenever a collector needs it, up to the close |
| AgentShutdown.ClosesIffSendsFit | cmd/agent/main.go:68-71 | after the signal the close can be reached iff a sender still lives or the pending sends fit |
| AgentShutdown.ShutdownCanHang | cmd/agent/main.go:61-71 | for every set of gauges, number of senders and mode: a reachable state with all senders gone from which no run closes the channel |
| AgentShutdown.ShutdownLosesTheChannel | cmd/agent/main.go:143-146 | once no sender is left, the messages never handed over are exactly those in the channel |
| AgentPolls.StepKeepsPolls | cmd/agent/main.go:82-102 | every step keeps: the cell is the wrapped number of polls, and no message has been read below its ordinal |
| AgentPolls.PollCountReading | cmd/agent/main.go:82-102 | the k-th PollCount message sent is read with a value between k and the number of polls |
| AgentPolls.OrdinalsGrow | cmd/agent/main.go:98-102 | later PollCount messages have larger k |
| AgentPolls.HandedOnce | cmd/agent/main.go:132-186 | no message is serialised by two client calls |
| AgentPolls.DifferentMessagesSum | cmd/agent/main.go:82-102 | n different PollCount messages say at least 1 + 2 + ... + n together |
| AgentPolls.PollCountBounds | cmd/agent/main.go:82-102 | in whatever order, batches and repetitions they reach the server: n different messages applied k times in all after P polls make its counter at least n(n+1)/2 and at most k*P |
| AgentPolls.PollCountIsRightOnlyOnce | cmd/agent/main.go:98-102 | with every poll's message applied exactly once, the counter is the number of polls iff there was at most one |
| AgentPolls.LatePollsCountSquares | cmd/agent/main.go:82-102 | in either mode, for every set of gauges and every p whose ticks fit the channel: a reachable state with p polls whose messages, applied exactly once each, make the counter p * p, so the upper bound is attained |
| AgentCalls.StepKeepsCalls | cmd/agent/main.go:132-186 | every step keeps: each serialised message is in exactly one complete or open client call |
| AgentCalls.CallsPartitionTheHistory | cmd/agent/main.go:132-186 | each is in at most one complete call, in exactly one when none is open, and outside batch mode a call is one message |
| AgentReports.EffectOfCall | internal/agent/httpClient.go:42-61 | the server makes of a client call's body exactly the updates its messages mean |
| AgentReports.ArrivedMeans | internal/agent/httpClient.go:42-61 | the store after any arrivals of the calls of a run is the replay of their messages |
| AgentReports.GatherCounts | internal/agent/httpClient.go:89-91 | no message reaches the server more often than its call |
| AgentReports.InterleavedPollCount | internal/agent/httpClient.go:89-91 | end to end, for any number of senders: the calls of a run arrive in any order, up to maxRetry times each, their messages even applied in turns; n different PollCount messages leave an empty server's counter between n(n+1)/2 and maxRetry*n*P |
| AgentReports.NoMoreReach | internal/agent/httpClient.go:63-101 | n is at most the number of PollCount messages in the calls |
| AgentReports.AllReach | internal/agent/httpClient.go:63-101 | and exactly that if every call arrives |
| AgentReports.DeliveredInTurn | internal/agent/httpClient.go:42-61 | the deliveries of one sequential sender are such arrivals |
| AgentReports.Report | internal/agent/httpClient.go:42-101 | sending the calls of a run one after the other meets those bounds, with all messages if every call succeeds, as over a link that answers one of any three attempts |
| AgentReports.AttemptInTurns | internal/service/retry.go:17-28 | the retry loops of concurrent calls over one link, in any schedule: each call uses all of its turns, up to three, until it is answered, none after that, and succeeds iff it was answered 200; the server holds what arrived, in that order |
| AgentReports.ArrivedIsMade | internal/agent/httpClient.go:89-91 | no call arrives more often than it was attempted, and each that succeeds arrives |
| AgentReports.TurnsSucceed | internal/service/retry.go:17-28 | over a link that answers every attempt each call that has a turn succeeds |
| AgentReports.ReportConcurrently | cmd/agent/main.go:61-63 | so many senders meet the same bounds |
| GoAst.WalkAllFindsExactly | internal/service/nocall.go:33-55 | a visitor that never prunes sees exactly the places of the tree |
| GoAst.WalkAllIsInOrder | internal/service/nocall.go:33-55 | each once, a node before what is below it, siblings in order |
| GoAst.OccursIffAt | internal/service/nocall.go:33-55 | the places of the tree are exactly what occurs in it, in whatever part of whatever node |
| NoCall.SplitFindsComponents | internal/service/nocall.go:30 | splitting the flag gives exactly its comma-separated components |
| NoCall.RenderingIsInjective | internal/service/nocall.go:37-47 | different identifier or pkg.Sel callees have different names, none of them empty |
| NoCall.Visit | internal/service/nocall.go:34-54 | the visitor reports a call iff its name is in the list, nothing for a selection from a non-identifier, and always asks to descend |
| NoCall.Inspect | internal/service/nocall.go:33-55 | the walk adds the reports of its visits in order |
| NoCall.Run | internal/service/nocall.go:26-59 | the reports of all files, none for an empty flag |
| NoCall.ReportsAreTheRestrictedCalls | internal/service/nocall.go:26-59 | the reports are, in visiting order, exactly the call nodes at any depth whose name is a component of a non-empty flag |
| NoCall.ReportsAreDetermined | internal/service/nocall.go:26-59 | no other list has that order and those members |
| NoCall.OtherCallees | internal/service/nocall.go:37-47 | any other callee is reported iff the flag has an empty component; a selection from a non-identifier never is |
| NoCall.PackageCalls | internal/service/nocall.go:40-50 | a call pkg.Sel(...) at any place is reported as "pkg.Sel", and exactly if that is a component of the flag |
| NoCall.PlainCalls | internal/service/nocall.go:37-50 | a call f(...) is reported as "f", and exactly if that is one |
| NoCall.NoCallIsMissed | internal/service/nocall.go:33-55 | wherever in a file a restricted call pkg.Sel(...) occurs, as an argument or below a selection, it is reported |
| NoCall.OnlyCallsAreReported | internal/service/nocall.go:33-55 | and whatever is reported is such a call, of f or of pkg.Sel, in one of the files |
| ResetGen.StrippingKeepsMarker | cmd/reset/main.go:145-148 | trimming comment signs and white space neither hides nor makes a marker |
| ResetGen.HasMarker | cmd/reset/main.go:141-153 | true iff some comment of the group contains the marker |
| ResetGen.Targets.Visit | cmd/reset/main.go:70-98 | adds the names of the wanted types of one declaration in order, and always asks to descend |
| ResetGen.Sorts | cmd/reset/main.go:105 | sorting arranges the same names in Go's string order |
| ResetGen.LessMeans | cmd/reset/main.go:105 | that order: by the first character that differs, a string before its extensions |
| ResetGen.DedupTargets | cmd/reset/main.go:155-170 | sorts its argument in place and returns the squeezed list |
| ResetGen.DedupIsCanonical | cmd/reset/main.go:155-170 | that list is strictly increasing and has exactly the non-empty names |
| ResetOutput.Collect | cmd/reset/main.go:55-113 | the first loop builds, for each directory, the sorted names of its packages |
| ResetOutput.WalkMembers | cmd/reset/main.go:69-99 | the names found in a package are exactly those declared anywhere in its files |
| ResetOutput.CollectedMembers | cmd/reset/main.go:57-113 | the names collected for a directory are exactly those marked in its scanned packages |
| ResetOutput.Generate | cmd/reset/main.go:25-139 | the output is one file for each collected directory, in increasing order |
| ResetOutput.FilesAreComplete | cmd/reset/main.go:57-138 | a file for exactly the directories with a marked type, each listing, strictly increasing, exactly the marked non-generic struct types of its scanned packages outside cmd/reset |
| ResetOutput.OneType | cmd/reset/main.go:57-138 | a package with one declaration of one type: its file is written, and lists it, iff it is a struct type without parameters in a type declaration, "generate:reset" is in a comment of the type or its group, and the package is not the generator |
| ResetOutput.ClauseIsTheFirst | cmd/reset/main.go:107-111 | the package clause of a file is the name of the first package that contributes to its directory |
| ResetOutput.SecondDedupChangesNothing | cmd/reset/main.go:155-170 | a second dedup changes nothing |
| ResetOutput.OutputIsCanonical | cmd/reset/main.go:57-138 | any rearrangement of packages, files and declarations gives the same directories and names |
| ResetOutput.OutputIsCanonicalToTheLetter | cmd/reset/main.go:107-111 | and the same package clauses, where the packages of a directory agree on their name |

## Left out

- RSA, HMAC, base64, gzip and the middleware around them: the hard content is in libraries.
- HTTP routing, decoding of request bodies, logging, Swagger, the audit publisher, the object pool, pprof.
- Flags, environment, configuration, host and DSN normalisation, migrations, trusted subnets, outbound addresses.
- The plain-text update and read endpoints: they make the same calls on the store for one parsed value.
- Decimal formatting of values: a journal row carries the number its text was made from.
- The snapshot's JSON text: a file body is known by what it decodes to; names are valid UTF-8. A body of the wrong type is one with a mismatch.
- Real time, tickers, timeouts: ticks are nondeterministic, only the requested delays are kept.
- Reads and writes of the poll counter are atomic, as are the map operations within one lock step.
- The agent and the server process are step systems on values, not classes with threads: their subject is interleaving. The goroutines' local variables are the phases.
- Main returning while senders still work: the process then ends wherever they are, so every reachable state is a possible last one.
- The end of the process is a crash step, also after a graceful stop.
- A write of the snapshot is one step. The real one truncates and then writes, so two overlapping handler writes that both return no error may leave the shorter document with the tail of the longer; that file is malformed. Here a file is malformed only by a write that fails half way.
- encoding/json failing on a message with a non-finite gauge in the HTTP client: such a call sends nothing and changes nothing.
- A panic inside a gRPC handler ends the process; the model stops at the reply.
- ast.Inspect visits names and comments too; they hold no calls and no declarations and are fields of their parents here.
- The order of `sort.Slice` among equal names: targets hold nothing but their name.
- The text of a generated file beyond its package name and type names, and failures of formatting or writing it.
- packages.Load: a package comes with its path, name, directories and syntax trees.
- The waiting inside sync.RWMutex: taking a lock is one step, so a waiting writer does not hold up new readers.
- AgentReports.AttemptInTurns: applies each body as a whole; AgentReports.InterleavedPollCount covers messages applied in turns.
- The gauges of a tick are any finite set of names; the real collector's are 28 fixed ones.
- AgentPolls.PollCountBounds: asks that k times the number of polls is below 2^63; beyond that the counter is the wrapped sum of Updates.CounterFold.
