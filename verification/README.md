# Verification of the cherry picker, the dispatcher and the fishermen

A Dafny model of the three services of this repository that do something concurrent, and of the shared code they rest
on. The services talk to each other only through caches and tables, so each part below proves what the next one needs.

**Snapshot of the cherry picker.** Every run starts one goroutine for each valid (region, node, chain) entry found in the
regional caches. It gets or creates the session row, then gets and creates or updates the region row; the get and the
write are separate database calls. After a barrier, a second phase rebuilds every touched session row from its region
rows. `SnapshotProtocol` is that run as a small-step system: a step is one database call, one operation on the shared
session map, or one semaphore or wait group operation, by any goroutine. A ledger (`history`) records which
snapshots reached which row. The theorems hold for every interleaving, and for every sequence of runs that do not
overlap: the session table is a materialized view of the region table, every region row is the replay of its ledger,
a session's totals are the sums of the last snapshots of its regions (`SnapshotRecords`), failures never revert, and the
most entries of a session that a run can drop is known exactly.

**Dispatcher.** `Dispatcher` is the whole pipeline: the main goroutine, one goroutine per (application, chain) with the
sampled freshness check, the buffered channel, the monitor that batches and writes to all caches, the close and the two
waits. It never sends on the closed channel, never gets stuck, terminates, and writes exactly what was sent, in order, in
the batches that `BatchWriter` specifies. The channel with its monitor is `CacheWriter`, which the lambda uses as well.
`DispatchIdempotence` closes the loop: what a run wrote, the next one finds.

**Fishermen lambda.** `AppBatcher` is the task loop together with the second batcher, `monitorAppBatch`, and the
`performChecks` goroutines. Every submission's wait group gets its Done exactly once, every running check belongs to a
task of its own that is still blocked, and so the cache batch is open as long as somebody sends to it. The account of
submissions says which applications are checked, superseded, or left in a batch that nobody flushes, and exactly when
all are checked. `AppMonitor` is the monitor as the loop it is, which every interleaving agrees with; `AppBatcherCache`
adds the cache batch, up to the return of RunApplicationChecks.

**Sync check.** `SyncCheck` is the selection as the loops it is, against a closed form; `SyncSelection` says what the
closed form means; `SyncGather` shows that the goroutines that gather the heights do not matter to it, and says which
nodes pass in terms of what the relays answered.

`Text`, `Keys`, `NestedLookup`, `Averages`, `Counting` and `Arithmetic` hold the strings, keys, means and counting that
these parts need. Loops and database methods of the repository are methods here, each proved against a function;
protocols between goroutines are state machines (`State`, `Step`, `Enabled`, `Next`, and `After` for whole traces).

Where code and documentation differ, the model follows the code:

- The trust ratio of the altruist divides integers before it converts to a float (`shared/pocket/sync-check.go:206`), so
  it is 1 or 0 and the threshold decides nothing else (`SyncSelection.RatioIsAllOrNothing`).
- A region row's totals are those of the latest snapshot; `cherry-picker/README.md` calls them sums. Its failure flag is
  the OR of all snapshots.
- `monitorAppBatch` keys its batch by the application alone, so a second chain of the same application supersedes the
  first one while both wait in the batch, and the first one is never checked: `AppBatcherExample.SupersededNeverChecked`
  shows it, `AppBatcherCoverage.CheckedAtReturn` says exactly when.
- A key of failure hits is taken for one of success hits if it holds "success-hits" across node and session: the code
  asks for that substring first (`cherry-picker/cmd/snap-data/get-cache.go:147`). `PrintedHits.KindOfKey` is the exact
  condition; a node's public key in hexadecimal never meets it.
- The last batch is only flushed when every (application, chain) pair has submitted. If one gets no session, the others
  may be left behind: `AppBatcherExample.NeverChecked` shows it, `AppBatcherRun.ResidueAtReturn` says how many.
  `AppBatcherCoverage.AllCheckedAtReturn` is the exact condition under which every valid submission is checked.
- An entry of a session can be lost when its regions race for the session row; `SnapshotLossExact.LossesExactly` says
  how many can be.

## Model

| member | source | states |
|---|---|---|
| Text.SplitJoin | shared/utils/parse.go:103 | Split undoes Join for every non-empty list of separator-free parts |
| Text.JoinSplit | shared/utils/parse.go:86-103 | Join undoes Split for every string |
| Text.CutInjective | cherry-picker/cmd/snap-data/store.go:34 | two strings that agree and are cut at their first separator agree in both pieces |
| NestedLookup.LookupIsWalk | shared/utils/parse.go:85-104 | the recursion that re-joins and re-splits its key equals following the components one single lookup at a time, errors included, for every map and key; it terminates |
| NestedLookup.LookupOfPath | shared/utils/parse.go:83-104 | every path of dot-free names is reached through its dotted key |
| NestedLookup.LookupFollowsTrail | shared/utils/parse.go:83-104 | the lookup follows the values met along the components as far as they go, and answers the last one, or that it is not a map, or which component it lacks |
| Keys.PublicKeyAndChain | cherry-picker/cmd/snap-data/get-cache.go:170-186 | whatever the key, parsed public keys and chains are dash-free and chains brace-free |
| Keys.NodeFailureKeyRoundTrip | fishermen/cmd/run-application-checks/base.go:291-293 | parsing a printed node failure key gives back node and chain if and only if the node has no dash and the chain no dash or brace (commit hash without opening brace) |
| Keys.NodeFailureKeyParts | fishermen/cmd/run-application-checks/base.go:291-293 | the parts of a node failure key between its dashes: commit hash with the chain in braces, node, "failure" |
| Keys.SessionCacheKeyParts | shared/gateway/gateway.go:39-41 | the last two parts of a session cache key are public key and chain, in that order, after commit hash and prefix, which may hold dashes |
| Keys.SessionCacheKeyInjective | shared/gateway/gateway.go:39-41 | different (dash-free public key, chain) pairs never share a session cache key |
| Keys.AppDataKeyInjective | cherry-picker/cmd/snap-data/get-cache.go:64-69 | different (dash-free node, chain) pairs never share an entry |
| Keys.SessionInStoreKeyInjective | cherry-picker/cmd/snap-data/store.go:34 | different sessions never share a deduplication key, whatever their session keys hold |
| Averages.GetSliceAvg | shared/utils/math.go:6-12 | the loop returns the mean, and NaN for the empty slice only; the mean times the length is the sum |
| Tables.SessionsReadBack | cherry-picker/database/postgres.go:60-153 | a get of a session finds what the last create or update of that key left, and no write to another key or to the other table matters to it; which call errs, and how, is decided by what the get found before |
| Tables.PostgresStore.CreateSession | cherry-picker/database/postgres.go:87-116 | inserts under the primary key: Duplicate and no change if the row is there |
| Tables.PostgresStore.UpdateSession | cherry-picker/database/postgres.go:118-153 | replaces the summary columns only, NotFound if there is no row |
| Tables.PostgresStore.GetSessionRegions | cherry-picker/database/postgres.go:155-197 | appends exactly the region rows of the session, each once, in some order |
| Tables.RegionsReadBack | cherry-picker/database/postgres.go:199-334 | the same for region rows, with the foreign key: creating one takes its session row, and an update adds one sample to each array |
| Tables.WritesKeep | cherry-picker/scripts/db-init.sql:13-34 | whatever is written, in any order and by anybody: no region row is without its session row, no row disappears, identities never change and samples are only appended |
| Tables.PostgresStore.CreateRegion | cherry-picker/database/postgres.go:233-277 | inserts under the primary and the foreign key: Duplicate, or a foreign key error without a session row |
| Tables.PostgresStore.UpdateRegion | cherry-picker/database/postgres.go:279-334 | appends one sample to each of five arrays and replaces totals, averages and flag |
| ServiceLogs.GetServiceLogData | cherry-picker/cmd/snap-data/get-cache.go:62-111 | the loop over the logs computes the gathered entries, or panics where they are undefined |
| ServiceLogs.GatheredMeans | cherry-picker/cmd/snap-data/get-cache.go:62-111 | one entry for each pair among the keys and no other, stored under its own dash-free key, holding all fields of the last log of that pair, its public key and chain taken from the key; a panic exactly when some key cannot be parsed |
| ServiceLogs.TasksAreWellFormed | cherry-picker/cmd/snap-data/store.go:21-48 | the valid entries of all regions make a run in which no two goroutines share a region row; their public keys have 64 characters and their session keys at least one |
| HitCounts.GetSuccessAndFailureData | cherry-picker/cmd/snap-data/get-cache.go:137-165 | each counter and flag ends as the last hit that writes it, or as it was if none does; nothing else changes; a panic exactly when some hit cannot be parsed; PrintedHits says which keys these hits are |
| PrintedHits.ReadingsMean | cherry-picker/cmd/snap-data/get-cache.go:137-165 | for printed keys: an entry's successes end as the last number under a success-hits key of its node, chain and session, its failures as the last one under such a failure-hits key, its flag as the last value under the failure key of its node and chain; what is not read for stays, and nothing panics |
| PrintedHits.KindOfKey | cherry-picker/cmd/snap-data/get-cache.go:147-161 | every printed key is read for what it is, but for one family: a failure-hits key whose node ends in "success" and whose session begins with "hits" is read as success hits |
| HitCounts.CountedIsWellKeyed | cherry-picker/cmd/snap-data/get-cache.go:137-165 | reading the counters keeps the entries well-keyed |
| RegionHistory.Replay | cherry-picker/cmd/snap-data/store.go:145-195 | a row that records its snapshots has five arrays of equal length and the means of its median and weighted arrays, never over an empty list |
| RegionHistory.CreateIsReplay | cherry-picker/cmd/snap-data/store.go:145-170 | the row created from a snapshot records that one snapshot |
| RegionHistory.UpdateIsReplay | cherry-picker/cmd/snap-data/store.go:173-194 | an update computed from the current row turns the record of some snapshots into that of one more: last totals, all samples, new means, OR of all failures |
| RegionHistory.FailureIsSticky | cherry-picker/cmd/snap-data/store.go:190 | a row that has failed fails after any further snapshots |
| RegionHistory.CreateSessionIfDoesntExist | cherry-picker/cmd/snap-data/store.go:200-215 | undisturbed, it never fails and never touches an existing row; a missing one is created with the identity of the snapshot and zero totals |
| RegionHistory.CreateOrUpdateRegion | cherry-picker/cmd/snap-data/store.go:143-198 | undisturbed, it adds one snapshot to what the row records, and fails only for a first snapshot without a session row |
| Aggregation.RebuildSession | cherry-picker/cmd/snap-data/store.go:114-122 | the accumulation loop computes the sum of the success column and of the failure column, the OR of the flags, and the mean of all median samples of all regions |
| Aggregation.AggregateSession | cherry-picker/cmd/snap-data/store.go:94-136 | one aggregation writes the summary of the session's region rows, and NotFound if there is no session row |
| Aggregation.OrderIrrelevant | cherry-picker/cmd/snap-data/store.go:116-122 | any two listings of a session's rows give the same summary, so the query's order does not matter |
| SnapshotInvariant.TaskStepKept | cherry-picker/cmd/snap-data/store.go:20-74 | every step of any goroutine of the first phase keeps the invariant: rows replay the ledger, a pending update has seen the current row, winners own a row, the semaphore counts |
| SnapshotLosses.LossesKept | cherry-picker/cmd/snap-data/store.go:35-48 | every step keeps the account of losses: those that read NotFound and did not create the row are fewer than the semaphore's units once the row exists |
| MaterializedView.BarrierKept | cherry-picker/cmd/snap-data/store.go:74-92 | at the barrier every session that is not handed to the second phase is still up to date |
| MaterializedView.AggStepKept | cherry-picker/cmd/snap-data/store.go:84-139 | every step of the second phase keeps the invariant; its writes never fail |
| MaterializedView.CurrentForEveryOrder | cherry-picker/cmd/snap-data/store.go:114-122 | an up-to-date session row is the summary of any listing of its rows |
| SnapshotRuns.TraceKept | cherry-picker/cmd/snap-data/store.go:16-141 | every state of every interleaving of a run satisfies the invariant |
| SnapshotRuns.RunIsGood | cherry-picker/cmd/snap-data/store.go:16-198 | after a run every session row, touched or not, is the summary of its region rows, every region row is the replay of its ledger, and the ledger has grown by exactly the snapshots of the entries kept |
| SnapshotRuns.RunLosses | cherry-picker/cmd/snap-data/store.go:20-74 | at most concurrency - 1 entries of a session are dropped, each because its CreateSession met a duplicate, none if the row was there before the run, never all of them |
| SnapshotLossExact.LossesExactly | cherry-picker/cmd/snap-data/store.go:20-74 | the losses exactly, for every configuration, tables, history and order of starting the tasks: if the session row is missing, every run drops at most min(concurrency, number of its entries) - 1 of them, and some run drops that many; otherwise none |
| SnapshotLossExact.WhenNothingIsDropped | cherry-picker/cmd/snap-data/store.go:36-48 | no interleaving drops an entry of a session if and only if its row was there before, the concurrency is 1, or it has at most one entry |
| SnapshotSequence.ViewHeldAcrossRuns | cherry-picker/cmd/snap-data/store.go:16-198 | over any sequence of runs the view and the ledger hold, no session row disappears and no ledger is rewritten |
| SnapshotRecords.SessionTotalsMean | cherry-picker/cmd/snap-data/store.go:114-135 | the success and failure totals of a session are the sums, over its regions, of the successes and failures of the last snapshot recorded for each |
| SnapshotRecords.KeptEntriesRecorded | cherry-picker/cmd/snap-data/store.go:143-198 | after a run every kept entry has added its snapshot, and nothing else, to the row of its node, chain, session key and region, stated column by column against the tables before; all other rows are as they were |
| SnapshotRecords.SessionIdentities | cherry-picker/cmd/snap-data/store.go:204-211 | over a run an old session row keeps its address, application key and height, and a new one has those of an entry of its own public key, chain and session key |
| SnapshotSequence.SessionFailureMeans | cherry-picker/README.md:23 | a session fails if and only if some snapshot of some of its regions ever failed |
| SnapshotSequence.FailureNeverReverts | cherry-picker/cmd/snap-data/store.go:119-190 | no region row and no session row that has failed stops failing, over any sequence of runs |
| SessionAverages.SessionAverageMeans | cherry-picker/cmd/snap-data/store.go:114-122 | the session average is defined, is the mean of the region averages weighted by their snapshot counts, and lies between any bounds on them |
| SnapshotTermination.StepDecreases | cherry-picker/cmd/snap-data/store.go:16-141 | every step brings the run closer to its end |
| SnapshotTermination.NeverStuck | cherry-picker/cmd/snap-data/store.go:16-141 | no reachable state before the end is stuck |
| SnapshotTermination.SaveToStore | cherry-picker/cmd/snap-data/store.go:16-82 | under any scheduler the run reaches its end and leaves the store as a run leaves it |
| BatchWriter.ApplyAt | shared/cache/batch.go:59-71 | after any SETs a key holds the last value set, or what it held before if nobody set it |
| BatchWriter.ChunksShape | shared/cache/batch.go:41-56 | n items make n/BatchSize full batches and a final one of n%BatchSize items, possibly empty |
| BatchWriter.FlatChunks | shared/cache/batch.go:41-56 | batching loses, doubles and reorders nothing |
| BatchWriter.FullThenShort | shared/cache/batch.go:47-55 | full batches followed by a shorter one are the only way to cut what they hold |
| BatchWriter.WriteBatch | shared/cache/batch.go:59-71 | every cache ends as after the batch's SETs one by one |
| BatchWriter.MonitorBatch | shared/cache/batch.go:37-57 | over a channel that is then closed, the batches are the chunks of the stream and every cache ends as if each item had been written on its own |
| Freshness.ShouldDispatchMeans | shared/gateway/gateway.go:46-78 | for every interleaving: false if and only if every sampled cache holds a session of at least the current block height; a session if and only if some cache holds such a one, and then one of those |
| Freshness.TooFewFreshDispatches | shared/gateway/gateway.go:46-78 | with fewer caches holding a session of at least the current height than are sampled the answer is true, for every shuffle and interleaving |
| DispatcherControl.ControlKept | global-dispatcher/cmd/dispatch/base.go:87-151 | every step keeps the control invariant: nothing panics, the semaphore bounds the running tasks, the channel stays open while a task is pending |
| CacheWriter.StreamKept | shared/cache/batch.go:37-57 | every step of the monitor goroutine keeps the stream: written, pending and in the channel, one after the other, is what was sent; for the dispatcher's channel and the lambda's |
| CacheWriter.ExitedMeans | shared/cache/batch.go:38-56 | once the monitor has signalled its end, every cache has executed exactly what was sent, in the batches of the closed stream |
| CacheWriter.WriterDecreases | shared/cache/batch.go:41-56 | every step of the monitor uses up work: it always gets to its end |
| DispatcherStream.StreamStepKept | global-dispatcher/cmd/dispatch/base.go:139-151 | every step of the pipeline keeps the stream; a send finds the channel open |
| DispatcherRun.AlwaysSafe | global-dispatcher/cmd/dispatch/base.go:87-151 | in every state of every interleaving: no send on the closed channel, no wait group below zero, at most dispatchConcurrency tasks, and the stream is whole |
| DispatcherRun.AccountAtReturn | global-dispatcher/cmd/dispatch/base.go:87-162 | at the return every cache holds its old entries overwritten by the items sent, there is an item for each task that sent one and no other, and the failures counted are the tasks that ended as failed, modulo 2^32 |
| DispatcherReplies.AnswersAtReturn | global-dispatcher/cmd/dispatch/base.go:107-143 | the items sent are exactly the sessions the provider gave, each once and under the key printed from its prefix, public key and chain; different dash-free pairs get different keys; the failures counted are exactly the tasks it answered with a real dispatch error, modulo 2^32 |
| DispatcherSkips.ChecksExplained | global-dispatcher/cmd/dispatch/base.go:96-105 | in every state: a task that was skipped had sampled as many caches as the limit allows and read from each a session of at least the current height under the key of its pair; a task that went on had read a cache without one |
| DispatcherReplies.ReportMeans | global-dispatcher/cmd/dispatch/base.go:153-162 | too many failures are reported exactly when more tasks than allowed were answered with a real dispatch error, for limits and pairs below 2^32; a limit of -1 wraps and is never exceeded |
| DispatcherTermination.NeverStuck | global-dispatcher/cmd/dispatch/base.go:91-151 | no deadlock: before the return some goroutine can move |
| DispatcherTermination.StepDecreases | global-dispatcher/cmd/dispatch/base.go:91-151 | every step uses up some of a finite amount of work |
| DispatcherTermination.RunsAreFinite | global-dispatcher/cmd/dispatch/base.go:91-151 | no run is longer than the work it starts with |
| DispatchIdempotence.FreshIsNotDispatched | global-dispatcher/cmd/dispatch/base.go:100-105 | a pair for which every cache holds a session of at least the current height when a run starts is not dispatched by it |
| DispatchIdempotence.FreshForNextRun | global-dispatcher/cmd/dispatch/base.go:96-151 | after a run every cache holds a session of at least the current height under the key of every pair it sent, or skipped after sampling all caches |
| DispatchIdempotence.SecondRunDispatchesNothingAgain | global-dispatcher/cmd/dispatch/base.go:96-144 | a second run at that height dispatches no pair that the first one sent, nor one it skipped if all caches are sampled, for every shuffle and interleaving of both |
| AppBatcherTokens.InFlightBlocks | fishermen/cmd/run-application-checks/lambda/main.go:91-107 | the submitter of a submission in flight is blocked on a counter of exactly one |
| AppBatcherTokens.CheckKeepsOpen | fishermen/cmd/run-application-checks/lambda/main.go:109-110 | while a performChecks runs its submitter is blocked, so the cache batch is open |
| AppBatcherTokens.ControlKept | fishermen/cmd/run-application-checks/base.go:189-262 | every step keeps the control invariant; nothing panics |
| AppBatcherTokens.TokensKept | fishermen/cmd/run-application-checks/lambda/main.go:67-110 | every step keeps each wait group's counter explained by one Done to come or none |
| AppBatcherBatches.BatchesKept | fishermen/cmd/run-application-checks/lambda/main.go:67-89 | every step keeps the account of submissions, its tie to the batches of the performChecks calls, the sizes of flushes and the bound on the residue |
| AppBatcherRun.SubmittedBound | fishermen/cmd/run-application-checks/base.go:182-187 | there are at most TotalApps submissions |
| AppBatcherRun.AlwaysSafe | fishermen/cmd/run-application-checks/lambda/main.go:67-110 | in every reached state: no panic; running checks belong to different blocked tasks and are at most dispatchConcurrency; the cache batch is open; every submission's wait group stands at one exactly while it is in flight, else at zero; the application channel never holds more than checksPerInvoke |
| AppBatcherRun.DoneOnce | fishermen/cmd/run-application-checks/lambda/main.go:80-110 | a submission that has had its Done is never in flight again |
| AppBatcherRun.EverySubmissionAccounted | fishermen/cmd/run-application-checks/lambda/main.go:67-89 | processed = flushed + pending + superseded + invalid, each submission in exactly one; what is flushed is exactly what the performChecks calls were given, each submission to one call; only a later valid submission of the same application supersedes |
| AppBatcherRun.FlushesAreFull | fishermen/cmd/run-application-checks/lambda/main.go:80-88 | every flush has exactly checksPerInvoke applications, unless it is the last, set off by the last of all submissions |
| AppBatcherRun.ReturnedIsQuiet | fishermen/cmd/run-application-checks/base.go:258-262 | once the cache batch is closed every task has finished, every submission has had its Done and no check runs |
| AppBatcherRun.ResidueAtReturn | fishermen/cmd/run-application-checks/lambda/main.go:80-88 | what is left in the batch at the return is nothing if all pairs submitted, and otherwise the remainder by checksPerInvoke of what was neither superseded nor invalid |
| AppBatcherCoverage.CheckedAtReturn | fishermen/cmd/run-application-checks/lambda/main.go:67-89 | for every returned run: a submission has been checked if and only if it is valid, a performChecks call came at or after it, and no later valid submission of its application came before that call; superseded if and only if such a later one did |
| AppBatcherCoverage.AllCheckedAtReturn | fishermen/cmd/run-application-checks/lambda/main.go:67-89 | for every returned run: all valid submissions have been checked if and only if no application comes twice in a block of checksPerInvoke consecutive valid submissions, and all pairs submitted or the valid submissions fill their blocks |
| AppBatcherExample.NeverChecked | fishermen/cmd/run-application-checks/lambda/main.go:80-88 | a run that returns with an application in a batch nobody will flush |
| AppBatcherExample.SupersededNeverChecked | fishermen/cmd/run-application-checks/lambda/main.go:73-76 | a run in which both pairs submit, for one application, and the first submission is never checked |
| AppBatcherTermination.StepWorks | fishermen/cmd/run-application-checks/base.go:189-262 | every step but the sending of an item uses up work, and a send uses up one of the items that flushes brought in |
| AppBatcherTermination.RunsAreFinite | fishermen/cmd/run-application-checks/base.go:189-262 | a run has at most nine steps for each pair and three more, besides at most one send for each item |
| AppBatcherCache.AlwaysSafe | fishermen/cmd/run-application-checks/base.go:189-262 | the lambda together with its bounded cache batch: no panic, and written, pending and in the channel are the items sent, in order; its application side is always in a state the rows above speak of |
| AppBatcherCache.EverythingWrittenAtReturn | fishermen/cmd/run-application-checks/base.go:256-262 | when RunApplicationChecks returns every task has finished, every performChecks has ended and sent all its items, and every cache holds its old entries overwritten by all of them in the order sent |
| AppBatcherCache.NeverStuck | fishermen/cmd/run-application-checks/base.go:189-262 | no deadlock before the return, even with senders waiting for room in the cache batch |
| AppBatcherCache.ReturnedIsTheEnd | fishermen/cmd/run-application-checks/base.go:256-262 | after the return no goroutine of the run can move |
| AppBatcherCache.RunsAreFinite | fishermen/cmd/run-application-checks/base.go:189-262 | every run is finite, bounded by the work at its start and the items that the performChecks calls find to send |
| AppBatcherReplies.SubmissionsAtReturn | fishermen/cmd/run-application-checks/base.go:200-256 | at the return every task has looked up its session, and the submissions are exactly the sessions found, each submitted once |
| AppMonitor.MonitorAppBatch | fishermen/cmd/run-application-checks/lambda/main.go:67-89 | the loop groups the submissions as the specification does |
| AppMonitor.GroupUnique | fishermen/cmd/run-application-checks/lambda/main.go:67-89 | the grouping is the only one in which groups follow one another without gap or overlap, a performChecks comes at the first reason for it (a full batch, or all processed) and gets, for each key of its group, the last valid submission with that key and no other |
| AppCoverage.AllHandedOverMeans | fishermen/cmd/run-application-checks/lambda/main.go:67-89 | the monitor hands over all valid submissions if and only if no application comes twice in a block of checksPerInvoke valid ones, and all pairs submitted or the blocks are full |
| AppBatcherGroups.GroupsAtReturn | fishermen/cmd/run-application-checks/lambda/main.go:67-110 | for every interleaving the performChecks calls and the batch left are those of the loop on the submissions in the order sent |
| SyncCheck.SortByHeight | shared/pocket/sync-check.go:60-62 | a permutation in non-increasing height |
| SyncCheck.GetAltruistDataAndHighestBlockHeight | shared/pocket/sync-check.go:196-227 | the counting loops and clamps compute the verdict |
| SyncCheck.Check | shared/pocket/sync-check.go:52-123 | the nodes returned are, in non-increasing height, exactly the gathered ones that pass the window, each as often as it was gathered |
| SyncCheck.JudgeIgnoresOrder | shared/pocket/sync-check.go:60-64 | neither the order of the gather nor ties of the unstable sort change the verdict |
| SyncSelection.RatioIsAllOrNothing | shared/pocket/sync-check.go:200-206 | the coded ratio is 1 if some node is valid and all valid ones are ahead of the altruist, else 0 |
| SyncSelection.TrustMeans | shared/pocket/sync-check.go:196-218 | the altruist is distrusted if and only if some node is valid and all valid nodes are strictly ahead of it |
| SyncSelection.AcceptedIsWindow | shared/pocket/sync-check.go:64-84 | the whole selection as one window on the heights |
| SyncSelection.AltruistHeightAccepted | shared/pocket/sync-check.go:64-84 | a node at exactly the altruist's positive height is accepted whatever the others report |
| SyncSelection.TrustedWindow | shared/pocket/sync-check.go:64-84 | with a trusted altruist every accepted height is within the allowance of it |
| SyncSelection.AcceptedAreClose | shared/pocket/sync-check.go:64-84 | accepted heights differ by at most twice the allowance, and by at most the allowance unless the altruist is trusted and the top node too far ahead |
| SyncSelection.DistrustFollowsNodes | shared/pocket/sync-check.go:208-218 | with a distrusted altruist exactly the valid nodes within the allowance of the maximum are accepted, and there is one |
| SyncSelection.FailedNodesDoNotMatter | shared/pocket/sync-check.go:161-188 | nodes whose relay failed never change who is accepted |
| SyncSelection.NobodyAnswered | shared/pocket/sync-check.go:82-84 | when no node answered nobody is accepted |
| SyncSelection.WhenMoreAllowanceRejects | shared/pocket/sync-check.go:220-224 | a node accepted at one allowance is rejected at a larger one if and only if the altruist is trusted and the larger allowance brings a top node back in reach that is out of the node's |
| SyncSelection.MoreAllowanceCanReject | shared/pocket/sync-check.go:220-224 | the concrete case: acceptance is not monotone in the allowance |
| SyncGather.SendNeverBlocks | shared/pocket/sync-check.go:125-139 | a goroutine with a log always finds the channel open and with room |
| SyncGather.NeverStuck | shared/pocket/sync-check.go:125-146 | no state is stuck before the logs are gathered |
| SyncGather.EveryLogGathered | shared/pocket/sync-check.go:125-188 | every interleaving gathers each node's log exactly once: the height its relay answered, or 0 if the relay failed |
| SyncGather.GatheredWindow | shared/pocket/sync-check.go:52-188 | for every interleaving the heights accepted are a window given by the answers alone: failed relays are never accepted and do not change who is |
| SyncGather.NoAnswerNobody | shared/pocket/sync-check.go:82-188 | if no relay answers a positive height nobody is accepted, whatever the interleaving |
| SyncGather.InterleavingIrrelevant | shared/pocket/sync-check.go:52-146 | for fixed relay answers no interleaving changes which nodes pass, or how often |

## Left out

- Several stores: the goroutines of one entry share the `region` variable, and an entry can be lost on one store only; the theorems are for one store.
- Overlapping snapshot runs: GetRegion and UpdateRegion of different runs can interleave, and the view is not meant to hold then.
- Database errors other than NotFound, Duplicate and a missing foreign key, and their mapping in `getCustomError`.
- Integer widths, float32 rounding and CHAR padding: totals and heights are integers, latencies reals, NaN is a missing value; only the dispatcher's failure counter wraps, as its type does.
- Cache write errors, TTLs, timeouts, retries and cancellation: every SET succeeds and nothing expires; the semaphore is never cancelled.
- wg.Add and sem.Acquire of a spawn are one step, because no other goroutine can tell them apart; the snapshot's two wait groups are its barrier and its end.
- Dispatcher: a read of a cache by the freshness check of a task also counts, in one step; the finer steps of ShouldDispatch are in `Freshness`.
- Freshness: its counter is a natural number there, while the source's is a uint32; the caches' own key prefix is empty, as for the dispatcher.
- How many items a performChecks sends, and which, is arbitrary.
- The body of performChecks (the invocation, CacheNodes, EraseNodesFailureMark): loops that send one item per node.
- Decoding of service logs, counters and sessions: what decodes to what is an input of the methods here.
- Closing connections after a run, metrics, logging, configuration and the handlers around the three services.
- The shared state of goroutines is a state machine and not an object: aliasing of the loop variables is not modelled.
