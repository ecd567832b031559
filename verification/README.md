# Otto, modelled and verified

Otto is a CI/CD back end: it compiles a pipeline drawn as a list of nodes into a CodeBuild specification, follows the
build and its logs, deploys the result behind a shared load balancer and tells browsers about all of it. This project
models the parts of it that are state machines, protocols, refinements or compilers, and proves what they keep over
every run.

| file | what it models |
|---|---|
| `Sequences.dfy` | prefixes, suffixes, splitting and joining |
| `ExecutionStatuses.dfy` | the status of an execution row |
| `LogBuffer.dfy` | the ring buffers, as classes over arrays and a map, with the history they refine |
| `LogPolling.dfy` | the CloudWatch poller: token, retry count, save, buffer |
| `LogRecovery.dfy` | the bounded paging loop, automatic recovery, the scheduled recovery pass |
| `LogIngestion.dfy` | poller and recovery at work on one table |
| `LogSubscription.dfy` | a client that subscribes while logs keep coming: join, buffer, history, live |
| `CombinedLogs.dfy` | build logs merged with deployment logs, and the limit pushed below the merge |
| `Deployments.dfy` | deployment records under one orchestrator and many events |
| `Executions.dfy` | one execution row under CodeBuild events, the heartbeat and the manual check |
| `Dedup.dfy` | event de-duplication with SETNX and EXPIRE |
| `NodeCommands.dfy`, `Dockerfile.dfy`, `BuildSpec.dfy` | the buildspec compiler |
| `Routing.dfy` | provisioning and clean-up of listener rules, target groups, services and event rules |
| `RoutingSteps.dfy` | deploys and clean-ups of different pipelines interleaved, one effect at a time |
| `RefreshTokens.dfy` | refresh-token rotation against a ledger that forgets nothing |
| `PercentEncoding.dfy`, `Cookies.dfy` | the cookie header of a WebSocket handshake |

CloudWatch, ECS, the load balancer, Redis and the database are sequences, maps and sets. What they answer, and where
they fail, is a parameter of each step, so a theorem over all runs is also a theorem over all answers. Code that
changes state is a class or a method with a loop, proved equal to a function of the old state; the theorems over runs
are about those functions. A step that stands for the stretch of code between two awaits is atomic, and everything
else may happen between two steps, unless "Left out" says otherwise.

Where the code does not meet the property one would expect, the model follows the code, and the theorem is the exact
condition:

- A poll stores a page twice when releasing the database connection throws after the commit, when a response has no
  forward token, and when polling is started again: `LogPolling.StoredIsPrefixExactlyWhenClean`.
- The first history page is cut between rows of equal timestamps in an order the query leaves open:
  `LogSubscription.NoGapExactlyWhenHistoryReaches`.
- Recovery that loses the log group halfway reports zero although rows were added: `LogRecovery.ReturnedCountIsRowsAdded`.
- The merge is keyed by creation time when a timestamp is the epoch itself, and a page served from the ring buffer is
  cut at the wrong end: `CombinedLogs.PushdownExactlyWhenSorted`, `CombinedLogs.BufferFallbackExactlyWhenUncut`.
- An early SUCCESS is overwritten by the orchestrator: `Deployments.TerminalIsPermanentExactlyWhenFinished`. The
  comments at the calls of the deployment handlers in `src/logs/eventbridge.service.ts` say they are still to be wired
  up; the model takes the handlers as written.
- A late "in progress" and a heartbeat that had already asked undo the end of a build, and the two checks disagree
  about FAULT and about a build without status: `Executions.EndStaysExactlyUnlessContradicted`,
  `Executions.ChecksAgreeExactlyWhen`.
- The check for rows and the pages of a recovery are apart, and a poller without a token reads from the head:
  `LogIngestion.RowsArePrefixExactlyWhenNothingResaved`.
- A larger offset shifts the build logs only, so deployment logs come again on every page:
  `CombinedLogs.PagesPartitionExactlyWhenFitting`.
- A failing SETNX counts as new, and a check that claims the key swallows the event it announced:
  `Dedup.OwnerShutsOutOthers`, `Dedup.CheckSwallowsProcess`. The body runs after the verdict, at any distance, so two
  bodies can meet although their verdicts are an hour apart: `Dedup.DelayIsTheExactLoss`.
- Version, package manager and build command are found by position, in whatever group they stand:
  `BuildSpec.SameSpecExactlyWhenSameFinds`. A package manager other than npm, yarn and pnpm is installed on the build
  host but not in the image, and leaves empty shell steps: `BuildSpec.ManagersAgreeExactlyWhenKnown`,
  `NodeCommands.EmptyInstallExactlyWhen`, `NodeCommands.EmptyBuildExactlyWhen`.
- A deploy that throws between its rule and its last write leaks both rule and target group when the pipeline is
  deleted: `Routing.CleanupLeavesNothingExactlyWhen`.
- A cookie named `__proto__` is never found: `Cookies.SurvivesExactlyWhenClean`.

`dafny verify dfyconfig.toml` checks everything.

## Model

| member | source | states |
|---|---|---|
| `LogBuffer.RingAfterPush` | src/logs/services/log-buffer/log-buffer.service.ts:20-34 | one push keeps the ring's cells, write position and size a faithful image of the last `capacity` items of the history, wrapped or not |
| `LogBuffer.CircularBuffer.Push` | src/logs/services/log-buffer/log-buffer.service.ts:20-24 | the history grows by exactly the pushed item, in place, in the same array |
| `LogBuffer.CircularBuffer.ToArray` | src/logs/services/log-buffer/log-buffer.service.ts:26-34 | the last `capacity` items pushed, oldest first |
| `LogBuffer.CircularBuffer.Clear` | src/logs/services/log-buffer/log-buffer.service.ts:36-40 | the history is empty again |
| `LogBuffer.LogBufferService.AddLogs` | src/logs/services/log-buffer/log-buffer.service.ts:59-73 | appends to this execution's history only; the ring objects and arrays of all other executions are the same and unchanged; one event with exactly these logs is emitted |
| `LogBuffer.LogBufferService.GetRecentLogs` | src/logs/services/log-buffer/log-buffer.service.ts:75-89 | the last min(limit, 1000) of everything pushed since the last clear; zero, negative and absent limits mean no limit |
| `LogBuffer.LogBufferService.ClearBuffer` | src/logs/services/log-buffer/log-buffer.service.ts:91-100 | forgets this execution and no other |
| `LogBuffer.LogBufferService.ClearAllBuffers` | src/logs/services/log-buffer/log-buffer.service.ts:102-106 | forgets every execution, whatever the order of the loop |
| `LogBuffer.LogBufferService.GetTotalBufferedLogs` | src/logs/services/log-buffer/log-buffer.service.ts:122-128 | the sum over executions of min(pushed, 1000) |
| `LogBuffer.TotalHeldTake` | src/logs/services/log-buffer/log-buffer.service.ts:122-128 | that sum does not depend on the order of the map's entries |
| `LogBuffer.HistoryIsPushesSinceLastClear` | src/logs/services/log-buffer/log-buffer.service.ts:59-106 | after any run of operations the history of an execution is what was pushed for it after the last operation that cleared it |
| `LogBuffer.OthersDoNotInterfere` | src/logs/services/log-buffer/log-buffer.service.ts:59-106 | dropping every operation on other executions from any run leaves an execution's history the same |
| `LogPolling.LogStorage.SaveLogs` | src/logs/services/log-storage/log-storage.service.ts:35-71 | a batch is stored whole or not at all, and an exception does not tell which when releasing the connection threw |
| `LogPolling.Poller.Tick` | src/logs/services/cloudwatch/cloudwatch.service.ts:95-197 | one interval callback changes rows, buffer, token, retry count and polling exactly as the step function says, announces the page exactly when it was saved, and leaves every other execution's buffer alone |
| `LogPolling.Poller.FinishTick` | src/logs/services/cloudwatch/cloudwatch.service.ts:145-163 | the token moves and failures are forgotten before the status lookup, whose failure counts as the first new one |
| `LogPolling.Poller.StopPolling` | src/logs/services/cloudwatch/cloudwatch.service.ts:202-209 | the entry is gone |
| `LogPolling.ExcessIsDamage` | src/logs/services/cloudwatch/cloudwatch.service.ts:105-197 | over every run the rows outnumber the stream before the token by nothing exactly in runs without a damaging event |
| `LogPolling.StoredIsPrefixExactlyWhenClean` | src/logs/services/cloudwatch/cloudwatch.service.ts:90-197 | over every run: the rows are the stream before the token, without gap or duplicate, if and only if no save threw after its commit, no response dropped the token after rows were read, and polling was not started again after rows were read |
| `LogPolling.NothingIsLost` | src/logs/services/cloudwatch/cloudwatch.service.ts:133-138 | even then nothing before the token is missing, and nothing is buffered that is not stored |
| `LogPolling.DuplicateAfterReleaseFailure` | src/logs/services/log-storage/log-storage.service.ts:35-71 | the concrete run in which one log is stored twice |
| `LogPolling.RetryCountIsFailureStreak` | src/logs/services/cloudwatch/cloudwatch.service.ts:145-190 | over every run the retry count is the number of failures from the position of the last page or start on, ticks without a log group not counting, and it is below five while polling |
| `LogPolling.StopsOnlyForAReason` | src/logs/services/cloudwatch/cloudwatch.service.ts:148-190 | polling ends only by a stop, a finished execution, or the fifth failure in a row |
| `LogPolling.ReasonsStop` | src/logs/services/cloudwatch/cloudwatch.service.ts:148-190 | each of those does end it |
| `LogRecovery.FetchAndSaveAllLogs` | src/logs/services/cloudwatch/cloudwatch.service.ts:237-368 | between one and ten fetches, the rows added are a prefix of the stream whatever fails, and an unknown execution is an error before any fetch |
| `LogRecovery.ReturnedCountIsRowsAdded` | src/logs/services/cloudwatch/cloudwatch.service.ts:266-368 | a returned number is the number of rows added or zero, and it is wrong if and only if the log group vanishes after pages that brought rows, a condition on the stream's size and the answers alone |
| `LogRecovery.PartialRecoveryReportsZero` | src/logs/services/cloudwatch/cloudwatch.service.ts:335-368 | the run in which rows are added and zero is returned |
| `LogRecovery.RecoversTenPages` | src/logs/services/cloudwatch/cloudwatch.service.ts:266-334 | with full pages, all of the stream is stored if and only if it fits in ten pages |
| `LogRecovery.AutoRecoverLogsForExecution` | src/logs/services/cloudwatch/cloudwatch.service.ts:373-454 | never adds a row when there are rows, otherwise a prefix of the stream; failures give zero |
| `LogRecovery.RepeatedRecoveryStoresPrefix` | src/logs/services/cloudwatch/cloudwatch.service.ts:373-432 | however often recovery runs over a growing stream, the rows are a prefix of it |
| `LogRecovery.RecoveryIsOneShot` | src/logs/services/cloudwatch/cloudwatch.service.ts:376-386 | after a recovery that stored anything, no number of later ones changes a row |
| `LogRecovery.RecoverMissingLogs` | src/logs/logs.service.ts:658-716 | one pass over all executions recovers each due one on its own rows, and the count is the number of those that reported rows |
| `LogRecovery.GainedRowsAreCountedExactly` | src/logs/logs.service.ts:683-699 | an execution gains rows without being counted if and only if the answers cut its paging loop short after some row was in |
| `LogIngestion.RowsArePrefixExactlyWhenNothingResaved` | src/logs/services/cloudwatch/cloudwatch.service.ts:90-454 | over every interleaving of poller ticks and recovery pages on one table, the rows are a prefix of the stream, each log once, if and only if every saved page began where the furthest saved one ended |
| `LogIngestion.NothingReachedIsMissing` | src/logs/services/cloudwatch/cloudwatch.service.ts:90-454 | in all of them every log before the furthest saved position is stored |
| `LogIngestion.RecoveriesAloneResaveNothing` | src/logs/services/cloudwatch/cloudwatch.service.ts:266-334 | as long as the poller saves nothing, no number of recoveries stores a log twice, however the stream grows between their pages |
| `LogIngestion.TokenlessPollerResaves` | src/logs/services/cloudwatch/cloudwatch.service.ts:90-143 | a poller without a token that saves a page after rows were saved always stores them again |
| `LogIngestion.TickDuringRecoveryStoresTwice` | src/logs/services/cloudwatch/cloudwatch.service.ts:373-432 | the run in which a tick falls between a recovery's check for rows and its first page |
| `LogIngestion.UninterruptedRecoveryIsTheLoop` | src/logs/services/cloudwatch/cloudwatch.service.ts:266-334 | the recovery's steps with nothing in between add the rows of the loop of fetchAndSaveAllLogs and end |
| `LogSubscription.LogsGateway.Admit` | src/logs/logs.gateway.ts:320-358 | a client passes only with a user, an execution id and granted access |
| `LogSubscription.JoinedMissesNoAnnouncement` | src/logs/logs.gateway.ts:360-452 | over every continuation, a client that joined and is still in the room was sent every log announced since it joined |
| `LogSubscription.LogsGateway.EmitBuffered` | src/logs/logs.gateway.ts:369-376 | the client is sent the unbroken run of logs from where the ring begins up to the latest push, and nothing else |
| `LogSubscription.LogsGateway.HandleSubscribe` | src/logs/logs.gateway.ts:303-428 | the stretches of the handler in order, each exit included |
| `LogSubscription.LogsGateway.HandleNewLogs` | src/logs/logs.gateway.ts:442-452 | one emit per log, each to a client that is in the room |
| `LogSubscription.UninterruptedSubscription` | src/logs/logs.gateway.ts:303-428 | with nothing in between a client has exactly history and ring contents, and lacks a log exactly when history stops before the ring begins |
| `LogSubscription.SnapshotIsSuffix` | src/logs/services/log-buffer/log-buffer.service.ts:75-89 | the ring's contents are the pushes from a single position on |
| `LogSubscription.InvariantHolds` | src/logs/logs.gateway.ts:361-391 | between join and history a client holds exactly the pushes from one on up to the latest, in every interleaving |
| `LogSubscription.NothingBeforeJoin` | src/logs/logs.gateway.ts:320-361 | a client that was refused, or has not joined, was sent nothing |
| `LogSubscription.SureRowIsOnPage` | src/logs/services/log-storage/log-storage.service.ts:73-92 | a row that fewer than 1000 others may precede is on every answer the query allows, whatever the timestamps |
| `LogSubscription.UnsureRowMayBeMissing` | src/logs/services/log-storage/log-storage.service.ts:73-92 | any other row is missing from some answer the query allows |
| `LogSubscription.NoGapExactlyWhenHistoryReaches` | src/logs/logs.gateway.ts:361-391 | for every interleaving, with rows saved by anyone at any timestamps: the client misses no announced log under every answer the query allows if and only if fewer than 1000 other rows may precede each announced log it does not hold yet |
| `LogSubscription.SubscriberMissesNothing` | src/logs/logs.gateway.ts:361-452 | and it misses nothing ever after while it stays |
| `LogSubscription.UnannouncedOnlyThroughHistory` | src/logs/logs.gateway.ts:378-392 | a row that is never announced, such as one a recovery saved, reaches a client if and only if its history page holds it |
| `LogSubscription.TwoThousandDistinctTimesSuffice` | src/logs/logs.gateway.ts:369-392 | at most 2000 logs pushed at the snapshot, nothing cleared, every row announced in order and later than the one before are enough |
| `LogSubscription.InsertionOrderTies` | src/logs/services/log-storage/log-storage.service.ts:73-92 | were the page the first 1000 rows by insertion, there would be no gap if and only if those hold every announced log the client lacks |
| `LogSubscription.TieHidesALog` | src/logs/services/log-storage/log-storage.service.ts:73-92 | the whole run: 1001 logs of one millisecond, a subscription, a page the query allows, and the oldest log is never sent |
| `CombinedLogs.SortSorts` | src/logs/logs.service.ts:317-321 | the merge is an ordered rearrangement of its input |
| `CombinedLogs.SortIsStable` | src/logs/logs.service.ts:317-321 | rows with equal keys keep their order |
| `CombinedLogs.StableOrderIsUnique` | src/logs/logs.service.ts:317-321 | order and stability leave exactly one result, so the sort stands for any stable sort |
| `CombinedLogs.LimitPushdown` | src/logs/logs.service.ts:236-329 | fetching only k ordered build rows before the merge gives the same first k rows, for any deployment logs |
| `CombinedLogs.PushdownExactlyWhenSorted` | src/logs/logs.service.ts:236-329 | it does so for all limits and deployment logs if and only if the build rows come in key order |
| `CombinedLogs.DatabaseOrderIsKeyOrder` | src/logs/services/log-storage/log-storage.service.ts:73-92 | the query's order is key order when no row carries timestamp 0 |
| `CombinedLogs.EpochRowBreaksPushdown` | src/logs/logs.service.ts:317-321 | one row stamped 0 makes the page wrong |
| `CombinedLogs.GetExecutionLogs` | src/logs/logs.service.ts:236-259 | the database page, or the tail of the ring when that page is empty |
| `CombinedLogs.GetCombinedExecutionLogs` | src/logs/logs.service.ts:264-329 | the cut merge of the build page and the deployment logs in every case, which past an offset within ordered rows equals merging everything there and cutting afterwards; an unknown execution is an error |
| `CombinedLogs.BufferFallbackExactlyWhenUncut` | src/logs/logs.service.ts:236-259 | merging the end of ordered buffered logs is right for all deployment logs if and only if their last k are their first k, which for distinct times means nothing was cut |
| `CombinedLogs.RingViewExactlyWhenUncut` | src/logs/logs.service.ts:236-329 | so the combined view past the last row is right under exactly that condition on the ring |
| `CombinedLogs.PagesPartitionExactlyWhenFitting` | src/logs/logs.service.ts:236-329 | the pages at offsets 0, k, 2k and so on make up the full merge, each log once and in order, if and only if all deployment logs fit on the last page and none belongs on an earlier one |
| `Deployments.Newest` | src/deployment/deployment-events.service.ts:478-546 | the row found matches and no newer row does |
| `Deployments.EventTouchesOneActiveRow` | src/deployment/deployment-events.service.ts:478-546 | an event changes at most one row, that row was active, and terminal rows never change |
| `Deployments.DeploymentTracker.StartDeploymentTracking` | src/deployment/deployment-tracker.service.ts:48-94 | one new PENDING record, all others as they were |
| `Deployments.DeploymentTracker.UpdateDeploymentStatus` | src/deployment/deployment-tracker.service.ts:99-173 | the whole new row: status, given fields, merged metadata, completion times; a missing id changes nothing |
| `Deployments.DeploymentTracker.CompleteDeployment` | src/deployment/deployment-tracker.service.ts:273-317 | SUCCESS with its completion metadata |
| `Deployments.DeploymentTracker.SetupEcsEventTracking` | src/deployment/deployment-tracker.service.ts:178-222 | DEPLOYING_ECS, or FAILED with the error, or no write when that fails too |
| `Deployments.DeploymentTracker.SetupTargetHealthTracking` | src/deployment/deployment-tracker.service.ts:227-268 | WAITING_HEALTH_CHECK, with the same two failures |
| `Deployments.DeploymentTracker.HandleEvent` | src/deployment/deployment-events.service.ts:95-473 | every handler, step by step, is the table function the theorems are about |
| `Deployments.InvariantHolds` | src/deployment/deployment-tracker.service.ts:99-173 | in every reachable state SUCCESS has both completion times, FAILED has its own and only follows the orchestrator's last write, and two statuses never occur |
| `Deployments.SettledForever` | src/deployment/deployment-events.service.ts:478-546 | after the last write of its orchestrator a terminal record never changes again |
| `Deployments.TerminalIsPermanentExactlyWhenFinished` | src/deployment/deployment.service.ts:190-213 | a terminal record survives every continuation if and only if its orchestrator has made its last write |
| `Deployments.EarlySuccessIsOverwritten` | src/logs/eventbridge.service.ts:1173-1256 | the run in which a success reported early is taken back |
| `Deployments.ListsAreTheAppliedEvents` | src/deployment/deployment-events.service.ts:313-473 | each task and target list holds exactly the entries of the events applied to that row, in order, through both merges |
| `Deployments.KeysAreKeptExactly` | src/deployment/deployment-events.service.ts:261-308 | no step drops a metadata key, except that a task-definition event without an ARN drops that one |
| `Executions.LogsService.UpdateExecutionStatus` | src/logs/logs.service.ts:194-234 | the whole new row; an unknown execution is an error and changes nothing |
| `Executions.LogsService.ProcessCodeBuildEvent` | src/logs/eventbridge.service.ts:293-345 | links a pre-created row on the first IN_PROGRESS, ignores other events without a link, then writes the mapped status; for an unknown build IN_PROGRESS creates a fresh running row and other events do nothing |
| `Executions.LogsService.CheckStaleExecutions` | src/logs/logs.service.ts:453-651 | each row is what one undisturbed heartbeat makes of it |
| `Executions.LogsService.CheckStaleExecutionsManually` | src/logs/logs.service.ts:1033-1086 | each row is what one manual check makes of it, and the two counts are right |
| `Executions.InvariantHolds` | src/logs/logs.service.ts:194-234 | over every interleaving of events and checks the row's times fit, and the kind of the last write tells its status |
| `Executions.StatusFollowsLastWrite` | src/logs/eventbridge.service.ts:735-742 | every terminal write of every writer means the same status, and a terminal status carries completedAt and duration = floor of the seconds since the start |
| `Executions.OrderDoesNotMatter` | src/logs/logs.service.ts:453-651 | two histories of one build that end in a terminal write end in the same status |
| `Executions.EndStaysExactlyUnlessContradicted` | src/logs/logs.service.ts:511-518 | a step takes the end away if and only if it is a late IN_PROGRESS event, a heartbeat that heard "in progress", or a manual guess against a success |
| `Executions.EndHoldsThroughoutExactlyWhen` | src/logs/logs.service.ts:453-651 | from a row that shows the end of its build, every state of a continuation shows it, with completion time and duration, if and only if no step contradicts it |
| `Executions.UninterruptedCheckIsSweep` | src/logs/logs.service.ts:453-651 | select, ask and write back with nothing in between is the sweep of the loop |
| `Executions.StaleSweepRestoresExactly` | src/logs/logs.service.ts:500-524 | the next stale sweep restores the mapped status, completed now, except that the heartbeat passes over FAULT |
| `Executions.ChecksAgreeExactlyWhen` | src/logs/logs.service.ts:1056-1073 | heartbeat and manual check set the same status if and only if AWS named one other than FAULT, or could not be asked |
| `Executions.HeartbeatUndoesTheEnd` | src/logs/logs.service.ts:511-518 | the run in which a finished execution goes back to running and loses its completion time |
| `Dedup.RedisService.BeginCheck` | src/common/redis/redis.service.ts:76-102 | SETNX and the verdict it leads to, errors reported as new |
| `Dedup.RedisService.FinishCheck` | src/common/redis/redis.service.ts:87-91 | EXPIRE gives the key its hour if the key is still there, and the event is new either way |
| `Dedup.BodyRunsOncePerCall` | src/logs/eventbridge.service.ts:187-217 | over every run the body runs at most once for a call, and never for one that was told duplicate or that only checks |
| `Dedup.InvariantHolds` | src/common/redis/redis.service.ts:76-102 | in every interleaving a key is created only after the lifetime that the call before gave it |
| `Dedup.KeyVisibleExactlyWhenHeld` | src/common/redis/redis.service.ts:76-102 | the key store is an index of the call history: visible if and only if some call still holds the key |
| `Dedup.OneHolder` | src/common/redis/redis.service.ts:76-102 | at no moment do two calls hold one key |
| `Dedup.DuplicateExactlyWhenHeld` | src/logs/eventbridge.service.ts:171-185 | an event is dropped if and only if SETNX was answered and an earlier call still holds its key |
| `Dedup.NewVerdictsAreAnHourApart` | src/common/redis/redis.service.ts:76-102 | two calls for one event that both count as new are 3600 s apart unless SETNX failed for one of them |
| `Dedup.BodiesAreAnHourLessDelayApart` | src/logs/eventbridge.service.ts:187-217 | the second body runs at least an hour after the first call's EXPIRE, so two bodies are an hour less the first body's delay apart unless SETNX failed for one of the calls |
| `Dedup.DelayIsTheExactLoss` | src/logs/eventbridge.service.ts:187-217 | that bound is met by a run for every delay: a delay of an hour makes both bodies run at one instant although every command was answered |
| `Dedup.FailingSetnxRunsTwice` | src/logs/eventbridge.service.ts:178-184 | the run in which it failed and the body ran twice at once |
| `Dedup.OwnerShutsOutOthers` | src/common/redis/redis.service.ts:76-102 | for an hour after a key was created another call counts as new if and only if its own SETNX fails |
| `Dedup.UnfinishedCallOwnsForever` | src/common/redis/redis.service.ts:87-91 | a call that dies before EXPIRE, or whose EXPIRE fails, shuts out all later ones for good |
| `Dedup.CheckSwallowsProcess` | lambda/index.ts:23-55 | after a check that claimed the key the body of the same event does not run within the hour |
| `NodeCommands.GenerateEnvironmentSetupCommands` | src/codebuild/buildspec-generator.service.ts:319-339 | one export per variable in entry order, then the file to source |
| `NodeCommands.EmptyInstallExactlyWhen` | src/codebuild/buildspec-generator.service.ts:341-377 | the install conditional has an empty step if and only if a clean install names a package manager other than npm, yarn and pnpm |
| `NodeCommands.EmptyBuildExactlyWhen` | src/codebuild/buildspec-generator.service.ts:379-439 | the webpack conditional has one if and only if the manager is another, the vite conditional if there is no base path to set either |
| `BuildSpec.GroupNodesByType` | src/codebuild/buildspec-generator.service.ts:195-209 | a stable partition: each group is the subsequence of its nodes, and a group without nodes has no entry |
| `BuildSpec.GenerateBuildSpec` | src/codebuild/buildspec-generator.service.ts:27-182 | pushes, unshift and splice end in the compiled specification |
| `BuildSpec.SpecDependsOnGroupOrderOnly` | src/codebuild/buildspec-generator.service.ts:72-180 | well-placed lists with the same five group subsequences compile alike, however they are interleaved and whatever else they hold |
| `BuildSpec.FindInGroup` | src/codebuild/buildspec-generator.service.ts:72-103 | searching the whole list for a block that one group holds is searching that group |
| `BuildSpec.SameSpecExactlyWhenSameFinds` | src/codebuild/buildspec-generator.service.ts:72-180 | lists with the same five group subsequences compile alike if and only if the searches for version, package manager and image build command find the same |
| `BuildSpec.MisplacedVersionMatters` | src/codebuild/buildspec-generator.service.ts:72-89 | two such lists that differ: a version outside every group, found by position |
| `BuildSpec.PhasesAreTheLayout` | src/codebuild/buildspec-generator.service.ts:34-180 | the three phases in a row are the fourteen stages in order: nothing lost, added or moved |
| `BuildSpec.PhaseOrder` | src/codebuild/buildspec-generator.service.ts:34-180 | login before docker build before tests before docker push before notifications, and nodes in list order inside a section |
| `BuildSpec.EveryContributionSurvives` | src/codebuild/buildspec-generator.service.ts:105-180 | each node's commands and each fixed stage appear exactly as generated, and nodes of other groups give none |
| `BuildSpec.ContributionsAreContiguous` | src/codebuild/buildspec-generator.service.ts:105-180 | each contribution is one block |
| `BuildSpec.CommandCount` | src/codebuild/buildspec-generator.service.ts:34-180 | the number of commands is 23, the conditional blocks, and the sum of the nodes' contributions |
| `BuildSpec.ManagersAgreeExactlyWhenKnown` | src/codebuild/buildspec-generator.service.ts:91-103 | build host and image install the same package manager if and only if it is npm, yarn or pnpm |
| `BuildSpec.ImageUsesInstalledVersion` | src/codebuild/buildspec-generator.service.ts:574-607 | the Dockerfile read back from the last pre_build command starts from the node version that pre_build installs if and only if that version is a single line, whatever the build command |
| `Dockerfile.GenerateDockerfileScript` | src/codebuild/dockerfile-generator.ts:10-66 | the conditional pushes and joins end in the script of the Dockerfile's lines |
| `Dockerfile.ScriptTellsBuildCommand` | src/codebuild/dockerfile-generator.ts:42-66 | for one version and package manager the script determines the build command |
| `Dockerfile.HereDocumentRoundTrip` | src/codebuild/dockerfile-generator.ts:59-66 | a shell reads the same list of lines out of a here-document if and only if no line breaks itself |
| `Dockerfile.DockerfileArrivesIntact` | src/codebuild/dockerfile-generator.ts:10-66 | so the Dockerfile arrives intact if and only if version and build command are single lines; no generated line is the delimiter |
| `Routing.FindRule` | src/deployment/deployment.service.ts:607-614 | the rule found carries the host, and none found means no rule carries it |
| `Routing.Cloud.SetupTargetGroup` | src/deployment/deployment.service.ts:525-589 | an existing group of that name is reused, otherwise one is created |
| `Routing.Cloud.SetupAlbRouting` | src/deployment/deployment.service.ts:596-661 | the host's rule is pointed at the group, or a rule is added |
| `Routing.Cloud.DeployAfterBuild` | src/deployment/deployment.service.ts:66-237 | the effects in order, cut off wherever the deploy throws |
| `Routing.Cloud.CleanupAlbRules` | src/deployment/pipeline-cleanup.service.ts:123-170 | the loops over one listing of the rules, abandoned at the first rule that is already gone |
| `Routing.Cloud.CleanupTargetGroups` | src/deployment/pipeline-cleanup.service.ts:175-196 | each recorded group is deleted unless a rule still forwards to it |
| `Routing.Cloud.CleanupEventBridgeRules` | src/deployment/pipeline-cleanup.service.ts:255-278 | both event rules of each deployment are gone |
| `Routing.Cloud.DeletePipeline` | src/deployment/pipeline-cleanup.service.ts:31-80 | the whole clean-up, in its order, and nothing else |
| `Routing.InvariantHolds` | src/deployment/deployment.service.ts:112-213 | in every run of creating, deploying, completing and deleting, cut-off deploys included: urls, groups and ids stay apart and records tell the truth |
| `Routing.RoutesLeadHome` | src/deployment/deployment.service.ts:525-661 | at most one rule per host, and a rule has a pipeline's host if and only if it forwards to that pipeline's own group |
| `Routing.DeployedIsRouted` | src/deployment/deployment.service.ts:112-148 | a deploy that got past routing leaves a rule from its host to its own group |
| `Routing.UrlNeverChanges` | src/deployment/deployment.service.ts:112-128 | once set, a deployUrl stays for the life of its pipeline, over every run |
| `Routing.CleanupIsExact` | src/deployment/pipeline-cleanup.service.ts:31-297 | after a finished deploy, clean-up removes exactly the pipeline's rule, group, service, event rules and records, and everything else is as it was |
| `Routing.OthersKeepEventRules` | src/deployment/pipeline-cleanup.service.ts:255-278 | another pipeline's deployment keeps its event rules |
| `Routing.CleanupOfRouting` | src/deployment/pipeline-cleanup.service.ts:123-196 | rule and group go together or not at all, although a group in use cannot be deleted and a second deletion throws |
| `Routing.CleanupLeavesNothingExactlyWhen` | src/deployment/pipeline-cleanup.service.ts:123-196 | nothing is left behind if and only if some deploy finished or none got as far as creating anything |
| `Routing.CutOffDeployLeaks` | src/deployment/deployment.service.ts:140-213 | the run that leaves a rule and a group behind |
| `RoutingSteps.RoutesLeadHomeThroughout` | src/deployment/deployment.service.ts:66-237 | with deploys and clean-ups of different pipelines interleaved effect by effect, a host has one rule at most, and a rule has a pipeline's host if and only if it forwards to that pipeline's own group |
| `RoutingSteps.PlacedRuleStays` | src/deployment/deployment.service.ts:146-213 | from the moment a deploy placed its rule it can go on to rely on it, whatever the other jobs do |
| `RoutingSteps.JobsKeepToThemselves` | src/deployment/pipeline-cleanup.service.ts:31-297 | no move of one pipeline's job changes another's URL, target group or records, or whether its host has a rule |
| `RoutingSteps.DeletionsSpareOthers` | src/deployment/pipeline-cleanup.service.ts:87-278 | no deletion takes the service or an event rule of another pipeline |
| `RoutingSteps.FinishedCleanupLeavesNothing` | src/deployment/pipeline-cleanup.service.ts:123-196 | a clean-up that found a finished deploy leaves no rule and no group of its pipeline, although others were deployed and cleaned up in between |
| `RoutingSteps.UninterruptedDeployIsDeploy` | src/deployment/deployment.service.ts:66-237 | the effects of a deploy with nothing in between are the whole deploy |
| `RoutingSteps.UninterruptedCleanupIsCleanup` | src/deployment/pipeline-cleanup.service.ts:31-80 | the deletions of a clean-up with nothing in between are the whole clean-up |
| `RefreshTokens.Expiry` | src/auth/auth.service.ts:70-72 | a new token expires within (now + TTL - 1 s, now + TTL] |
| `RefreshTokens.AuthService.Login` | src/auth/auth.service.ts:198-252 | one more live token for the user, nothing else changed |
| `RefreshTokens.AuthService.LoginByRefresh` | src/auth/auth.service.ts:32-105 | revoke, issue and sweep, with both refusals |
| `RefreshTokens.AuthService.DeleteObsolete` | src/auth/auth.service.ts:82-89 | the rows left by the clean-up, in order |
| `RefreshTokens.AuthService.SignOut` | src/auth/auth.service.ts:110-132 | the token's row is revoked if there is one |
| `RefreshTokens.SweepFollows` | src/auth/auth.service.ts:82-89 | the clean-up never touches a token that would be accepted |
| `RefreshTokens.TableAnswersAsLedger` | src/auth/auth.service.ts:32-132 | over every run the table answers as the full history of tokens does: a session exactly for a token issued, unused, not logged out and not expired |
| `RefreshTokens.TokenIsUsedAtMostOnce` | src/auth/auth.service.ts:40-66 | over every run a token string opens at most one session by refresh |
| `RefreshTokens.OneUnrevokedTokenPerLogin` | src/auth/auth.service.ts:60-80 | of all tokens descending from one login only the last can be unrevoked |
| `RefreshTokens.RefreshConservesTokens` | src/auth/auth.service.ts:40-89 | a refresh leaves every user's number of unrevoked tokens as it was, and a refusal for expiry takes one from its owner |
| `PercentEncoding.RoundTrip` | src/logs/logs.gateway.ts:567-567 | decoding what was encoded gives the same text, for every text, through one to four bytes per character |
| `PercentEncoding.EncodedIsSafe` | src/logs/logs.gateway.ts:564-567 | encoded text holds no separator and no blank |
| `Cookies.ParseCookies` | src/logs/logs.gateway.ts:559-575 | the loop gives what reading the parts from left to right up to the first undecodable value gives |
| `Cookies.ParseReadsHeader` | src/logs/logs.gateway.ts:559-575 | for every list of writable pairs, values with '=' and undecodable ones included, each key gets the last value before the first pair that fails to decode |
| `Cookies.AllReadableExactlyWhenAllDecode` | src/logs/logs.gateway.ts:563-572 | the whole list counts if and only if every value decodes |
| `Cookies.CookieRoundTrip` | src/logs/logs.gateway.ts:559-575 | any texts, encoded under any clean keys, come back as the last-wins map |
| `Cookies.ParsedKeysAreClean` | src/logs/logs.gateway.ts:564-568 | whatever the header, no key found holds a separator, is empty or starts with a blank |
| `Cookies.SurvivesExactlyWhenClean` | src/logs/logs.gateway.ts:559-575 | a value written under a key is found again if and only if the key is clean and not `__proto__` |

## Left out

- LogPolling.StoredIsPrefixExactlyWhenClean: assumes one poller per execution and ticks that do not overlap; the interval starts an async body every second and a second start replaces the map entry, so the code enforces neither.
- LogPolling.Poller.Tick: the three-second wait before the first poll is timing only, and the phase and step labels of a log are not modelled (`parseLogPhaseAndStep` lets BUILD shadow POST_BUILD).
- LogSubscription.TwoThousandDistinctTimesSuffice: needs distinct timestamps, because the query leaves the order of equal ones open, and every row announced; the exact condition is LogSubscription.NoGapExactlyWhenHistoryReaches.
- LogSubscription.SubscriberMissesNothing: speaks of the logs that are announced; rows that a recovery saved, or a save that threw after its commit, are announced to nobody (LogSubscription.UnannouncedOnlyThroughHistory).
- LogIngestion.RowsArePrefixExactlyWhenNothingResaved: one recovery at a time; scheduled and manual recoveries of one execution that overlap each other are not covered.
- LogSubscription.LogsGateway.HandleSubscribe: one client and one execution, subscribing once; the gateway treats all others the same.
- CombinedLogs.PagesPartitionExactlyWhenFitting: pages while there are rows; past the last row the ring answers, which is CombinedLogs.RingViewExactlyWhenUncut.
- CombinedLogs.GetCombinedExecutionLogs: which deploy execution the deployment logs come from, and reading them, are its parameter.
- Deployments.DeploymentTracker.HandleEvent: a lookup and the write that follows are one step; the lookup by ARN takes the LIKE pattern as a plain substring.
- Deployments.SettledForever: deleting a pipeline deletes its deployment records; permanence is that of a record while it exists.
- Deployments.DeploymentTracker.CompleteDeployment: removing the event rules afterwards is in Routing, as a step of its own.
- Executions.LogsService.ProcessCodeBuildEvent: finding the row and writing it are one step, and restarting the poller is not part of the row.
- Executions.LogsService.CheckStaleExecutions: the log recovery inside it is LogRecovery, and the metadata it writes are parameters.
- Dedup.NewVerdictsAreAnHourApart: assumes that Redis does not evict keys early.
- Dedup.RedisService.RunHandler: what the handlers do is in the modules about executions and deployments; an unsupported source is turned away before the check.
- NodeCommands: the local arrays that single generators push to are expressions here, except for the loop over environment variables.
- BuildSpec.GenerateBuildSpec: JSON.stringify, group names that collide with Object.prototype, and what a shell does with the commands.
- Routing.InvariantHolds: a deploy and a clean-up are one step each, and RoutingSteps takes them apart; pipeline ids differ within twenty characters and generated URLs are new, as random ids and hashes make them.
- RoutingSteps.JobsKeepToThemselves: one job per pipeline at a time, so two overlapping deploys of one pipeline are not covered; the loop over the listener's rules is one deletion, and so is that over the target groups.
- Routing.CleanupIsExact: AWS errors other than a missing rule and a group in use; Route53 records, rule priorities, waiting for tasks to stop, and what happens inside the ECS service.
- RefreshTokens.TokenIsUsedAtMostOnce: every call is one transaction; the code finds and saves separately, so two overlapping calls can both succeed.
- RefreshTokens.AuthService.Login: new tokens are taken as never issued before; users, access tokens and response cookies are not modelled.
- Cookies.ParseCookies: characters are Unicode scalar values, so a header with a lone surrogate is out; reading a key inherited from Object.prototype is the caller's matter.
- LogPolling: lower-casing beyond ASCII in the detection of log levels.
- Buffer statistics per execution, log retention and archives, and log queries other than the combined view.
- Subnet selection, project and webhook set-up, GitHub integration, access control beyond admission to a room, controllers, the SDK, seeders and migrations.
