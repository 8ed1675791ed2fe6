# Reliability and ownership protocols of Betterfly2

Betterfly2 is a chat back end made of services that talk over Kafka, Redis and PostgreSQL. This project models the
protocols that keep those services consistent, and proves what they promise. A Redis script is one atomic step, and so is
a PostgreSQL transaction that locks the rows it decides on; transactions that check without a lock and write later are
split there. Every step carries the time it happens at, fencing tokens are fresh, and a worker may stop between any two of
its steps. Theorems quantify over all runs: sequences of steps that the surroundings permit.

| files | what they model |
|---|---|
| `Outbox`, `Pipeline` | transactional inbox and outbox, the leased relay, retention cleanup, exactly-once effects |
| `ConsumerLoop` | the Kafka consumer loop: retries, waits, dead letters, marked offsets |
| `TimeFormat` | fixed-width time texts and the calendar behind them |
| `CallSessions`, `CallResponses`, `CallRuns` | the two call scripts, the call service, the sweeper |
| `CallRelay` | the relay of the call event stream |
| `PushStore`, `PushTables`, `PushEffects`, `PushRuns` | durable push jobs and deliveries, recall, call results, collection |
| `DeviceTokens` | device token registration under its unique indexes |
| `SessionOwnership`, `SessionRuns`, `SessionEffects` | distributed WebSocket sessions and routes, and the session text form |
| `KeyedLock` | the reference-counted lock per key |
| `Groups`, `GroupEffects`, `GroupRuns`, `GroupRaces` | groups, members, succession, ownership transfer, and checks overtaken by commits |
| `Relationships`, `RelationEffects`, `RelationRuns` | friendships and requests |
| `KeysetSync`, `Recalls` | keyset pagination of message sync, read rights, message recall |
| `Migrations` | the schema migration ledger |
| `AbCache`, `AbStaleness`, `Traffic`, `Versions` | A/B evaluation: generation-tagged caches and how old they get, traffic buckets, version ranges |
| `Common` | shared small types |

State that the source changes in place is a class; its methods are proved equal to functions on a value (for the keyed
lock and the evaluation cache, to the steps of the concurrent model they belong to), and the theorems are about those
functions. `CallResponses`, `AbStaleness` and the `...Effects` files say what each of them does in terms of the rows and keys
alone: who may, what changes, what stays, and which refusal everybody else gets. `dafny verify dfyconfig.toml` checks
everything.

## Where the obvious statement is false

- Ring deadlines are indexed in whole seconds but compared in full precision, so a sweep in the deadline's own second drops
  the index entry of a call that is not due. `CallRuns.IndexedIffWholeSecond` gives the exact condition.
- The operation ledger of calls need not outlive the Kafka replay window when the two differ by less than the millisecond
  Redis keeps: `CallSessions.Normalize` has the condition.
- The override cache key joins its parts with ':', so an evaluation can be answered with another subject's overrides.
  `AbCache.OwnOverridesIff` says exactly for which subjects that never happens, `AbCache.ColonsResplit` what it means for
  plain texts, and its proof runs the two evaluations that share a load.
- A snapshot need not be one version of the store, because it comes from two queries: `AbCache.MixedSnapshot`. Both are as
  new as `AbCache.ReadYourWrites` promises.
- A recall request without a remaining target returns before it ends any delivery: `PushRuns.RecallNeedsTarget`, with the
  run `PushRuns.RecallWithoutTarget`.
- An outbox row need not have its inbox row once retention has passed: `Pipeline.RowOutlivesInbox`,
  `Pipeline.RowHasInboxWhileRetained`.
- Retention longer than the replay window does not make effects happen once. The window belongs to each copy of a message,
  and a relay that crashed between publish and mark publishes a later copy: `Pipeline.RepublishTakesEffectTwice`. A copy is
  harmless if and only if it closes within the retention of the last effect (`Pipeline.CopyIsSilentIff`,
  `Pipeline.RepeatsIffLateCopy`), and with only such copies effects happen once (`Pipeline.TakesEffectOnce`).
- A call job can get a second result event that contradicts the first. A copy of the call request that comes when inbox row,
  job and result row are all gone is answered "expired": `PushRuns.OppositeResults`. That happens if and only if such a copy
  comes (`PushRuns.OneResultIff`). Call operations themselves run once however late their copies come
  (`CallRuns.OperationsRunOnce`).
- A session is read back from its text only without '|' in container and token: `SessionOwnership.ParseEncodeIff`.
- The source sets no isolation level, so under PostgreSQL's default an acceptance can fall between the check and the insert
  of a friend request, or between the two updates of a removal. Friendship is mutual, and requests are never pending
  between friends, if and only if that does not happen (`RelationRuns.OrderlyIff`, `RelationRuns.MutualIff`);
  `RelationRuns.CheckThenInsertRace` and `RelationRuns.HalfRemoved` are runs where it does. The one-directional check
  relies on mutuality (`RelationRuns.OneDirectionSuffices`).
- For the same reason a group can lose its owner or get two: `GroupRaces.KickedOwner`, `GroupRaces.RevivedTwice`. Ownership
  holds throughout a run if and only if no transfer, succession, deletion or revival takes away the guard of an operation
  between its check and its write (`GroupRaces.OwnershipIffNoRace`);
  `GroupRuns` has what holds when transactions do not overlap.
- Role changes move the visible history of members whose row has no joining time: `KeysetSync.RoleChangeKeepsVisible`.
- The text order of times holds between years of equal width only: `TimeFormat.TextOrderIsTimeOrder`,
  `TimeFormat.OrderBreaksAfterYear9999`.

## Assumptions

One clock; Kafka delivers a message only within its replay window, counted from the time it accepted that message, and
gives every message a place of its own; a call request is published while its call rings, and an operation always asks the
same; digests, ids and cache keys built from decimal numbers are injective, and a topic is
not named so that a place in Kafka reads like an event id; tokens are fresh; stream and claim scans, which are ordered,
limited and lock-skipping, are given by what they picked.

## Model

| member | source | states |
|---|---|---|
| `CallSessions.Normalize` | services/callService/internal/call/store.go:86-103 | for every configuration the retention exceeds the Kafka replay window; in the whole milliseconds Redis keeps, and with a usable active time, exactly under the stated condition |
| `CallSessions.RedisStore.CreateSessionWithEvents` | services/callService/internal/call/store.go:22-43 | the create script in place: a replay or a live busy key of either party leaves every key alone; otherwise session, both busy keys, deadline, ledger and stream change together |
| `CallSessions.RedisStore.TransitionSessionWithEvents` | services/callService/internal/call/store.go:45-75 | the compare-and-set script in place: it writes only over exactly the expected session, and releases or extends only busy keys that name this call |
| `CallSessions.RedisStore.XAdd` | services/callService/internal/call/store.go:35-41 | appends the batch to the stream in order |
| `CallSessions.RedisStore.DeleteIfOwned` | services/callService/internal/call/store.go:59-61 | a busy key is deleted only while it names this call |
| `CallSessions.RedisStore.PExpire` | services/callService/internal/call/store.go:62-65 | a live key gets the new expiry, an absent one stays absent |
| `CallSessions.RedisStore.ExpiredRinging` | services/callService/internal/call/store.go:237-262 | returns exactly the live, due, ringing sessions among the ids, in order, and drops exactly the other ids from the index |
| `CallSessions.DueMembers` | services/callService/internal/call/store.go:244-260 | a session is returned if and only if it is live, ringing and past its deadline at full precision |
| `CallSessions.DueDistinct` | services/callService/internal/call/store.go:237-262 | distinct ids give distinct sessions |
| `CallSessions.CallService.Respond` | services/callService/internal/call/service.go:330-505 | accept, reject, hangup and push results, after a reading of any age: decide from it and commit exactly the decided transition, or leave the store alone |
| `CallSessions.CallService.ExpireOne` | services/callService/internal/call/service.go:97-118 | a timeout is the transition of the session read to ended, with reason timeout, under its own operation: session, busy keys, index, ledger and stream |
| `CallSessions.CallService.SweepExpired` | services/callService/internal/call/service.go:89-121 | the whole store after a sweep is that after the timeouts one by one, up to the first call whose routes cannot be read; a sweep that reports success ended every due call, and no other session changes |
| `CallResponses.AcceptDoes` | services/callService/internal/call/service.go:330-383 | an accept is answered if and only if it comes from the callee, while the call rings and before its deadline; with the caller online it commits the active session with the answer if and only if both busy keys name the call, and session and busy keys live for the active time; with the caller offline it ends the call as disconnected; everything else is refused with the stated reason and changes nothing |
| `CallResponses.RejectDoes` | services/callService/internal/call/service.go:385-412 | a reject ends the call as rejected with its message if and only if it comes from the callee while the call rings; busy keys of the call go, and the session stays for five minutes |
| `CallResponses.HangUpDoes` | services/callService/internal/call/service.go:414-441 | a hang-up ends the call if and only if it comes from a party before the end; no reason, a rejection and a timeout count as a hang-up |
| `CallResponses.PushFailedDoes` | services/callService/internal/call/service.go:469-505 | a failed push ends a call that rings between these two, as cancelled, and is ignored otherwise |
| `CallResponses.ExpireDoes` | services/callService/internal/call/service.go:89-121 | a timeout ends a call exactly if it rings and its deadline has come |
| `CallResponses.SweepTimesOut` | services/callService/internal/call/service.go:97-118 | what the sweep commits for a ringing call is that timeout |
| `CallResponses.CreateDoes` | services/callService/internal/call/store.go:112-137 | a call is started if and only if its operation has not run, neither party is busy, and a millisecond of life is left; then session, busy keys, index, ledger and stream are exactly these, with these expiries |
| `CallResponses.ReadsIff` | services/callService/internal/call/store.go:222-235 | a session is read exactly while its key has not expired |
| `CallRuns.InitiateEffect` | services/callService/internal/call/store.go:22-43 | what a create may change, and that nobody was busy before it |
| `CallRuns.CommitEffect` | services/callService/internal/call/service.go:330-505 | what any accepted request may change: the call moves on in phase and keeps its parties and deadline |
| `CallRuns.StepIsService` | services/callService/internal/call/service.go:330-505 | each step of a run is what the service does to the store, noted exactly when it took effect |
| `CallRuns.StepKeepsInv` | services/callService/internal/call/store.go:22-75 | every step keeps all parts of the call invariant, however late a copy of an accept, reject, hangup or push result comes |
| `CallRuns.RunKeepsInv` | services/callService/internal/call/store.go:22-75 | the invariant holds after every run of racing requests, sweepers and push failures |
| `CallRuns.ActiveCallsExclude` | services/callService/internal/call/store.go:45-75 | no two live active calls share a user |
| `CallRuns.EveryRunIsSafe` | services/callService/internal/call/store.go:22-75 | in every run, with copies of any age: calls exclude each other, busy keys name live unfinished calls with that user, phases only move ringing, active, ended, each operation appends one batch |
| `CallRuns.OperationsRunOnce` | services/callService/internal/call/store.go:22-75 | whatever delivers an operation again after it ran changes nothing, even when the ledger has forgotten it |
| `CallRuns.BusyRefusal` | services/callService/internal/call/store.go:26-28 | a create is refused only because a party is in a live ringing or active call, and is refused if one is active |
| `CallRuns.ReplayedIff` | services/callService/internal/call/store.go:22-52 | a delivery is answered as a replay, and changes nothing, if and only if its operation ran and its ledger entry has not expired |
| `CallRuns.ReplayIsSilent` | services/callService/internal/call/store.go:23-25 | inside the replay window a committed operation is answered from the ledger and changes nothing |
| `CallRuns.RunGrowsTrail` | services/callService/internal/call/service.go:330-505 | phases already passed are never rewritten |
| `CallRuns.StaleReadingLoses` | services/callService/internal/call/store.go:45-52 | a commit based on an older phase changes nothing |
| `CallRuns.WinnerMovesOn` | services/callService/internal/call/store.go:45-75 | the commit that succeeds adds a phase |
| `CallRuns.OneWinner` | services/callService/internal/call/service.go:330-505 | of racing accept, reject, hangup, timeout and push failure that read the same session, exactly the first wins, whatever runs in between |
| `CallRuns.RunKeepsDeadline` | services/callService/internal/call/service.go:330-505 | no run changes the deadline of a call |
| `CallRuns.EarlySweepDrops` | services/callService/internal/call/store.go:237-262 | a sweep in the deadline's own second drops the index entry of a call that is not due yet |
| `CallRuns.IndexedIffWholeSecond` | services/callService/internal/call/store.go:117-129 | a ringing call keeps its index entry in every run if and only if its deadline is a whole second |
| `CallRelay.EventRelay.Process` | services/callService/internal/call/event_relay.go:97-135 | the batch loop is the fold of single deliveries up to the first failure, and reports success only when all were handled |
| `CallRelay.HandleDoes` | services/callService/internal/call/event_relay.go:106-134 | a corrupt entry is only acknowledged; another one reaches the broker unless a live mark says it has, and is then marked, acknowledged and deleted together; which faults leave what undone |
| `CallRelay.BatchStopsAtFailure` | services/callService/internal/call/event_relay.go:97-135 | a batch is handled in order up to and including the first entry that is not finished |
| `CallRelay.HandleIsSteps` | services/callService/internal/call/event_relay.go:110-131 | handling one entry is look-up, publish unless marked, and settle; a corrupt one is discarded |
| `CallRelay.StepKeepsInv` | services/callService/internal/call/event_relay.go:97-135 | entries leave the stream, and marks are set, only after the broker has the event |
| `CallRelay.RunKeepsInv` | services/callService/internal/call/event_relay.go:54-94 | the same over every run of several crashing relays |
| `CallRelay.NoCallEventIsLost` | services/callService/internal/call/event_relay.go:97-135 | every appended event is in the stream or with the broker, and the broker has nothing else |
| `CallRelay.MarkedIsNotPublishedAgain` | services/callService/internal/call/event_relay.go:110-131 | once marked and with no publish in flight, no further copy is published until the mark expires |
| `PushStore.WorkerUpdate` | services/pushService/internal/push/worker.go:229-278 | the update a worker reports: which outcome is sent, permanent, failed or retryable, when it is tried again, with which error, and that only an invalid token is deactivated |
| `PushEffects.MessageReply` | services/pushService/internal/push/durable_store.go:186-202 | which message jobs are invalid, ignored, in conflict or enqueued; all but the last change nothing |
| `PushEffects.MessageReaches` | services/pushService/internal/push/durable_store.go:22-37 | a message job adds a pending delivery for token t if and only if it is an active APNs token of a target other than the sender, the message is to a group or the user has not muted the sender, and there was no row; every other row stays |
| `PushEffects.RecallReply` | services/pushService/internal/push/durable_store.go:228-260 | which recall jobs are invalid, ignored, in conflict or enqueued |
| `PushEffects.RecallReaches` | services/pushService/internal/push/durable_store.go:39-52 | a recall job adds a delivery under the negated message id for exactly the active APNs tokens of targets other than the operator, ends the outstanding deliveries of the message, and completes its message jobs |
| `PushEffects.CallReply` | services/pushService/internal/push/durable_store.go:309-326 | which call jobs are invalid, in conflict or enqueued |
| `PushEffects.CallReaches` | services/pushService/internal/push/durable_store.go:54-59 | a call job adds a delivery for exactly the active VoIP tokens of the callee without a row, and only before the call expires; without any it is completed with a negative result |
| `PushEffects.ExpireDoes` | services/pushService/internal/push/delivery_store.go:164-199 | a row fails exactly if its attempts are used up and its lease or delay has run out |
| `PushEffects.ExpireCompletes` | services/pushService/internal/push/delivery_store.go:201-221 | then exactly the jobs of these rows that are idle complete, with the result of a call job |
| `PushEffects.TakeDoes` | services/pushService/internal/push/delivery_store.go:19-77 | a picked row is taken exactly if it is free, has attempts left and its job is pending |
| `PushEffects.ClaimDoes` | services/pushService/internal/push/delivery_store.go:107-162 | a claim is expiry, then taking, or nothing when an exhausted row has lost its job |
| `PushEffects.FinalizeReply` | services/pushService/internal/push/delivery_store.go:222-284 | a report is recorded if and only if row, job, token and attempt are those of the claim |
| `PushEffects.FinalizeDoes` | services/pushService/internal/push/delivery_store.go:222-290 | then the row carries the outcome, an invalid token is deactivated, and the job completes exactly when idle |
| `PushEffects.CollectDoes` | services/pushService/internal/push/cleanup.go:75-111 | collection removes exactly picked rows of jobs completed before the cutoff, and such jobs without rows |
| `PushEffects.RecallMarks` | shared/db/util_message.go:84-142 | a message becomes recalled exactly by its sender, once, within two minutes |
| `PushTables.GormStore.PersistMessageJob` | services/pushService/internal/push/durable_store.go:186-226 | a job and one pending delivery per active device of an unmuted target, or nothing for a recalled message |
| `PushTables.GormStore.PersistMessageRecallJob` | services/pushService/internal/push/durable_store.go:228-296 | the recall job supersedes the message's deliveries and notifies the targets' devices |
| `PushTables.GormStore.SupersedeMessage` | services/pushService/internal/push/durable_store.go:255-275 | every outstanding ordinary delivery of the message ends, and its message jobs complete |
| `PushTables.GormStore.PersistVoIPJob` | services/pushService/internal/push/durable_store.go:309-351 | a call job with one delivery per device, or completed at once with a negative result |
| `PushTables.GormStore.CompleteJobIfTerminal` | services/pushService/internal/push/delivery_store.go:201-221 | a pending job completes exactly when no delivery of it is outstanding |
| `PushTables.GormStore.InsertJob` | services/pushService/internal/push/durable_store.go:211-225 | the job and its deliveries appear together |
| `PushTables.GormStore.ClaimDeliveryBatch` | services/pushService/internal/push/delivery_store.go:107-162 | exhausted rows expire and complete their jobs first, then claimable rows get one fresh token, lease and attempt; a missing job rolls everything back |
| `PushTables.GormStore.FinalizeDelivery` | services/pushService/internal/push/delivery_store.go:222-284 | an outcome is recorded only under the current token and attempt; otherwise nothing changes |
| `PushTables.GormStore.CleanupCompletedDeliveries` | services/pushService/internal/push/cleanup.go:65-121 | only deliveries of old completed jobs, and old completed jobs without deliveries, are removed |
| `PushRuns.AddsJobLinks` | services/pushService/internal/push/durable_store.go:186-226 | a new job keeps links, names, counters and recalls |
| `PushRuns.AddsJobCompletes` | services/pushService/internal/push/durable_store.go:186-226 | a new job is pending exactly when it got a delivery |
| `PushRuns.SupersedeJobs` | services/pushService/internal/push/durable_store.go:255-275 | superseding ends the jobs of that message and no others |
| `PushRuns.ProgressKeeps` | services/pushService/internal/push/delivery_store.go:107-242 | moving rows on and completing the touched jobs keeps the whole invariant |
| `PushRuns.ExpireKeeps` | services/pushService/internal/push/delivery_store.go:164-199 | expiry of exhausted rows keeps it |
| `PushRuns.TakeKeeps` | services/pushService/internal/push/delivery_store.go:19-77 | claiming keeps it |
| `PushRuns.FinalizeKeeps` | services/pushService/internal/push/delivery_store.go:222-284 | finalizing keeps it |
| `PushRuns.CollectRowsKeeps` | services/pushService/internal/push/cleanup.go:75-100 | collecting deliveries keeps it |
| `PushRuns.CollectJobsKeeps` | services/pushService/internal/push/cleanup.go:100-111 | collecting jobs keeps it |
| `PushRuns.StepKeepsInv` | services/pushService/internal/push/durable_store.go:186-351 | every step keeps the push invariant |
| `PushRuns.RunKeepsInv` | services/pushService/internal/push/durable_store.go:186-351 | so does every run |
| `PushRuns.EveryRunIsConsistent` | services/pushService/internal/push/delivery_store.go:122-242 | in every run no delivery dangles, a job is pending if and only if a delivery of it is outstanding, attempts stay within the limit; while calls ring no longer than the inbox remembers, a call job is completed if and only if its result was told, and the result matches the deliveries |
| `PushRuns.RecallWins` | services/pushService/internal/push/durable_store.go:236-282 | after a recall job exists no ordinary delivery of the message is outstanding or claimable, and an earlier claimant is fenced and changes nothing |
| `PushRuns.RecallNeedsTarget` | services/pushService/internal/push/durable_store.go:246-249 | a first valid recall silences the message if and only if it has a target to notify or there was nothing to silence |
| `PushRuns.RecallWithoutTarget` | services/pushService/internal/push/durable_store.go:246-249 | a run in which a recalled message keeps an outstanding delivery, because the request names only the operator |
| `PushRuns.LastReportDecides` | services/pushService/internal/push/delivery_store.go:300-349 | a report writes the result event of a call job if and only if it settles the last outstanding delivery, and accepted says exactly whether this or another delivery was sent |
| `PushRuns.ResultIsFinal` | services/pushService/internal/push/delivery_store.go:300-349 | no result is taken back; a run adds exactly one event per late copy of the request, and each says that nothing was sent |
| `PushRuns.StepTells` | shared/db/retention.go:59-80 | once a result was told, the next event of the job comes exactly from a copy that finds inbox row, job and result row all gone |
| `PushRuns.OneResultIff` | services/pushService/internal/push/delivery_store.go:300-349 | a call job gets at most one result event in a run if and only if no copy of its request comes after all three rows are gone |
| `PushRuns.OppositeResults` | services/pushService/internal/push/durable_store.go:309-351 | a run in which such a copy makes a second result that contradicts the first |
| `PushRuns.FuelOnlyBurns` | services/pushService/internal/push/delivery_store.go:19-77 | every change of an outstanding delivery burns part of a bounded measure; terminal rows stay terminal |
| `PushRuns.NeverStuck` | services/pushService/internal/push/delivery_store.go:19-77 | an outstanding delivery can be claimed at its ready time, which burns the measure |
| `PushRuns.ForcedToEnd` | services/pushService/internal/push/delivery_store.go:19-77 | claims alone force a delivery to a terminal status within a number of claims fixed by maxAttempts |
| `DeviceTokens.RegisterKeepsUnique` | services/pushService/internal/push/durable_store.go:151-184 | registration keeps both unique indexes, leaves the token on exactly this device, active, and other devices alone |
| `DeviceTokens.RegisterPlaces` | services/pushService/internal/push/durable_store.go:151-184 | the row of the device is the one it had, else the one that had the token, else a new one; no other row is new or changed |
| `DeviceTokens.RegisterIsIdempotent` | services/pushService/internal/push/durable_store.go:151-184 | registering the same token again changes nothing |
| `DeviceTokens.TokenTable.FindSlot` | services/pushService/internal/push/durable_store.go:153-157 | finds the row of the device, or none exists |
| `DeviceTokens.TokenTable.FindToken` | services/pushService/internal/push/durable_store.go:169-172 | finds the row of the token, or none exists |
| `DeviceTokens.TokenTable.RegisterToken` | services/pushService/internal/push/durable_store.go:151-184 | the branches update, take over or create exactly as specified |
| `Outbox.Normalize` | shared/outbox/relay.go:51-74 | the publish deadline always lies inside the lease |
| `Outbox.BackoffDoubles` | shared/outbox/relay.go:214-224 | the delay is min(Initial*2^(attempt-1), Max) |
| `Outbox.LoadRetention` | shared/db/retention.go:22-38 | state is kept longer than Kafka can replay, and as long as configured where that is long enough |
| `Outbox.Tables.ExecuteInboxOutbox` | shared/db/inbox_outbox.go:36-106 | replay, rollback without a trace on any bad event, or inbox row, response and all outbox rows together |
| `Outbox.Tables.ClaimRow` | shared/outbox/relay.go:128-173 | a claim is granted exactly to an eligible row and rewrites only that row |
| `Outbox.Tables.Settle` | shared/outbox/relay.go:111-212 | the outcome is recorded only under the claim token |
| `Outbox.Tables.CleanupReliabilityState` | shared/db/retention.go:59-80 | of each table exactly the picked rows go that are older than the retention, and of these only completed inbox rows and published outbox rows |
| `Outbox.Inserted` | shared/db/inbox_outbox.go:78-90 | exactly the listed events are added, each as a new pending row, and all other rows stay |
| `Outbox.OperationKeyIff` | shared/kafkaconsumer/consumer.go:288-300 | a message goes by its event id exactly if that has a character other than blanks, and by its place otherwise |
| `Outbox.ExecuteReply` | shared/db/inbox_outbox.go:36-106 | which operations are replayed, rolled back or executed; only the last changes anything |
| `Outbox.ExecuteDoes` | shared/db/inbox_outbox.go:73-104 | an executed operation has its inbox row, its response, and a row per event that is due at once and nobody has claimed |
| `Outbox.EligibleIff` | shared/outbox/relay.go:135-142 | a row may be claimed exactly if it waits and is due or its claim has run out; a published one never |
| `Outbox.RelayDoes` | shared/outbox/relay.go:150-212 | what a claim, a publication and a failure write, the last two only under the current token |
| `Outbox.CleanupDoes` | shared/db/retention.go:59-80 | cleanup removes exactly picked inbox rows completed, and picked published outbox rows published, before the cutoff |
| `Pipeline.ConsumeEffect` | shared/db/inbox_outbox.go:50-105 | a consumed message takes effect, which needs its inbox row to be missing, or changes nothing |
| `Pipeline.EffectRepeats` | shared/db/inbox_outbox.go:50-105 | an operation takes effect again only after the retention of its last effect, from a copy still deliverable then |
| `Pipeline.EffectFenced` | shared/db/inbox_outbox.go:78-90 | new rows start unclaimed with no grants |
| `Pipeline.RelayedKeeps` | shared/outbox/relay.go:128-212 | relay bookkeeping never touches content or history |
| `Pipeline.ClaimHolders` | shared/outbox/relay.go:128-173 | a claim leaves every worker inside its lease the holder of its row |
| `Pipeline.SettleSent` | shared/outbox/relay.go:175-187 | published is reached only when the broker has the event |
| `Pipeline.LessensKeeps` | shared/db/retention.go:59-80 | publishing, crashes and cleanup keep the whole invariant |
| `Pipeline.FailuresDo` | shared/outbox/relay.go:188-212 | a failed publish gives the row back with its backoff, if the token is current; a crash leaves the row claimed |
| `Pipeline.StepKeepsInv` | shared/outbox/relay.go:111-212 | every step keeps the pipeline invariant |
| `Pipeline.RunKeepsInv` | shared/outbox/relay.go:111-212 | so does every run |
| `Pipeline.EveryRunIsConsistent` | shared/db/inbox_outbox.go:50-105 | in every run of redeliveries, crashes, several relays and cleanup all parts of the invariant hold: answers, effects, contents, claims and causes |
| `Pipeline.TakesEffectOnce` | shared/db/inbox_outbox.go:50-105 | in every run an operation takes effect at most once if every copy of its message closes within the retention of the first effect |
| `Pipeline.RepeatNeedsLateCopy` | shared/db/retention.go:22-38 | a second effect shows that some copy outlived the retention of the first |
| `Pipeline.PlacedOperationsRunOnce` | shared/db/inbox_outbox.go:50-105 | an operation named by its place in Kafka takes effect at most once in every run |
| `Pipeline.RepublishTakesEffectTwice` | shared/outbox/relay.go:111-126 | a run in which a relay crashes between publish and mark, publishes again past the retention, and one event takes effect twice |
| `Pipeline.RunExtends` | shared/db/inbox_outbox.go:50-105 | what took effect, was sent or was accepted by Kafka stays so |
| `Pipeline.ReplayIsSilent` | shared/db/inbox_outbox.go:60-72 | after any run a redelivery from a copy that closes within the retention of the first effect gets the first response and changes nothing |
| `Pipeline.DuplicatePublishIsSilent` | shared/outbox/relay.go:119-125 | a copy published again after a crash leaves a downstream service that took the first one in untouched if the copy closes within the retention of that effect |
| `Pipeline.CopyIsSilentIff` | shared/db/retention.go:22-38 | a copy whose window is open has no effect in any run if and only if it closes within the retention of the last effect |
| `Pipeline.RepeatsIffLateCopy` | shared/db/retention.go:59-80 | without further copies an operation can take effect again if and only if a copy still deliverable outlives the retention of its last effect |
| `Pipeline.EffectsHaveCauses` | shared/kafkaconsumer/consumer.go:288-300 | the whole chain of operations behind an effect took effect, and each link was sent with the content its cause emitted |
| `Pipeline.NothingIsLost` | shared/outbox/relay.go:111-187 | an event of a committed operation is in the outbox or with the broker after any run |
| `Pipeline.LeasesDoNotOverlap` | shared/outbox/relay.go:154-157 | two workers never both hold an unexpired lease on one event |
| `Pipeline.StaleTokenChangesNothing` | shared/outbox/relay.go:175-199 | a lost claim token changes neither outcome of the row after any run |
| `Pipeline.PublishedIsFinal` | shared/outbox/relay.go:175-187 | a published row never changes; only cleanup removes it |
| `Pipeline.CanAlwaysDeliver` | shared/outbox/relay.go:135-142 | from a bounded time on a worker can claim any unpublished event and deliver it |
| `Pipeline.RowHasInboxWhileRetained` | shared/db/inbox_outbox.go:91-100 | an outbox row has its completed inbox row until the last effect outlives the retention |
| `Pipeline.RowOutlivesInbox` | shared/db/retention.go:66 | a run in which an unpublished row outlives its inbox row |
| `ConsumerLoop.Normalized` | shared/kafkaconsumer/consumer.go:94-114 | settings come out sane and sane settings stay as they are |
| `ConsumerLoop.BackoffDoubles` | shared/kafkaconsumer/consumer.go:211-214 | the loop's doubling is min(Initial*2^k, Max) |
| `ConsumerLoop.ProcessWithRetry` | shared/kafkaconsumer/consumer.go:153-216 | succeeds if and only if some attempt within the limit settles the message; at most MaxRetries+1 runs; the wait before retry k+1 is at least min(Initial*2^k, Max) |
| `ConsumerLoop.SettlesIff` | shared/kafkaconsumer/consumer.go:153-216 | a message settles exactly if some attempt within the limit, after only transient failures in a live session, succeeds, or fails for good and is dead-lettered |
| `ConsumerLoop.ConsumeClaim` | shared/kafkaconsumer/consumer.go:129-151 | marks exactly the longest prefix of settled messages; each marked one succeeded or was dead-lettered |
| `ConsumerLoop.FrontIs` | shared/kafkaconsumer/consumer.go:133-150 | the front of the claim is the longest settled prefix |
| `ConsumerLoop.NothingSkipped` | shared/kafkaconsumer/consumer.go:129-151 | over several sessions everything below the position was settled in one of them |
| `TimeFormat.PadOrder` | shared/db/reliability_time.go:5 | fixed-width digits are ordered as their numbers |
| `TimeFormat.RenderOrder` | shared/db/reliability_time.go:5-11 | texts of one layout are ordered as their fields |
| `TimeFormat.InstantOrder` | shared/db/reliability_time.go:9-11 | calendar fields are ordered as instants |
| `TimeFormat.CivilOfInstant` | shared/db/reliability_time.go:10 | every instant has valid fields that give it back |
| `TimeFormat.FormatReadsBack` | shared/db/reliability_time.go:5-11 | up to the year 9999 the text has the form 2006-01-02T15:04:05.000000Z, and reading its fields gives the instant back to the microsecond |
| `TimeFormat.YearLength` | shared/db/reliability_time.go:10 | the calendar is the Gregorian one: 366 days in years divisible by 4, but not by 100 unless by 400 |
| `TimeFormat.TextOrderIsTimeOrder` | shared/db/reliability_time.go:5-11 | where the years are equally wide, as up to 9999, comparing texts compares times to the microsecond, both ways |
| `TimeFormat.OrderBreaksAfterYear9999` | shared/db/reliability_time.go:5 | past year 9999 the order is reversed |
| `SessionOwnership.ParseEncodeIff` | services/dataForwardingService/internal/redis/distributed_session.go:204-208 | parse undoes encode if and only if container and token contain no '&#124;' |
| `SessionOwnership.LegacyParseIff` | services/dataForwardingService/internal/redis/distributed_session.go:209-214 | an old record is read back if and only if it has fewer than two '&#124;' and no ':' in its container |
| `SessionOwnership.JoinSplit` | services/dataForwardingService/internal/redis/distributed_session.go:205-208 | joining the parts gives the text back |
| `SessionOwnership.RedisSessions.ClaimSessionAndRoute` | services/dataForwardingService/internal/redis/distributed_session.go:28-38 | session, route, member set and lease all move to the new owner |
| `SessionOwnership.RedisSessions.RefreshOwnedSessionAndRoute` | services/dataForwardingService/internal/redis/distributed_session.go:40-52 | both expiries move only when session, route and lease all match |
| `SessionOwnership.RedisSessions.RemoveOwnedSessionAndRoute` | services/dataForwardingService/internal/redis/distributed_session.go:54-68 | only what the caller still owns is removed |
| `SessionOwnership.RedisSessions.GetValidRoute` | services/dataForwardingService/internal/redis/redis.go:21-35 | a leased route is returned, a stale one removed |
| `SessionOwnership.RedisSessions.GetValidRoutes` | services/dataForwardingService/internal/redis/redis.go:37-53 | the loop returns exactly the valid routes of the listed users and removes exactly their stale ones |
| `SessionOwnership.LookupMore` | services/dataForwardingService/internal/redis/redis.go:37-53 | looking up one more user is one single lookup on top |
| `SessionEffects.ClaimDoes` | services/dataForwardingService/internal/redis/distributed_session.go:28-38 | after a claim session and lease live exactly until their times, the user is in the set of the new container and out of that of the previous one, and other users are untouched |
| `SessionEffects.RefreshDoes` | services/dataForwardingService/internal/redis/distributed_session.go:40-52 | a refresh succeeds if and only if session, route and lease are live and the caller's; then session and lease live exactly until now plus their times and nothing else changes; a failed one changes nothing |
| `SessionEffects.RemoveDoes` | services/dataForwardingService/internal/redis/distributed_session.go:54-68 | a removal takes the session, and the route with lease and set entry, each exactly if the caller owns it, and reports whether it took any |
| `SessionEffects.LookupDoes` | services/dataForwardingService/internal/redis/redis.go:21-35 | a look-up answers with the route exactly while a lease of its container lives, and otherwise removes it |
| `SessionEffects.FoundWhileRefreshed` | services/dataForwardingService/internal/redis/distributed_session.go:40-52 | after a claim, in every run without another claim and without a removal under its token, the session lives exactly until the last refresh that came in time has it, and a look-up finds the container exactly while the lease lives |
| `SessionEffects.RefreshingKeepsOwnership` | services/dataForwardingService/internal/redis/distributed_session.go:104-122 | an owner that refreshes inside both lifetimes keeps its session, is found, and its next refresh succeeds |
| `SessionEffects.RemovedStaysAway` | services/dataForwardingService/internal/redis/distributed_session.go:54-68 | after an owner's removal no run without a claim brings session or route back |
| `SessionRuns.RunKeepsInv` | services/dataForwardingService/internal/redis/distributed_session.go:28-68 | mirror and ownership hold after every run |
| `SessionRuns.RoutesFollowLeases` | services/dataForwardingService/internal/redis/redis.go:21-53 | a user is in a container's set if and only if the route map says so; a route is handed out exactly while its lease lives |
| `SessionRuns.SupersededIsPowerless` | services/dataForwardingService/internal/redis/distributed_session.go:40-68 | after another claim, in any later state, the old owner's refresh fails and its remove leaves the whole store unchanged |
| `SessionRuns.RefreshNeedsOwnership` | services/dataForwardingService/internal/redis/distributed_session.go:40-52 | a refresh succeeds only for the last claim, and for it exactly while session and lease live |
| `KeyedLock.KeyedLocker.Reference` | services/dataForwardingService/internal/connection/keyed_lock.go:23-30 | finds or creates the entry and counts one reference: the step in which a thread enters |
| `KeyedLock.KeyedLocker.ReleaseReference` | services/dataForwardingService/internal/connection/keyed_lock.go:44-51 | the entry leaves the map exactly with its last reference: the step in which a thread leaves |
| `KeyedLock.KeyedLocker.Select` | services/dataForwardingService/internal/connection/keyed_lock.go:32-41 | takes a free semaphore, waits on a full one, or gives the reference back: the steps in which a thread takes, or cancels and leaves |
| `KeyedLock.KeyedLocker.Unlock` | services/dataForwardingService/internal/connection/keyed_lock.go:34-37 | drains the semaphore and gives the reference back: the steps in which a thread drains and leaves |
| `KeyedLock.StepKeepsInv` | services/dataForwardingService/internal/connection/keyed_lock.go:22-51 | every step of every thread keeps routing, counts and exclusion |
| `KeyedLock.MutualExclusion` | services/dataForwardingService/internal/connection/keyed_lock.go:22-51 | at most one holder per key in every interleaving, across deleted and recreated entries |
| `KeyedLock.CountsReferences` | services/dataForwardingService/internal/connection/keyed_lock.go:29-50 | the map holds exactly the referenced keys, and refs is holders (at most one) plus waiters plus leavers |
| `KeyedLock.FreeIffUnheld` | services/dataForwardingService/internal/connection/keyed_lock.go:32-37 | a waiter can take the lock if and only if nobody holds its key |
| `Groups.GroupTables.CreateGroupWithOwner` | shared/db/util_group.go:44-98 | creates, or revives a deleted group under the new owner |
| `Groups.GroupTables.AddGroupMember` | shared/db/util_relationship.go:372-389 | joins a live group once |
| `Groups.GroupTables.FindSuccessor` | shared/db/util_group.go:207-214 | the scan finds the one least candidate, or there is none |
| `Groups.GroupTables.RemoveUserFromGroup` | shared/db/util_group.go:177-252 | a leaving owner hands over or the group is deleted; others just leave |
| `Groups.GroupTables.KickGroupMember` | shared/db/util_relationship.go:470-494 | managers kick only below their rank |
| `Groups.GroupTables.UpdateGroupMemberRole` | shared/db/util_relationship.go:496-523 | only the owner changes roles, never to or of an owner |
| `Groups.GroupTables.TransferGroupOwner` | shared/db/util_group.go:305-389 | transfers both rows and the group together, or nothing |
| `Groups.LeastExists` | shared/db/util_group.go:208-213 | some candidate precedes all others |
| `Groups.LeastUnique` | shared/db/util_group.go:208-213 | only one does |
| `GroupEffects.CreateDoes` | shared/db/util_group.go:44-98 | fails exactly for an existing group; otherwise the group is live with its owner, who keeps an old joining time, and other members stay |
| `GroupEffects.JoinDoes` | shared/db/util_relationship.go:372-389 | fails exactly without a live group; who is in it stays as is, who is not becomes an ordinary member |
| `GroupEffects.LeaveDoes` | shared/db/util_group.go:177-252 | who leaves is gone; a lone owner deletes the group, another one hands over to the member who stands before all others |
| `GroupEffects.KickDoes` | shared/db/util_relationship.go:455-494 | owners kick all but owners, admins kick ordinary members, nobody else kicks; which refusal each other case gets |
| `GroupEffects.ChangeRoleDoes` | shared/db/util_relationship.go:462-523 | only an owner changes roles, of members that are not owners, and not to owner; which refusal each other case gets |
| `GroupEffects.TransferDoes` | shared/db/util_group.go:305-389 | a transfer changes the owner in the group and in both rows, or nothing |
| `GroupRuns.StepKeepsInv` | shared/db/util_group.go:44-389 | every operation keeps the ownership invariant |
| `GroupRuns.RunKeepsInv` | shared/db/util_group.go:44-389 | so does every run |
| `GroupRuns.ExactlyOneOwner` | shared/db/util_group.go:44-389 | after any operations a live group has exactly one owner row, that of owner_user_id, and a deleted one no members |
| `GroupRuns.TransferSucceedsIff` | shared/db/util_group.go:369-381 | the final owner count never fails: transfer succeeds exactly when its guards hold |
| `GroupRuns.SuccessionOrder` | shared/db/util_group.go:206-234 | the new owner precedes all other members by admin first, update time, user id; without others the group is deleted |
| `GroupRuns.JoinedAtIsKept` | shared/db/util_relationship.go:466-468 | no operation changes the joining time of somebody who stays |
| `GroupRaces.WithoutGap` | shared/db/util_relationship.go:470-494 | with no commit between its check and its write an operation is the whole transaction |
| `GroupRaces.WriteKeepsIff` | shared/db/util_relationship.go:470-523 | a write keeps ownership if and only if its guard still holds at the write |
| `GroupRaces.ChecksGuard` | shared/db/util_relationship.go:455-464 | the checks establish that guard |
| `GroupRaces.StepKeepsIff` | shared/db/util_group.go:44-389 | locked operations and checks always keep ownership, a late write exactly while its guard holds |
| `GroupRaces.OwnershipIff` | shared/db/util_group.go:44-389 | in a run with interleaved checks and writes ownership holds throughout if and only if every write still finds its guard true |
| `GroupRaces.StepOwner` | shared/db/util_group.go:44-389 | who owns a group changes exactly by a transfer, a succession, a deletion or a revival |
| `GroupRaces.GuardLost` | shared/db/util_relationship.go:470-523 | while ownership held, a guard that is false was taken away inside its gap |
| `GroupRaces.OwnershipIffNoRace` | shared/db/util_group.go:44-389 | ownership holds throughout a run if and only if no transfer, succession, deletion or revival falls into the gap of an operation whose guard it takes away |
| `GroupRaces.ExactlyOneOwner` | shared/db/util_group.go:44-389 | as long as no guard was lost a live group has exactly one owner row |
| `GroupRaces.KickedOwner` | shared/db/util_relationship.go:470-494 | a run in which a kick removes the member who has just become owner: a live group without owner |
| `GroupRaces.RevivedTwice` | shared/db/util_group.go:44-98 | a run in which two revivals of one group leave two owners |
| `Relationships.RelationTables.CreatePendingRequest` | shared/db/util_relationship.go:139-181 | an overdue holder of the key expires, a live one is reused, otherwise a request is created |
| `Relationships.RelationTables.FindHolder` | shared/db/util_relationship.go:148-156 | finds the holder of a key, or nobody holds it |
| `Relationships.RelationTables.ResolveRequest` | shared/db/util_relationship.go:258-325 | decides in the source's order of checks; a failed join leaves nothing behind |
| `Relationships.RelationTables.AddDirectFriendPair` | shared/db/util_relationship.go:352-370 | the loop activates both directions |
| `Relationships.RelationTables.RemoveDirectFriendPair` | shared/db/util_friend.go:19-42 | the loop deletes both directions and reports whether either was active |
| `RelationEffects.CancelDoes` | shared/db/util_relationship.go:331-334 | an open request is cancelled if and only if its requester cancels it; anybody else is refused and nothing changes |
| `RelationEffects.RejectDoes` | shared/db/util_relationship.go:331-344 | an open request is rejected if and only if its target rejects it, or for a join a manager of the group; anybody else is refused and nothing changes |
| `RelationEffects.AcceptFriendDoes` | shared/db/util_relationship.go:258-325 | an open friend request is accepted if and only if its target accepts it; the two are friends both ways then and no other friendship changes |
| `RelationEffects.AcceptIntoGroupDoes` | shared/db/util_relationship.go:258-325 | a request to join is accepted if and only if a manager accepts it and the group is live, an invitation if and only if its target does; then exactly that user is a member |
| `RelationEffects.NotOpenDoes` | shared/db/util_relationship.go:262-287 | an unknown request is not found, a closed one answers only its own decision to its own actor, an overdue one is closed as expired |
| `RelationEffects.RefusedIsSilent` | shared/db/util_relationship.go:288-302 | no refusal changes anything, except that an overdue request is closed; an unknown decision is refused |
| `RelationEffects.AskDoes` | shared/db/util_relationship.go:139-181 | asking expires overdue requests about the same thing; a request for seven days is created exactly if none about the same is left |
| `RelationEffects.FriendCheckIff` | shared/db/util_relationship.go:63-75 | asking for a friendship is refused exactly for oneself, for no user, and for a friend |
| `RelationEffects.SweepsDo` | shared/db/util_relationship.go:419-431 | the sweeps close exactly the pending overdue requests of one user in either part, or of one group |
| `RelationEffects.PartDoes` | shared/db/util_friend.go:19-42 | parting ends the friendship both ways and says whether there was one |
| `RelationRuns.ClosesKeeps` | shared/db/util_relationship.go:177-181 | closing requests keeps keys unique |
| `RelationRuns.AcceptFriendKeeps` | shared/db/util_relationship.go:303-316 | accepting makes exactly that pair friends, both ways, and keeps keys unique |
| `RelationRuns.StepKeepsInv` | shared/db/util_relationship.go:63-389 | every statement of every operation keeps requests keyed |
| `RelationRuns.RunKeepsInv` | shared/db/util_relationship.go:63-389 | so does every run |
| `RelationRuns.OneRequestPerPair` | shared/db/util_relationship.go:139-175 | in every run an unordered pair has at most one pending friend request |
| `RelationRuns.StepActive` | shared/db/util_friend.go:19-42 | friendships begin exactly with acceptances and end exactly with removals |
| `RelationRuns.StepOrderly` | shared/db/util_relationship.go:63-87 | a pair loses its order exactly when the second statement of an ask or removal finds a friendship the first did not see |
| `RelationRuns.ActiveSince` | shared/db/util_relationship.go:67-80 | a friendship seen in the gap of an ask or removal was accepted in that gap |
| `RelationRuns.OrderlyIff` | shared/db/util_relationship.go:63-87 | throughout a run friendship goes both ways and no request is pending between friends, if and only if no acceptance of the pair falls between the two statements of an ask or a removal |
| `RelationRuns.MutualIff` | shared/db/util_friend.go:19-42 | throughout a run friendship goes both ways if and only if no acceptance of the pair falls between the two updates of a removal |
| `RelationRuns.ImmediateIsOrderly` | shared/db/util_relationship.go:63-87 | asks and removals whose statements follow each other directly keep every pair in order |
| `RelationRuns.OneDirectionSuffices` | shared/db/util_relationship.go:183-189 | where no acceptance falls into a removal, the one-directional check refuses exactly the pairs that are friends in either direction |
| `RelationRuns.ResolvedIsFinal` | shared/db/util_relationship.go:272-280 | a resolved request never changes again |
| `RelationRuns.SameDecisionIsSilent` | shared/db/util_relationship.go:272-280 | only the same decision by the same actor succeeds again, and it changes nothing |
| `RelationRuns.AcceptTakesEffect` | shared/db/util_relationship.go:303-316 | an accepted request was open, in time and decided by who may, and the relation exists afterwards |
| `RelationRuns.AskedIsWaiting` | shared/db/util_relationship.go:89-137 | who may ask to join, or be invited, has a pending request in time afterwards |
| `RelationRuns.SweptIsInTime` | shared/db/util_relationship.go:419-431 | after a sweep nothing overdue is pending any more |
| `RelationRuns.CheckThenInsertRace` | shared/db/util_relationship.go:67-80 | a run in which two people ask each other at once and end as friends with a pending request |
| `RelationRuns.HalfRemoved` | shared/db/util_friend.go:19-42 | a run in which an acceptance between the two updates of a removal leaves one direction of the friendship |
| `KeysetSync.PageSize` | shared/db/util_message.go:163-168 | the requested size where that is in 1 to 500, 100 for none, 500 for more |
| `KeysetSync.Ordered` | shared/db/util_message.go:212-213 | lists exactly the rows, each once |
| `KeysetSync.OrderedAscends` | shared/db/util_message.go:212 | the list ascends strictly by timestamp and id |
| `KeysetSync.AscendingUnique` | shared/db/util_message.go:212 | such a list is determined by its rows |
| `KeysetSync.BuildPage` | shared/db/util_message.go:223-235 | cuts one row too many into a page with more to come |
| `KeysetSync.FetchIsPrefix` | shared/db/util_message.go:162-221 | a page is the front of what is after the cursor, cut exactly when there is more |
| `KeysetSync.AfterRow` | shared/db/util_message.go:188 | what is after the last row of a page is the rest |
| `KeysetSync.SyncIsComplete` | shared/db/util_message.go:162-235 | for any page size the pages are together exactly the visible messages after the cursor, once each, in order |
| `KeysetSync.SyncListsIff` | shared/db/util_message.go:169-217 | a whole sync lists a message if and only if it is after the cursor and sent to the user, or to a group at or after the time the user joined it |
| `KeysetSync.ReadableIff` | shared/db/util_message.go:239-259 | a message may be read exactly by its sender and by whom it reaches |
| `KeysetSync.SyncUnderInserts` | shared/db/util_message.go:162-235 | while stores change between fetches, a message visible throughout is listed if and only if it lies after the starting cursor, and the order stays strict |
| `KeysetSync.SyncedMayBeRead` | shared/db/util_message.go:239-259 | readable is exactly visible in sync or sent by oneself |
| `KeysetSync.PagesMayBeRead` | shared/db/util_message.go:239-259 | every synced message may be read by the user |
| `KeysetSync.RoleChangeKeepsVisible` | shared/db/util_relationship.go:466-468 | role changes never alter what a member with a joining time sees; without one they hide exactly the messages in between |
| `Recalls.RecallRights` | shared/db/util_message.go:84-142 | which request recalls, is too late, comes again, is forbidden or finds nothing: a recall happens exactly for the sender, once, within two minutes; who may not read gets the answer for a missing message |
| `Recalls.RecallIsFinal` | shared/db/util_message.go:112-114 | a recall stays as it is after any requests |
| `Recalls.MessageTable.RecallMessageWithDB` | shared/db/util_message.go:84-142 | the branches in order on the locked row |
| `Migrations.LegacyMigrationBackfill` | shared/db/migrations.go:116-142 | completes a ledger whose newest version is at most 3, and reports exactly what was missing |
| `Migrations.PendingMigrations` | shared/db/migrations.go:144-175 | accepts if and only if plan and ledger are good, and then lists k+1 to n in order |
| `Migrations.GoodPlanIff` | shared/db/migrations.go:144-155 | a plan is good if and only if, in any order, it has each version from 1 to its length once and every migration can be applied |
| `Migrations.NoGap` | shared/db/migrations.go:163-167 | a set that contains 1 to its own size contains nothing else |
| `Migrations.AcceptedIffPrefix` | shared/db/migrations.go:156-167 | accepted ledgers are exactly the prefixes 1 to k of the plan |
| `Migrations.GapsAreRejected` | shared/db/migrations.go:125-167 | beyond version 3 only a gapless ledger is accepted; within the first three every ledger is |
| `Migrations.Migrator.NormalizeLedger` | shared/db/migrations.go:93-114 | writes the backfill into the ledger |
| `Migrations.Migrator.ApplyPending` | shared/db/migrations.go:76-90 | one commit per migration up to the first failure |
| `Migrations.Migrator.RunMigrationPlan` | shared/db/migrations.go:59-91 | a run backfills, checks and commits the pending migrations up to the first failure |
| `Migrations.RunExtends` | shared/db/migrations.go:59-91 | from a prefix a run leaves a longer prefix and commits exactly what lies between |
| `Migrations.BadRunCommitsNothing` | shared/db/migrations.go:64-75 | a run that finds its plan or ledger bad commits nothing; only the backfill stays |
| `Migrations.RunsComplete` | shared/db/migrations.go:59-91 | however runs fail or die, each migration above the first ledger is committed once, in order, and a complete ledger gets nothing |
| `AbCache.KeysInjective` | services/abTestService/internal/abtest/evaluator.go:169 | keys of subjects whose type has no ':' identify subject and generation |
| `AbCache.KeyUniqueIff` | services/abTestService/internal/abtest/evaluator.go:169 | among the subjects of evaluations one has keys of its own if and only if its type and id, joined, split in no other way |
| `AbCache.ColonsResplit` | services/abTestService/internal/abtest/evaluator.go:124-130 | for texts without spaces that neither begin nor end with ':' there is another split if and only if type or id contains ':' |
| `AbCache.OwnOverridesIff` | services/abTestService/internal/abtest/evaluator.go:168-198 | in every run from every store the evaluations of a subject answer with its own overrides, if and only if its text splits in no other way |
| `AbCache.NextStageTrue` | services/abTestService/internal/abtest/evaluator.go:124-198 | each move of an evaluation leads to data read late enough |
| `AbStaleness.NewLimits` | services/abTestService/internal/abtest/evaluator.go:41-57 | snapshots live at most five seconds, overrides at most three and no longer than snapshots; what is asked for within these bounds is granted |
| `AbStaleness.LoadSnapshotDoes` | services/abTestService/internal/abtest/evaluator.go:250-258 | the cached snapshot is taken if and only if it is of the generation just read and younger than the TTL |
| `AbStaleness.LookUpDoes` | services/abTestService/internal/abtest/evaluator.go:168-174 | the cached overrides are taken if and only if they are younger than the TTL |
| `AbStaleness.FinishFromCacheDoes` | services/abTestService/internal/abtest/evaluator.go:177-180 | a load of overrides is answered from the cache if and only if what it holds is younger than the TTL, for everyone waiting |
| `AbStaleness.FinishOverridesDoes` | services/abTestService/internal/abtest/evaluator.go:182-192 | a load of overrides stores what it read, not before it began, with the time of storing, and hands it to everyone waiting |
| `AbStaleness.FinishReloadDoes` | services/abTestService/internal/abtest/evaluator.go:260-276 | a load of a snapshot hands what it read, not before it began, to everyone waiting and caches nothing itself |
| `AbStaleness.SnapshotMovesDo` | services/abTestService/internal/abtest/evaluator.go:249-287 | loads are shared, and a loaded snapshot is cached exactly if the generation is still the one it was loaded for |
| `AbStaleness.SnapshotIsFresh` | services/abTestService/internal/abtest/evaluator.go:249-287 | in every run the snapshot of an evaluation was read by a load not before that load began; it was taken while waiting for that load, or from the cache less than the TTL after the load finished |
| `AbStaleness.OverridesAreFresh` | services/abTestService/internal/abtest/evaluator.go:168-208 | in every run the overrides of an evaluation were read by a load of their key not before it began; they were taken while waiting for it, or from the cache less than their TTL after they were stored |
| `AbCache.TrimCuts` | services/abTestService/internal/abtest/evaluator.go:125-126 | trimming cuts off spaces at both ends and nothing else |
| `AbCache.WritesKeep` | services/abTestService/internal/abtest/evaluator.go:109-122 | commits and invalidations keep the cache invariant |
| `AbCache.MovesKeep` | services/abTestService/internal/abtest/evaluator.go:168-198 | moves of evaluations keep it |
| `AbCache.LoadsKeep` | services/abTestService/internal/abtest/evaluator.go:249-287 | loads finishing or failing keep it |
| `AbCache.StepKeepsInv` | services/abTestService/internal/abtest/evaluator.go:109-287 | every step keeps it |
| `AbCache.RunKeepsInv` | services/abTestService/internal/abtest/evaluator.go:109-287 | so does every run |
| `AbCache.ReadYourWrites` | services/abTestService/internal/abtest/evaluator.go:124-287 | in every interleaving an evaluation answers from experiments, groups and overrides each read after every write that had returned when it started, and with its own subject's overrides when its text splits in no other way or no subject type of the run has ':' |
| `AbCache.InvalidationReturns` | services/abTestService/internal/abtest/evaluator.go:109-122 | once invalidateLocal has returned, in every later run an evaluation that began after it answers with data at least as new as the write |
| `AbCache.MixedSnapshot` | services/abTestService/internal/abtest/store.go:352-389 | a run in which a snapshot mixes the experiments of one store version with the groups of the next |
| `AbCache.Service.EvictOverrideEntry` | services/abTestService/internal/abtest/evaluator.go:210-232 | a full cache ends below its limit, losing only expired entries or, after all of them, the oldest other |
| `Traffic.SelectGroup` | services/abTestService/internal/abtest/evaluator.go:398-422 | chooses the owner of the bucket if there is one, and for a forced group the first of that key |
| `Traffic.SortSorts` | services/abTestService/internal/abtest/evaluator.go:399-402 | sorting by id permutes the groups |
| `Traffic.Position` | services/abTestService/internal/abtest/evaluator.go:413-420 | the loop's interval at a place is the group's own interval |
| `Traffic.OneOwner` | services/abTestService/internal/abtest/evaluator.go:413-420 | no bucket has two owners |
| `Traffic.ShareOfBuckets` | services/abTestService/internal/abtest/evaluator.go:413-420 | a group gets exactly min(10000, cum) minus min(10000, previous cum) buckets |
| `Traffic.OrderDoesNotMatter` | services/abTestService/internal/abtest/evaluator.go:398-422 | who owns a bucket does not depend on the listing order |
| `Traffic.LaterGroupsDoNotMatter` | services/abTestService/internal/abtest/evaluator.go:398-422 | groups with larger ids never move a subject out of a group |
| `Versions.CompareVersion` | services/abTestService/internal/abtest/evaluator.go:588-611 | the loop decides the lexicographic order with missing components as zero, three ways |
| `Versions.VersionOrder` | services/abTestService/internal/abtest/evaluator.go:588-611 | it is transitive and equal versions are interchangeable |
| `Versions.VersionRangeMatches` | services/abTestService/internal/abtest/evaluator.go:501-513 | decides the range, with empty versions and absent bounds |
| `Versions.RangeIsInterval` | services/abTestService/internal/abtest/evaluator.go:501-513 | accepted versions form an interval, unbounded where a bound is absent |
| `Versions.MissingIsZero` | services/abTestService/internal/abtest/evaluator.go:588-600 | a missing component counts as zero |
| `Versions.RangeIff` | services/abTestService/internal/abtest/evaluator.go:501-513 | both bounds are included; without a version only the unbounded range accepts |

## Left out

- Kafka, Redis and PostgreSQL clients, gorm, protobuf and JSON: decoding an encoded session record is taken as identity.
- Expired Redis keys stay in the model's maps and count as absent; the one place they are counted is a dead key's expiry.
- HTTP, gRPC and WebSocket plumbing, admin pages, metrics, logs, environment parsing, presigned URLs: no deep invariant.
- Hashing, signatures and random numbers: the bucket of a subject is any number in 0..9999.
- Storage service cache: its fill and its clear are not atomic, so cache agreement does not hold.
- Post idempotency keys and the dead-letter replay tool.
- Outbox.Backoff: does not model floating point; the delay doubles exactly and is capped.
- Join requests and invitations: check and insert are one step, so a membership that begins in between is not seen.
- Further events of a cause that took effect again: `Pipeline.RepeatsIffLateCopy` asks about the copies there are.
- ICE forwarding, resume and user topics of calls, and the content of call events and push payloads.
- The order in which relays and workers pick rows (creation time, then id): any eligible row may be picked.
- VoIP result reasons: the accepted flag of the result event is kept, its text is not.
- Outbox rows that push workers write for call results go through their own table `results`, not through `Pipeline`; they
  are cleaned up as if published when they are written.
- Names, avatars, aliases, notification settings beyond muting, and request messages: easy members only.
- TimeFormat.TextOrderIsTimeOrder: does not cover years before 0; texts compare byte by byte.
- A/B targeting rules other than version ranges, and merging of override configuration.
- DeviceTokens.TokenTable.RegisterToken: the row's timestamps are not kept, and a registration is one step; of two that
  overlap, one waits for a lock or fails on a unique index.
- Retry waits that a cancelled context cuts short count as chosen, not as slept.
