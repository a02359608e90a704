# A verified model of the D-API gateway

D-API is a gateway in front of language-model providers, written in Go. Around
its I/O sit a few small state machines and concurrent protocols that decide
what is billed, who is notified, which upstream gets traffic and what the logs
add up to. These files model those machines in Dafny and prove what they
guarantee, over every input, every run or every interleaving.

Where the program updates fields in place, the model has a class whose methods
are proved against a function on values; the theorems are about that function.
Where several goroutines or processes meet, each critical section or SQL
statement is one atomic action of a transition system, and the theorems hold
after every sequence of enabled actions.

| file | component |
|---|---|
| `SseParser.dfy`, `SseStream.dfy`, `SseWire.dfy` | the incremental event-stream reader, what a whole stream means, and the round trip from what a sender writes (sections 9.2.5 and 9.2.6 of the WHATWG HTML Standard, with the size limits of the program) |
| `Incident.dfy`, `IncidentHistory.dfy`, `EngineRuns.dfy` | the alert incident machine, its engine step, its meaning over the history of observations, and the policies of engine and health notices in numbers |
| `Outbox.dfy`, `Delivery.dfy`, `Worker.dfy`, `Retries.dfy` | the notification outbox with fencing leases, any number of interleaved delivery workers on top of it, one worker's round of grouped deliveries, and the life of a notification over many rounds |
| `CacheProtocol.dfy`, `Pricing.dfy` | the generation-guarded caches with their load gate, and the pricing cache with its time windows |
| `HealthLock.dfy` | the reference-counted lock per upstream |
| `Recorder.dfy`, `RecorderProtocol.dfy` | writing request logs: halving of refused batches, and the queue, worker and fallbacks around it |
| `Rollup.dfy`, `RollupCells.dfy` | de-duplication of logs, the daily, hourly and lifetime roll-ups, and what each of their cells counts |
| `Circuit.dfy` | failure counting, recovery confirmation and the circuit deadline of an upstream |
| `ResponseBuffer.dfy` | growing response buffers under a shared byte budget |
| `Pagination.dfy` | keyset pagination |

Times are integers (nanoseconds for incidents and cache expiry, microseconds
for prices, seconds elsewhere) and costs are integers in units of 1e-8 USD, the
precision the program rounds to. One monotone clock serves all processes.

## What turned out different from the obvious reading

- The login and client-error rules lose their cooldown on every recovery.
  Accepted firings of a rule with a cooldown (the rule form accepts 60 s or
  more, internal/httpapi/admin_notifications.go:317) are a cooldown apart in
  every run if and only if the rule is an upstream alert:
  `IncidentHistory.EngineRulesKeepCooldownIff`. The others have no stability
  period (`StableFor` zero), a recovery forgets the last firing, and an active,
  a normal and an active observation fire twice however close they are
  (`IncidentHistory.LoginRulesLoseCooldown`).
- For policies in general, the rate bound holds in every run if and only if there
  is a stability period or no positive cooldown (`IncidentHistory.RateBoundIff`),
  and with `Repeat` off firings and resolutions alternate in every run if and
  only if there is a stability period (`IncidentHistory.AlternationIff`). The
  health notices, the one policy with `Repeat` off, have one.
- A notification worker claims five jobs at a time and may spend 20 s on each
  group. A job still holds its lease when its group's turn comes, however long
  the others take, if and only if it is in one of the first three groups or not on
  its first attempt (`Worker.LeaseLastsIff`); a first attempt in the fourth or
  fifth group can lose its lease unsent.
- A response buffer's reservation equals its capacity after an append if and
  only if the contents stay within 32 MiB (`ResponseBuffer.ReservedIsCapacityIff`);
  beyond that Go's own `append` allocates a block nobody accounts for. The
  caller's guard at internal/gateway/stream.go:200 keeps out of that case.
- An outbox row is not only live, dead-lettered or completed: deleting its
  channel removes it too (internal/store/schema.sql:289), so
  `Outbox.EveryRowAccountedFor` has four cases.

## Model

| member | source | states |
|---|---|---|
| SseParser.SseUsageParser.constructor | internal/gateway/usage.go:111-126 | a new parser is in the initial state of the byte-wise machine |
| SseParser.SseUsageParser.Feed | internal/gateway/usage.go:130-155 | feeding a chunk leaves every field as feeding its bytes one at a time does |
| SseParser.SseUsageParser.Append | internal/gateway/usage.go:157-167 | a line grows up to 1 MiB and is given up, buffer emptied, beyond that |
| SseParser.SseUsageParser.ParseLine | internal/gateway/usage.go:169-198 | the byte order mark is cut from the first line, a blank line ends the event, `event` and `data` fields go to their buffers within the limit |
| SseParser.SseUsageParser.Dispatch | internal/gateway/usage.go:200-254 | a finished event updates usage and flags; a discarded or empty one does nothing |
| SseParser.SseUsageParser.MergeUsage | internal/gateway/usage.go:311-327 | counts that are present replace the old ones, absent ones leave them |
| SseParser.SseUsageParser.CurrentUsage | internal/gateway/usage.go:329-333 | the counts as they stand; the uncached input is input minus cached, or for Messages input plus cache creation, never below zero, and there exactly if an input is |
| SseParser.SseUsageParser.StreamError | internal/gateway/usage.go:337-346 | which of the two failures a stream ends with, if any |
| SseParser.SseUsageParser.HasText | internal/gateway/usage.go:335-335 | whether text has been seen |
| SseParser.NormalizeBills | internal/gateway/usage.go:92-109 | what normalising makes of each count, where 64 bits hold the exact one |
| SseParser.OverflowOfUncached | internal/gateway/usage.go:94-105 | where they do not: zero above the range, wrapped to a positive count below it |
| SseParser.CachedAndUncachedAreInput | internal/gateway/usage.go:100-105 | outside Messages a cached part of the input and the uncached rest add up to the input |
| SseParser.ReportedIsFirstPresent | internal/gateway/usage.go:61-86 | each count is the first present one of the names providers use, in order |
| SseParser.ChunkInvariance | internal/gateway/usage.go:130-198 | from any state, feeding a ++ b leaves exactly the state that feeding a and then b leaves |
| SseParser.ChunksAreIrrelevant | internal/gateway/usage.go:130-198 | any number of cuts anywhere, also inside CR LF or the byte order mark, leaves no trace |
| SseParser.PlainRun | internal/gateway/usage.go:139-144 | a run without line breaks may be appended at once or byte by byte, also across the size limit |
| SseParser.BuffersStayBounded | internal/gateway/usage.go:128-166 | neither buffer ever exceeds 1 MiB |
| SseStream.SplitUndoesRender | internal/gateway/usage.go:131-154 | lines ended by LF, CR or CR LF in any mix are recovered exactly, with the unterminated rest |
| SseStream.FeedIsLineWise | internal/gateway/usage.go:130-155 | feeding a stream is parsing its terminated lines in order and holding the unterminated rest |
| SseStream.LinesRefineEvents | internal/gateway/usage.go:169-209 | parsing lines absorbs exactly the events that grouping them by blank lines gives |
| SseStream.StreamRefinement | internal/gateway/usage.go:130-209 | however the bytes are cut, the summary is that of the events of the whole stream: oversized events dropped, no unterminated one dispatched |
| SseStream.UsageIsNormalizedLastReport | internal/gateway/usage.go:246-250 | the usage reported is that of the last present value of each count; normalising in between makes no difference |
| SseStream.FlagsOfEvents | internal/gateway/usage.go:204-253 | each of the flags failed, completed, seen and text is up if and only if it was or some dispatched event raises it |
| SseStream.TextIff | internal/gateway/usage.go:251-282 | text has been seen if and only if some event of the stream brings text in the way of its protocol |
| SseStream.StreamErrorIff | internal/gateway/usage.go:337-346 | a stream ends with a reported failure if and only if some event reports one, and early if and only if none does, it must be completed and no event completes it |
| SseStream.ReadStream | internal/gateway/usage.go:130-346 | the object, fed any chunks, returns the last reported counts with their uncached input, the text flag and the failure |
| SseWire.FieldIsRead | internal/gateway/usage.go:181-182 | a line is taken apart at its first colon, and one space after it goes |
| SseWire.ReaderGetsWhatIsSent | internal/gateway/usage.go:130-209 | whatever fields, comments and line endings a sender writes, the reader gets exactly the events with data that fit into 1 MiB, each with its last name and its data lines |
| SseWire.MarkMakesNoDifference | internal/gateway/usage.go:170-173 | a byte-order mark at the start makes no difference |
| SseWire.StreamEndsByTypes | internal/gateway/usage.go:204-245 | the failure a stream ends with, by the event types and error fields themselves |
| SseWire.TextByTypes | internal/gateway/usage.go:256-309 | text has been seen exactly if some event says some, by protocol and event type |
| Incident.IncidentState.Observe | internal/ops/incident.go:38-98 | the new state and the notice are those of the machine on values |
| Incident.IncidentState.Accepted | internal/ops/incident.go:101-110 | acceptance records the notice, ends the back-off and counts a firing |
| Incident.IncidentState.EnqueueFailed | internal/ops/incident.go:112-118 | a failed enqueue starts a back-off of the cooldown, at least a minute |
| Incident.Engine.HandleObservation | internal/alerts/engine.go:122-198 | one engine step stores the state after observing and accepting or failing, under the policy of the rule; the rows of EngineRuns say what that policy is |
| IncidentHistory.SuffixIsLongestUnbroken | internal/ops/incident.go:47-72 | the clean suffix is the longest run of observations of one kind without ignore, hold or gap |
| IncidentHistory.HistoryRefinement | internal/ops/incident.go:38-118 | after every run every field has the value the history gives it, streaks being capped clean suffixes, and every notice is the one the history calls for |
| IncidentHistory.ExactDebounce | internal/ops/incident.go:55-77 | the confirmed state turns on, or off, exactly at the end of enough consecutive clean observations |
| IncidentHistory.CounterResetIff | internal/ops/incident.go:78-79 | the counter is renewed if and only if an unbroken normal run of an unconfirmed incident spans StableFor; otherwise it grows by the accepted firing |
| IncidentHistory.BudgetHolds | internal/ops/incident.go:91-93 | firings since the last renewal never exceed MaxNotifications |
| IncidentHistory.BudgetBetweenResets | internal/ops/incident.go:67-110 | between two renewals at most MaxNotifications firings are accepted |
| IncidentHistory.CooldownHolds | internal/ops/incident.go:94-110 | with a stability period consecutive accepted firings are a cooldown apart |
| IncidentHistory.RateBound | internal/ops/incident.go:85-110 | k accepted firings span at least k-1 cooldowns across any flapping |
| IncidentHistory.RateBoundIff | internal/ops/incident.go:78-97 | the rate bound holds in every run exactly if there is a stability period or no positive cooldown |
| IncidentHistory.EveryResolvedHasItsFiring | internal/ops/incident.go:88-107 | every accepted resolution directly follows an accepted firing |
| IncidentHistory.WithoutRepeatsAlternates | internal/ops/incident.go:88-97 | without repeats, but with a stability period, firings and resolutions strictly alternate |
| IncidentHistory.AlternationIff | internal/ops/incident.go:78-97 | without repeats they alternate in every run exactly if there is a stability period |
| IncidentHistory.EngineRulesKeepCooldownIff | internal/alerts/engine.go:130-143 | firings of a rule with a cooldown keep it in every run exactly for the upstream alerts; rules without one would alternate exactly for them too |
| IncidentHistory.LoginRulesLoseCooldown | internal/alerts/engine.go:132-143 | a rule that is no upstream alert fires twice on active, normal, active, at any times |
| IncidentHistory.RelapseFiresTwice | internal/ops/incident.go:78-83 | without a stability period a relapse fires again however soon it comes, and without a resolution in between if that one failed |
| IncidentHistory.FailedEnqueueOnlyBacksOff | internal/ops/incident.go:112-118 | a failed enqueue uses no budget and changes nothing but the back-off |
| IncidentHistory.PendingResolutionIsRetried | internal/ops/incident.go:85-90 | a resolution not yet accepted is asked for again at every normal observation outside the back-off |
| IncidentHistory.OnlyFailuresBlock | internal/ops/incident.go:85-118 | notices are held back only by the back-off of an undelivered one |
| IncidentHistory.OneLeasedAttempt | internal/store/health_notifications.go:63-83 | while a health notice is leased no observation whatever hands out a second one |
| EngineRuns.Drive | internal/alerts/engine.go:122-198 | the engine's object, driven through any run, holds the state the rows below speak of |
| EngineRuns.EngineTurns | internal/alerts/engine.go:132-143 | an error-rate or latency incident turns active exactly at the second active observation in a row and inactive exactly at the third normal one, no more than 90 s apart; every other at the first |
| EngineRuns.EngineActiveSince | internal/ops/incident.go:60-66 | an incident is active since the observation that turned it active |
| EngineRuns.EngineRenewsBudget | internal/alerts/engine.go:132-143 | the budget is renewed exactly by a full normal run of 30 minutes, for login and client-error rules of any length, and else grows by accepted firings only |
| EngineRuns.EngineFiresIff | internal/ops/incident.go:85-97 | when exactly a firing and when exactly a resolution is sent |
| EngineRuns.EngineRemembers | internal/alerts/engine.go:172-176 | what an accepted notice leaves behind, and that a failed one is held back for the cooldown, at least a minute |
| EngineRuns.EngineForgetsIff | internal/ops/incident.go:78-83 | the last firing is forgotten exactly when a login or client-error incident has recovered |
| EngineRuns.HealthNoticeIff | internal/store/health_notifications.go:63-83 | from any stored state, when exactly an upstream is told unhealthy or healthy: at most three times before renewal, half an hour apart, with a lease of one minute |
| EngineRuns.HealthBudgetIff | internal/store/health_notifications.go:66-72 | the three are renewed exactly by half an hour of healthy observations at most two intervals apart |
| EngineRuns.SeededIncident | internal/store/health_notifications.go:28-35 | a state seeded from an earlier unhealthy notice: not told again, its recovery told at once, a relapse half an hour after the seed |
| Outbox.Outbox.EnqueueNotificationsForChannels | internal/store/notifications.go:31-56 | one row per channel or one without, and the archive row of an alert, all or nothing |
| Outbox.Outbox.PickDue | internal/store/notifications.go:71-77 | the first n due unlocked rows in (next attempt, id) order, and no others |
| Outbox.Outbox.ClaimNotificationJobs | internal/store/notifications.go:61-110 | exactly the picked rows are leased, and every job returned owns its row |
| Outbox.Outbox.RenewNotification | internal/store/notifications.go:129-133 | only a still-owned, unexpired lease is renewed, for 60 s |
| Outbox.Outbox.CompleteNotification | internal/store/notifications.go:135-138 | only the owner removes the row |
| Outbox.Outbox.FailNotification | internal/store/notifications.go:140-151 | only the owner reschedules the row, and gives its token up |
| Outbox.Outbox.DeadNotification | internal/store/notifications.go:153-164 | only the owner dead-letters the row, and gives its token up |
| Outbox.Outbox.RetryDeadNotification | internal/store/notifications.go:216-224 | a dead row of an enabled channel becomes due afresh under a new version |
| Outbox.EnqueueAdds | internal/store/notifications.go:44-54 | one untried row per channel, in order, due from the given time on, and no other row changes |
| Outbox.ClaimLeases | internal/store/notifications.go:78-80 | a claim leases exactly the due rows it picks, for a minute per attempt, at least one and at most fifteen |
| Outbox.RetryStartsOver | internal/store/notifications.go:217-218 | exactly a dead row of an enabled channel becomes due at once with no attempts, and no other row changes |
| Outbox.TokensAreUnique | internal/store/notifications.go:78-80 | in every run a claim issues tokens never issued before, and at most one verdict takes effect per token |
| Outbox.StaleForever | internal/store/notifications.go:128-164 | a superseded or expired token never changes its row again, also across dead-letter and manual retry |
| Outbox.OneOwner | internal/store/notifications.go:78-164 | in every run the token that owns a row is the newest issued for it, and every other token of the row stays without effect for good |
| Outbox.EveryRowAccountedFor | internal/store/notifications.go:31-224 | every enqueued row is always exactly one of live, dead, completed, or gone with its channel |
| Outbox.CompletedWasClaimed | internal/store/notifications.go:61-138 | in every run in which only claimed jobs are renewed and settled, a completed row was completed under its newest claim, and none follows |
| Delivery.CompletedUnderNewestClaim | internal/app/notifications.go:59-143 | however the workers interleave, a job is completed under its newest claim |
| Delivery.DeliveriesAreDisjoint | internal/app/notifications.go:83-144 | with any number of workers at most one delivery of a job is under way, and its delivery intervals never overlap |
| Worker.NotificationWorker.Run | internal/app/notifications.go:58-146 | one round claims the first five due rows and leaves the table that completing the invalid jobs and running every group in order leaves; it asks for another round if and only if the batch was full |
| Worker.NotificationWorker.GroupJobs | internal/app/notifications.go:66-82 | every job that decodes is in the group of its key, in claim order, groups in the order of their first jobs; the others are completed |
| Worker.NotificationWorker.DeliverGroup | internal/app/notifications.go:83-144 | a group is renewed, delivered if a job is left, and settled |
| Worker.KeysCover | internal/app/notifications.go:77-81 | every job that decodes has its group, and every group a job |
| Worker.GroupsAreAlike | internal/app/notifications.go:77-81 | two jobs are sent together exactly if they decode to the same type, state and severity for the same channel |
| Worker.RenewalIsOwnership | internal/app/notifications.go:86-94 | exactly the jobs that still own their rows are delivered |
| Worker.EveryJobIsSettled | internal/app/notifications.go:83-143 | every claimed job is settled once under its group's outcome, which the renewal outlasts, or left alone because its lease ran out before its turn; it cannot run out while 20 s for each earlier group fit into the lease |
| Worker.LeaseLastsIff | internal/app/notifications.go:83-94 | a job holds its lease at its group's turn under every courier exactly if it is in one of the first three groups or not on its first attempt |
| Worker.InvalidJobIsRemoved | internal/app/notifications.go:69-76 | a job that does not decode is removed unsent |
| Worker.UnclaimedRowsStay | internal/app/notifications.go:58-146 | a round touches no row it did not claim |
| Retries.OneTry | internal/app/notifications.go:122-143 | a failed delivery leaves the row live, due again after 10, 60, 300 and 300 s; the fifth failure makes it a dead letter; a success removes it |
| Retries.LifeOfANotification | internal/app/notifications.go:58-146 | over any number of rounds a row is gone exactly if a delivery succeeded, each claim is one attempt, and it is dead exactly after the fifth |
| Retries.RetriedByHand | internal/store/notifications.go:216-224 | a dead letter retried by hand has five attempts again |
| CacheProtocol.GenerationCache.Get | internal/store/cache.go:38-47 | a value is returned exactly while less than ttl has passed since the put that stored it; the generation is read with it |
| CacheProtocol.GenerationCache.Put | internal/store/cache.go:49-59 | an entry loaded under a passed generation is not stored; the cache keeps its limit; the store is one the protocol allows |
| CacheProtocol.GenerationCache.Invalidate | internal/store/cache.go:101-120 | everything is dropped and the generation moves on |
| CacheProtocol.LoadGate.TryAcquire | internal/store/load_gate.go:15-36 | the caller becomes the loader with a fresh ticket or learns the ticket to wait for |
| CacheProtocol.LoadGate.Release | internal/store/load_gate.go:29-34 | the key is free again |
| CacheProtocol.CacheIsCoherent | internal/store/apikeys.go:152-191 | in every interleaving a hit answers a database no older than any invalidated commit, and the current one once all writers have invalidated |
| CacheProtocol.LoaderIsCurrent | internal/store/apikeys.go:152-191 | what a reader loads for itself answers one database, no older than any commit invalidated before the load, whatever happens to the cache |
| CacheProtocol.OneLoadPerKey | internal/store/load_gate.go:15-43 | at most one load per key is in flight |
| CacheProtocol.WaitersAreNotStranded | internal/store/load_gate.go:37-41 | a waiting reader can be woken, or another reader holds its ticket and has a step to take towards giving it back |
| Pricing.HistoryAnswers | internal/store/pricing.go:595-627 | a full history in query order selects the direct rate at every time |
| Pricing.ValidityIsConstant | internal/store/pricing.go:639-641 | between consecutive boundaries no candidate price starts or stops being valid |
| Pricing.WindowAnswers | internal/store/pricing.go:629-661 | a window, also an empty one, selects the direct rate at every time it covers, and covers the time it was loaded for |
| Pricing.QueryHistory | internal/store/pricing.go:596-600 | all candidates in order, exact model first and latest first, up to the limit |
| Pricing.QueryBounds | internal/store/pricing.go:639-647 | the last boundary at or before a time and the first after it |
| Pricing.LoadPricingWindow | internal/store/pricing.go:631-661 | the entry loaded answers everywhere it covers |
| Pricing.LoadPricingHistory | internal/store/pricing.go:595-627 | the entry loaded answers everywhere it covers, and is a window if and only if there are more than 256 candidates |
| Pricing.SelectPricingRate | internal/store/pricing.go:663-670 | the first listed price that is valid |
| Pricing.PricingCache.PricingRate | internal/store/pricing.go:542-593 | from every coherent cache the rate is the direct selection at the microsecond nearest the look-up, the cache stays coherent and within 1024 entries, and what is loaded lives for 30 s |
| Pricing.PricingCache.StoreEntry | internal/store/pricing.go:576-591 | an outdated load is not stored; of 1024 entries the unexpired ones stay, or none if all are |
| Pricing.PricingCache.MakeRoom | internal/store/pricing.go:580-589 | a full cache loses exactly its expired entries, or all |
| Pricing.ExactModelIsCharged | internal/store/pricing.go:641-643 | a valid price of the model itself is charged, the one that started last |
| Pricing.AliasIsCharged | internal/store/pricing.go:637-643 | without one, the valid price of the alias that started last |
| Pricing.NothingIsCharged | internal/store/pricing.go:637-648 | without either there is no rate |
| Pricing.OpenPriceIsCharged | internal/store/pricing.go:543-549 | an open price that has started by the nanosecond of the look-up is charged, if no newer one starts within the next half microsecond |
| Pricing.PricingCacheIsCoherent | internal/store/pricing.go:542-677 | with concurrent writers the rate a hit gives is the direct selection from a price table no older than any invalidated commit |
| Pricing.LoaderSelectsDirectly | internal/store/pricing.go:551-592 | with concurrent writers the rate a loader returns is the direct selection from the one price table it read, no older than any commit invalidated before its load |
| HealthLock.HealthLocks.Enqueue | internal/gateway/handler.go:713-722 | the caller references the mapped state, made on demand |
| HealthLock.HealthLocks.ReleaseUpstreamHealth | internal/gateway/handler.go:742-749 | the reference is given back, and the state leaves the map with the last one if no failure is pending |
| HealthLock.MutualExclusion | internal/gateway/handler.go:713-740 | in every interleaving at most one goroutine per upstream is in the section |
| HealthLock.FlagIsLastWrite | internal/gateway/handler.go:665-711 | the mapped flag, absent meaning false, is true if and only if the last successful health write was a failure |
| HealthLock.SkippedSuccessIsSafe | internal/gateway/handler.go:673-675 | the flag read in the section is the outcome of the last write, so a success is skipped only when no failure is outstanding |
| HealthLock.DrainFindsItsToken | internal/gateway/handler.go:737-740 | draining the semaphore never blocks, also for a state that has left the map |
| HealthLock.RetiredForever | internal/gateway/handler.go:742-749 | a state that left the map is never referenced or mapped again |
| HealthLock.IdleStatesAreReclaimed | internal/gateway/handler.go:742-749 | in every interleaving the map holds a state only while someone refers to it or the last write failed |
| Recorder.RequestRecorder.FlushEntries | internal/gateway/recorder.go:170-226 | the loop with its recursion computes the flush on values, and succeeds if and only if nothing was dropped |
| Recorder.FlushConserves | internal/gateway/recorder.go:170-207 | whatever the repository answers, each record is stored once or dropped once |
| Recorder.FlushSinglyConserves | internal/gateway/recorder.go:208-225 | the same without batches |
| Recorder.FlushBisects | internal/gateway/recorder.go:170-207 | exactly the good records are stored, in order, exactly the bad ones dropped, in at most (2n-1)r writes |
| Recorder.BadIsNeverStored | internal/gateway/recorder.go:183-191 | bad records are never stored, whatever else fails |
| Recorder.OneBadIsCheap | internal/gateway/recorder.go:183-191 | halving finds a single bad record with two writes a step, among the 64 of a full batch with at most 13 |
| Recorder.CancelledFlushTriesOnce | internal/gateway/recorder.go:176-206 | a cancelled recorder writes a batch once, and keeps or drops it whole |
| Recorder.OutageDropsBatch | internal/gateway/recorder.go:176-206 | a lasting failure costs one write and one more per delay, and the batch |
| Recorder.SinglesAreTriedOnce | internal/gateway/recorder.go:208-225 | without batches each record has one write and is stored exactly if that succeeds |
| RecorderProtocol.EveryRecordAccountedFor | internal/gateway/recorder.go:66-143 | once the worker is done and the fallbacks have returned, every record was stored once or counted as dropped once |
| RecorderProtocol.AlwaysBounded | internal/gateway/recorder.go:230-266 | queue, batch and fallback slots keep their limits, and no record is in two places or in none |
| RecorderProtocol.LimitsAreExact | internal/gateway/recorder.go:15-23 | nothing is refused before its limit: 2048 queued, 64 waiting, 4 writing; a batch is flushed by its 64th record |
| RecorderProtocol.CancelledWorkerFinishes | internal/gateway/recorder.go:131-143 | a cancelled worker can always go on to finish, and in how many steps |
| RecorderProtocol.FlushRefinesProtocol | internal/gateway/recorder.go:170-226 | the flush is one of the flushes the protocol allows |
| Rollup.LogStore.RecordRequests | internal/store/logs.go:53-79 | a batch, repeats dropped, leaves the tables that recording its entries one by one leaves, and keeps the roll-ups adding up |
| Rollup.LogStore.Prepare | internal/store/logs.go:57-69 | the first entry of every id is kept |
| Rollup.LogStore.InsertRequestLogBatch | internal/store/log_batch.go:140-195 | the new rows and no others are inserted and returned, references to missing rows cleared |
| Rollup.LogStore.RecordPreparedBatch | internal/store/log_batch.go:40-82 | aggregating in memory and upserting once gives what row by row gives |
| Rollup.AggregateBatch | internal/store/log_batch.go:45-77 | the in-memory aggregates are exactly what separates the tables from the goal |
| Rollup.UpsertUsageAggregates | internal/store/log_batch.go:250-299 | every row grows by its aggregate, new rows start with it, other rows stay |
| Rollup.RepeatsChangeNothing | internal/store/logs.go:57-64 | recording a batch is recording the first occurrence of each id |
| Rollup.BatchesAreIrrelevant | internal/store/log_batch.go:40-82 | any cutting of a stream into batches leaves the same logs and roll-ups |
| Rollup.ResubmissionChangesNothing | internal/store/log_batch.go:176-176 | sending committed requests again, in any pieces, changes nothing, then or later |
| Rollup.RollupsAlwaysAddUp | internal/store/log_batch.go:48-77 | every daily and hourly row is the sum of the logged requests behind it, every day of its 24 hours, every lifetime of its upstream's days |
| RollupCells.CellsAreCounts | internal/store/log_batch.go:197-224 | column by column, every cell of a daily and an hourly row is the number, the number of a kind, or the sum of a count of exactly the logged requests of its key and period |
| RollupCells.LifetimesAreCounts | internal/store/log_batch.go:71-76 | a lifetime row counts all requests of its upstream, those with a cost, and their cost |
| RollupCells.CellsOfAnyStream | internal/store/log_batch.go:40-82 | so after every batching of every stream from an empty log |
| RollupCells.FirstRequestIsLogged | internal/store/log_batch.go:147-176 | a logged row is the first request of its id, but for a key or an upstream that is gone |
| Circuit.UpstreamHealth.SaveHealth | internal/store/upstreams.go:417-493 | one statement applies the transition or, for a missing row or another configuration, changes nothing; the route cache is cleared if and only if routing could see a difference or the write was a failure |
| Circuit.UpstreamHealth.AcknowledgeHealthNotification | internal/store/upstreams.go:505-519 | acknowledging a status leaves no notice of it pending; an invalid status or an unknown upstream is an error and changes nothing |
| Circuit.Succeeded | internal/store/upstreams.go:427-457 | the column-by-column cases agree with the transition |
| Circuit.Failed | internal/store/upstreams.go:475-481 | the column-by-column cases agree with the transition |
| Circuit.RowTellsHistory | internal/store/upstreams.go:417-493 | after every run the row's counters, progress, deadline and message are the ones read off the history |
| Circuit.RecoversIff | internal/store/upstreams.go:428-432 | an unhealthy upstream becomes healthy if and only if a probe success is the third since the last failure or a later one two minutes after the first |
| Circuit.TripsIff | internal/store/upstreams.go:475-476 | an upstream becomes unhealthy if and only if a failure is an authorization failure or completes the threshold |
| Circuit.NoRecoveryWithoutProbes | internal/store/upstreams.go:411-412 | between an unhealthy moment and a later one that is not, some probe success confirmed the recovery |
| Circuit.LeftOutIff | internal/store/upstreams.go:76-76 | routing leaves an upstream out exactly while it is unhealthy and within the cooldown of its last failure |
| Circuit.TrafficDoesNotCloseIncidents | internal/store/upstreams.go:411-412 | through a whole incident gateway successes move neither status nor progress nor deadline |
| Circuit.NoticePendingIff | internal/store/upstreams.go:495-503 | in every run a notice is pending exactly while an incident is open that was not told or is over and its end was not told |
| ResponseBuffer.ByteBudget.Acquire | internal/gateway/resources.go:16-24 | size is taken if and only if it fits |
| ResponseBuffer.Buffer.Append | internal/gateway/resources.go:104-121 | contents, capacity, reservation and budget after an append; a refused one changes nothing |
| ResponseBuffer.Buffer.Grow | internal/gateway/resources.go:106-119 | growing keeps the contents and swaps the reservation, or changes nothing |
| ResponseBuffer.Buffer.Release | internal/gateway/resources.go:122-128 | the reservation goes back to the budget |
| ResponseBuffer.BufferLife | internal/gateway/resources.go:104-121 | contents are the chunks concatenated, the reservation is the capacity, between 32 KiB and the larger of that and twice the contents, and growing copies fewer than twice the final length in bytes |
| ResponseBuffer.GrowthIsModest | internal/gateway/resources.go:107-107 | an outgrown block is at least doubled unless 32 MiB stop it, and never grows beyond the double, 32 KiB or what is needed |
| ResponseBuffer.ReservedIsCapacityIff | internal/gateway/resources.go:107-120 | the reservation is the capacity if and only if the contents stay within 32 MiB |
| ResponseBuffer.SlotFollowsBuffer | internal/gateway/resources.go:106-119 | the two steps of the shared system are one append of a buffer |
| ResponseBuffer.AlwaysBalanced | internal/gateway/resources.go:11-25 | in every interleaving the budget is the memory of all buffers, old and new blocks together, and within the limit |
| ResponseBuffer.AllReleasedIsFree | internal/gateway/resources.go:122-128 | after all releases the whole budget is free |
| Pagination.SortedRows | internal/store/logs.go:240-240 | the query order is strictly descending and loses no row |
| Pagination.PageIsTopmost | internal/store/pagination.go:45-60 | a page holds the topmost rows below the cursor; there is a next cursor if and only if rows are left, at the last row returned |
| Pagination.PageIsAsLongAsAsked | internal/store/pagination.go:45-71 | 1 to 200 rows are given as asked while there are as many, 50 otherwise and for the dead letters; a cursor comes exactly if rows are left |
| Pagination.PageSplits | internal/store/pagination.go:53-57 | the page and what lies below its cursor make up the list |
| Pagination.CrawlReadsEverything | internal/store/pagination.go:45-60 | following the cursor ends and gives the full descending list |
| Pagination.PagesNeeded | internal/store/pagination.go:53-57 | it takes the least number of pages that can hold the rows |
| Pagination.NoRowComesTwice | internal/store/logs.go:222-225 | whatever is inserted or deleted meanwhile, no row comes twice or out of order |
| Pagination.StableRowsAreRead | internal/store/logs.go:222-225 | a row that is there all the time is not skipped |
| Pagination.InsertionsAboveAreInvisible | internal/store/logs.go:222-225 | if rows change only above the cursor, the reader gets the list of the first query |
| Pagination.ClientsReadEverything | internal/store/pagination.go:45-71 | every page size a client may ask for, and the dead-letter list, read the whole list |

## Left out

- JSON decoding and white-space trimming are uninterpreted functions of the event-stream model; the non-streaming `parseUsage` entry points use the same normalisation and are not modelled.
- Texts that do not influence the machines: messages, values and evidence of incidents, error texts of outbox rows, log columns that no roll-up reads.
- Incident.IncidentState.Observe: split into four methods, one per phase of the source's single body.
- Incident.Engine.HandleObservation: saving the state is assumed to succeed; a failing save after an accepted notice is not modelled.
- The asynchronous acceptance of health notices (`AcceptHealthNotification`) may come after the one-minute lease has ended; only the leasing step is modelled.
- Saturation of Go's `time.Time.Sub` at 292 years, and clock skew between processes and the database.
- Delivery.DeliveriesAreDisjoint: each job of a group is renewed and delivered on its own. That a delivery returns by its deadline is the assumption on the clock.
- Worker.NotificationWorker.Run: time passes in deliveries only and no other worker interferes in between (module Delivery has the interleavings); a round cut short by cancellation leaves its jobs to their leases and is not modelled, nor is the text of an aggregated message.
- Outbox.Outbox.EnqueueNotificationsForChannels: of an archive row only the payload is kept; the type field of the payload is a parameter.
- Outbox.Outbox.ClaimNotificationJobs: returns the jobs in selection order, and the worker's groups follow it; `UPDATE ... RETURNING` promises no order, so this order is assumed.
- CacheProtocol.CacheIsCoherent: one generic cache stands for the auth, route and max-attempts caches; cloning of cached values and the database queries themselves are not modelled. Fairness of goroutines is not modelled, so waiting readers are shown not to be stranded but not to finish.
- CacheProtocol.GenerationCache.constructor: limit and ttl are parameters (4096 and 5 s, 1024 and 2 s; the single max-attempts value lives for 30 s and counts only when positive).
- Retries.LifeOfANotification: rounds of one worker with time passing in between; other workers and administrators in between are the business of modules Outbox and Delivery.
- Pricing.PricingCache.PricingRate: the look-up before the gate repeats the one after it and is left out; trimming of model names is left out.
- The cost formula of a request (`RequestCost`, floating point) and the pricing backfill; recorded costs are taken as given.
- HealthLock.FlagIsLastWrite: a write that was reported as failed counts as not written. References to lock objects are numbers into a map that stands for the heap.
- Recorder.FlushEntries and the protocol assume that a write is atomic and truthful about its outcome; time limits of single writes are part of the repository's answer.
- Rollup.LogStore.RecordRequests: sums are unbounded integers, so 64-bit overflow is not modelled, nor is rounding of costs below 1e-8 USD; `RecordRequest`, the single-row statement without batch, is not modelled, nor are retention cleanup and the reports read from the roll-ups.
- ResponseBuffer.Buffer.Append: the block that Go's own `append` picks beyond 32 MiB is a parameter; readers that keep a slice after the release are not modelled.
- Pagination.CrawlReadsEverything: cursors are pairs of time and id; their base64 and JSON text and its validation are left out, as are offsets and the individual filters (a table is the set of rows that match).
- `requestGate`, the rate and login limiters, balance protection, the request drain, header filters and retry-status tables: small machines whose members would be easy.
- HTTP transport, TLS, SMTP, webhooks, encryption, password hashing, administration handlers, the web interface and the plugins.
