# Verified model of the aidir scheduler

aidir queues LLM tasks, admits them against shared resources, routes each one to a provider and
model, and transcodes the streams that come back. This project models those parts in Dafny and
proves what they are relied on for. `dafny verify dfyconfig.toml` checks everything.

Where the source updates objects step by step, the model is a class whose methods have the same
branches and loops; each method is proved against a function of the old state, and the theorems are
about those functions and about whole runs of them. Names in the modules follow the source.

| file | what it models |
|---|---|
| `ResourceLedger.dfy` | one resource: active reservations by consumer, soft (idle but resident) models |
| `CapacitySafety.dfy` | one resource under free interleaving of check, reserve, release, unload and expiry |
| `Conservation.dfy` | `used` is the sum over consumers |
| `ModelAdmission.dfy`, `ResourceRegistry.dfy` | the registry: slots, active counts, base and session reservations |
| `AdmissionRuns.dfy` | whole runs: books equal the live runs, concurrency limits, capacity |
| `AdmissionExact.dfy` | when exactly an admission passes, and what a refusal says |
| `WarmModels.dfy` | what a release leaves behind: resident models |
| `AdmissionLocks.dfy` | lock order and progress of admission |
| `GuardedAdmission.dfy` | those locks with checks and charges as separate steps: capacity, exact books, progress |
| `TaskQueue.dfy` | hashes, queues, registry in memory; startup recovery; order of the queue |
| `SchedulerPass.dfy` | one scheduler pass over a queue |
| `RemoteRefusals.dfy` | remote refusals over the life of a task |
| `PassOutcomes.dfy` | what becomes of each task in a pass, from what the pass sees |
| `PassAdmission.dfy` | a pass against the registry: who is admitted, what stays booked |
| `RetryPolicy.dfy` | retry and fallback after a failure |
| `Readiness.dfy` | the readiness history of models |
| `JsonText.dfy`, `PrefixContext.dfy`, `AffinityStore.dfy` | JSON in one line, canonical request text, anchors, the prefix cache |
| `SmartRouter.dfy`, `RouteMeaning.dfy` | candidate selection with and without affinity, and what it means |
| `MessageEncoder.dfy`, `MessageProtocol.dfy`, `MessageDecoder.dfy`, `MessageEnds.dfy` | Anthropic Messages streams: encoder, protocol automaton, decoder, round trip, start and end of a stream |
| `EventStream.dfy`, `SseFields.dfy` | server-sent events out of network chunks (section 9.2.6 of the WHATWG HTML Living Standard) |
| `AuditJournal.dfy` | the append-only journal and its byte-offset index |
| `Basics.dfy`, `Sequences.dfy` | shared notions: options, names, sequences |

## Assumptions

- The clock is monotone and positive; each call sees one time. Python's floats are reals and its
  integers are unbounded, so rounding is not modelled. Amounts are integers as in the source.
- JSON is a pair of functions whose output holds no line feed; `JsonText` proves for a printer of JSON
  values what the request text needs of it. The keyed hash of a prefix is
  injective. Identifiers drawn at random are new. Only the scheduler admits runs.
- Redis and SQLite are maps that never fail, except that putting a failed task back may fail
  (`RetryPolicy`). A key scan returns every key at least once, in any order.
- Base requirements of a parallel model are constant and, where `AdmissionRuns` admits one, not
  empty; the model in a task's payload is its resolved model; consumer ids are distinct among live
  runs. `EmptyBase` and `ReusedId` say exactly what happens without the first and the last.
- Models of the capacity proof use estimated availability and fixed limits.

## Where the code differs from what it promises

Each item names the lemma that states the exact condition, and a lemma with a concrete input.

- A run cancelled while it is being marked running never reaches its `finally`, and its reservation
  stays unless it held nothing (`AdmissionRuns.LostStart`, `AdmissionRuns.LostStartBlocksModel`).
- `_run_task` requeues before its `finally` releases. A second admission under the same consumer id
  takes over the slot entry of the first (`AdmissionRuns.ReusedId`, `AdmissionRuns.ReusedIdLosesSlot`);
  the resource shares survive it (`AdmissionRuns.ReusedIdKeepsShares`).
- A parallel model with session resources but no base is admitted unchecked (`AdmissionRuns.EmptyBase`,
  `AdmissionRuns.EmptyBaseOverfills`).
- `available_after_unloading_others` is to say whether a request fits once all idle models but this one
  are gone. It counts the others and leaves this one out. The answers agree on every request exactly when
  on every metric both occupy the same or nothing fits anyway (`AdmissionExact.UnloadingOthersIff`). So a
  further session of a resident model waits beside idle models that nobody unloads
  (`AdmissionExact.ResidentGetsNoUnload`, `AdmissionExact.SessionWaitsBesideIdle`).
- The loop that acquires admission locks stands before the `try`. A cancelled request leaks locks
  exactly when it waits for a registered resource and has a smaller one
  (`AdmissionLocks.CancelLeaksIff`), and whoever needs a leaked lock never finishes
  (`AdmissionLocks.CompletionIff`, `AdmissionLocks.LeakStrandsAnother`).
- Startup recovery condemns a task whose id stands in both queues after having restored it
  (`TaskQueue.RecoveryAgreesIff`, `TaskQueue.TornTaskStaysQueued`).
- Putting a deferred task back renews its time, so it precedes a waiting task only if its priority is
  strictly better (`TaskQueue.ReAddGoesLast`, `TaskQueue.ReAddLosesItsPlace`).
- The comment of `_handle_remote_refusal` says a refusing candidate is excluded for the rest of the
  task's life. A refresh avoids it exactly when it follows a refusal and the candidate refused before,
  or did not answer just then (`RemoteRefusals.RefuserIsAvoidedIff`); so the refresh after a first
  refusal and the one at the start of each pass try it again (`RemoteRefusals.RefuserIsTriedAgain`).
- The task is to fail when no candidate is left. It fails exactly when five refusals have counted since
  the last detour (`RemoteRefusals.FailsIff`), so detours keep it alive for ever
  (`RemoteRefusals.DetoursNeverFail`).
- Two requests get one text exactly when they say the same, or one counts the leading field "message"
  of the other as a message (`PrefixContext.SameTextIff`, `PrefixContext.MessageFieldCollides`).
- A longer conversation gets a shorter anchor exactly when its wanted length is smaller and a rung of the
  ladder lies between (`PrefixContext.AnchorFallsIff`, `PrefixContext.AnchorIsNotMonotone`,
  `PrefixContext.InterpolatedAnchorFalls`), and then its earlier record is not found
  (`AffinityStore.GrowthFindsAffinityIff`, `AffinityStore.ConversationKeepsAffinityIff`).
- With `prefer_affinity_over_immediate: false` an affinity candidate is to be used only if it can run
  immediately (proposal_kv_keeper.md:844-846). But an admission that is "ready" is accepted without a
  look at the queue (core/smart_router.py:343-345), and one queued task of the same priority keeps the
  candidate from starting (core/smart_router.py:656-657). A request that could start waits exactly when
  its preferred candidate is admitted, queued and not overloaded (`SmartRouter.AffinityDelaysIff`,
  `SmartRouter.AffinityWaitsIff`, `SmartRouter.AffinityDelays`).
- Incremental tool arguments lose text when a fragment starts with everything before it
  (`MessageDecoder.IncrementalKeepsAllIff`, `MessageDecoder.IncrementalLosesText`); a tool call that is
  interrupted and comes back makes an illegal stream (`MessageProtocol.AlternatingCallsAreIllegal`,
  `MessageProtocol.ThreeFragmentsAreIllegal`).
- An append after a torn write is indexed at a place no scan finds again
  (`AuditJournal.AppendAgreesIff`, `AuditJournal.AppendAfterTornWrite`), and a journal line that is not
  valid UTF-8 makes every rebuild fail (`AuditJournal.RebuildFailsIff`, `AuditJournal.OneByteFailsRebuild`).

## Model

| member | source | states |
|---|---|---|
| `ResourceLedger.Resource.ComputeSoftUsed` | core/resource.py:309-321 | The loop adds up, per metric, exactly the amounts of the soft entries still active at `now` (`SoftTotal`) |
| `ResourceLedger.Resource.IsAvailable` | core/resource.py:347-369 | True exactly when the resource is enabled and every needed metric fits beside active and soft use (`Available`) |
| `ResourceLedger.Resource.IsAvailableForReuse` | core/resource.py:371-399 | True exactly when a warm entry of the same model covers the request and the request fits once that entry is discounted (`AvailableForReuse`) |
| `ResourceLedger.Resource.ClearSoftConsumer` | core/resource.py:461-468 | Removes every soft entry of the model (and provider, when given) and nothing else |
| `ResourceLedger.Resource.ReserveActiveAmounts` | core/resource.py:592-609 | The whole new state: positive amounts are charged to `used` and to the consumer, soft entries stay |
| `ResourceLedger.Resource.ReserveBlindly` | core/resource.py:542-564 | The whole new state: like an active reservation, after trading in a covering soft entry of the same model |
| `ResourceLedger.Resource.ReleaseAmounts` | core/resource.py:611-656 | The whole new state: clamped subtraction, removal of emptied consumers, and one fresh soft entry when the model is retained, of which `WarmModels` says what it is good for |
| `ResourceLedger.TickTotal` | core/resource.py:299-321 | Occupation at a later time is never more than occupation now: entries only expire |
| `WarmModels.ReleasedOccupies` | core/resource.py:635-655 | A retaining release: from then on the model occupies exactly what was released until its time is up (for ever if persistent), and the others what they did before |
| `WarmModels.ReleaseSparesOthers` | core/resource.py:635-655 | Entries of other models stay, and without retention all entries do |
| `WarmModels.ReleasedIsFoundIff` | core/resource.py:323-345 | The released model is found again exactly until its time is up, and exactly by requests it covers |
| `WarmModels.ReleasedIsReusedIff` | core/resource.py:371-399 | On an enabled resource that was within its limits, the next request of the same size passes the reuse check exactly as long as the model lasts |
| `WarmModels.ReleasedRunStaysWarm` | core/resources.py:834-860 | Over every run of events elsewhere: a plain run released with its model retained leaves it findable on each of its resources until its time is up, and not after |
| `WarmModels.LastSessionStaysWarm` | core/resources.py:560-592 | The same for the base of a parallel model after its last session |
| `AdmissionExact.ColdIff` | core/resource.py:347-369 | Within its limits, an enabled resource passes the cold check exactly for those requests that keep it there |
| `AdmissionExact.UnloadedIff` | core/resource.py:401-435 | The check after an unload passes exactly for those that would keep it there with nothing idle left |
| `AdmissionExact.WarmIff` | core/resource.py:371-399 | Within the limits the reuse check passes exactly when an idle entry covers the request: its arithmetic never refuses |
| `AdmissionExact.UnloadingOthersIff` | core/resource.py:566-590 | The code answers as described, on every request, exactly when on every metric it does not matter whether this model or the others are counted |
| `AdmissionExact.ResidentGetsNoUnload` | core/resource.py:566-590 | For a model whose base is in use, that answer is the one without any unload |
| `AdmissionExact.SessionWaitsBesideIdle` | core/resources.py:475-498 | Size 10, base 4, an idle model with 5: a session of 3 would fit without the idle model, and is told that no unload helps |
| `AdmissionExact.EvaluateMeans` | core/resources.py:420-498 | For every registry: concurrency exactly at the maximum; admitted exactly when the session (with base, if not resident) has room; and which refusal, with the room an unload would make |
| `CapacitySafety.ColdCheckFits` | core/resource.py:347-369 | A passed cold check means the request fits under any ceiling at or above the limits |
| `CapacitySafety.WarmCheckFits` | core/resource.py:371-399 | A passed reuse check means the request fits once the matched soft entry is traded for active use |
| `CapacitySafety.SessionCheckFits` | core/resources.py:475-498 | A passed parallel check means base and session fit together |
| `CapacitySafety.ReserveTotal` | core/resource.py:542-564 | Exactly how much a reservation changes used plus soft, metric by metric |
| `CapacitySafety.ReleaseTotal` | core/resource.py:611-656 | Releasing and retaining a model never raises used plus soft |
| `CapacitySafety.StepIsSafe` | core/resources.py:519-592 | Each interleaved step (check, reserve, release, unload, expiry) keeps the resource under the ceiling and keeps a pending checked request admissible |
| `CapacitySafety.CapacityHolds` | core/resources.py:799-860 | Over every interleaving with check and reserve as separate steps, used plus soft never exceeds the larger of the limit and the initial occupation, so a resource that starts within its limits stays there |
| `Conservation.ReserveBalances` | core/resource.py:542-564 | A reservation keeps `used` equal to the sum over consumers |
| `Conservation.ReleaseBalances` | core/resource.py:611-635 | Giving back what a consumer holds keeps `used` equal to the sum over consumers, and no clamp to zero acts |
| `ResourceRegistry.Resources.CheckAvailable` | core/resources.py:187-196 | The loop answers whether every named resource exists and has room |
| `ResourceRegistry.Resources.CheckAvailableForReuse` | core/resources.py:198-215 | The loop answers whether every named resource exists and can reuse the warm model |
| `ResourceRegistry.Resources.ModelIsLoaded` | core/resources.py:384-403 | True exactly when each required resource carries the base reservation or a covering soft entry |
| `ResourceRegistry.Resources.EvaluateModelAdmission` | core/resources.py:420-498 | Reason and admissibility for a model at its limit, without requirements, single-request and parallel, loaded and cold |
| `ResourceRegistry.Resources.AcquireModelSlot` | core/resources.py:360-371 | Takes the slot exactly when the model has none taken and no active request, and records its owner |
| `ResourceRegistry.Resources.ReleaseModelSlot` | core/resources.py:373-382 | Gives back the slot its consumer owns, or does nothing |
| `ResourceRegistry.Resources.MarkModelFinished` | core/resources.py:341-349 | Counts one active request down, never below zero, and says whether any is left |
| `ResourceRegistry.Resources.ReserveIfAvailableOrReuse` | core/resources.py:799-828 | Succeeds exactly when slot and room (or a warm model) are there, and then charges every resource; a refusal leaves the slot tables as they were |
| `ResourceRegistry.Resources.ReleaseFor` | core/resources.py:834-860 | The slot of the consumer and its share of every resource are given back, and nothing else changes |
| `ResourceRegistry.Resources.ReserveModelStart` | core/resources.py:519-558 | Nothing for a model without sessions; otherwise refuses without a trace or charges base (once), session and active count together |
| `ResourceRegistry.Resources.ReleaseModelSession` | core/resources.py:560-592 | Gives the session back, and the base with the last session |
| `ModelAdmission.AdmittedResourcesExist` | core/resources.py:533-541 | An admitted parallel start never meets an unknown base resource, so the early return inside the reservation loop is dead |
| `AdmissionRuns.StepKeepsInv` | core/resources.py:326-382 | Every event of the system keeps: books equal to the live runs, exact slot and active counts, concurrency limits, capacity |
| `AdmissionRuns.EveryRunKeepsInv` | core/scheduler.py:665-684 | The same over whole runs of any length |
| `AdmissionRuns.FreshIsExact` | core/resources.py:23-54 | An empty registry satisfies the invariant |
| `AdmissionRuns.DrainedUsesNothing` | core/resource.py:611-635 | When no run is left, every resource has used 0, no consumers, and all active counts are 0 |
| `AdmissionRuns.BaseFollowsActiveCount` | core/resources.py:536-547 | The base of a parallel model is on each of its resources exactly while its active count is positive, and is counted once |
| `AdmissionRuns.RefusalHoldsNothing` | core/resources.py:807-821 | A refused admission leaves the registry exactly as it was |
| `AdmissionRuns.FreeSlotMeansIdle` | core/resources.py:351-371 | A free slot of a single-request model means no run of it in any phase: slot and active phases overlap without a gap |
| `AdmissionExact.AdmittedIff` | core/resources.py:799-828 | In every reachable state a plain request is admitted exactly when no run of its model is under way and it keeps all its resources within their limits, or its model is resident on all of them |
| `AdmissionExact.SessionAdmittedIff` | core/resources.py:519-558 | A session is admitted exactly when fewer than the maximum are under way and there is room for it, and for the base where the model is not resident |
| `AdmissionRuns.LostStart` | core/scheduler.py:569-594 | Any dispatched run, plain or session, that is cancelled before its `try` never releases: books and counts survive exactly when it was a plain run that held nothing |
| `AdmissionRuns.LostStartBlocksModel` | core/scheduler.py:569-594 | From an empty system: the first run of a model, lost this way, makes every later admission of that model fail although nothing runs |
| `AdmissionRuns.ReusedId` | core/resources.py:360-382 | A second admission under a consumer id still in use restores the slot tables exactly when the id held no slot |
| `AdmissionRuns.ReusedIdKeepsShares` | core/resource.py:542-635 | The resource shares do survive it: the amounts of the two requests add up and come apart again, for the id and for everybody else |
| `AdmissionRuns.ReusedIdLosesSlot` | core/resources.py:360-382 | A run that owns one model's slot and is admitted for another under its id: after both releases the first slot is taken and nobody owns it |
| `AdmissionRuns.EmptyBase` | core/resources.py:445-448 | A parallel model without base is admitted without a look at its session memory: limits hold exactly when the session happens to fit |
| `AdmissionRuns.EmptyBaseOverfills` | core/resources.py:445-448 | A resource of size 1 and a session of size 2: admitted from an empty system, and over the limit |
| `AdmissionLocks.ProgramOrdered` | core/resources.py:57-76 | Every request acquires locks in rising rank and releases all of them |
| `AdmissionLocks.StepInv` | core/resource.py:553-562 | Steps and cancellations keep lock ownership exclusive and programs ordered |
| `AdmissionLocks.NoDeadlock` | core/resources.py:57-76 | With no lock leaked, every reachable state with an unfinished process has a process able to step, for any number of processes and requests |
| `AdmissionLocks.StepsAreBounded` | core/resources.py:57-76 | No run of steps is longer than the work at hand, so progress means completion |
| `AdmissionLocks.CancelLeaksIff` | core/resources.py:57-76 | In every reachable state, a cancellation leaks exactly when the process waits for the guard of a registered id of its request and has a smaller one; then exactly the guards of its smaller ids leak |
| `AdmissionLocks.OneResourceNeverLeaks` | core/resources.py:57-76 | A request without guard, or with at most one registered id, never leaks |
| `AdmissionLocks.CompletionIff` | core/resources.py:57-76 | All processes can be driven to their end exactly when none still needs a leaked lock |
| `AdmissionLocks.LeakStrandsAnother` | core/resources.py:70-76 | Three requests over two resources: the second is cancelled between its locks, and however the run goes on the third never finishes |
| `GuardedAdmission.EventKeepsInv` | core/resources.py:799-860 | Each lock step, check, charge, release, unload, cancellation and tick keeps: books equal to what the jobs hold, every resource within its limits, and room for every admitted job that is still to be charged |
| `GuardedAdmission.GuardedRunsAreSafe` | core/resources.py:57-860 | Any number of resources and jobs, the check under the guards and one charge per leaf lock as separate steps: at every reachable state each resource is within its limits and its book is exact |
| `GuardedAdmission.LocksRunAlone` | core/resources.py:57-76 | Forgetting checks and charges turns a run of the whole into a run of the locks, so what holds of all lock runs holds here |
| `GuardedAdmission.GuardedRunsProgress` | core/resources.py:57-76 | With no lock leaked, some job can step in every reachable state with an unfinished one |
| `GuardedAdmission.AdmittedIsChargedEverywhere` | core/resources.py:807-828 | An admitted job whose body takes every resource's lock, as `reserve_blind_for` does, ends charged to all of them unless it is cancelled |
| `TaskQueue.QueueManager.AddTask` | core/queue_manager.py:74-85 | Hash, queue entry and registry are set together, with status queued and the score of priority and time |
| `TaskQueue.QueueManager.PopNext` | core/queue_manager.py:184-190 | Removes and returns the entry with the least score |
| `TaskQueue.QueueManager.RecoverStartupTasks` | core/queue_manager.py:87-158 | The loops over the queues restore or quarantine each member; the loop over the hashes restores queued orphans and fails running tasks (`TaskQueue.RecoveryMeans` says what becomes of each) |
| `TaskQueue.QueueManager.DeleteTask` | core/queue_manager.py:271-300 | Removes the task from registry and queues; a waiting external task is marked canceled, an internal hash is deleted |
| `TaskQueue.RecoveryAgreesIff` | core/queue_manager.py:87-158 | From any persisted state, recovery makes hash, queue and registry agree and leaves nothing running, exactly when no id stands in both queues with a valid queued agent hash |
| `TaskQueue.TornTaskStaysQueued` | core/queue_manager.py:95-138 | One queued agent task in both queues: recovery marks its hash failed and leaves it in the agent queue and in memory |
| `TaskQueue.RecoveryMeans` | core/queue_manager.py:87-182 | What becomes of every persisted task: misplaced members and queued hashes that cannot run end failed and quarantined, queued ones are restored at their place, running ones end failed in no queue, and all others stay |
| `TaskQueue.SurvivesIff` | core/queue_manager.py:95-138 | A task survives unchanged exactly when its hash is a valid queued one of a known type that is not in the queue of the other type |
| `TaskQueue.OrphanKeepsItsScore` | core/queue_manager.py:135-138 | A restored orphan returns to the place it was queued with |
| `TaskQueue.RecoveryIsIdempotent` | core/queue_manager.py:87-158 | A second restart changes nothing |
| `TaskQueue.EveryRunSettles` | core/queue_manager.py:184-300 | Over every run of add, pop, mark and delete the three stores agree, up to the tasks the scheduler holds |
| `TaskQueue.RecoverySettles` | core/queue_manager.py:87-158 | Recovery hands the scheduler a store that satisfies that invariant |
| `TaskQueue.LastWordCounts` | core/queue_manager.py:74-300 | Over every run the persisted status of a task is what the last operation on it said: queued, the status it was marked with, or nothing that still waits |
| `TaskQueue.DeleteLeaves` | core/queue_manager.py:271-300 | A deleted task is in no queue; from outside it keeps its hash, canceled if it still waited; otherwise nothing is left |
| `TaskQueue.ScoreOrders` | core/queue_manager.py:66-70 | Scores order by priority first and by time within a priority |
| `TaskQueue.PopIsFair` | core/queue_manager.py:184-190 | The popped task has the best priority, and no task of that priority was queued before it |
| `TaskQueue.ReAddGoesLast` | core/queue_manager.py:66-80 | A task put back precedes a waiting task exactly when its priority is strictly better, however long it had waited |
| `TaskQueue.ReAddLosesItsPlace` | core/queue_manager.py:66-80 | Of two tasks with equal priority the older one is next; popped and put back, it is behind the younger one |
| `SchedulerPass.Scheduler.RunPass` | core/scheduler.py:126-363 | One pass pops every queued task in score order, decides about each, and applies exactly the queue operations `PassOps` lists; it remembers of each task what was decided; it terminates |
| `SchedulerPass.Scheduler.DecideOne` | core/scheduler.py:135-343 | Expiry, retry time, worker, measurement, remote status and admission, in that order, decide between failing, deferring (until when) and dispatching; each branch that defers appends the task to the list once, and only the tracking of this task changes (`PassOutcomes.DecidedIff` says which case is which) |
| `SchedulerPass.Scheduler.HandleRemoteRefusal` | core/scheduler.py:840-947 | A possible detour defers at once and resets the count; unreachable targets are waited for; capacity refusals wait out the grace period, then count up to failure |
| `SchedulerPass.Scheduler.ClearRemoteTracking` | core/scheduler.py:949-953 | What was remembered about the task is dropped, and nothing else |
| `SchedulerPass.PassConserves` | core/scheduler.py:126-363 | No task is lost or duplicated: each popped task is dispatched, back in its queue once, or failed, nothing else changes, and the stores still agree |
| `PassOutcomes.DecidedIff` | core/scheduler.py:135-343 | A task fails exactly if it has expired, or gets to a refusal that is the fifth to count; it goes exactly if it passes every test and gets room; otherwise it is deferred, with the retry time of each case |
| `PassOutcomes.PassPlaces` | core/scheduler.py:126-363 | In every pass the failed tasks of that rule end failed, the going ones are with their runs, and all others are back in their queue |
| `PassOutcomes.PassRemembers` | core/scheduler.py:141-343 | After a pass each task has the retry time of that rule, and its history has grown by what the pass saw |
| `PassAdmission.DeferredHoldsNothing` | core/scheduler.py:196-343 | With the registry's own answers as observations, and whatever other runs do between any two steps: a pass admits exactly the runs of the tasks it dispatches, in order, and the invariant of whole runs (exact books and counts, concurrency, capacity) holds at its end |
| `PassAdmission.PassAddsDispatched` | core/scheduler.py:196-343 | A pass during which no other run moves leaves the old runs, unchanged, and the dispatched ones; if it dispatches nothing, no book, count or slot differs, and at most idle models were unloaded |
| `RemoteRefusals.FailsIff` | core/scheduler.py:863-931 | Refusals fail the task exactly when, at some point, five of them have counted since the last detour; a refusal counts if it is for capacity, past the grace period, and no refresh gets around it |
| `RemoteRefusals.StuckFailsAtFifth` | core/scheduler.py:888-931 | After the grace period a task that only meets capacity refusals fails at the fifth, not before |
| `RemoteRefusals.RefuserIsAvoidedIff` | core/scheduler.py:840-953 | Over the whole life of a task, with pass starts and cleared tracking: a refresh avoids a candidate exactly when it follows a refusal and the candidate is the one that did not answer just then, or refused for capacity at an earlier event and nothing was dropped since; a pass-start refresh avoids nobody |
| `RemoteRefusals.RefuserIsTriedAgain` | core/scheduler.py:163-168 | A candidate that has just refused for capacity is tried again by the next refresh and at the start of the next pass |
| `RemoteRefusals.RefusalEndsLifeIff` | core/scheduler.py:923-931 | Over a whole life, a refusal fails the task exactly when it is the fifth that counts since the last detour of that life |
| `RemoteRefusals.DecisionExtendsHistory` | core/scheduler.py:135-202 | Every decision of a pass about a task leaves in the tracking exactly what its history of pass starts and refusals says |
| `RemoteRefusals.DetoursNeverFail` | core/scheduler.py:874-880 | Each successful detour resets the count, so alternating detours and refusals never fail the task |
| `RetryPolicy.HandleReject` | core/scheduler.py:1561-1620 | Under the effective policy: retry while attempts are left, next fallback while the list lasts, a new round while retries are left, and failure otherwise or when the requeue is not persisted |
| `RetryPolicy.PolicyMeans` | core/scheduler.py:1530-1559 | Which policy a failure meets: the entry of the task for its reason, else that of the worker, else none; entries override counts, tasks override workers |
| `RetryPolicy.FailureMeans` | core/scheduler.py:1561-1625 | When a task comes back under its policy, on which worker, with which attempt, and when |
| `RetryPolicy.RequeuesAreBounded` | core/scheduler.py:1541-1620 | For any sequence of failures, a task with at most `r` retries and `l` fallbacks comes back at most `l * (r + 1)` times, or `r` times when `l` is 0 |
| `RetryPolicy.FallbackRetryIsExact` | core/scheduler.py:1593-1617 | A constant fallback-retry policy uses that bound up exactly |
| `RetryPolicy.FallbacksTakeTurns` | core/scheduler.py:1597-1615 | The k-th requeue goes to fallback number `(k - 1) % l` |
| `Readiness.ModelReadinessTracker.Record` | core/kv_affinity.py:542-593 | Blank names and missing reports change nothing; otherwise a gap starts the entry anew, a change of report adds a transition, and old transitions are pruned |
| `Readiness.ModelReadinessTracker.Prune` | core/kv_affinity.py:680-692 | The loop drops exactly the transitions before the last one that starts before the cutoff |
| `Readiness.ModelReadinessTracker.BlockedRatio` | core/kv_affinity.py:633-657 | The loop computes the blocked time of the window over the observed span |
| `Readiness.ModelReadinessTracker.ShouldDivert` | core/kv_affinity.py:595-623 | True exactly when the blocked time or the blocked fraction passes its threshold (`Readiness.CompressedHistoryIsFull` says it from the samples) |
| `Readiness.ModelReadinessTracker.ClearCandidate` | core/kv_affinity.py:672-674 | The history of this candidate is forgotten, and no other |
| `Readiness.CompressedHistoryIsFull` | core/kv_affinity.py:542-692 | For every run of samples and every later query time, the stored history answers as the full list since the last gap: covered span, blocked part of it (at most 1), and divert exactly when the blocked run at its end is as long as its limit (cold if the last report says not loaded, else warm) or the blocked part reaches the ratio over a span long enough |
| `Readiness.HistoryIsSmall` | core/kv_affinity.py:542-692 | However many samples came, all but the first stored transition lie in the window, and one repeats another only after an empty report |
| `Readiness.DivertStays` | core/kv_affinity.py:595-623 | Once divert is advised it stays advised until the next sample |
| `JsonText.NoJsonAfterColon` | core/kv_affinity.py:172-180 | No JSON text is anything followed by a colon and a JSON text: such a colon would stand inside brackets or a string |
| `JsonText.OneCut` | core/kv_affinity.py:213-227 | So a line "name:json" can be read in one way only, whatever the name is |
| `JsonText.PrintedIsJson` | core/kv_affinity.py:172-180 | Every printed JSON value has the form those two rely on, and is one line |
| `PrefixContext.CanonicalContext` | core/kv_affinity.py:183-228 | The loops write kind, head fields, one line per message (none for an absent, null or empty list), late fields and remaining fields, each exactly once and in that order |
| `PrefixContext.IgnoredIff` | core/kv_affinity.py:183-228 | One more field leaves what a request says as it was exactly when it is private, one of the listed fields that do not shape the prompt, or a list of no messages |
| `PrefixContext.GrowthAppendsIff` | core/kv_affinity.py:183-228 | Adding messages keeps the old text as a prefix exactly when nothing follows the messages (tail keys without ':' and other than "message") |
| `PrefixContext.SameTextIff` | core/kv_affinity.py:183-228 | For names without line feed: two requests have the same text exactly when they agree in kind, head, messages, late and remaining fields, or one is the other with its leading field "message" counted as one more message |
| `PrefixContext.TextTellsApartIff` | core/kv_affinity.py:183-228 | Requests with the same text are the same exactly when both or neither lead their tail with a field "message" |
| `PrefixContext.MessageFieldCollides` | core/kv_affinity.py:214-227 | Whatever the values are, a field "message" after one message serializes like two messages |
| `PrefixContext.LineFeedInNameCollides` | core/kv_affinity.py:226-228 | A field name with a line feed serializes like two fields, whatever the values are |
| `PrefixContext.AnchorBytes` | core/kv_affinity.py:138-169 | The fraction of the length, clamped to the configured bounds and the length, is rounded down to the ladder |
| `PrefixContext.AnchorBounds` | core/kv_affinity.py:138-169 | Every anchor is positive, at most the text length and at most the configured maximum |
| `PrefixContext.RungBelowIff` | core/kv_affinity.py:158-169 | Two lengths are rounded to different rungs exactly when a rung separates them, or they differ below the ladder |
| `PrefixContext.AnchorFallsIff` | core/kv_affinity.py:138-169 | For any two lengths of any policy: one anchor is below the other exactly when its clamped part is smaller and a rung separates the two parts (or both lie below the ladder) |
| `PrefixContext.AnchorRises` | core/kv_affinity.py:138-169 | In particular, with an unchanged fraction a longer text never has a shorter anchor |
| `PrefixContext.AnchorIsNotMonotone` | core/kv_affinity.py:143-151 | With the default policy 10240 bytes give anchor 8192 and 10241 bytes give 4096 |
| `PrefixContext.InterpolatedAnchorFalls` | core/kv_affinity.py:147-151 | With the default policy 61440 bytes give anchor 16384 and 102400 bytes give 10240 (floats round that one further down, to 8192) |
| `AffinityStore.KvAffinityStore.Find` | core/kv_affinity.py:411-442 | Expired records go, the best match is answered, marked as used now and moved to the end; nothing else moves |
| `AffinityStore.KvAffinityStore.Remember` | core/kv_affinity.py:444-490 | Prunes, inserts or refreshes at the end, and enforces the limit |
| `AffinityStore.KvAffinityStore.ForgetPrefix` | core/kv_affinity.py:493-497 | Drops exactly the record of this prefix |
| `AffinityStore.KvAffinityStore.ForgetCandidate` | core/kv_affinity.py:498-507 | Drops exactly the records of the executor |
| `AffinityStore.LookupIsLongestPrefix` | core/kv_affinity.py:411-442 | The answer is the live record with the longest stored prefix of the text within the anchor, and none if there is none |
| `AffinityStore.EveryRunKeepsInv` | core/kv_affinity.py:411-531 | Under a monotone clock every reachable store has distinct keys, is sorted by last use and is within its limit |
| `AffinityStore.RememberThenLookup` | core/kv_affinity.py:411-490 | A remembered executor is the answer for the same request until its record expires |
| `AffinityStore.ForgottenIsGone` | core/kv_affinity.py:498-507 | A forgotten executor is never the answer |
| `AffinityStore.NamedExecutorsCount` | core/kv_affinity.py:444-507 | Remembering and forgetting act exactly for executors whose provider and model are named |
| `AffinityStore.EvictsLeastRecent` | core/kv_affinity.py:528-531 | Overflow evicts one record, and no record was used longer ago |
| `AffinityStore.FingerprintIsProper` | core/kv_affinity.py:391-409 | Every fingerprint has a usable anchor |
| `AffinityStore.ConversationKeepsAffinity` | core/kv_affinity.py:183-228 | A request without tail fields that gains messages still finds its executor's record unless the anchor fell |
| `AffinityStore.GrowthFindsAffinityIff` | core/kv_affinity.py:391-442 | In any sorted store that holds a live record of the earlier turn: the answer reaches as far as that record exactly when its anchor is not above the later one, and is that record exactly when no longer live record matches besides |
| `AffinityStore.ConversationKeepsAffinityIff` | core/kv_affinity.py:138-442 | In terms of the requests: a grown conversation loses its earlier record exactly when it wants less than that turn did and a rung lies between |
| `AffinityStore.LoneTurnIsFoundIff` | core/kv_affinity.py:391-490 | Where the earlier turn is all the store knows, the later turn finds it exactly when the earlier anchor is not above the later one |
| `SmartRouter.EvaluatedIsWellFormed` | core/smart_router.py:541-783 | An evaluated candidate is eligible exactly when its probe succeeded, and can start now only then |
| `SmartRouter.Alternative` | core/smart_router.py:413-439 | The loop finds the best usable other candidate |
| `SmartRouter.Probe` | core/smart_router.py:164-205 | Without affinity the item loop ends at the first candidate that can start; otherwise it evaluates all items that are not excluded |
| `SmartRouter.SelectWithAffinity` | core/smart_router.py:315-372 | Ready, concurrency and memory admissions, overload and expired waits decide between the preferred candidate, the best alternative and no preference |
| `SmartRouter.ResolveRoute` | core/smart_router.py:92-275 | The choice is that of the strategy over the evaluated items, with or without affinity, and the record's executor is forgotten exactly when the record is not accepted |
| `SmartRouter.PlainMeans` | core/smart_router.py:187-260 | `first_available`: the first candidate that can start, else the least eligible one by fallback priority and position, else failure |
| `SmartRouter.BestOtherMeans` | core/smart_router.py:413-439 | The alternative is usable, is not the preferred one, and no other usable candidate is better |
| `SmartRouter.AffinityRefinesPlain` | core/smart_router.py:207-260 | Same choice without an accepted record; failure exactly when plain routing fails; the choice is always eligible |
| `SmartRouter.EvaluatedAreNotExcluded` | core/smart_router.py:164-189 | Candidates come exactly from items that are neither excluded nor invalid |
| `SmartRouter.BlockedPreferredYields` | core/smart_router.py:355-359 | A preferred candidate that waits for memory yields whenever another one can start |
| `SmartRouter.AffinityWaitsIff` | core/smart_router.py:338-372 | With affinity not preferred over immediate starts: affinity picks a candidate that cannot start exactly when the preferred one is admitted but queued, and not overloaded |
| `SmartRouter.AffinityDelaysIff` | core/smart_router.py:315-372 | With that setting and any candidate able to start: the chosen one cannot start exactly in that case, and then it is the preferred one |
| `SmartRouter.AffinityDelays` | core/smart_router.py:656-657 | Two admitted local candidates, one task queued for the warm one: plain routing starts the idle one, affinity waits for the warm one |
| `RouteMeaning.RouteMeans` | core/smart_router.py:315-445 | For any candidates and any record: whether the preferred one is kept, yields and to whom, or is dropped, in each of the cases admitted, no slot, and waiting for memory (with and without expired wait) |
| `RouteMeaning.PlainIs` | core/smart_router.py:187-260 | The plain choice on any candidates, by start, then fallback priority, then position |
| `RouteMeaning.StartsIff` | core/smart_router.py:541-783 | Which candidates can start now, are eligible, and with which admission, from what their checks returned |
| `MessageEncoder.AnthropicStreamEncoder.CloseBlock` | core/messages_protocol.py:942-953 | Ends the open block with its stop event and forgets the open tool call; without an open block nothing is emitted |
| `MessageEncoder.AnthropicStreamEncoder.StartBlock` | core/messages_protocol.py:955-963 | Ends the open block, then starts the next one under the next index with a clean signature |
| `MessageEncoder.AnthropicStreamEncoder.FeedArguments` | core/messages_protocol.py:1023-1044 | Arguments that extend the stored text replace it and only the rest is emitted; others are appended and emitted whole; empty ones change nothing |
| `MessageEncoder.AnthropicStreamEncoder.Feed` | core/messages_protocol.py:965-1056 | For every chunk: one message start ever, then text, thinking, signature and tool fragments in that order, then the closing events if the chunk is the last; nothing after that (`MessageEnds.StreamIsFramed` says what they carry) |
| `MessageEncoder.AnthropicStreamEncoder.Finish` | core/messages_protocol.py:1058-1062 | Ends an open stream as if a done chunk had come, and an ended one silently |
| `MessageProtocol.NothingLate` | core/messages_protocol.py:947-949 | The signature that closing a block would still have to send never exists: that branch is dead |
| `MessageProtocol.FedKeeps` | core/messages_protocol.py:965-1056 | Each call moves the protocol automaton from the phase of the old state to that of the new one, unless a stray fragment came |
| `MessageProtocol.StreamIsLegalIff` | core/messages_protocol.py:904-1062 | The emitted events are one legal Messages stream exactly when no fragment adds arguments to an interrupted tool call |
| `MessageProtocol.ContiguousStreamIsLegal` | core/messages_protocol.py:904-1062 | In particular whenever the fragments of each tool call stand together |
| `MessageProtocol.AlternatingCallsAreIllegal` | core/messages_protocol.py:1005-1044 | For any chunks: the stream is illegal exactly when some tool call comes back after text, thinking or another call, and adds arguments |
| `MessageProtocol.ThreeFragmentsAreIllegal` | core/messages_protocol.py:1005-1044 | Such a stream: three alternating fragments of two calls in one chunk |
| `MessageDecoder.AnthropicStreamDecoder.Feed` | core/messages_protocol.py:795-875 | For every event: what is gathered (text, thinking, partial arguments, finished calls, stop reason, counts) and what piece is handed out at once |
| `MessageDecoder.AnthropicStreamDecoder.Result` | core/messages_protocol.py:877-901 | Joined text and thinking, tool calls, signatures of opaque blocks, mapped and raw stop reason, stop sequence and token counts |
| `MessageDecoder.PiecesAreResult` | core/messages_protocol.py:795-901 | For every event sequence, the streamed pieces add up to the final result |
| `MessageDecoder.DecoderUndoesEncoder` | core/messages_protocol.py:780-1062 | Without stray fragments the decoder returns text, thinking, tool calls in order with names and arguments, the signature of each thinking block, and the stop reason of the wire table |
| `MessageEnds.StreamIsFramed` | core/messages_protocol.py:904-1062 | Every stream, legal or not: one start event, block events, then the stop reason its last finish reason stands for, its stop sequence, the last completion count, and the stop event |
| `MessageEnds.WholeMessageReturns` | core/messages_protocol.py:780-1062 | In terms of the chunks alone: header, all text, all thinking if included, all calls, signatures, stop reason and sequence, first prompt count and last completion count come back |
| `MessageEnds.OneChunkInOrder` | core/messages_protocol.py:965-1046 | The exact events of a first chunk with text, thinking, signature and a tool call |
| `MessageDecoder.ArgumentsMirror` | core/messages_protocol.py:1023-1044 | Stored arguments always equal the concatenated partial JSON of the open block |
| `MessageDecoder.FinishReasonReturnsIff` | core/messages_protocol.py:19-34 | With the stop reason the wire table gives it, a finish reason survives the round trip exactly for stop, length, tool_calls and content_filter; every stop reason without an entry reads as stop |
| `MessageDecoder.CumulativeKeepsLast` | core/messages_protocol.py:1028-1035 | Fragments that each repeat the text before them leave the last one |
| `MessageDecoder.IncrementalKeepsAllIff` | core/messages_protocol.py:1028-1035 | Incremental fragments are concatenated exactly when none of them starts with all the text before it |
| `MessageDecoder.IncrementalLosesText` | core/messages_protocol.py:1028-1035 | Such fragments: "a" and then "ab" leave "ab" |
| `EventStream.IterResponseLines` | core/upstream_response.py:81-102 | The lines and the spooled bytes depend only on the concatenation of the chunks |
| `EventStream.IterSseEvents` | core/upstream_response.py:105-114 | The events, too, depend only on the concatenation of the chunks |
| `EventStream.SseData` | core/upstream_response.py:117-126 | The joined data lines of one event, or none |
| `SseFields.DataMeans` | core/upstream_response.py:117-126 | Any event, with any mixture of line ends: the values of its data fields, joined by line feeds, less one space after the colon; none without such a field |
| `EventStream.EventsConcat` | core/upstream_response.py:81-114 | For arbitrary bytes the events concatenate to the input |
| `EventStream.EventsWellCut` | core/upstream_response.py:105-114 | An event has no blank line but its last, and only the final event may lack it |
| `EventStream.PrintedFramesReturn` | core/messages_protocol.py:1065-1067 | Printed frames are found again as events, and their data are the payloads in order |
| `EventStream.ReadPrinted` | core/upstream_response.py:81-126 | However the printed frames are cut into chunks, reading returns the payloads in order |
| `AuditJournal.AuditLog.AppendRecordSync` | core/audit_log.py:710-735 | The record's line is appended and its row holds the old file size and the line's length |
| `AuditJournal.AuditLog.BeginDeletion` | core/audit_log.py:447-454 | The day is hidden before any file goes |
| `AuditJournal.AuditLog.DeletePartition` | core/audit_log.py:456-464 | Files and rows of the day go, and nothing else |
| `AuditJournal.AuditLog.RebuildIndex` | core/audit_log.py:641-653 | The rows of a fresh scan, or the old rows when a line does not decode |
| `AuditJournal.AuditLog.ReadEvent` | core/audit_log.py:602-639 | The parsed slice the row points to, if the row is visible and the slice is JSON |
| `AuditJournal.EveryRunAgrees` | core/audit_log.py:456-735 | After any run of appends, deletions (also interrupted ones) and rebuilds the visible rows equal a fresh scan of the journals |
| `AuditJournal.RunsFromEmptyAgree` | core/audit_log.py:456-735 | In particular for every run that starts with an empty journal |
| `AuditJournal.ReadFindsIff` | core/audit_log.py:602-639 | Reading returns a record of that id exactly when a visible journal line holds one |
| `AuditJournal.AppendedIsRead` | core/audit_log.py:627-735 | An appended record can be read back at once |
| `AuditJournal.DeletionMeans` | core/audit_log.py:447-464 | A deletion, begun or finished, takes exactly the records of its day from the readers |
| `AuditJournal.DeletedDayIsReusable` | core/audit_log.py:456-735 | After it a record appended on that day is the first line of its file and can be read |
| `AuditJournal.RebuildAgrees` | core/audit_log.py:641-653 | A rebuild makes the index agree, whatever was in it before |
| `AuditJournal.RebuildIsIdentity` | core/audit_log.py:641-653 | A rebuild of a consistent state changes nothing |
| `AuditJournal.AppendAgreesIff` | core/audit_log.py:719-727 | After an append the index agrees exactly when the file was empty or ended with a line feed |
| `AuditJournal.AppendAfterTornWrite` | core/audit_log.py:719-727 | A torn write does no harm by itself; the next append to that file makes the index disagree with every later scan |
| `AuditJournal.RebuildFailsIff` | core/audit_log.py:1170-1186 | A rebuild fails exactly when some journal line is not valid UTF-8 |
| `AuditJournal.OneByteFailsRebuild` | core/audit_log.py:1170-1186 | A file that holds one such byte makes the rebuild fail, and the index stays as it was |

## Left out

- `ResourceLedger.Resource.IsAvailable`: measured and peer availability (core/resource.py:284-297, core/resource.py:355-361) is not modelled.
- `ResourceLedger.Resource.IsAvailableForReuse`: with measured availability, warm reuse skips the arithmetic on purpose, so no capacity statement holds there.
- Limit changes through `apply_config`, `force_release` and resource restoration at startup: operator actions outside the admission protocol.
- The choice of idle models in `force_unload_for`: an unload is any removal of soft entries in `AdmissionRuns`, `CapacitySafety` and `PassAdmission`, and an observed outcome in `SchedulerPass`.
- The text form of base consumer ids: `base:provider:model` is a datatype here, so two models whose names join to the same text are not confused as they would be in the source.
- Trimming and lower-casing of names and codes: names arrive trimmed, unknown texts are numbered.
- `AdmissionLocks.NoDeadlock`: requests are programs of lock actions and suspension points; what they compute between the locks is in the other modules.
- The order in which waiters get an asyncio lock: any waiter may get it, so fairness is not claimed.
- `TaskQueue.QueueManager.SetStatus`: the payload, result and error fields of a hash, notifications and audit records are not modelled, only what the queue depends on.
- Cancellation of a task that a pass holds: a pass is one step with respect to `terminate_task`.
- Exceptions inside a pass (route refresh, resource monitor): they end the scheduler loop and are not part of this model.
- `SchedulerPass.Scheduler.RunPass`: probes, clocks and registry answers are observations per task; the re-adds of one pass carry one time.
- Smart execution fallback and hook-driven retries (core/scheduler.py:688-827): neither has a bound to prove.
- The Redis mirror of the prefix cache: it inserts records with foreign times and would break the order by last use.
- `PrefixContext.AnchorBytes`: float rounding of the fraction is not modelled.
- `PrefixContext.CanonicalContext`: the bytes of UTF-8 are characters here, and the fields arrive sorted by key.
- `PrefixContext.SameTextIff`: field names with a line feed are not covered; `PrefixContext.LineFeedInNameCollides` shows why.
- `GuardedAdmission.GuardedRunsAreSafe`: plain admissions only; whether the model's slot is free is an observation there, and sessions and slot tables are in `CapacitySafety` and `AdmissionRuns`.
- `PassAdmission.DeferredHoldsNothing`: the base of a parallel model is not empty and run ids are new, as in `AdmissionRuns`.
- `AffinityStore.KvAffinityStore.Remember`: the cache group and the last reason of a record are not stored; the router module models the group.
- Candidate evaluation inside the router beyond the fields the selection reads: latencies, telemetry and probe caching.
- `SmartRouter.ResolveRoute`: the readiness records written and the record remembered afterwards belong to the modules of the tracker and the store.
- `MessageDecoder.AnthropicStreamDecoder.Feed`: error events and redacted thinking are not modelled, and usage counts are gathered but not part of the round trip.
- `MessageDecoder.AnthropicStreamDecoder.Result`: an opaque block is its signature, and usage is its two token counts.
- Request conversion between the two message forms, which drops text beside opaque blocks.
- `MessageEncoder.AnthropicStreamEncoder.Feed`: a call without id carries the id drawn for it, and structured arguments arrive as their JSON text.
- `EventStream.IterResponseLines`: the line fallback for responses without raw chunks is not modelled.
- Differences from the standard that the reader does not claim to follow: a lone CR does not end an event, and a final unterminated event is yielded.
- `AuditJournal.AuditLog.RebuildIndex`: `file_references` rows and restored terminal reservations are not modelled, nor are attachments, quotas and the writer thread.
- HTTP, subprocesses, provider process control, dashboards, cron and settings.
