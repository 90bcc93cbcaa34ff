# SMS service: verified model

This project models one SMS gateway: requests that create messages under an idempotency key,
workers that dispatch them across providers, admin requeues, delivery callbacks, and the provider
throttle.  Each shared access is one atomic Redis, PostgreSQL, queue or provider operation, and is
one step of a state machine here.  A run of steps is then any interleaving of the actors, with
crashes, lost replies, expiries and redeliveries wherever they can happen.  Main results hold over
all runs.  The service methods are written beside the machines as the imperative programs they
are, over objects whose state the machines' steps change, with everyone else acting at every
`await`; the contracts tie them to the machines.

`dafny verify dfyconfig.toml` checks the whole project.

## Files

| file | what it holds |
|---|---|
| `SmsMessage.dfy` | the stored row and every SQL statement that writes it |
| `DeliveryStatus.dfy` | the callback policy, the conditional UPDATE, and what any sequence of callbacks does |
| `DispatchPlan.dfy` | backoff, and the plan a dispatch follows: its calls, sleeps and end |
| `DispatchLaws.dfy` | what a plan's calls, sleeps and end are, in terms of the replies' own fields |
| `MessageMachine.dfy` | one message and all that acts on it, as a transition system |
| `MessageHistory.dfy` | what the machine's history counters count, and where the delivery time comes from, on the steps of a run |
| `MessageSafety.dfy` | what holds in every run: no stranding, conservation of attempts and of requeues |
| `MessageExclusive.dfy` | what holds under E1 and E2: integrity, the delivery phase, duplicate sends |
| `MessageClaims.dfy` | who wins the claim: exact conditions, and E1 and E2 derived from what the queue does |
| `MessageDeliveries.dfy` | when a message leaves the delivery phase, and which callbacks are lost: exact conditions |
| `DispatchRuns.dfy` | the provider calls each execution makes in any run, and the plan they follow |
| `MessageWitnesses.dfy` | concrete runs that refute claims without E1 or E2, or strand a message |
| `RequestMachine.dfy`, `RequestSafety.dfy` | the whole system: requests, cache, locks, table, and every row's machine |
| `RequestAnswers.dfy` | why a send request is answered as it is |
| `SmsDispatcher.dfy` | `dispatch` and its loops as a program, proved to follow the plan |
| `SmsService.dfy` | `sendSmsRequest` as a program over the system |
| `MessageRequests.dfy` | admin requeue and `DeliveryStatusService.apply` as programs |
| `RateLimiter.dfy`, `ProviderRateLimiter.dfy` | the fixed-window throttle: machine, counter store and loop |
| `BirdWebhook.dfy`, `BirdWebhookService.dfy` | Bird deliveries and their claims: machine and `handle` |
| `MessageWebhooks.dfy` | Bird deliveries among everything else that acts on a message |
| `RedisStores.dfy`, `QueueService.dfy` | keys with expiry, locks, claims; the two queues and their job ids |
| `MachineStores.dfy` | what the stores and the queue do, as the actions and steps of the machines |
| `ProviderRegistry.dfy`, `DiagnosticCode.dfy`, `Text.dfy`, `Numbers.dfy` | the priority list, the diagnostic code sanitizer, trimming, arithmetic |

## Environment assumptions

`markSent`, `markFatalFailure`, `markQueuePublishFailed` and the restore after a failed requeue
write by row id alone, so some properties of the row need the environment to keep two promises:

- **E1** (`MessageMachine.ClaimsAlone`): no claim succeeds while another dispatch of the message is
  between its claim and its final write.  A crashed dispatch counts as ended.
- **E2** (`MessageMachine.FailedPublishUnclaimed`): when a publish fails, nobody claims the row
  between the start of the epoch and the compensating write.

Lemmas that use them say so by requiring `Exclusive` runs (`ExclusiveHistory` for the whole
system).  `MessageWitnesses` has a run for each that shows the delivery phase being left when only
the other one is kept; `MessageDeliveries.DeliveryIsKeptIff` says, with neither, exactly when it is
not left.  Both follow from three things an operator can see to
(`MessageClaims.OrderlyRunsAreExclusive`, and `RequestSafety.OrderlyHistoriesAreExclusive` for the
whole system): the queue takes a job from its holder only when the holder has ended, a message is
requeued only when the queue has settled all its jobs, and an add that fails has not reached the
queue.

The lemmas of `MessageSafety`, `MessageHistory`, `DispatchRuns`, `RequestAnswers`, those of
`MessageDeliveries` but for `RetrySucceedsIff`, `RateLimiter` and the creation and lock results of
`RequestSafety` assume neither.  `BirdWebhook` follows deliveries in a machine where they alone
write the row, which stands for a message already sent; `MessageWebhooks` carries its results about
the row over to the whole message machine, under E1 and E2.

Every row begins with no provider message id, timestamps or error.  A callback is in flight only
after a lookup that matched the provider and provider message id stored in the row; these pairs are
taken to name one message, though their index is not unique
(`src/database/migrations/1760000001000-AddProviderMessageIdIndex.ts:10-12`).

## Where the code and its documentation differ

- `README.md:404` says that two workers racing for a message cannot both win.  The claim accepts
  PROCESSING (`src/modules/sms/services/sms.service.ts:295-297`), so they can:
  `MessageWitnesses.BothWorkersWin` is such a run, in which a provider accepts the message twice and
  nothing crashed.  They do not exactly when each claim that succeeds comes after the last winner has
  ended its dispatch (`MessageClaims.ClaimIsExclusiveIffWinnerIsDone`), as in every orderly run.
- `README.md:240` says that failover happens after a provider throws.  The dispatcher turns an
  exception into a retryable failure (`src/modules/sms/services/sms-dispatcher.service.ts:253-261`), so
  it retries the same provider first: `DispatchLaws.ThrowWithoutFailover` is such a dispatch, and
  `DispatchLaws.ThrowMovesOnOnlyAtTheLimit` says exactly which exceptions are followed by failover.
- One may expect a PROCESSING row to have a live job whose dispatch claimed it.
  `MessageWitnesses.ProcessingWithoutLiveJob` is a run, keeping both E1 and E2, where a stalled worker
  claims a requeued row before its new job exists.  `MessageClaims.ProcessingIsLiveIffClaimsHoldJob` and
  `MessageClaims.ProcessingIsClaimedByLiveJobIff` say exactly in which runs the row has one.
- `README.md:614` says that the claim is released if processing throws, so that a Bird retry is not
  silently dropped.  The release may fail too (`src/modules/webhooks/services/bird-webhook.service.ts:143-156`),
  and then the retry is dropped: `BirdWebhook.UnreleasedClaimDropsRetry`, and
  `BirdWebhook.DroppedUnprocessed` for a crash.  `BirdWebhook.NoneDroppedInVainIff` says exactly when none is.
- `README.md:494` says that retrying a callback for an unknown provider message id would never
  succeed.  A callback that comes between the provider's acceptance and the SENT write finds nothing,
  and would be found a moment later: `MessageWitnesses.CallbackBeforeSentWrite`.  For an acceptance in
  the past, `MessageDeliveries.RetrySucceedsIff` says exactly when a retry would succeed.  A Bird
  redelivery is dropped even then, while the first one's claim lasts
  (`BirdWebhook.UnfoundReportKeepsItsClaim`).

## Model

| member | source | states |
|---|---|---|
| MessageSafety.StrandedIffForsaken | src/modules/sms/services/sms-dispatcher.service.ts:49-95 | In every interleaving, a QUEUED or PROCESSING message has neither a pending publisher nor a live, undecided job of its current epoch exactly when that job ran out of retries or the process that opened the epoch died before adding it. No assumption. |
| MessageSafety.RunKeepsUndecided | src/modules/sms/services/sms.service.ts:286-301 | While a row is claimable, no execution of its current job has finished with it, and the queue has not completed that job. |
| MessageSafety.UnsentRowsHaveNoReceipt | src/modules/sms/services/sms.service.ts:332-348 | With no assumption, QUEUED, PROCESSING and FATAL_FAILURE rows never hold a provider message id or a send time. |
| MessageSafety.ClaimableRowsAreLikeNew | src/modules/sms/services/sms.service.ts:488-502 | With no assumption, a QUEUED or PROCESSING row, requeued or not, differs from a new one in nothing but its attempts and a deliveredAt that a stalled worker wrote over. |
| MessageSafety.AttemptsOverRuns | src/modules/sms/services/sms-dispatcher.service.ts:109-139 | Attempts equal provider calls made plus executions now between counting and calling plus those that ended there; they never decrease, requeues included, and never exceed executions times providers times the retry limit. |
| MessageSafety.RequeuesConserved | src/modules/sms/services/sms.service.ts:350-398 | Requeues never outnumber the entries into FATAL_FAILURE, and those not undone by a restore never outnumber the failures of dispatches: one fatal failure yields at most one lasting requeue. |
| MessageSafety.RequeuesAddUp | src/modules/sms/services/sms.service.ts:488-519 | Over any run, counted step by step: transitions from FATAL_FAILURE to QUEUED equal requeue jobs published plus failures restored plus publishers lost plus those pending; the queue holds the jobs published and those of failed adds that reached it, and no more than the failures of dispatches but for the latter. |
| MessageSafety.LiveIffHeld | src/modules/sms/services/sms-dispatcher.service.ts:49-95 | While a row is QUEUED or PROCESSING, its job is live exactly when the queue has it with retries left. |
| MessageHistory.CountersCountSteps | README.md:379-387 | In any run, each counter that the conservation laws speak of is the number of the steps it stands for. |
| MessageHistory.HistoryTellsTheRun | src/modules/sms/services/sms.service.ts:321-330 | In any run, the sent row and the callbacks that the laws about SENT rows speak of are the row last written SENT and those of the UPDATEs since, in order. |
| MessageHistory.DeliveryTimeIsReported | src/modules/webhooks/services/delivery-status.service.ts:111-128 | In any run, with no assumption, deliveredAt is the time of the last DELIVERED report that was applied: no dispatch, requeue or other report ever sets or clears it. |
| MessageExclusive.DeliveryPhaseIsNeverLeft | src/modules/sms/services/sms.service.ts:286-348 | Under E1 and E2, a message that reached SENT or a callback outcome never becomes QUEUED, PROCESSING or FATAL_FAILURE; its status only climbs; once DELIVERED no column changes, whoever acts. |
| MessageExclusive.CallbacksLandInDeliveryPhase | src/modules/webhooks/services/delivery-status.service.ts:42-83 | Under E1 and E2, a callback's UPDATE by id, however late after its lookup, never lands on a row outside the delivery phase, and a SENT callback never changes one. |
| MessageExclusive.RowsKeepIntegrity | src/modules/sms/services/sms.service.ts:196-233 | Under E1 and E2, in every state deliveredAt is set iff DELIVERED, and failedAt and lastError are each set iff the status is a failure; a claimable row is a new one but for status and attempts. |
| MessageExclusive.SentRowsAreSettled | src/modules/webhooks/services/delivery-status.service.ts:42-109 | However callbacks interleave with each other and with all else, the row is its SENT write settled by the first DELIVERED, else by the first failure, among the callbacks in the order of their UPDATEs. |
| MessageExclusive.DuplicatesBoundedByCrashes | README.md:379-387 | Under E1 and E2, over any run, requeues included, the acceptances that workers heard of number at most one more than the dispatches that ended between such an acceptance and the persisted SENT. |
| MessageDeliveries.DeliveryIsKeptIff | src/modules/sms/services/sms.service.ts:332-348 | With no assumption, a run never leaves the delivery phase exactly when no dispatch writes FATAL_FAILURE, and no requeue restores it, after the row has been in the phase since that dispatch's claim, or since that requeue. |
| MessageDeliveries.RetrySucceedsIff | README.md:494 | Under E1 and E2, a callback for a past acceptance that finds nothing now would find its message later exactly when the acceptance is awaiting its SENT write now and that write comes. |
| MessageDeliveries.FoundLater | src/modules/webhooks/services/delivery-status.service.ts:43-60 | With no assumption: what a lookup misses now and finds later, with no new acceptance of its id, was awaiting its SENT write. |
| MessageClaims.ClaimIsExclusiveIffWinnerIsDone | src/modules/sms/services/sms.service.ts:286-301 | Two dispatches of a message are never under way at once exactly when each claim that succeeds comes after the last winner has ended its dispatch. |
| MessageClaims.OrderlyRunsAreExclusive | src/modules/queue/queue.service.ts:26-45 | E1 and E2 hold, and no two dispatches overlap, in every run where jobs are redelivered only from ended holders, messages requeued only when their jobs are settled, and failed adds add nothing. |
| MessageClaims.ProcessingIsLiveIffClaimsHoldJob | src/modules/sms/services/sms.service.ts:286-301 | Every PROCESSING row of a run has a live job exactly when each successful claim is made while the queue holds the current job with retries left, and the queue does not give up on it meanwhile. |
| MessageClaims.ProcessingIsClaimedByLiveJobIff | src/modules/sms/services/sms.service.ts:286-301 | Every PROCESSING row of a run has a live job whose execution claimed it exactly when, in addition, each successful claim is made for the current job. |
| DispatchRuns.CallsFollowThePlan | src/modules/sms/services/sms-dispatcher.service.ts:101-241 | In any run, the provider calls an execution has made, with the replies they got, are the first of the plan for these replies, all of them once it is through, and its state is where the plan says. |
| DispatchRuns.DispatchesMakeTheirPlans | src/modules/sms/services/sms-dispatcher.service.ts:141-204 | In any run, an execution that writes SENT or FATAL_FAILURE has made exactly the calls of its plan and writes exactly its end. |
| DispatchRuns.CallsFollowReplies | src/modules/sms/services/sms-dispatcher.service.ts:109-202 | In any run, each provider call of an execution is the one that the fields of the reply to the call before it ask for. |
| DispatchRuns.FinalWritesSpeakForLastReply | src/modules/sms/services/sms-dispatcher.service.ts:141-204 | In any run, a SENT write carries the last reply's provider and id; a FATAL_FAILURE write carries its own error text or the fallback, and only after a non-retryable refusal, or the last attempt, at the last provider; every other column is set or left as the source does. |
| MessageWitnesses.BothWorkersWin | README.md:404 | A run in which two workers win the claim of one message and a provider accepts it twice, with no execution lost. |
| MessageWitnesses.SentOverwrittenByStalledWorker | src/modules/sms/services/sms.service.ts:332-348 | A run that keeps E2 but not E1 and ends with FATAL_FAILURE written over SENT. |
| MessageWitnesses.SentOverwrittenByFailedRequeue | src/modules/sms/services/sms.service.ts:504-519 | A run that keeps E1 but not E2 and ends with FATAL_FAILURE restored over SENT, by way of the job left over from a failed dead-letter publish. |
| MessageWitnesses.ProcessingWithoutLiveJob | src/modules/sms/services/sms.service.ts:286-301 | A run that keeps E1 and E2 and ends with a PROCESSING row whose only job is completed. |
| MessageWitnesses.CallbackBeforeSentWrite | README.md:494 | A run that keeps E1 and E2 in which the provider has accepted the message under an id, a lookup by that id finds nothing, and after the next step it finds the message. |
| MessageWitnesses.StrandedByExhaustion | src/modules/queue/queue.service.ts:37-45 | A run in which a job runs out of retries and strands its row on PROCESSING. |
| MessageWitnesses.StrandedByLostPublish | src/modules/sms/services/sms.service.ts:98-113 | A run in which the API process dies between its commit and its publish and strands the row on QUEUED. |
| RequestSafety.OneRowOneJobOneAnswer | src/modules/sms/services/sms.service.ts:58-145 | Under any expiry and interleaving: one row per key, at most one request per key ever calls the queue for its initial job, each cache entry names the key's row, and each success reply carries its id. |
| RequestSafety.QueueCalledOnce | src/modules/sms/services/sms.service.ts:98-113 | The request that calls the queue had not called it before. |
| RequestSafety.CreationSoundOverHistories | src/modules/sms/services/sms.service.ts:428-475 | The invariant behind both: keys unique, cache entries and held ids point to rows with the right key, rows remember their inserter, and a message's first publisher is at the same point as that request. |
| RequestAnswers.AnswersAreExplained | src/modules/sms/services/sms.service.ts:58-145 | Over any history: a request ends in an error only if an operation of its own threw or lost its reply, unpublished only if its add failed, in a conflict only if it found the lock taken and 20 lookups of its own found no row with its key; in every other case it ends with a success. |
| RequestAnswers.LooksBeforeInserting | src/modules/sms/services/sms.service.ts:58-100 | Over any history: a request takes or awaits the lock only after it found its key neither in the cache nor in the table, and inserts only after it found no row under the lock either. |
| RequestAnswers.RepliesWereCached | src/modules/sms/services/sms.service.ts:428-442 | Every success reply carries an id that the cache held for the key: found there, or stored before replying. |
| RequestAnswers.CachedIdsAreAnswered | src/modules/sms/services/sms.service.ts:428-442 | A cached id always names a row, so no request that finds one ever forgets it. |
| RequestSafety.LockIsSafe | src/modules/idempotency/idempotency.service.ts:51-69 | At most one request holds the unexpired lock of a key; one that ended without a crash or a store error holds none. |
| RequestSafety.ReleaseSparesOthers | src/modules/sms/services/sms.service.ts:521-533 | No action of a request, its release included, removes a lock that another request holds. |
| RequestSafety.Projection | src/modules/sms/services/sms.service.ts:98-113 | Seen from one message, any history of the whole system is a run of that message's machine, and E1, E2 and order carry over. |
| RequestSafety.EveryMessageIsAccountedFor | src/modules/sms/services/sms.service.ts:98-113 | In the whole system with no assumption: stranded only if forsaken, no receipt before sending, attempts and requeues conserved, and a first epoch still publishing has its request about to add the job. |
| RequestSafety.EveryMessageIsSound | src/modules/sms/services/sms.service.ts:286-348 | In the whole system under E1 and E2: row integrity, sent rows equal to the fold of their callbacks, duplicates bounded by lost acceptances. |
| RequestSafety.SentMessagesStaySent | src/modules/webhooks/status/delivery-status-policy.ts:35-49 | In the whole system under E1 and E2, the delivery phase is never left, and DELIVERED is absorbing. |
| RequestSafety.OrderlyHistoriesAreExclusive | src/modules/queue/queue.service.ts:26-45 | In the whole system, E1 and E2 hold wherever the queue is orderly as above. |
| SmsService.SmsService.SendSmsRequest | src/modules/sms/services/sms.service.ts:58-145 | One send request as a program, whatever everyone else does at each await, whatever throws, and whichever of lock, insert and add takes effect unheard: it ends, a success carries the id of the one row with its key, and any other outcome is explained by what happened to its own operations; if nothing throws it is a success or a conflict. |
| SmsService.SmsService.CreateUnderLock | src/modules/sms/services/sms.service.ts:90-141 | The critical section always reaches its release, whichever operation throws, before or after taking effect. |
| SmsService.SmsService.MarkQueuePublishFailed | src/modules/sms/services/sms.service.ts:102-113 | After a failed publish the row is FAILED with QUEUE_PUBLISH_FAILED and the time, every other column as it was, or the write threw; the request goes on to its release either way. |
| SmsService.SmsService.WaitForMessageCreatedByConcurrentRequest | src/modules/sms/services/sms.service.ts:444-458 | The poll loop looks 20 times at most and ends with the row's id to store, a conflict or an error. |
| SmsDispatcher.MessageHost.Dispatch | src/modules/sms/services/sms-dispatcher.service.ts:49-95 | One job execution under arbitrary interference: its provider call steps, with their replies, and its sleeps, each placed after the call that failed and as long as that reply asks, are exactly those returned; unless interrupted these are all of the plan's and it writes exactly the plan's end, with one dead-letter attempt if it gave up; interrupted, which takes a failure, they are the first of the plan's; a row read as not dispatchable is left alone. |
| SmsDispatcher.MessageHost.DispatchAcrossProviders | src/modules/sms/services/sms-dispatcher.service.ts:101-241 | The nested loops take exactly the provider call steps of the plan, in order and with their replies, sleep as it says, and end as it says; or are lost after a prefix of both. |
| SmsDispatcher.MessageHost.ReadAndClaim | src/modules/sms/services/sms-dispatcher.service.ts:49-81 | A row found outside QUEUED and PROCESSING is left alone; a claim leaves it PROCESSING. |
| SmsDispatcher.FollowsThroughFailure | src/modules/sms/services/sms-dispatcher.service.ts:160-186 | Each failed attempt leaves the rest of the plan to be followed from the next attempt or provider. |
| DispatchPlan.PlanIsSegments | src/modules/sms/services/sms-dispatcher.service.ts:109-202 | The calls of a dispatch are per-provider segments in priority order, each cut at the first success, first non-retryable failure or the retry limit, the whole cut at the first success. |
| DispatchPlan.SegmentsAreUnique | src/modules/sms/services/sms-dispatcher.service.ts:109-202 | The replies admit only one such cutting into segments. |
| DispatchLaws.PlanFollowsReplies | src/modules/sms/services/sms-dispatcher.service.ts:109-204 | Of every call of a dispatch, by its reply's own fields: none follows an acceptance; a call that threw, or was refused as retryable, is followed below the limit by the next attempt at the same provider; any other failure by the first attempt at the next provider, or by nothing at the last. The first call is the first attempt at the first provider. |
| DispatchLaws.CallsAreDetermined | src/modules/sms/services/sms-dispatcher.service.ts:109-204 | The replies admit only one list of calls that is followed so. |
| DispatchLaws.PlanSleepsBeforeRetries | src/modules/sms/services/sms-dispatcher.service.ts:160-186 | A dispatch sleeps once before each retry and nowhere else, each time for the longer of base times 2^(attempt-1) and the pause that the refusal itself asked for. |
| DispatchLaws.PlanEndsWithLastReply | src/modules/sms/services/sms-dispatcher.service.ts:141-263 | A dispatch ends with the reply to its last call: SENT under the id that it carried, or given up in its own error text, or in the exact fallback text for a refusal or an exception without one; without a provider it gives up as "unknown". |
| DispatchPlan.PlanEnd | src/modules/sms/services/sms-dispatcher.service.ts:141-204 | A plan ends as its last call says: SENT by that provider with that id, or given up with that provider and its error; all calls before it failed, and there are at most providers times limit of them. |
| DispatchPlan.SentIffSomeCallAccepted | src/modules/sms/services/sms-dispatcher.service.ts:141-158 | A dispatch ends SENT iff some planned call is accepted. |
| DispatchPlan.TotalSleepBound | src/modules/sms/services/sms-dispatcher.service.ts:162-186 | Over n providers and m attempts, one dispatch sleeps at most n((m-1)R + base(2^(m-1)-1)) when no reply asks for more than R, with equality when R is 0 and all calls fail retryably. |
| DispatchPlan.RetryDelayIsTheLonger | src/common/utils/retry.util.ts:3-13 | Backoff is base times 2^(attempt-1), a bad attempt or base an error, the former first; each sleep is at least both the backoff and the provider's own pause, and no longer. |
| DispatchPlan.SleepsWithinBound | src/modules/sms/services/sms-dispatcher.service.ts:166-185 | The same bound for the rest of a dispatch from any attempt on. |
| DispatchLaws.ThrowMovesOnOnlyAtTheLimit | src/modules/sms/services/sms-dispatcher.service.ts:243-263 | In the calls of any dispatch, a call that threw is followed by a call to another provider exactly when it was the last attempt allowed, otherwise by the next attempt at the same one; it ends the dispatch exactly when the last provider's last attempt. |
| DispatchLaws.ThrowingProviderIsRetried | src/modules/sms/services/sms-dispatcher.service.ts:243-263 | In any dispatch, a provider that throws from its first attempt on is called again and again up to the retry limit. |
| DispatchLaws.ThrowWithoutFailover | README.md:236-240 | A configuration with two providers and replies, the first an exception, for which the dispatch calls the first provider twice and the second never. |
| MessageRequests.RequeueMessage | src/modules/sms/services/sms.service.ts:350-418 | Refused untouched unless FATAL_FAILURE; otherwise it loses the race, or opens one epoch that gets its job, or gets back the failure that was found, or is lost; the last two only if an operation fails. Any operation may throw, and the transition or the add may take effect and lose its reply. |
| MessageRequests.ApplyCallbackTo | src/modules/webhooks/services/delivery-status.service.ts:42-109 | Not found leaves everything; unless an operation throws, a found callback is answered as applied exactly when its UPDATE changed the row, the status before being one it is applied over; the row then carries the callback's status, error and time; under E1 and E2 a skip's reason is the truth about the row when it is read. |
| MessageRequests.UpdatesIffProgresses | src/modules/webhooks/status/delivery-status-policy.ts:35-49 | The UPDATE changes the row exactly when the recorded status is one that the reported one is applied over, status by status; then it sets the reported status, error and time and leaves every other column. |
| MessageRequests.SkippedForAReason | src/modules/webhooks/services/delivery-status.service.ts:130-172 | A callback the policy skipped is a duplicate of the recorded status, a conflict of outcomes, or a SENT report after an outcome, also if the row climbed in between. |
| DeliveryStatus.FoldClosedForm | src/modules/webhooks/status/delivery-status-policy.ts:35-49 | Any sequence of callbacks on a SENT row gives DELIVERED with the first DELIVERED's time and no trace of failure, else the first failure with its time and error, else the row unchanged. |
| DeliveryStatus.OrderMattersOnlyBetweenFailures | src/modules/webhooks/status/delivery-status-policy.ts:21-34 | The final status is the same for every permutation exactly when a DELIVERED is among the callbacks or all failures carry the same status. |
| DeliveryStatus.RepeatedStatusIsNoOp | src/modules/webhooks/status/delivery-status-policy.ts:35-49 | A status once reported changes no column when it is reported again, whatever came between. |
| DeliveryStatus.ApplyClimbs | src/modules/webhooks/services/delivery-status.service.ts:111-128 | An UPDATE changes a row exactly when it climbs, then sets the callback's status, and keeps the outcome columns consistent. |
| RateLimiter.ThrottleTerminates | src/modules/providers/rate-limiting/provider-rate-limiter.service.ts:50-64 | With N calls in a run, each is refused at most floor((N-1)/max) times. |
| RateLimiter.RefusalsAreBounded | src/modules/providers/rate-limiting/provider-rate-limiter.service.ts:58-62 | Each refusal of a call is paid for by max grants to other calls, in windows of its own. |
| RateLimiter.RateIsBounded | src/modules/providers/rate-limiting/provider-rate-limiter.service.ts:53-60 | At most max grants per window, and at most (k+1)max over any interval k windows long, all workers together. |
| RateLimiter.NoExpiryInsideWindow | src/modules/providers/rate-limiting/redis-rate-limit-counter.store.ts:11-18 | A counter never expires inside its own window, and a refused call sleeps at most a window's length, to past the window's end. |
| ProviderRateLimiter.ProviderRateLimiterService.Throttle | src/modules/providers/rate-limiting/provider-rate-limiter.service.ts:50-64 | The `while (true)` loop ends within the refusals above, sleeps in all what its refusals sent it to sleep, a window at most for each, and returns at a moment whose window had room, whatever other callers do while it sleeps. |
| RateLimiter.SleepIsBounded | src/modules/providers/rate-limiting/provider-rate-limiter.service.ts:58-62 | In any run, a call is sent to sleep for a window's length at most for each of its refusals, and not before it begins. |
| ProviderRateLimiter.RedisRateLimitCounterStore.Increment | src/modules/providers/rate-limiting/redis-rate-limit-counter.store.ts:32-43 | Increments the live counter or starts one that expires after the duration, and answers with it and its remaining life, 1 ms at least. |
| BirdWebhook.ClaimIsOnlyAFastPath | src/modules/webhooks/services/webhook-idempotency.service.ts:28-48 | Where Bird deliveries alone write a sent message's row: however claims expire, are lost or are released by another handler, it is the fold of each processed webhook id taken once, at its first processing. |
| MessageWebhooks.SentRowTakesEachIdOnce | src/modules/webhooks/services/bird-webhook.service.ts:81-106 | The same for the row of the whole message machine, under E1 and E2: the SENT write with each webhook id applied since taken once. |
| MessageWebhooks.ReprocessingInRunsChangesNothing | src/modules/webhooks/services/bird-webhook.service.ts:99-105 | Under E1 and E2, in the whole message machine, an UPDATE for a webhook id applied before changes no column. |
| BirdWebhook.ReprocessingChangesNothing | src/modules/webhooks/services/bird-webhook.service.ts:99-105 | Where Bird deliveries alone write the row, processing an id again changes no column. |
| BirdWebhook.DropsFollowAClaim | src/modules/webhooks/services/bird-webhook.service.ts:81-95 | A dropped delivery was preceded by another delivery's claim of the same id; a delivery that is handled, answered or lost made a claim itself. |
| BirdWebhook.FirstOnlyIsFirst | src/modules/webhooks/services/bird-webhook.service.ts:81-106 | The reduced log has each processed id exactly once, at its first processing. |
| BirdWebhook.LastErrorIsACode | src/modules/webhooks/services/bird-webhook.service.ts:135-141 | Whatever the provider sent, an error that spells the event's is null for SENT and DELIVERED, and otherwise BIRD_ and 1 to 64 characters of A-Z, 0-9 and underscore. |
| BirdWebhook.AnsweredAsFound | src/modules/webhooks/services/bird-webhook.service.ts:97-133 | In any run, a handler that answers was told by its own lookup that there is no message, or made its UPDATE, or had nothing to report: what is found is never answered unapplied. |
| BirdWebhook.LookDecides | src/modules/webhooks/services/bird-webhook.service.ts:108-133 | A lookup that finds the message sends the handler on to its UPDATE with the event's own status, time and error; one that does not sends it to its answer. |
| BirdWebhook.BuildLastErrorSpells | src/modules/webhooks/types/bird-webhook-event.ts:72-82 | The error stored for a failure is BIRD_ and the joined words, at most 64 characters, of the event's error code if it has one, else of what follows the first dot of the event type, else UNKNOWN. |
| BirdWebhook.ErrorTextIsUnique | src/modules/webhooks/types/bird-webhook-event.ts:72-82 | An event has only one text that its error can spell. |
| BirdWebhook.NoneDroppedInVainIff | src/modules/webhooks/services/bird-webhook.service.ts:97-105 | At no point of a run would a delivery be dropped with nobody left to process its id exactly when each handler that ends without releasing its claim leaves no claim, or another claimer of the id that answers or is at work. |
| BirdWebhook.InVainIffUncovered | src/modules/webhooks/services/bird-webhook.service.ts:81-95 | The next delivery is dropped in vain exactly when it meets a claim whose claimers are all lost, and then nothing is stored. |
| BirdWebhook.UnfoundReportKeepsItsClaim | src/modules/webhooks/services/bird-webhook.service.ts:81-105 | A report whose message is not found is answered and keeps its claim, so that the next delivery is dropped too while the claim lasts, and nothing is stored. |
| BirdWebhook.UnreleasedClaimDropsRetry | README.md:614 | A run in which processing throws, the release fails, and the retry is dropped with nothing stored. |
| BirdWebhook.DroppedUnprocessed | src/modules/webhooks/services/bird-webhook.service.ts:81-95 | The same after a crash of the claimer. |
| BirdWebhookService.BirdWebhookService.Handle | src/modules/webhooks/services/bird-webhook.service.ts:39-106 | One delivery as a program: bad signatures and payloads touch nothing; processed means that the log grew by this id with the event's own status, time and error, and not found that its lookup found nothing; unless an operation fails, a claimed report that is found is processed; the row stays the fold above. |
| RedisStores.KeySpacesAreDisjoint | src/modules/idempotency/idempotency.service.ts:31-37 | Cache, lock, claim and counter keys never collide, and equal cache, lock or claim keys have equal names. |
| RedisStores.CounterKeysAreTold | src/modules/providers/rate-limiting/provider-rate-limiter.service.ts:54-55 | Equal counter keys have the same provider and the same bucket. |
| RedisStores.Redis.TimePasses | src/modules/idempotency/idempotency.service.ts:43-45 | Time only takes entries away, each loss an expiry of the machines. |
| RedisStores.IdempotencyService.AcquireLock | src/modules/idempotency/idempotency.service.ts:51-60 | Acquires exactly when nobody holds the live lock, then holds it for exactly 30 s, and changes no other lock, cache entry or claim. |
| RedisStores.IdempotencyService.ReleaseLock | src/modules/idempotency/idempotency.service.ts:62-69 | Removes the lock exactly when its live token is the caller's, and changes nothing else. |
| RedisStores.IdempotencyService.StoreMessageId | src/modules/idempotency/idempotency.service.ts:43-45 | Changes one cache entry and nothing else, and the entry lives exactly as long as it is stored for. |
| RedisStores.WebhookIdempotencyService.ClaimBirdWebhook | src/modules/webhooks/services/webhook-idempotency.service.ts:38-48 | Claims exactly when the id is not claimed, for exactly the claim's life, and changes nothing else. |
| RedisStores.WebhookIdempotencyService.ReleaseBirdWebhook | src/modules/webhooks/services/webhook-idempotency.service.ts:50-52 | Removes the claim whoever set it, and nothing else. |
| QueueService.QueueService.EnqueueSms | src/modules/queue/queue.service.ts:47-56 | Adds a job unless its id was seen, and displaces none. |
| QueueService.RepeatedAddsKeepTheFirst | src/modules/queue/queue.service.ts:47-56 | After any number of adds, repeated or not, the queue holds one job per id asked for, for the message of the first add, and no other. |
| MachineStores.PublishJob | src/modules/queue/queue.service.ts:47-62 | Publishing an epoch's job, under the message's id or under a requeue id with an unused UUID, adds it to the queue as the step adds it to the message's jobs, and no other epoch's. |
| MachineStores.EpochJobIdsDiffer | src/modules/queue/queue.service.ts:51-60 | With distinct UUIDs drawn, no two epochs of a message share a job id, the initial one included. |
| MachineStores.AcquireLock | src/modules/idempotency/idempotency.service.ts:51-60 | Changes the store as the system's action changes cache and locks, and answers what the request then sees. |
| MachineStores.ReleaseLock | src/modules/idempotency/idempotency.service.ts:62-69 | Changes the store as the release action does. |
| MachineStores.StoreMessageId | src/modules/idempotency/idempotency.service.ts:43-45 | Changes the store as the caching action does. |
| MachineStores.ClaimBirdWebhook | src/modules/webhooks/services/webhook-idempotency.service.ts:38-48 | Changes the store as the claim step does, and answers what the handler then sees. |
| QueueService.QueueService.RequeueSms | src/modules/queue/queue.service.ts:58-62 | With a UUID not drawn before, always adds exactly one job. |
| QueueService.QueueService.EnqueueDeadLetter | src/modules/queue/queue.service.ts:64-72 | The same for the dead letter queue. |
| QueueService.JobIdsAreTold | src/modules/queue/queue.service.ts:58-72 | A requeue or dead-letter job id determines its message, time and UUID, and is never an initial job's id. |
| DiagnosticCode.SanitizedNormalForm | src/modules/webhooks/utils/sanitize-diagnostic-code.ts:9-21 | 1 to 64 characters of A-Z, 0-9 and single inner underscores, never a leading one, whose letters and digits are a prefix of the upper-cased input's; UNKNOWN if there are none. |
| DiagnosticCode.CleanedIsJoinedWords | src/modules/webhooks/utils/sanitize-diagnostic-code.ts:10-14 | The chain of replacements yields the input's maximal alphanumeric runs joined by single underscores. |
| DiagnosticCode.UpperCapitalizes | src/modules/webhooks/utils/sanitize-diagnostic-code.ts:10-12 | Upper-casing takes each small letter to its capital and leaves every other character, and words are made of exactly the letters of either case and the digits, by their ASCII codes. |
| DiagnosticCode.SanitizedIsCut | src/modules/webhooks/utils/sanitize-diagnostic-code.ts:9-21 | The code is the words of the upper-cased text joined by underscores and cut to exactly 64 characters, or UNKNOWN if there are none. |
| DiagnosticCode.SanitizeTwice | src/modules/webhooks/utils/sanitize-diagnostic-code.ts:20 | A second application removes at most one underscore that the cut left at the end, exactly when there is one; a third changes nothing. |
| ProviderRegistry.PriorityRoundTrip | src/modules/providers/provider-registry.service.ts:38-43 | Names written with commas, any padding and any empty parts read back as the same names in order, duplicates included. |
| ProviderRegistry.ConfiguredNamesOfWritten | src/modules/providers/provider-registry.service.ts:45-58 | A written list resolves to its names iff it has some and all are registered; it is empty iff it has none; otherwise a name in it that is not registered is reported. |
| ProviderRegistry.FirstUnknownIsFirst | src/modules/providers/provider-registry.service.ts:49-55 | The name reported is the first that is not registered. |
| ProviderRegistry.ProviderRegistryService.Register | src/modules/providers/provider-registry.service.ts:21-32 | Every provider is found under its name, and nothing else is, unless two share a name; then the first repeated name is reported. |
| ProviderRegistry.ProviderRegistryService.OnModuleInit | src/modules/providers/provider-registry.service.ts:34-36 | The order is that of the priority list, and is kept as it was when the list is in error. |

## Left out

- NestJS wiring, controllers, DTOs, Swagger, logging, the tracking view and the startup summary: no state of their own.
- Redis, PostgreSQL, TypeORM and BullMQ internals: each call is one atomic step that may fail, or, for the lock, the insert, the initial and requeue job, the webhook claim and the callback's update, take effect and lose its reply.
- Job retry counts and backoff: a job may be redelivered or run out of retries at any time.
- Provider SDK calls, signature checks, status mappers and error classification: a provider call is an oracle of replies, a verification a boolean, a mapper a status of the delivery phase or nothing.
- A provider that accepts a message but whose reply is lost replies with a failure here; the duplicate that this may cause is not counted as an acceptance.
- The Twilio error text is not modelled beyond being null for SENT and DELIVERED and set otherwise; it is built by the same sanitizer.
- Message length validation, phone, body, metadata, payload parsing: they do not touch the state modelled.
- Several messages under one provider message id: the lookup of a callback is taken to find the right row.
- A throttle call that throws inside a dispatch is an abort of the execution; a provider without rate limits is refused at startup and not modelled.
- Dispatch programs and the throttle are separate machines: how long a dispatch waits for the throttle is bounded by `Throttle`, not added to the backoff bound.
- Clocks are one clock in whole milliseconds, the clock read and the increment of a throttle attempt are one step, and timers never fire early; timer overflow beyond 2^31 ms is not modelled.
- Backoff is exact: the rounding of powers of two beyond floating-point range is not modelled.
- Trimming and upper-casing cover ASCII only.
- Liveness that needs a fair scheduler: it is stated as a live job or a pending publisher instead.
