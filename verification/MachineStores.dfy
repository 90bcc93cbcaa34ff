// The Redis stores and the queue under the machines: each operation of a service changes what the
// store represents as the machines' action or step says, and answers what the actor sees.

module MachineStores {
  import opened SmsMessage
  import opened DispatchPlan
  import opened RedisStores
  import RequestMachine
  import BirdWebhook
  import MessageMachine
  import MessageSafety
  import opened QueueService

  // ---------------------------------------------------------------- requests

  method GetMessageId(service: IdempotencyService, s: RequestMachine.System, r: nat, ghost claims: set<string>, now: Time)
      returns (id: Option<string>)
    requires r < |s.requests| && s.requests[r].state.ReadingCache? && service.redis.Represents(s.cache, s.locks, claims, now)
    ensures RequestMachine.AfterProceed(s, s.requests[r]).state
            == if id.Some? then RequestMachine.FindingCached(id.value) else RequestMachine.FindingByKey
  {
    var key := s.requests[r].key;
    id := service.GetMessageId(key, now);
    assert id == if key in s.cache then Some(s.cache[key]) else None;
  }

  method StoreMessageId(service: IdempotencyService, s: RequestMachine.System, r: nat, ghost claims: set<string>, now: Time)
    requires r < |s.requests| && (s.requests[r].state.Storing? || s.requests[r].state.StoringUnderLock?)
    requires service.redis.Represents(s.cache, s.locks, claims, now)
    modifies service.redis
    ensures var action := RequestMachine.Proceed(r);
      service.redis.Represents(RequestMachine.CacheAfter(s, action), RequestMachine.LocksAfter(s, action), claims, now)
  {
    service.StoreMessageId(s.requests[r].key, s.requests[r].state.id, now);
  }

  method DeleteMessageId(service: IdempotencyService, s: RequestMachine.System, r: nat, ghost claims: set<string>, now: Time)
    requires r < |s.requests| && s.requests[r].state.ForgettingCached?
    requires service.redis.Represents(s.cache, s.locks, claims, now)
    modifies service.redis
    ensures var action := RequestMachine.Proceed(r);
      service.redis.Represents(RequestMachine.CacheAfter(s, action), RequestMachine.LocksAfter(s, action), claims, now)
  {
    service.DeleteMessageId(s.requests[r].key, now);
  }

  method AcquireLock(service: IdempotencyService, s: RequestMachine.System, r: nat, token: string,
                     ghost claims: set<string>, now: Time)
      returns (acquired: bool)
    requires RequestMachine.RequestReady(s, RequestMachine.Acquire(r, token))
    requires service.redis.Represents(s.cache, s.locks, claims, now)
    modifies service.redis
    ensures var action := RequestMachine.Acquire(r, token);
      && service.redis.Represents(RequestMachine.CacheAfter(s, action), RequestMachine.LocksAfter(s, action), claims, now)
      && RequestMachine.RequestAfter(s, s.requests[r], action).state
         == if acquired then RequestMachine.FindingUnderLock else RequestMachine.WaitingForRow(0)
  {
    acquired := service.AcquireLock(s.requests[r].key, token, now);
  }

  method ReleaseLock(service: IdempotencyService, s: RequestMachine.System, r: nat, token: string,
                     ghost claims: set<string>, now: Time)
    requires r < |s.requests| && s.requests[r].state.Releasing? && s.requests[r].token == Some(token)
    requires service.redis.Represents(s.cache, s.locks, claims, now)
    modifies service.redis
    ensures var action := RequestMachine.Proceed(r);
      service.redis.Represents(RequestMachine.CacheAfter(s, action), RequestMachine.LocksAfter(s, action), claims, now)
  {
    var key, after := s.requests[r].key, RequestMachine.LocksAfter(s, RequestMachine.Proceed(r));
    service.ReleaseLock(key, token, now);
    assert after == if key in s.locks && s.locks[key] == token then Without(s.locks, key) else s.locks;
  }

  // ---------------------------------------------------------------- webhooks

  method ClaimBirdWebhook(service: WebhookIdempotencyService, events: BirdWebhook.Events, w: BirdWebhook.Webhooks, h: nat,
                          ghost cache: map<string, string>, ghost locks: map<string, string>, now: Time) returns (claimed: bool)
    requires BirdWebhook.Enabled(events, w, BirdWebhook.Claim(h)) && service.redis.Represents(cache, locks, w.claims, now)
    modifies service.redis
    ensures var after := BirdWebhook.Next(events, w, BirdWebhook.Claim(h));
      && service.redis.Represents(cache, locks, after.claims, now)
      && after.handlers[h].state == if claimed then BirdWebhook.Handling else BirdWebhook.Dropped
  {
    claimed := service.ClaimBirdWebhook(w.handlers[h].id, now);
    if !claimed { assert w.claims + {w.handlers[h].id} == w.claims; }
  }

  method ReleaseBirdWebhook(service: WebhookIdempotencyService, events: BirdWebhook.Events, w: BirdWebhook.Webhooks, h: nat,
                            ghost cache: map<string, string>, ghost locks: map<string, string>, now: Time)
    requires BirdWebhook.Enabled(events, w, BirdWebhook.Release(h)) && service.redis.Represents(cache, locks, w.claims, now)
    modifies service.redis
    ensures service.redis.Represents(cache, locks, BirdWebhook.Next(events, w, BirdWebhook.Release(h)).claims, now)
  {
    service.ReleaseBirdWebhook(w.handlers[h].id, now);
  }

  // ---------------------------------------------------------------- jobs

  /** What a requeue puts into its job's id. */
  datatype Draw = Draw(ms: string, uuid: Uuid)

  /** The id of an epoch's job: the message's own for the first, one with a draw for each requeue. */
  function EpochJobId(messageId: Uuid, draws: seq<Draw>, k: nat): JobId
    requires k <= |draws|
  {
    if k == 0 then messageId else RequeueJobId(messageId, draws[k - 1].ms, draws[k - 1].uuid)
  }

  ghost predicate DrawsDiffer(draws: seq<Draw>) {
    forall i, j | 0 <= i < j < |draws| :: draws[i].uuid != draws[j].uuid
  }

  /** No two epochs of a message share a job id. */
  lemma EpochJobIdsDiffer(messageId: Uuid, draws: seq<Draw>, j: nat, k: nat)
    requires DrawsDiffer(draws) && j < k <= |draws|
    ensures EpochJobId(messageId, draws, j) != EpochJobId(messageId, draws, k)
  {
    var later := draws[k - 1];
    if j == 0 {
      JobIdsAreTold(messageId, later.ms, later.uuid, messageId, later.ms, later.uuid);
    } else {
      JobIdsAreTold(messageId, draws[j - 1].ms, draws[j - 1].uuid, messageId, later.ms, later.uuid);
    }
  }

  /** The queue holds exactly the message's jobs, each under its epoch's id, as far as these ids go. */
  ghost predicate HoldsJobs(queue: map<JobId, Uuid>, messageId: Uuid, draws: seq<Draw>, m: MessageMachine.Message) {
    && |draws| + 1 == |m.epochs|
    && (forall k | k in m.jobs :: k <= |draws|)
    && (forall k | 0 <= k <= |draws| :: EpochJobId(messageId, draws, k) in queue <==> k in m.jobs)
  }

  /**
   * Publishing an epoch's job adds it to the queue as the step adds it to the message's jobs, when
   * each requeue draws a UUID that no job was given before.
   */
  method PublishJob(service: QueueService, cfg: Config, m: MessageMachine.Message, k: nat, messageId: Uuid, draws: seq<Draw>)
    requires MessageSafety.JobsFit(m) && MessageMachine.Enabled(cfg, m, MessageMachine.Publish(k))
    requires HoldsJobs(service.smsQueue, messageId, draws, m) && DrawsDiffer(draws)
    requires k > 0 ==> Unused(service.smsQueue, draws[k - 1].uuid)
    modifies service`smsQueue
    ensures HoldsJobs(service.smsQueue, messageId, draws, MessageMachine.Next(cfg, m, MessageMachine.Publish(k)))
    ensures EpochJobId(messageId, draws, k) !in old(service.smsQueue)
    ensures service.smsQueue == old(service.smsQueue)[EpochJobId(messageId, draws, k) := messageId]
  {
    HoldsOneMore(service.smsQueue, messageId, draws, m, k, MessageMachine.Next(cfg, m, MessageMachine.Publish(k)));
    if k == 0 {
      service.EnqueueSms(messageId, None);
    } else {
      service.RequeueSms(messageId, draws[k - 1].ms, draws[k - 1].uuid);
    }
  }

  lemma HoldsOneMore(queue: map<JobId, Uuid>, messageId: Uuid, draws: seq<Draw>, m: MessageMachine.Message,
                     k: nat, after: MessageMachine.Message)
    requires HoldsJobs(queue, messageId, draws, m) && DrawsDiffer(draws) && k <= |draws|
    requires |after.epochs| == |m.epochs| && after.jobs == m.jobs[k := MessageMachine.Waiting]
    ensures HoldsJobs(queue[EpochJobId(messageId, draws, k) := messageId], messageId, draws, after)
  {
    forall j | 0 <= j <= |draws| && j != k ensures EpochJobId(messageId, draws, j) != EpochJobId(messageId, draws, k) {
      if j < k { EpochJobIdsDiffer(messageId, draws, j, k); } else { EpochJobIdsDiffer(messageId, draws, k, j); }
    }
  }
}
