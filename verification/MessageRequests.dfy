// The two other programs that write a message: an admin requeue and a delivery callback, each a
// few database or queue operations with anything at all in between.

module MessageRequests {
  import opened SmsMessage
  import opened DeliveryStatus
  import opened MessageMachine
  import MessageSafety
  import opened MessageExclusive
  import opened MessageDeliveries
  import opened SmsDispatcher

  // ---------------------------------------------------------------- requeue

  datatype RequeueOutcome =
    | NotEligible
    | LostRace
    | Requeued(epoch: nat)
    | PublishFailed(epoch: nat)
    | Crashed(epoch: nat)  // after the transition: its reply was lost, the restoring write threw, or the process died
    | Threw                // before it: the lookup or the transition threw and did nothing

  /** Everyone else acts while request `r` waits to transition the row. */
  method AwaitRequeue(host: MessageHost, r: nat)
    requires host.Valid() && r < |host.m.requeues|
    modifies host
    ensures host.Valid() && old(host.steps) <= host.steps
    ensures r < |host.m.requeues| && host.m.requeues[r] == old(host.m.requeues[r])
  {
  }

  /** Everyone else acts while the publisher of epoch `k` waits for the queue or the database. */
  method AwaitPublisher(host: MessageHost, k: nat)
    requires host.Valid() && k < |host.m.epochs|
    modifies host
    ensures host.Valid() && old(host.steps) <= host.steps
    ensures k < |host.m.epochs| && host.m.epochs[k] == old(host.m.epochs[k])
  {
  }

  /** What the outcome of requeue `r` says, at its end, about the message and the failure that was found. */
  ghost predicate CameTo(outcome: RequeueOutcome, m: Message, steps: seq<Step>, found: Row, r: nat, enqueueError: string) {
    match outcome
    case NotEligible => true
    case Threw => true
    case LostRace => r < |m.requeues| && m.requeues[r] == Requeue.Rejected && m.row.status != FatalFailure
    case Requeued(k) =>
      && 0 < k < |m.epochs| && m.epochs[k] == Epoch(Published, found)
      && k in m.jobs && m.jobs[k].Waiting? && steps != [] && steps[|steps| - 1] == Publish(k)
    case PublishFailed(k) =>
      && 0 < k < |m.epochs| && m.epochs[k] == Epoch(Compensated, found)
      && m.row.status == FatalFailure && m.row.selectedProvider == found.selectedProvider
      && m.row.lastError == Some("REQUEUE_PUBLISH_FAILED: " + enqueueError)
      && (found.failedAt.Some? ==> m.row.failedAt == found.failedAt) && m.row.failedAt.Some?
      && m.row.providerMessageId.None? && m.row.sentAt.None?
    case Crashed(k) => 0 < k < |m.epochs| && m.epochs[k] == Epoch(Abandoned, found)
  }

  /**
   * A request to requeue: refused at once unless the message failed for good; otherwise it opens
   * one epoch or loses the race to, and the epoch gets its one job or the row gets back the
   * failure that was found.  Only if one of its operations may fail does anything else come of it.
   */
  method RequeueMessage(host: MessageHost, mayFail: bool, enqueueError: string, now: Time) returns (outcome: RequeueOutcome)
    requires host.Valid()
    modifies host
    ensures host.Valid() && old(host.steps) <= host.steps
    ensures outcome.NotEligible? ==> old(host.m.row.status) != FatalFailure && host.m == old(host.m)
    ensures old(host.m.row.status) != FatalFailure ==> outcome.NotEligible? || (outcome.Threw? && host.m == old(host.m))
    ensures CameTo(outcome, host.m, host.steps, old(host.m.row), |old(host.m.requeues)|, enqueueError)
    ensures !mayFail ==> outcome.NotEligible? || outcome.LostRace? || outcome.Requeued?
  {
    var fails: bool := *;
    if mayFail && fails { return RequeueOutcome.Threw; }
    if host.m.row.status != FatalFailure { return NotEligible; }
    var r := |host.m.requeues|;
    host.Take(FindForRequeue);
    outcome := TransitionToQueued(host, r, mayFail, enqueueError, now);
  }

  /** The conditional transition, and the publish when it changed the row. */
  method TransitionToQueued(host: MessageHost, r: nat, mayFail: bool, enqueueError: string, now: Time) returns (outcome: RequeueOutcome)
    requires host.Valid() && r < |host.m.requeues| && host.m.requeues[r].Eligible?
    modifies host
    ensures host.Valid() && old(host.steps) <= host.steps && !outcome.NotEligible?
    ensures CameTo(outcome, host.m, host.steps, old(host.m.requeues[r]).found, r, enqueueError)
    ensures !mayFail ==> outcome.LostRace? || outcome.Requeued?
  {
    AwaitRequeue(host, r);
    var fails: bool := *;
    if mayFail && fails { return RequeueOutcome.Threw; }
    if host.m.row.status != FatalFailure {
      host.Take(TransitionRequeue(r));
      return LostRace;
    }
    var k := |host.m.epochs|;
    EpochsExist(host);
    host.Take(TransitionRequeue(r));
    outcome := PublishRequeue(host, k, r, mayFail, enqueueError, now);
  }

  /** The job is added, or the failure that was found is written back; unless the request ends here. */
  method PublishRequeue(host: MessageHost, k: nat, ghost r: nat, mayFail: bool, enqueueError: string, now: Time)
      returns (outcome: RequeueOutcome)
    requires host.Valid() && 0 < k < |host.m.epochs| && host.m.epochs[k].publisher.Publishing?
    modifies host
    ensures host.Valid() && old(host.steps) <= host.steps
    ensures outcome == Requeued(k) || outcome == PublishFailed(k) || outcome == Crashed(k)
    ensures CameTo(outcome, host.m, host.steps, old(host.m.epochs[k].found), r, enqueueError)
    ensures !mayFail ==> outcome.Requeued?
  {
    AwaitPublisher(host, k);
    var dies: bool, fails: bool := *, *;
    if mayFail && dies {
      host.Take(Abandon(k));
      return Crashed(k);
    }
    if !(mayFail && fails) {
      host.Take(Publish(k));
      return Requeued(k);
    }
    var addedAnyway: bool := *;
    host.Take(FailPublish(k, addedAnyway));
    outcome := RestoreFailure(host, k, r, enqueueError, now);
  }

  method RestoreFailure(host: MessageHost, k: nat, ghost r: nat, enqueueError: string, now: Time) returns (outcome: RequeueOutcome)
    requires host.Valid() && 0 < k < |host.m.epochs| && host.m.epochs[k].publisher.Compensating?
    modifies host
    ensures host.Valid() && old(host.steps) <= host.steps
    ensures outcome == PublishFailed(k) || outcome == Crashed(k)
    ensures CameTo(outcome, host.m, host.steps, old(host.m.epochs[k].found), r, enqueueError)
  {
    AwaitPublisher(host, k);
    if * {
      host.Take(Abandon(k));
      return Crashed(k);
    }
    host.Take(Compensate(k, enqueueError, now));
    outcome := PublishFailed(k);
  }

  lemma EpochsExist(host: MessageHost)
    requires host.Valid()
    ensures host.m.epochs != []
  {
    MessageSafety.StrandedIffForsaken(host.cfg, host.states, host.steps, |host.steps|);
  }

  // ---------------------------------------------------------------- callbacks

  /** `Threw` is an operation that threw, whether or not it took effect. */
  datatype CallbackOutcome = NotFound | Applied | Skipped(reason: SkipReason) | Threw

  /** Everyone else acts while delivery `d` waits to update the row. */
  method AwaitDelivery(host: MessageHost, d: nat)
    requires host.Valid() && d < |host.m.deliveries|
    modifies host
    ensures host.Valid() && old(host.steps) <= host.steps && old(host.states) <= host.states
    ensures d < |host.m.deliveries| && host.m.deliveries[d] == old(host.m.deliveries[d])
  {
  }

  /** The statuses a report is applied over. */
  predicate Progresses(before: SmsStatus, reported: SmsStatus) {
    match reported
    case Sent => before == Queued || before == Processing
    case Delivered =>
      || before == Queued || before == Processing || before == SmsStatus.Sent
      || before == Undelivered || before == SmsStatus.Rejected || before == Failed
    case Undelivered => before == Queued || before == Processing || before == SmsStatus.Sent
    case Rejected => before == Queued || before == Processing || before == SmsStatus.Sent
    case Failed => before == Queued || before == Processing || before == SmsStatus.Sent
    case _ => false
  }

  /** The row, as it was before, now carries the callback's status, error and time, and nothing else has changed. */
  predicate CarriesCallback(before: Row, row: Row, callback: Callback) {
    && row.status == callback.status && row.lastError == callback.lastError
    && row.attempts == before.attempts
    && row.selectedProvider == before.selectedProvider && row.providerMessageId == before.providerMessageId
    && row.deliveredAt == (if callback.status == Delivered then Some(callback.eventAt) else before.deliveredAt)
    && row.failedAt == (if callback.status == Delivered then None
                        else if IsDeliveryFailure(callback.status) then Some(callback.eventAt) else before.failedAt)
    && row.sentAt == if callback.status == SmsStatus.Sent && before.sentAt.None? then Some(callback.eventAt) else before.sentAt
  }

  lemma UpdatesIffProgresses(row: Row, callback: Callback)
    requires callback.Valid()
    ensures Updates(row, callback) <==> Progresses(row.status, callback.status)
    ensures Progresses(row.status, callback.status) <==> Apply(row, callback) != row
    ensures Progresses(row.status, callback.status) ==> CarriesCallback(row, Apply(row, callback), callback)
  {
  }

  /** Step `at` is the UPDATE of a delivery with this callback. */
  ghost predicate IsUpdate(states: seq<Message>, steps: seq<Step>, at: nat, callback: Callback) {
    && at < |steps| < |states| && steps[at].ApplyCallback?
    && steps[at].delivery < |states[at].deliveries| && states[at].deliveries[steps[at].delivery] == Found(callback)
  }

  /** What the answer says about the row before and after the UPDATE. */
  ghost predicate Answers(outcome: CallbackOutcome, before: Row, after: Row, callback: Callback) {
    && (outcome.Applied? ==> Progresses(before.status, callback.status) && CarriesCallback(before, after, callback) && after != before)
    && (outcome.Skipped? ==> !Progresses(before.status, callback.status) && after == before)
  }

  /**
   * A callback: lookup by provider message id, conditional UPDATE by row id, and, when that
   * changed nothing, a look at why.  It is answered as applied exactly when its UPDATE changed the
   * row.  In an exclusive run the reason given otherwise is the truth about the row, however late
   * it is read: a duplicate repeats the recorded status, a conflict contradicts a recorded
   * outcome, and only a SENT report is ever ignored.
   */
  method ApplyCallbackTo(host: MessageHost, mayFail: bool, provider: string, providerMessageId: string, callback: Callback)
      returns (outcome: CallbackOutcome, ghost at: nat)
    requires host.Valid() && callback.Valid()
    modifies host
    ensures host.Valid() && old(host.steps) <= host.steps
    ensures outcome.NotFound? ==> !old(Matches(host.m, provider, providerMessageId)) && host.m == old(host.m)
    ensures !old(Matches(host.m, provider, providerMessageId)) ==>
      outcome.NotFound? || (outcome.Threw? && host.m == old(host.m))
    ensures !mayFail ==> !outcome.Threw?
    ensures outcome.Applied? || outcome.Skipped? ==>
      && |old(host.steps)| <= at && IsUpdate(host.states, host.steps, at, callback)
      && Answers(outcome, host.states[at].row, host.states[at + 1].row, callback)
    ensures outcome.Applied? ==> host.m.row.status == callback.status && host.m.row.lastError == callback.lastError
    ensures outcome.Applied? && callback.status == Delivered ==>
      host.m.row.deliveredAt == Some(callback.eventAt) && host.m.row.failedAt.None?
    ensures outcome.Applied? && callback.status == SmsStatus.Sent ==> host.m.row.sentAt.Some?
    ensures outcome.Applied? && IsDeliveryFailure(callback.status) ==> host.m.row.failedAt == Some(callback.eventAt)
    ensures outcome.Skipped? && Exclusive(host.states, host.steps) ==>
      TruthfulReason(outcome.reason, host.m.row.status, callback.status)
  {
    at := 0;
    var fails: bool := *;
    if mayFail && fails { return CallbackOutcome.Threw, 0; }
    if !Matches(host.m, provider, providerMessageId) { return NotFound, 0; }
    var d := |host.m.deliveries|;
    host.Take(FindForCallback(provider, providerMessageId, callback));
    AwaitDelivery(host, d);
    fails := *;
    if mayFail && fails { return CallbackOutcome.Threw, 0; }
    outcome, at := UpdateFor(host, d, mayFail, callback);
  }

  /** The conditional UPDATE, and what it is answered with. */
  method UpdateFor(host: MessageHost, d: nat, mayFail: bool, callback: Callback) returns (outcome: CallbackOutcome, ghost at: nat)
    requires host.Valid() && callback.Valid() && d < |host.m.deliveries| && host.m.deliveries[d] == Found(callback)
    modifies host
    ensures host.Valid() && old(host.steps) <= host.steps && !outcome.NotFound?
    ensures !mayFail ==> !outcome.Threw?
    ensures at == |old(host.steps)| && IsUpdate(host.states, host.steps, at, callback)
    ensures Answers(outcome, host.states[at].row, host.states[at + 1].row, callback)
    ensures outcome.Applied? ==> host.m.row == Apply(old(host.m.row), callback) && Progresses(old(host.m.row.status), callback.status)
    ensures outcome.Skipped? && Exclusive(host.states, host.steps) ==>
      TruthfulReason(outcome.reason, host.m.row.status, callback.status)
  {
    at := |host.steps|;
    var updates := Updates(host.m.row, callback);
    UpdatesIffProgresses(host.m.row, callback);
    host.Take(ApplyCallback(d));
    var fails: bool := *;
    if mayFail && fails { return CallbackOutcome.Threw, at; }
    if updates { return CallbackOutcome.Applied, at; }
    outcome := ExplainSkipped(host, d, at, mayFail, callback);
  }

  method ExplainSkipped(host: MessageHost, d: nat, ghost at: nat, mayFail: bool, callback: Callback) returns (outcome: CallbackOutcome)
    requires host.Valid() && callback.Valid() && d < |host.m.deliveries| && IsUpdate(host.states, host.steps, at, callback)
    requires !Updates(host.states[at].row, callback)
    modifies host
    ensures host.Valid() && old(host.steps) <= host.steps && old(host.states) <= host.states
    ensures outcome.Skipped? || (mayFail && outcome.Threw?)
    ensures outcome.Skipped? && Exclusive(host.states, host.steps) ==>
      TruthfulReason(outcome.reason, host.m.row.status, callback.status)
  {
    AwaitDelivery(host, d);
    var fails: bool := *;
    if mayFail && fails { return CallbackOutcome.Threw; }
    var latest := host.m.row.status;
    outcome := CallbackOutcome.Skipped(ClassifySkipped(latest, callback.status));
    if Exclusive(host.states, host.steps) {
      CallbacksLandInDeliveryPhase(host.cfg, host.states, host.steps, at);
      DeliveryPhaseIsNeverLeft(host.cfg, host.states, host.steps, at, |host.steps|);
      SkippedForAReason(host.states[at].row, latest, callback);
    }
  }

  /** What a reason says about the status recorded and the one reported. */
  ghost predicate TruthfulReason(reason: SkipReason, recorded: SmsStatus, reported: SmsStatus) {
    match reason
    case Duplicate => recorded == reported
    case Conflict =>
      || (recorded == Delivered && IsDeliveryFailure(reported))
      || (IsDeliveryFailure(recorded) && IsDeliveryFailure(reported) && recorded != reported)
    case Ignored => reported == SmsStatus.Sent && (recorded == Delivered || IsDeliveryFailure(recorded))
  }

  lemma SkippedForAReason(row: Row, latest: SmsStatus, callback: Callback)
    requires callback.Valid() && InDeliveryPhase(row.status) && !Updates(row, callback)
    requires InDeliveryPhase(latest) && Rank(row.status) <= Rank(latest)
    requires row.status == Delivered ==> latest == Delivered
    ensures TruthfulReason(ClassifySkipped(latest, callback.status), latest, callback.status)
  {
    ApplyClimbs(row, callback);
  }
}
