// The stored SMS message and every SQL statement that writes it.
//
// A `Row` is the part of an `sms_messages` row that the service ever changes.  Each function
// below is one statement: the row before it goes in, the row after it comes out.  Statements
// guarded by a status return the row unchanged when the guard fails, as the database does.

module SmsMessage {

  datatype Option<+T> = None | Some(value: T)

  /** Milliseconds since the epoch. */
  type Time = int

  datatype SmsStatus =
    | Queued | Processing | Sent | Delivered | Undelivered | Rejected | Failed | FatalFailure

  datatype Row = Row(
    status: SmsStatus,
    attempts: nat,
    selectedProvider: Option<string>,
    providerMessageId: Option<string>,
    lastError: Option<string>,
    sentAt: Option<Time>,
    deliveredAt: Option<Time>,
    failedAt: Option<Time>)

  /** What the INSERT of a new message leaves in the table. */
  const NewRow := Row(Queued, 0, None, None, None, None, None, None)

  predicate Claimable(status: SmsStatus) {
    status == Queued || status == Processing
  }

  /** The statuses a dispatch leaves a message in for good, and those callbacks move between. */
  predicate InDeliveryPhase(status: SmsStatus) {
    status == Sent || status == Delivered || IsDeliveryFailure(status)
  }

  predicate IsDeliveryFailure(status: SmsStatus) {
    status == Undelivered || status == Rejected || status == Failed
  }

  function MarkProcessing(row: Row): Row {
    if Claimable(row.status) then row.(status := Processing, lastError := None) else row
  }

  function IncrementAttempts(row: Row): Row {
    row.(attempts := row.attempts + 1)
  }

  function MarkSent(row: Row, provider: string, providerMessageId: Option<string>, now: Time): Row {
    row.(status := Sent, selectedProvider := Some(provider), providerMessageId := providerMessageId,
         lastError := None, sentAt := Some(now), failedAt := None)
  }

  function MarkFatalFailure(row: Row, provider: string, error: string, now: Time): Row {
    row.(status := FatalFailure, selectedProvider := Some(provider), providerMessageId := None,
         lastError := Some(error), sentAt := None, failedAt := Some(now))
  }

  function MarkQueuePublishFailed(row: Row, now: Time): Row {
    row.(status := Failed, lastError := Some("QUEUE_PUBLISH_FAILED"), failedAt := Some(now))
  }

  function TransitionFatalFailureToQueued(row: Row): Row {
    if row.status == FatalFailure then
      row.(status := Queued, selectedProvider := None, providerMessageId := None,
           lastError := None, sentAt := None, failedAt := None)
    else
      row
  }

  /** `found` is the row as the requeue request read it, before its own transition. */
  function RestoreFatalFailure(row: Row, found: Row, enqueueError: string, now: Time): Row {
    row.(status := FatalFailure, selectedProvider := found.selectedProvider,
         providerMessageId := None, lastError := Some("REQUEUE_PUBLISH_FAILED: " + enqueueError),
         sentAt := None, failedAt := if found.failedAt.Some? then found.failedAt else Some(now))
  }

  /** `Keep` is a column left out of the UPDATE, `Put` one that it sets (possibly to null). */
  datatype Assignment = Keep | Put(value: Option<Time>)

  function Assign(old_: Option<Time>, assignment: Assignment): Option<Time> {
    match assignment
    case Keep => old_
    case Put(value) => value
  }

  /** The conditional UPDATE a delivery callback runs. */
  function ApplyDeliveryStatus(row: Row, status: SmsStatus, allowed: set<SmsStatus>,
                               lastError: Option<string>, deliveredAt: Assignment,
                               failedAt: Assignment, sentAtWhenMissing: Option<Time>): Row
  {
    if row.status !in allowed then row
    else
      row.(status := status, lastError := lastError,
           deliveredAt := Assign(row.deliveredAt, deliveredAt),
           failedAt := Assign(row.failedAt, failedAt),
           sentAt := if row.sentAt.None? then sentAtWhenMissing else row.sentAt)
  }

  /** deliveredAt, failedAt and lastError say exactly what the status says. */
  predicate RowIntegrity(row: Row) {
    && (row.deliveredAt.Some? <==> row.status == Delivered)
    && (row.failedAt.Some? <==> IsDeliveryFailure(row.status) || row.status == FatalFailure)
    && (row.lastError.Some? <==> IsDeliveryFailure(row.status) || row.status == FatalFailure)
  }

  /** A message that was not handed to a provider names no provider message and no send time. */
  predicate UnsentHasNoReceipt(row: Row) {
    Claimable(row.status) || row.status == FatalFailure ==>
      row.providerMessageId.None? && row.sentAt.None?
  }
}
