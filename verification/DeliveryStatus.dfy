// Provider delivery callbacks: the progression policy, the conditional update built from it,
// and what any sequence of callbacks does to a message that was sent.

module DeliveryStatus {
  import opened SmsMessage

  /** The statuses the provider mappers produce. */
  predicate IsCallbackStatus(status: SmsStatus) {
    InDeliveryPhase(status)
  }

  /**
   * A normalized callback.  `eventAt` is the provider's time, or the time of arrival when the
   * provider gave none; `lastError` is built by the webhook services, which leave it null for
   * SENT and DELIVERED and always produce a code otherwise.
   */
  datatype Callback = Callback(status: SmsStatus, eventAt: Time, lastError: Option<string>) {
    predicate Valid() {
      && IsCallbackStatus(status)
      && (lastError.Some? <==> IsDeliveryFailure(status))
    }
  }

  const DELIVERY_FAILURES: set<SmsStatus> := {Undelivered, Rejected, Failed}

  function AllowedPreviousStatuses(status: SmsStatus): Option<set<SmsStatus>> {
    if status == Sent then Some({Queued, Processing})
    else if status == Delivered then Some({Queued, Processing, Sent} + DELIVERY_FAILURES)
    else if status in DELIVERY_FAILURES then Some({Queued, Processing, Sent})
    else None
  }

  datatype Timestamps = Timestamps(deliveredAt: Assignment, failedAt: Assignment,
                                   sentAtWhenMissing: Option<Time>)

  function BuildTimestamps(status: SmsStatus, eventAt: Time): Timestamps {
    if status == Delivered then Timestamps(Put(Some(eventAt)), Put(None), None)
    else if IsDeliveryFailure(status) then Timestamps(Keep, Put(Some(eventAt)), None)
    else Timestamps(Keep, Keep, Some(eventAt))
  }

  /** The row after the callback's UPDATE; the row itself when the UPDATE matches nothing. */
  function Apply(row: Row, callback: Callback): Row {
    match AllowedPreviousStatuses(callback.status)
    case None => row
    case Some(allowed) =>
      var t := BuildTimestamps(callback.status, callback.eventAt);
      ApplyDeliveryStatus(row, callback.status, allowed, callback.lastError,
                          t.deliveredAt, t.failedAt, t.sentAtWhenMissing)
  }

  /** Whether the UPDATE changes a row. */
  predicate Updates(row: Row, callback: Callback) {
    var allowed := AllowedPreviousStatuses(callback.status);
    allowed.Some? && row.status in allowed.value
  }

  datatype SkipReason = Duplicate | Conflict | Ignored

  function ClassifySkipped(current: SmsStatus, incoming: SmsStatus): SkipReason {
    if current == incoming then Duplicate
    else if current in DELIVERY_FAILURES + {Delivered} && incoming in DELIVERY_FAILURES + {Delivered} then
      Conflict
    else Ignored
  }

  /** The row after a sequence of callbacks, in the order of their UPDATEs. */
  function Fold(row: Row, callbacks: seq<Callback>): Row {
    if callbacks == [] then row
    else Apply(Fold(row, callbacks[..|callbacks| - 1]), callbacks[|callbacks| - 1])
  }

  ghost predicate AllValid(callbacks: seq<Callback>) {
    forall i :: 0 <= i < |callbacks| ==> callbacks[i].Valid()
  }

  // ---------------------------------------------------------------- what one callback keeps

  /** Statuses only go up: SENT, then a delivery failure, then DELIVERED. */
  function Rank(status: SmsStatus): nat {
    if status == Delivered then 3 else if IsDeliveryFailure(status) then 2
    else if status == Sent then 1 else 0
  }

  lemma ApplyClimbs(row: Row, callback: Callback)
    requires callback.Valid() && InDeliveryPhase(row.status)
    ensures InDeliveryPhase(Apply(row, callback).status)
    ensures Apply(row, callback) != row ==> Rank(row.status) < Rank(callback.status)
    ensures Rank(row.status) < Rank(callback.status) <==> Updates(row, callback)
    ensures Updates(row, callback) ==> Apply(row, callback).status == callback.status
    ensures !Updates(row, callback) ==> Apply(row, callback) == row
    ensures RowIntegrity(row) ==> RowIntegrity(Apply(row, callback))
  {
  }

  // ---------------------------------------------------------------- the fold, in closed form

  ghost predicate FirstDelivered(callbacks: seq<Callback>, i: nat) {
    && i < |callbacks| && callbacks[i].status == Delivered
    && forall j :: 0 <= j < i ==> callbacks[j].status != Delivered
  }

  ghost predicate FirstFailure(callbacks: seq<Callback>, i: nat) {
    && i < |callbacks| && IsDeliveryFailure(callbacks[i].status)
    && forall j :: 0 <= j < i ==> !IsDeliveryFailure(callbacks[j].status)
  }

  ghost predicate NoneDelivered(callbacks: seq<Callback>) {
    forall j :: 0 <= j < |callbacks| ==> callbacks[j].status != Delivered
  }

  ghost predicate AllSent(callbacks: seq<Callback>) {
    forall j :: 0 <= j < |callbacks| ==> callbacks[j].status == Sent
  }

  /** The callback that decides the outcome: the first DELIVERED, else the first failure. */
  ghost predicate Decides(callbacks: seq<Callback>, i: nat) {
    FirstDelivered(callbacks, i) || (NoneDelivered(callbacks) && FirstFailure(callbacks, i))
  }

  /** A sent row once `callback` has decided its outcome, whatever other callbacks arrived. */
  function Settle(row: Row, callback: Callback): Row {
    if callback.status == Delivered then
      row.(status := Delivered, deliveredAt := Some(callback.eventAt))
    else
      row.(status := callback.status, failedAt := Some(callback.eventAt),
           lastError := callback.lastError)
  }

  lemma {:induction false} SomeCallbackDecides(callbacks: seq<Callback>) returns (i: nat)
    requires AllValid(callbacks)
    ensures AllSent(callbacks) || Decides(callbacks, i)
  {
    i := 0;
    if callbacks != [] {
      var n := |callbacks| - 1;
      var before := callbacks[..n];
      var k := SomeCallbackDecides(before);
      i := if (callbacks[n].status == Delivered && NoneDelivered(before)) || AllSent(before) then n else k;
      assert forall j :: 0 <= j < n ==> before[j] == callbacks[j];
      assert callbacks[n].Valid();
    }
  }

  /**
   * Any sequence of callbacks on a row just sent: DELIVERED as soon as one of them says so, with
   * the time of the first that did and no trace of a failure; otherwise the first failure, with
   * its own time and error; otherwise nothing.  No other column ever moves.
   */
  lemma {:induction false} FoldClosedForm(row: Row, callbacks: seq<Callback>)
    requires row.status == Sent && RowIntegrity(row) && row.sentAt.Some? && AllValid(callbacks)
    ensures forall i: nat :: Decides(callbacks, i) ==> Fold(row, callbacks) == Settle(row, callbacks[i])
    ensures AllSent(callbacks) ==> Fold(row, callbacks) == row
  {
    if callbacks != [] {
      var n := |callbacks| - 1;
      var before := callbacks[..n];
      FoldClosedForm(row, before);
      var k := SomeCallbackDecides(before);
      assert callbacks[n].Valid();
      forall i: nat | Decides(callbacks, i)
        ensures Fold(row, callbacks) == Settle(row, callbacks[i])
      {
        if i < n {
          DecidesPrefix(callbacks, n, i);
          FoldStep(row, callbacks, before[i]);
        } else {
          assert !AllSent(before) ==> Decides(before, k);
          if AllSent(before) {
          } else {
            DecidedByLast(callbacks, k);
          }
        }
      }
    }
  }

  lemma DecidesPrefix(callbacks: seq<Callback>, n: nat, i: nat)
    requires n <= |callbacks| && i < n && Decides(callbacks, i)
    ensures Decides(callbacks[..n], i)
    ensures callbacks[i].status != Delivered ==> NoneDelivered(callbacks)
  {
  }

  lemma DecidedByLast(callbacks: seq<Callback>, k: nat)
    requires callbacks != [] && Decides(callbacks, |callbacks| - 1)
    requires Decides(callbacks[..|callbacks| - 1], k)
    ensures IsDeliveryFailure(callbacks[k].status) && callbacks[|callbacks| - 1].status == Delivered
  {
    var n := |callbacks| - 1;
    assert callbacks[..n][k] == callbacks[k];
    if FirstDelivered(callbacks, n) {
      assert callbacks[k].status != Delivered;
    }
  }

  lemma FoldStep(row: Row, callbacks: seq<Callback>, decider: Callback)
    requires callbacks != [] && callbacks[|callbacks| - 1].Valid() && decider.Valid()
    requires Fold(row, callbacks[..|callbacks| - 1]) == Settle(row, decider)
    requires decider.status == Delivered
             || (decider.status != Sent && callbacks[|callbacks| - 1].status != Delivered)
    ensures Fold(row, callbacks) == Settle(row, decider)
  {
  }

  // ---------------------------------------------------------------- order and repetition

  ghost predicate FailuresAgree(callbacks: seq<Callback>) {
    forall i, j | 0 <= i < |callbacks| && 0 <= j < |callbacks| ::
      IsDeliveryFailure(callbacks[i].status) && IsDeliveryFailure(callbacks[j].status) ==>
        callbacks[i].status == callbacks[j].status
  }

  ghost predicate Reordering(a: seq<Callback>, b: seq<Callback>) {
    multiset(a) == multiset(b)
  }

  /**
   * The final status is independent of the order of the callbacks exactly when one of them is
   * DELIVERED or all failures among them carry the same status.
   */
  lemma OrderMattersOnlyBetweenFailures(row: Row, callbacks: seq<Callback>)
    requires row.status == Sent && RowIntegrity(row) && row.sentAt.Some? && AllValid(callbacks)
    ensures (forall other :: Reordering(other, callbacks) ==>
               Fold(row, other).status == Fold(row, callbacks).status)
            <==> !NoneDelivered(callbacks) || FailuresAgree(callbacks)
  {
    if !NoneDelivered(callbacks) || FailuresAgree(callbacks) {
      forall other | Reordering(other, callbacks)
        ensures Fold(row, other).status == Fold(row, callbacks).status
      {
        SameMembers(other, callbacks);
        StatusByMembers(row, other, callbacks);
      }
    } else {
      var i, j :| 0 <= i < |callbacks| && 0 <= j < |callbacks|
        && IsDeliveryFailure(callbacks[i].status) && IsDeliveryFailure(callbacks[j].status)
        && callbacks[i].status != callbacks[j].status;
      var a := ToFront(row, callbacks, i);
      var b := ToFront(row, callbacks, j);
      assert Reordering(a, callbacks) && Reordering(b, callbacks);
    }
  }

  lemma SameMembers(a: seq<Callback>, b: seq<Callback>)
    requires Reordering(a, b)
    ensures forall c :: c in a <==> c in b
  {
    forall c ensures c in a <==> c in b {
      assert c in a <==> c in multiset(a);
      assert c in b <==> c in multiset(b);
    }
  }

  lemma StatusByMembers(row: Row, a: seq<Callback>, b: seq<Callback>)
    requires row.status == Sent && RowIntegrity(row) && row.sentAt.Some? && AllValid(b)
    requires forall c :: c in a <==> c in b
    requires !NoneDelivered(b) || FailuresAgree(b)
    ensures Fold(row, a).status == Fold(row, b).status
  {
    assert AllValid(a) by {
      forall k | 0 <= k < |a| ensures a[k].Valid() { assert a[k] in b; }
    }
    var i := SomeCallbackDecides(a);
    var j := SomeCallbackDecides(b);
    FoldClosedForm(row, a);
    FoldClosedForm(row, b);
    if !AllSent(a) { assert a[i] in b; }
    if !AllSent(b) { assert b[j] in a; }
  }

  lemma ToFront(row: Row, callbacks: seq<Callback>, i: nat) returns (other: seq<Callback>)
    requires row.status == Sent && RowIntegrity(row) && row.sentAt.Some? && AllValid(callbacks)
    requires NoneDelivered(callbacks)
    requires i < |callbacks| && IsDeliveryFailure(callbacks[i].status)
    ensures Reordering(other, callbacks) && Fold(row, other).status == callbacks[i].status
  {
    assert callbacks == callbacks[..i] + [callbacks[i]] + callbacks[i + 1..];
    other := [callbacks[i]] + callbacks[..i] + callbacks[i + 1..];
    SameMembers(other, callbacks);
    forall k | 0 <= k < |other| ensures other[k].Valid() && other[k].status != Delivered {
      assert other[k] in callbacks;
    }
    assert Decides(other, 0);
    FoldClosedForm(row, other);
  }

  /** Once a status has been reported, reporting it again changes no column. */
  lemma {:induction false} RepeatedStatusIsNoOp(row: Row, callbacks: seq<Callback>, i: nat, again: Callback)
    requires InDeliveryPhase(row.status) && AllValid(callbacks) && again.Valid()
    requires i < |callbacks| && callbacks[i].status == again.status
    ensures InDeliveryPhase(Fold(row, callbacks).status)
    ensures Rank(again.status) <= Rank(Fold(row, callbacks).status)
    ensures Apply(Fold(row, callbacks), again) == Fold(row, callbacks)
  {
    var n := |callbacks| - 1;
    FoldStaysInDelivery(row, callbacks[..n]);
    ApplyClimbs(Fold(row, callbacks[..n]), callbacks[n]);
    if i < n {
      RepeatedStatusIsNoOp(row, callbacks[..n], i, again);
    }
    ApplyClimbs(Fold(row, callbacks), again);
  }

  lemma {:induction false} FoldStaysInDelivery(row: Row, callbacks: seq<Callback>)
    requires InDeliveryPhase(row.status) && AllValid(callbacks)
    ensures InDeliveryPhase(Fold(row, callbacks).status)
    ensures RowIntegrity(row) ==> RowIntegrity(Fold(row, callbacks))
  {
    if callbacks != [] {
      FoldStaysInDelivery(row, callbacks[..|callbacks| - 1]);
      ApplyClimbs(Fold(row, callbacks[..|callbacks| - 1]), callbacks[|callbacks| - 1]);
    }
  }
}
