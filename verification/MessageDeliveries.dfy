// When a message leaves the delivery phase, and which callbacks are lost: exact conditions over
// runs, on events that come before.

module MessageDeliveries {
  import opened SmsMessage
  import opened DeliveryStatus
  import opened DispatchPlan
  import opened MessageMachine
  import opened MessageExclusive
  import MessageClaims

  // ---------------------------------------------------------------- leaving the delivery phase

  ghost predicate StaysInDelivery(states: seq<Message>) {
    forall i | 0 <= i < |states| - 1 :: InDeliveryPhase(states[i].row.status) ==> InDeliveryPhase(states[i + 1].row.status)
  }

  /** Only a dispatch that fails and a requeue that is undone take a row out of the delivery phase. */
  lemma LeavingStep(cfg: Config, m: Message, step: Step)
    requires Enabled(cfg, m, step) && InDeliveryPhase(m.row.status)
    ensures !InDeliveryPhase(Next(cfg, m, step).row.status) <==> step.WriteFatal? || (step.Compensate? && step.epoch > 0)
  {
  }

  /** Step `c` is the claim that step `j` ends with FATAL_FAILURE, or opens the epoch that step `j` restores. */
  predicate Undoes(states: seq<Message>, steps: seq<Step>, c: nat, j: nat)
    requires c < j < |steps| && |steps| < |states|
  {
    || (steps[j].WriteFatal? && ClaimSucceeds(states[c], steps[c]) && steps[c].execution == steps[j].execution)
    || (steps[j].Compensate? && steps[j].epoch > 0 && steps[c].TransitionRequeue? && states[c].row.status == FatalFailure
        && |states[c].epochs| == steps[j].epoch)
  }

  /** The row has not been in the delivery phase since the claim, or the requeue, that the step undoes. */
  ghost predicate OutsideSince(states: seq<Message>, steps: seq<Step>, j: nat)
    requires j < |steps| && |steps| < |states|
  {
    forall c, h | 0 <= c < h <= j :: Undoes(states, steps, c, j) ==> !InDeliveryPhase(states[h].row.status)
  }

  lemma {:induction false} DispatchHasClaimed(cfg: Config, states: seq<Message>, steps: seq<Step>, i: nat, e: nat) returns (c: nat)
    requires IsRun(cfg, states, steps) && i < |states| && HasExecution(states[i], e) && Dispatching(states[i].executions[e].state)
    ensures c < i && ClaimSucceeds(states[c], steps[c]) && steps[c].execution == e
  {
    if i == 0 {
      assert false;
    } else if ClaimSucceeds(states[i - 1], steps[i - 1]) && steps[i - 1].execution == e {
      c := i - 1;
    } else {
      MessageClaims.DispatchingStep(cfg, states[i - 1], steps[i - 1], e);
      c := DispatchHasClaimed(cfg, states, steps, i - 1, e);
    }
  }

  lemma OpeningStep(cfg: Config, m: Message, step: Step)
    requires Enabled(cfg, m, step)
    ensures |Next(cfg, m, step).epochs|
            == |m.epochs| + if step.TransitionRequeue? && m.row.status == FatalFailure then 1 else 0
  {
  }

  lemma {:induction false} EpochWasOpened(cfg: Config, states: seq<Message>, steps: seq<Step>, i: nat, k: nat) returns (c: nat)
    requires IsRun(cfg, states, steps) && i < |states| && 0 < k < |states[i].epochs|
    ensures c < i && steps[c].TransitionRequeue? && states[c].row.status == FatalFailure && |states[c].epochs| == k
  {
    if i == 0 {
      assert false;
    } else {
      OpeningStep(cfg, states[i - 1], steps[i - 1]);
      if k < |states[i - 1].epochs| { c := EpochWasOpened(cfg, states, steps, i - 1, k); } else { c := i - 1; }
    }
  }

  lemma {:induction false} InDeliveryThroughout(states: seq<Message>, h: nat, j: nat)
    requires StaysInDelivery(states) && h <= j < |states| && InDeliveryPhase(states[h].row.status)
    ensures InDeliveryPhase(states[j].row.status)
  {
    if h < j { InDeliveryThroughout(states, h, j - 1); }
  }

  /** A step that leaves the delivery phase undoes something, since which the row has entered it. */
  lemma LeavingUndoes(cfg: Config, states: seq<Message>, steps: seq<Step>, j: nat) returns (c: nat)
    requires IsRun(cfg, states, steps) && j < |steps|
    requires InDeliveryPhase(states[j].row.status) && !InDeliveryPhase(states[j + 1].row.status)
    ensures c < j && Undoes(states, steps, c, j)
  {
    LeavingStep(cfg, states[j], steps[j]);
    if steps[j].WriteFatal? {
      c := DispatchHasClaimed(cfg, states, steps, j, steps[j].execution);
    } else {
      c := EpochWasOpened(cfg, states, steps, j, steps[j].epoch);
    }
  }

  /**
   * With no assumption: a run never leaves the delivery phase exactly when no dispatch writes
   * FATAL_FAILURE, and no requeue restores it, after the row has been in the delivery phase since
   * that dispatch's claim, or since that requeue.
   */
  lemma DeliveryIsKeptIff(cfg: Config, states: seq<Message>, steps: seq<Step>)
    requires IsRun(cfg, states, steps)
    ensures StaysInDelivery(states) <==> forall j | 0 <= j < |steps| :: OutsideSince(states, steps, j)
  {
    if StaysInDelivery(states) {
      forall j | 0 <= j < |steps| ensures OutsideSince(states, steps, j) {
        forall c, h | 0 <= c < h <= j && Undoes(states, steps, c, j) ensures !InDeliveryPhase(states[h].row.status) {
          if InDeliveryPhase(states[h].row.status) {
            InDeliveryThroughout(states, h, j);
            InDeliveryThroughout(states, h, j + 1);
            LeavingStep(cfg, states[j], steps[j]);
          }
        }
      }
    } else {
      var j :| 0 <= j < |states| - 1 && InDeliveryPhase(states[j].row.status) && !InDeliveryPhase(states[j + 1].row.status);
      var c := LeavingUndoes(cfg, states, steps, j);
      assert !OutsideSince(states, steps, j);
    }
  }

  // ---------------------------------------------------------------- callbacks that find nothing

  /** The lookup of a callback finds the message. */
  predicate Matches(m: Message, provider: string, id: string) {
    m.row.selectedProvider == Some(provider) && m.row.providerMessageId == Some(id)
  }

  /** The provider has accepted the message under this id, and the execution is about to write so. */
  predicate AwaitsWrite(m: Message, e: nat, provider: string, id: string) {
    HasExecution(m, e) && m.executions[e].state == Accepted(provider, Some(id))
  }

  /** The step is a call that this provider accepts under this id. */
  predicate AcceptsAs(cfg: Config, m: Message, step: Step, provider: string, id: string) {
    && step.CallProvider? && step.reply == Accept(Some(id)) && HasExecution(m, step.execution)
    && m.executions[step.execution].state.Calling? && m.executions[step.execution].state.at.AtAttempt?
    && m.executions[step.execution].state.at.provider < |cfg.providers|
    && cfg.providers[m.executions[step.execution].state.at.provider] == provider
  }

  lemma MatchStep(cfg: Config, m: Message, step: Step, provider: string, id: string)
    requires Enabled(cfg, m, step) && !Matches(m, provider, id)
    ensures Matches(Next(cfg, m, step), provider, id) <==> step.WriteSent? && AwaitsWrite(m, step.execution, provider, id)
  {
  }

  lemma AwaitStep(cfg: Config, m: Message, step: Step, e: nat, provider: string, id: string)
    requires Enabled(cfg, m, step) && AwaitsWrite(Next(cfg, m, step), e, provider, id)
    ensures AwaitsWrite(m, e, provider, id) || AcceptsAs(cfg, m, step, provider, id)
  {
  }

  /** No provider accepts the message under this id any more: the acceptance a callback reports is past. */
  ghost predicate NotAcceptedFrom(cfg: Config, states: seq<Message>, steps: seq<Step>, i: nat, provider: string, id: string)
    requires |steps| < |states|
  {
    forall k | i <= k < |steps| :: !AcceptsAs(cfg, states[k], steps[k], provider, id)
  }

  lemma {:induction false} AwaitedBefore(cfg: Config, states: seq<Message>, steps: seq<Step>, i: nat, k: nat,
                                         e: nat, provider: string, id: string)
    requires IsRun(cfg, states, steps) && i <= k < |states| && NotAcceptedFrom(cfg, states, steps, i, provider, id)
    requires AwaitsWrite(states[k], e, provider, id)
    ensures AwaitsWrite(states[i], e, provider, id)
  {
    if i < k {
      assert AwaitsWrite(states[k - 1], e, provider, id) by {
        assert states[k] == Next(cfg, states[k - 1], steps[k - 1]) && !AcceptsAs(cfg, states[k - 1], steps[k - 1], provider, id);
        AwaitStep(cfg, states[k - 1], steps[k - 1], e, provider, id);
      }
      AwaitedBefore(cfg, states, steps, i, k - 1, e, provider, id);
    }
  }

  /** Step `k` writes SENT for an acceptance that was awaiting its write at `i`. */
  ghost predicate WritesAwaited(states: seq<Message>, steps: seq<Step>, i: nat, k: nat, provider: string, id: string)
    requires i < |states| && k < |steps|
  {
    steps[k].WriteSent? && AwaitsWrite(states[i], steps[k].execution, provider, id)
  }

  lemma FoundNow(cfg: Config, states: seq<Message>, steps: seq<Step>, i: nat, k: nat, provider: string, id: string)
    requires IsRun(cfg, states, steps) && i <= k < |steps| && NotAcceptedFrom(cfg, states, steps, i, provider, id)
    requires !Matches(states[k], provider, id) && Matches(states[k + 1], provider, id)
    ensures WritesAwaited(states, steps, i, k, provider, id)
  {
    assert steps[k].WriteSent? && AwaitsWrite(states[k], steps[k].execution, provider, id) by {
      MatchStep(cfg, states[k], steps[k], provider, id);
    }
    AwaitedBefore(cfg, states, steps, i, k, steps[k].execution, provider, id);
  }

  /** With no assumption: what was not found and is found later was awaiting its write, which has come. */
  lemma FoundLater(cfg: Config, states: seq<Message>, steps: seq<Step>, i: nat, j: nat, provider: string, id: string)
      returns (k: nat)
    requires IsRun(cfg, states, steps) && i <= j < |states| && NotAcceptedFrom(cfg, states, steps, i, provider, id)
    requires !Matches(states[i], provider, id) && Matches(states[j], provider, id)
    ensures i <= k < j && WritesAwaited(states, steps, i, k, provider, id)
  {
    k := TurnsTrue(seq(|states|, t requires 0 <= t < |states| => Matches(states[t], provider, id)), i, j);
    FoundNow(cfg, states, steps, i, k, provider, id);
  }

  lemma {:induction false} TurnsTrue(holds: seq<bool>, i: nat, j: nat) returns (k: nat)
    requires i <= j < |holds| && !holds[i] && holds[j]
    ensures i <= k < j && !holds[k] && holds[k + 1]
  {
    if holds[j - 1] { k := TurnsTrue(holds, i, j - 1); } else { k := j - 1; }
  }

  lemma {:induction false} StaysTrue(holds: seq<bool>, i: nat, j: nat)
    requires i <= j < |holds| && holds[i] && forall t | i <= t < j && holds[t] :: holds[t + 1]
    ensures holds[j]
  {
    if i < j { StaysTrue(holds, i, j - 1); }
  }

  /** The acceptance is awaiting its write, or has been written or lost. */
  ghost predicate AwaitedOrEnded(m: Message, e: nat, provider: string, id: string) {
    HasExecution(m, e) && (AwaitsWrite(m, e, provider, id) || Ended(m.executions[e].state))
  }

  lemma AcceptedStays(cfg: Config, m: Message, step: Step, e: nat, provider: string, id: string)
    requires Enabled(cfg, m, step) && AwaitedOrEnded(m, e, provider, id)
    ensures AwaitedOrEnded(Next(cfg, m, step), e, provider, id)
  {
  }

  lemma AwaitsUntilWritten(cfg: Config, states: seq<Message>, steps: seq<Step>, i: nat, k: nat,
                           e: nat, provider: string, id: string)
    requires IsRun(cfg, states, steps) && i <= k < |states| && AwaitsWrite(states[i], e, provider, id)
    ensures AwaitedOrEnded(states[k], e, provider, id)
  {
    var holds := seq(|states|, t requires 0 <= t < |states| => AwaitedOrEnded(states[t], e, provider, id));
    forall t | i <= t < k && holds[t] ensures holds[t + 1] {
      AcceptedStays(cfg, states[t], steps[t], e, provider, id);
    }
    StaysTrue(holds, i, k);
  }

  lemma {:induction false} FoundForGood(cfg: Config, states: seq<Message>, steps: seq<Step>, i: nat, j: nat,
                                        provider: string, id: string)
    requires IsRun(cfg, states, steps) && Exclusive(states, steps) && i <= j < |states| && Matches(states[i], provider, id)
    ensures Matches(states[j], provider, id)
  {
    if i < j {
      FoundForGood(cfg, states, steps, i, j - 1, provider, id);
      assert Sound(states[j - 1]) by { ExclusiveRunsAreSound(cfg, states, steps, j - 1); }
      DeliveryStep(cfg, states[j - 1], steps[j - 1]);
    }
  }

  /**
   * A callback for an acceptance in the past that finds nothing now would find its message later
   * exactly when the acceptance is awaiting its SENT write and that write comes: under E1 and E2,
   * in any run from `i` on.  The first half of it needs no assumption (`FoundLater`).
   */
  lemma RetrySucceedsIff(cfg: Config, states: seq<Message>, steps: seq<Step>, i: nat, provider: string, id: string)
    requires IsRun(cfg, states, steps) && Exclusive(states, steps) && i < |states|
    requires !Matches(states[i], provider, id) && NotAcceptedFrom(cfg, states, steps, i, provider, id)
    ensures Matches(states[|steps|], provider, id)
            <==> exists k | i <= k < |steps| :: WritesAwaited(states, steps, i, k, provider, id)
  {
    if Matches(states[|steps|], provider, id) {
      var k := FoundLater(cfg, states, steps, i, |steps|, provider, id);
    } else if k :| i <= k < |steps| && WritesAwaited(states, steps, i, k, provider, id) {
      AwaitsUntilWritten(cfg, states, steps, i, k, steps[k].execution, provider, id);
      assert Matches(states[k + 1], provider, id);
      FoundForGood(cfg, states, steps, k + 1, |steps|, provider, id);
      assert false;
    }
  }
}
