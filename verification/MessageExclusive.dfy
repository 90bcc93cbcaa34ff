// What every reachable state of a message satisfies when the environment keeps two promises:
// E1, a claim succeeds only while no execution is between its claim and its final write, and E2, when a
// publish fails nobody claims the row before it is compensated.

module MessageExclusive {
  import opened SmsMessage
  import opened DeliveryStatus
  import opened DispatchPlan
  import opened MessageMachine
  import opened MessageSafety

  // ---------------------------------------------------------------- the invariant

  ghost predicate OneDispatching(m: Message) {
    forall a, b | 0 <= a < b < |m.executions| ::
      !(Dispatching(m.executions[a].state) && Dispatching(m.executions[b].state))
  }

  ghost predicate DispatchesProcessing(m: Message) {
    forall e | 0 <= e < |m.executions| :: Dispatching(m.executions[e].state) ==> m.row.status == Processing
  }

  ghost predicate CompensatesQueued(m: Message) {
    forall k | 0 <= k < |m.epochs| :: m.epochs[k].publisher.Compensating? ==>
      k == |m.epochs| - 1 && m.row.status == Queued
  }

  /** Callbacks in flight concern a message that a dispatch has written SENT. */
  ghost predicate CallbacksFollowSent(m: Message) {
    && (m.row.providerMessageId.Some? ==> m.history.sentRow.Some?)
    && (forall d | 0 <= d < |m.deliveries| :: m.deliveries[d].Found? ==>
          m.deliveries[d].callback.Valid() && m.history.sentRow.Some?)
  }

  /** The row is what the callbacks applied so far make of the row first written SENT. */
  ghost predicate RowIsFold(m: Message) {
    match m.history.sentRow
    case None => m.history.sentWrites == 0 && m.history.applied == []
    case Some(sent) =>
      && m.history.sentWrites == 1
      && sent.status == Sent && sent.sentAt.Some? && RowIntegrity(sent)
      && AllValid(m.history.applied)
      && m.row == Fold(sent, m.history.applied)
      && InDeliveryPhase(m.row.status)
  }

  ghost predicate Sound(m: Message) {
    && OneDispatching(m) && DispatchesProcessing(m) && CompensatesQueued(m) && CallbacksFollowSent(m) && RowIsFold(m)
    && RowIntegrity(m.row)
  }

  // ---------------------------------------------------------------- one step

  lemma OneDispatchingKept(cfg: Config, m: Message, step: Step)
    requires OneDispatching(m) && Enabled(cfg, m, step) && ClaimsAlone(m, step)
    ensures OneDispatching(Next(cfg, m, step))
  {
  }

  lemma DispatchesProcessingKept(cfg: Config, m: Message, step: Step)
    requires Sound(m) && Enabled(cfg, m, step) && ClaimsAlone(m, step) && FailedPublishUnclaimed(m, step)
    ensures DispatchesProcessing(Next(cfg, m, step))
  {
  }

  lemma CompensatesQueuedKept(cfg: Config, m: Message, step: Step)
    requires Sound(m) && Enabled(cfg, m, step) && ClaimsAlone(m, step) && FailedPublishUnclaimed(m, step)
    ensures CompensatesQueued(Next(cfg, m, step))
  {
  }

  lemma CallbacksFollowSentKept(cfg: Config, m: Message, step: Step)
    requires Sound(m) && Enabled(cfg, m, step)
    ensures CallbacksFollowSent(Next(cfg, m, step))
  {
  }

  lemma RowIsFoldApplied(cfg: Config, m: Message, step: Step)
    requires Sound(m) && Enabled(cfg, m, step) && step.ApplyCallback?
    ensures RowIsFold(Next(cfg, m, step))
  {
    var callback := m.deliveries[step.delivery].callback;
    ApplyClimbs(m.row, callback);
    assert Next(cfg, m, step).history.applied[..|m.history.applied|] == m.history.applied;
  }

  lemma RowIsFoldKept(cfg: Config, m: Message, step: Step)
    requires Sound(m) && Enabled(cfg, m, step)
    ensures RowIsFold(Next(cfg, m, step))
  {
    if step.ApplyCallback? { RowIsFoldApplied(cfg, m, step); }
  }

  lemma RowIntegrityKept(cfg: Config, m: Message, step: Step)
    requires Sound(m) && Enabled(cfg, m, step)
    ensures RowIntegrity(Next(cfg, m, step).row)
  {
    if step.ApplyCallback? {
      ApplyClimbs(m.row, m.deliveries[step.delivery].callback);
    }
  }

  lemma SoundKept(cfg: Config, m: Message, step: Step)
    requires Sound(m) && Enabled(cfg, m, step) && ClaimsAlone(m, step) && FailedPublishUnclaimed(m, step)
    ensures Sound(Next(cfg, m, step))
  {
    OneDispatchingKept(cfg, m, step);
    DispatchesProcessingKept(cfg, m, step);
    CompensatesQueuedKept(cfg, m, step);
    CallbacksFollowSentKept(cfg, m, step);
    RowIsFoldKept(cfg, m, step);
    RowIntegrityKept(cfg, m, step);
  }

  // ---------------------------------------------------------------- over runs

  lemma {:induction false} ExclusiveRunsAreSound(cfg: Config, states: seq<Message>, steps: seq<Step>, i: nat)
    requires IsRun(cfg, states, steps) && Exclusive(states, steps) && i < |states|
    ensures Sound(states[i])
  {
    if i > 0 {
      ExclusiveRunsAreSound(cfg, states, steps, i - 1);
      SoundKept(cfg, states[i - 1], steps[i - 1]);
    }
  }

  /** In every state: each outcome column is set exactly when the status says so. */
  lemma RowsKeepIntegrity(cfg: Config, states: seq<Message>, steps: seq<Step>, i: nat)
    requires IsRun(cfg, states, steps) && Exclusive(states, steps) && i < |states|
    ensures RowIntegrity(states[i].row) && UnsentHasNoReceipt(states[i].row)
    ensures var row := states[i].row;
      Claimable(row.status) ==> row == NewRow.(status := row.status, attempts := row.attempts)
  {
    ExclusiveRunsAreSound(cfg, states, steps, i);
    UnsentRowsHaveNoReceipt(cfg, states, steps, i);
    ClaimableRowsAreLikeNew(cfg, states, steps, i);
  }

  lemma DeliveryStep(cfg: Config, m: Message, step: Step)
    requires Sound(m) && Enabled(cfg, m, step) && ClaimsAlone(m, step) && FailedPublishUnclaimed(m, step)
    requires InDeliveryPhase(m.row.status)
    ensures InDeliveryPhase(Next(cfg, m, step).row.status)
    ensures Rank(m.row.status) <= Rank(Next(cfg, m, step).row.status)
    ensures m.row.status == Delivered ==> Next(cfg, m, step).row == m.row
    ensures Next(cfg, m, step).row != m.row ==>
      step.ApplyCallback? && m.deliveries[step.delivery].callback.status != Sent
  {
    if step.ApplyCallback? {
      ApplyClimbs(m.row, m.deliveries[step.delivery].callback);
    }
  }

  /**
   * A message that reached SENT or a delivery outcome never becomes QUEUED, PROCESSING or
   * FATAL_FAILURE again, its status only climbs, and once DELIVERED no column changes any more.
   */
  lemma {:induction false} DeliveryPhaseIsNeverLeft(cfg: Config, states: seq<Message>, steps: seq<Step>, i: nat, j: nat)
    requires IsRun(cfg, states, steps) && Exclusive(states, steps) && i <= j < |states|
    requires InDeliveryPhase(states[i].row.status)
    ensures InDeliveryPhase(states[j].row.status)
    ensures Rank(states[i].row.status) <= Rank(states[j].row.status)
    ensures states[i].row.status == Delivered ==> states[j].row == states[i].row
  {
    if i < j {
      DeliveryPhaseIsNeverLeft(cfg, states, steps, i, j - 1);
      ExclusiveRunsAreSound(cfg, states, steps, j - 1);
      DeliveryStep(cfg, states[j - 1], steps[j - 1]);
    }
  }

  /** The late UPDATE of a callback never lands on a row outside the delivery phase. */
  lemma CallbacksLandInDeliveryPhase(cfg: Config, states: seq<Message>, steps: seq<Step>, i: nat)
    requires IsRun(cfg, states, steps) && Exclusive(states, steps) && i < |steps|
    requires steps[i].ApplyCallback?
    ensures InDeliveryPhase(states[i].row.status)
    ensures states[i].deliveries[steps[i].delivery].callback.status == Sent ==> states[i + 1].row == states[i].row
  {
    ExclusiveRunsAreSound(cfg, states, steps, i);
    ApplyClimbs(states[i].row, states[i].deliveries[steps[i].delivery].callback);
  }

  /**
   * However concurrent callbacks interleave with each other and with everything else, a message
   * once sent is the row of its SENT write, settled by the callback that decides among those
   * applied, in the order of their UPDATEs.
   */
  lemma SentRowsAreSettled(cfg: Config, states: seq<Message>, steps: seq<Step>, i: nat)
    requires IsRun(cfg, states, steps) && Exclusive(states, steps) && i < |states|
    requires states[i].history.sentRow.Some?
    ensures var sent, applied := states[i].history.sentRow.value, states[i].history.applied;
      && sent.status == Sent
      && states[i].row == Fold(sent, applied)
      && (AllSent(applied) ==> states[i].row == sent)
      && forall d: nat | Decides(applied, d) :: states[i].row == Settle(sent, applied[d])
  {
    ExclusiveRunsAreSound(cfg, states, steps, i);
    FoldClosedForm(states[i].history.sentRow.value, states[i].history.applied);
  }

  // ---------------------------------------------------------------- duplicate sends

  /** Every acceptance was written SENT, lost with its execution, or is about to be written. */
  ghost predicate AcceptsAccountedFor(m: Message) {
    m.history.accepted == m.history.sentWrites + m.history.lostAccepts + Tally(InAcceptance, m.executions)
  }

  lemma AcceptsAccountedForKept(cfg: Config, m: Message, step: Step)
    requires AcceptsAccountedFor(m) && Enabled(cfg, m, step)
    ensures AcceptsAccountedFor(Next(cfg, m, step))
  {
    TallyStep(cfg, m, step, InAcceptance);
  }

  lemma {:induction false} AcceptsOverRuns(cfg: Config, states: seq<Message>, steps: seq<Step>, i: nat)
    requires IsRun(cfg, states, steps) && i < |states|
    ensures AcceptsAccountedFor(states[i])
  {
    if i > 0 {
      AcceptsOverRuns(cfg, states, steps, i - 1);
      AcceptsAccountedForKept(cfg, states[i - 1], steps[i - 1]);
    }
  }

  lemma {:induction false} AtMostOneInAcceptance(executions: seq<Execution>)
    requires forall a, b | 0 <= a < b < |executions| ::
      !(Dispatching(executions[a].state) && Dispatching(executions[b].state))
    ensures Tally(InAcceptance, executions) <= 1
    ensures (forall e | 0 <= e < |executions| :: !Dispatching(executions[e].state)) ==>
      Tally(InAcceptance, executions) == 0
  {
    if executions != [] {
      AtMostOneInAcceptance(executions[..|executions| - 1]);
    }
  }

  /**
   * Over any run, requeues included, providers accept a message at most once more than the
   * number of executions that ended between an acceptance and writing SENT.
   */
  lemma DuplicatesBoundedByCrashes(cfg: Config, states: seq<Message>, steps: seq<Step>, i: nat)
    requires IsRun(cfg, states, steps) && Exclusive(states, steps) && i < |states|
    ensures states[i].history.accepted <= 1 + states[i].history.lostAccepts
  {
    ExclusiveRunsAreSound(cfg, states, steps, i);
    AcceptsOverRuns(cfg, states, steps, i);
    AtMostOneInAcceptance(states[i].executions);
  }
}
