// Who wins the claim of a message, and when: what it takes for the winner to be alone, and for a
// PROCESSING row to have a live job that claimed it.  The conditions are on what the queue does,
// since the claim's own guard, which accepts PROCESSING, does not see to either.

module MessageClaims {
  import opened SmsMessage
  import opened DispatchPlan
  import opened MessageMachine
  import opened MessageSafety
  import opened MessageExclusive

  /** The execution whose claim was the latest to succeed in the first `i` steps. */
  function LastWinner(states: seq<Message>, steps: seq<Step>, i: nat): Option<nat>
    requires i <= |steps| && i <= |states|
  {
    if i == 0 then None
    else if ClaimSucceeds(states[i - 1], steps[i - 1]) then Some(steps[i - 1].execution)
    else LastWinner(states, steps, i - 1)
  }

  // ---------------------------------------------------------------- one winner at a time

  /** A claim succeeds only when the execution that won before has written the row, or is gone. */
  ghost predicate WinnerIsDone(states: seq<Message>, steps: seq<Step>, i: nat)
    requires i < |steps| && i < |states|
  {
    ClaimSucceeds(states[i], steps[i]) && LastWinner(states, steps, i).Some? ==>
      var w := LastWinner(states, steps, i).value;
      w < |states[i].executions| && !Dispatching(states[i].executions[w].state)
  }

  /** Whoever is dispatching is the last winner. */
  ghost predicate OnlyWinnerDispatches(states: seq<Message>, steps: seq<Step>, i: nat)
    requires i <= |steps| && i < |states|
  {
    forall e | 0 <= e < |states[i].executions| ::
      Dispatching(states[i].executions[e].state) ==> LastWinner(states, steps, i) == Some(e)
  }

  lemma DispatchingStep(cfg: Config, m: Message, step: Step, e: nat)
    requires Enabled(cfg, m, step) && HasExecution(Next(cfg, m, step), e)
    ensures Dispatching(Next(cfg, m, step).executions[e].state) ==>
      || (HasExecution(m, e) && Dispatching(m.executions[e].state))
      || (ClaimSucceeds(m, step) && step.execution == e)
  {
  }

  lemma {:induction false} OnlyWinnersDispatch(cfg: Config, states: seq<Message>, steps: seq<Step>, i: nat)
    requires IsRun(cfg, states, steps) && i < |states|
    requires forall h | 0 <= h < |steps| :: WinnerIsDone(states, steps, h)
    ensures OnlyWinnerDispatches(states, steps, i)
  {
    if i > 0 {
      OnlyWinnersDispatch(cfg, states, steps, i - 1);
      assert WinnerIsDone(states, steps, i - 1);
      forall e | 0 <= e < |states[i].executions| && Dispatching(states[i].executions[e].state)
        ensures LastWinner(states, steps, i) == Some(e)
      {
        DispatchingStep(cfg, states[i - 1], steps[i - 1], e);
      }
    }
  }

  lemma ClaimBesideAnother(cfg: Config, m: Message, step: Step, e: nat)
    requires Enabled(cfg, m, step) && ClaimSucceeds(m, step)
    requires HasExecution(m, e) && Dispatching(m.executions[e].state)
    ensures !OneDispatching(Next(cfg, m, step))
  {
    var after, c := Next(cfg, m, step).executions, step.execution;
    assert Dispatching(after[e].state) && Dispatching(after[c].state);
    assert e < c || c < e;
  }

  lemma {:induction false} WinnersExist(cfg: Config, states: seq<Message>, steps: seq<Step>, i: nat)
    requires IsRun(cfg, states, steps) && i < |states|
    ensures LastWinner(states, steps, i).Some? ==> HasExecution(states[i], LastWinner(states, steps, i).value)
  {
    if i > 0 { WinnersExist(cfg, states, steps, i - 1); }
  }

  /**
   * Two workers never both hold the claim of a message exactly when each claim that succeeds comes
   * after its last winner has ended its dispatch.  Whether it has is not for the claim to know:
   * the row says PROCESSING either way.
   */
  lemma ClaimIsExclusiveIffWinnerIsDone(cfg: Config, states: seq<Message>, steps: seq<Step>)
    requires IsRun(cfg, states, steps)
    ensures (forall i | 0 <= i < |states| :: OneDispatching(states[i]))
            <==> (forall i | 0 <= i < |steps| :: WinnerIsDone(states, steps, i))
  {
    if forall i | 0 <= i < |steps| :: WinnerIsDone(states, steps, i) {
      forall i | 0 <= i < |states| ensures OneDispatching(states[i]) {
        OnlyWinnersDispatch(cfg, states, steps, i);
      }
    } else {
      var i :| 0 <= i < |steps| && !WinnerIsDone(states, steps, i);
      WinnersExist(cfg, states, steps, i);
      ClaimBesideAnother(cfg, states[i], steps[i], LastWinner(states, steps, i).value);
      assert !OneDispatching(states[i + 1]);
    }
  }

  // ---------------------------------------------------------------- an orderly queue

  predicate Settled(job: Job) {
    job.Completed? || job.OutOfRetries?
  }

  /** The queue takes a job from its holder only when the holder has ended. */
  predicate HolderIsGone(m: Message, step: Step) {
    (step.Redeliver? || step.ExhaustJob?) && step.job in m.jobs && m.jobs[step.job].Active? ==>
      m.jobs[step.job].holder < |m.executions| && Ended(m.executions[m.jobs[step.job].holder].state)
  }

  /** A message is requeued only when the queue has settled all its jobs. */
  predicate RequeuedWhenSettled(m: Message, step: Step) {
    step.TransitionRequeue? && m.row.status == FatalFailure ==> forall j | j in m.jobs :: Settled(m.jobs[j])
  }

  /** An add that fails has not reached the queue. */
  predicate FailedAddsAddNothing(step: Step) {
    !(step.FailPublish? && step.addedAnyway)
  }

  predicate Orderly(m: Message, step: Step) {
    HolderIsGone(m, step) && RequeuedWhenSettled(m, step) && FailedAddsAddNothing(step)
  }

  /** An execution that has not ended holds its job. */
  ghost predicate HoldsItsJob(m: Message, e: nat) {
    HasExecution(m, e) && !Ended(m.executions[e].state) ==>
      m.executions[e].job in m.jobs && m.jobs[m.executions[e].job] == Active(e)
  }

  ghost predicate HoldersInOrder(m: Message) {
    forall e: nat :: HoldsItsJob(m, e)
  }

  ghost predicate OlderJobsSettled(m: Message) {
    forall k | 0 <= k < |m.epochs| - 1 :: k in m.jobs ==> Settled(m.jobs[k])
  }

  /** A publisher with something left to do is the current epoch's, and its row is still QUEUED. */
  ghost predicate PublishersInOrder(m: Message) {
    forall k | 0 <= k < |m.epochs| && Pending(m.epochs[k].publisher) :: k == |m.epochs| - 1 && m.row.status == Queued
  }

  ghost predicate FailedAddsLeftNothing(m: Message) {
    forall k | 0 <= k < |m.epochs| && m.epochs[k].publisher.Compensating? :: k !in m.jobs
  }

  ghost predicate InOrder(m: Message) {
    HoldersInOrder(m) && OlderJobsSettled(m) && PublishersInOrder(m) && FailedAddsLeftNothing(m)
  }

  /** With the queue in order, an execution that has not ended is the holder of the current job. */
  lemma UnendedHoldsCurrentJob(m: Message, e: nat)
    requires JobsFit(m) && InOrder(m) && HasExecution(m, e) && !Ended(m.executions[e].state)
    ensures Current(m) in m.jobs && m.jobs[Current(m)] == Active(e)
  {
    assert HoldsItsJob(m, e);
  }

  /** So whoever claims a message is its only execution that has not ended. */
  lemma ClaimInOrderIsAlone(cfg: Config, m: Message, step: Step)
    requires JobsFit(m) && InOrder(m) && Enabled(cfg, m, step)
    ensures ClaimsAlone(m, step) && FailedPublishUnclaimed(m, step)
  {
    if step.ClaimRow? {
      UnendedHoldsCurrentJob(m, step.execution);
      forall e | 0 <= e < |m.executions| && !Ended(m.executions[e].state) ensures e == step.execution {
        UnendedHoldsCurrentJob(m, e);
      }
      NobodyCompensates(m);
    }
  }

  /** A publisher that is compensating has left no job to hold. */
  lemma NobodyCompensates(m: Message)
    requires JobsFit(m) && InOrder(m) && Current(m) in m.jobs
    ensures forall k | 0 <= k < |m.epochs| :: !m.epochs[k].publisher.Compensating?
  {
    assert forall k | 0 <= k < |m.epochs| && Pending(m.epochs[k].publisher) :: k == Current(m);
  }

  /** An execution that has not ended goes on holding its job. */
  lemma HolderStep(cfg: Config, m: Message, step: Step, e: nat)
    requires EpochsFit(m) && HoldsItsJob(m, e) && Enabled(cfg, m, step) && HolderIsGone(m, step)
    ensures HoldsItsJob(Next(cfg, m, step), e)
  {
  }

  lemma HoldersInOrderKept(cfg: Config, m: Message, step: Step)
    requires JobsFit(m) && HoldersInOrder(m) && Enabled(cfg, m, step) && HolderIsGone(m, step)
    ensures HoldersInOrder(Next(cfg, m, step))
  {
    forall e: nat ensures HoldsItsJob(Next(cfg, m, step), e) {
      assert HoldsItsJob(m, e);
      HolderStep(cfg, m, step, e);
    }
  }

  lemma OlderJobsSettledKept(cfg: Config, m: Message, step: Step)
    requires JobsFit(m) && OlderJobsSettled(m) && PublishersInOrder(m) && Enabled(cfg, m, step) && RequeuedWhenSettled(m, step)
    ensures OlderJobsSettled(Next(cfg, m, step))
  {
  }

  lemma FailedAddsLeftNothingKept(cfg: Config, m: Message, step: Step)
    requires JobsFit(m) && FailedAddsLeftNothing(m) && Enabled(cfg, m, step) && FailedAddsAddNothing(step)
    ensures FailedAddsLeftNothing(Next(cfg, m, step))
  {
  }

  /** While a publisher is pending, every execution of the message has ended. */
  lemma AllEndedWhilePending(m: Message)
    requires JobsFit(m) && InOrder(m) && Pending(m.epochs[Current(m)].publisher)
    ensures forall e | 0 <= e < |m.executions| :: Ended(m.executions[e].state)
  {
    forall e | 0 <= e < |m.executions| ensures Ended(m.executions[e].state) {
      assert HoldsItsJob(m, e);
    }
  }

  /** So nobody dispatches then, and nobody calls back, and the row stays QUEUED. */
  lemma PendingRowStays(cfg: Config, m: Message, step: Step)
    requires JobsFit(m) && InOrder(m) && Sound(m) && Enabled(cfg, m, step) && Pending(m.epochs[Current(m)].publisher)
    ensures Next(cfg, m, step).row.status == Queued || (step.Compensate? && step.epoch == Current(m))
  {
    AllEndedWhilePending(m);
  }

  lemma PublishersInOrderKept(cfg: Config, m: Message, step: Step)
    requires JobsFit(m) && InOrder(m) && Sound(m) && Enabled(cfg, m, step)
    ensures PublishersInOrder(Next(cfg, m, step))
  {
    if Pending(m.epochs[Current(m)].publisher) { PendingRowStays(cfg, m, step); }
  }

  lemma InOrderStep(cfg: Config, m: Message, step: Step)
    requires JobsFit(m) && InOrder(m) && Sound(m) && Enabled(cfg, m, step) && Orderly(m, step)
    ensures InOrder(Next(cfg, m, step)) && Sound(Next(cfg, m, step))
  {
    ClaimInOrderIsAlone(cfg, m, step);
    HoldersInOrderKept(cfg, m, step);
    OlderJobsSettledKept(cfg, m, step);
    FailedAddsLeftNothingKept(cfg, m, step);
    PublishersInOrderKept(cfg, m, step);
    SoundKept(cfg, m, step);
  }

  lemma {:induction false} OrderlyRunsStayInOrder(cfg: Config, states: seq<Message>, steps: seq<Step>, i: nat)
    requires IsRun(cfg, states, steps) && i < |states|
    requires forall h | 0 <= h < |steps| :: Orderly(states[h], steps[h])
    ensures JobsFit(states[i]) && InOrder(states[i]) && Sound(states[i])
  {
    RunKeepsUndecided(cfg, states, steps, i);
    if i > 0 {
      OrderlyRunsStayInOrder(cfg, states, steps, i - 1);
      InOrderStep(cfg, states[i - 1], steps[i - 1]);
    }
  }

  /**
   * E1 and E2 hold in every run in which the queue redelivers a job only after its holder has
   * ended, a message is requeued only when its jobs are settled, and failed adds add nothing.
   */
  lemma OrderlyRunsAreExclusive(cfg: Config, states: seq<Message>, steps: seq<Step>)
    requires IsRun(cfg, states, steps)
    requires forall i | 0 <= i < |steps| :: Orderly(states[i], steps[i])
    ensures Exclusive(states, steps)
    ensures forall i | 0 <= i < |states| :: OneDispatching(states[i])
  {
    forall i | 0 <= i < |steps| ensures ClaimsAlone(states[i], steps[i]) && FailedPublishUnclaimed(states[i], steps[i]) {
      OrderlyRunsStayInOrder(cfg, states, steps, i);
      ClaimInOrderIsAlone(cfg, states[i], steps[i]);
    }
    forall i | 0 <= i < |states| ensures OneDispatching(states[i]) {
      OrderlyRunsStayInOrder(cfg, states, steps, i);
    }
  }

  // ---------------------------------------------------------------- PROCESSING and its job

  /** The queue does not give up on the current job while the row is PROCESSING. */
  predicate KeepsJobInProcessing(m: Message, step: Step) {
    m.epochs != [] && m.row.status == Processing ==> !(step.ExhaustJob? && step.job == Current(m))
  }

  /** A claim succeeds only while the queue holds the current epoch's job. */
  predicate ClaimsHeldJob(m: Message, step: Step) {
    && (ClaimSucceeds(m, step) ==> JobHeld(m))
    && KeepsJobInProcessing(m, step)
  }

  lemma HeldStep(cfg: Config, m: Message, step: Step)
    requires JobsFit(m) && Enabled(cfg, m, step) && ClaimsHeldJob(m, step)
    requires m.row.status == Processing ==> JobHeld(m)
    ensures Next(cfg, m, step).row.status == Processing ==> JobHeld(Next(cfg, m, step))
  {
  }

  lemma {:induction false} ProcessingIsHeld(cfg: Config, states: seq<Message>, steps: seq<Step>, i: nat)
    requires IsRun(cfg, states, steps) && i < |states|
    requires forall h | 0 <= h < |steps| :: ClaimsHeldJob(states[h], steps[h])
    ensures states[i].row.status == Processing ==> JobHeld(states[i])
  {
    if i > 0 {
      ProcessingIsHeld(cfg, states, steps, i - 1);
      RunKeepsUndecided(cfg, states, steps, i - 1);
      HeldStep(cfg, states[i - 1], steps[i - 1]);
    }
  }

  /** A step that breaks the condition leaves the row PROCESSING without its job. */
  lemma UnheldClaimShows(cfg: Config, m: Message, step: Step)
    requires JobsFit(m) && Enabled(cfg, m, step) && !ClaimsHeldJob(m, step)
    ensures Next(cfg, m, step).row.status == Processing && !JobHeld(Next(cfg, m, step))
  {
  }

  ghost predicate LiveWhileProcessing(m: Message) {
    m.epochs != [] && (m.row.status == Processing ==> JobLive(m))
  }

  /**
   * Every PROCESSING row of a run has a live job exactly when each claim that succeeds is made
   * while the queue holds the current epoch's job with retries left, and the queue does not give up
   * on that job while the row is PROCESSING.
   */
  lemma ProcessingIsLiveIffClaimsHoldJob(cfg: Config, states: seq<Message>, steps: seq<Step>)
    requires IsRun(cfg, states, steps)
    ensures (forall i | 0 <= i < |states| :: LiveWhileProcessing(states[i]))
            <==> (forall i | 0 <= i < |steps| :: ClaimsHeldJob(states[i], steps[i]))
  {
    if forall i | 0 <= i < |steps| :: ClaimsHeldJob(states[i], steps[i]) {
      forall i | 0 <= i < |states| ensures LiveWhileProcessing(states[i]) {
        ProcessingIsHeld(cfg, states, steps, i);
        LiveIffHeld(cfg, states, steps, i);
      }
    } else {
      var i :| 0 <= i < |steps| && !ClaimsHeldJob(states[i], steps[i]);
      RunKeepsUndecided(cfg, states, steps, i);
      UnheldClaimShows(cfg, states[i], steps[i]);
      LiveIffHeld(cfg, states, steps, i + 1);
      assert !LiveWhileProcessing(states[i + 1]);
    }
  }

  /** A claim succeeds only for an execution of the current epoch's job, which still has retries left. */
  predicate ClaimsAsCurrentJob(m: Message, step: Step) {
    && (ClaimSucceeds(m, step) && HasExecution(m, step.execution) ==>
          JobHeld(m) && m.executions[step.execution].job == Current(m))
    && KeepsJobInProcessing(m, step)
  }

  /** The execution is of the current epoch's job. */
  ghost predicate IsOfCurrentJob(m: Message, winner: Option<nat>) {
    m.epochs != [] && winner.Some? && HasExecution(m, winner.value) && m.executions[winner.value].job == Current(m)
  }

  /** While the row is PROCESSING, its job is live, and the claim it is under was made for that job. */
  ghost predicate ClaimedByLiveJob(states: seq<Message>, steps: seq<Step>, i: nat)
    requires i <= |steps| && i < |states|
  {
    LiveWhileProcessing(states[i]) && (states[i].row.status == Processing ==> IsOfCurrentJob(states[i], LastWinner(states, steps, i)))
  }

  lemma WinnerStep(cfg: Config, m: Message, step: Step, winner: Option<nat>)
    requires JobsFit(m) && Enabled(cfg, m, step) && Next(cfg, m, step).row.status == Processing
    requires winner.Some? ==> HasExecution(m, winner.value)
    ensures IsOfCurrentJob(Next(cfg, m, step), winner) <==> IsOfCurrentJob(m, winner)
    ensures ClaimSucceeds(m, step) || m.row.status == Processing
  {
  }

  lemma WinnerKept(cfg: Config, m: Message, step: Step, winner: Option<nat>)
    requires JobsFit(m) && Enabled(cfg, m, step) && ClaimsAsCurrentJob(m, step)
    requires Next(cfg, m, step).row.status == Processing
    requires winner.Some? ==> HasExecution(m, winner.value)
    requires m.row.status == Processing ==> IsOfCurrentJob(m, winner)
    ensures IsOfCurrentJob(Next(cfg, m, step), if ClaimSucceeds(m, step) then Some(step.execution) else winner)
  {
    WinnerStep(cfg, m, step, if ClaimSucceeds(m, step) then Some(step.execution) else winner);
  }

  lemma {:induction false} WinnersJobIsCurrent(cfg: Config, states: seq<Message>, steps: seq<Step>, i: nat)
    requires IsRun(cfg, states, steps) && i < |states| && states[i].row.status == Processing
    requires forall h | 0 <= h < |steps| :: ClaimsAsCurrentJob(states[h], steps[h])
    ensures IsOfCurrentJob(states[i], LastWinner(states, steps, i))
  {
    if i > 0 {
      WinnersExist(cfg, states, steps, i - 1);
      RunKeepsUndecided(cfg, states, steps, i - 1);
      if states[i - 1].row.status == Processing { WinnersJobIsCurrent(cfg, states, steps, i - 1); }
      WinnerKept(cfg, states[i - 1], steps[i - 1], LastWinner(states, steps, i - 1));
    }
  }

  /**
   * Every PROCESSING row of a run has a live job that claimed it exactly when each claim that
   * succeeds is made for the current epoch's job, held by the queue with retries left, and the
   * queue does not give up on that job while the row is PROCESSING.
   */
  lemma ProcessingIsClaimedByLiveJobIff(cfg: Config, states: seq<Message>, steps: seq<Step>)
    requires IsRun(cfg, states, steps)
    ensures (forall i | 0 <= i < |states| :: ClaimedByLiveJob(states, steps, i))
            <==> (forall i | 0 <= i < |steps| :: ClaimsAsCurrentJob(states[i], steps[i]))
  {
    if forall i | 0 <= i < |steps| :: ClaimsAsCurrentJob(states[i], steps[i]) {
      forall i | 0 <= i < |states| ensures ClaimedByLiveJob(states, steps, i) {
        ProcessingIsHeld(cfg, states, steps, i);
        LiveIffHeld(cfg, states, steps, i);
        if states[i].row.status == Processing { WinnersJobIsCurrent(cfg, states, steps, i); }
      }
    } else {
      var i :| 0 <= i < |steps| && !ClaimsAsCurrentJob(states[i], steps[i]);
      var m, step := states[i], steps[i];
      RunKeepsUndecided(cfg, states, steps, i);
      LiveIffHeld(cfg, states, steps, i + 1);
      if !ClaimsHeldJob(m, step) {
        UnheldClaimShows(cfg, m, step);
      } else {
        WinnerStep(cfg, m, step, Some(step.execution));
      }
      assert !ClaimedByLiveJob(states, steps, i + 1);
    }
  }
}
