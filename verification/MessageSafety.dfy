// What every reachable state of a message satisfies with no assumption on the environment:
// workers may stall and come back, jobs may run twice, processes may die anywhere.

module MessageSafety {
  import opened Numbers
  import opened SmsMessage
  import opened DispatchPlan
  import opened MessageMachine

  // ---------------------------------------------------------------- shape of a reachable state

  /** Jobs belong to epochs; an epoch still publishing has no job yet. */
  ghost predicate EpochsFit(m: Message) {
    && m.epochs != []
    && (forall j | j in m.jobs :: j < |m.epochs|)
    && (forall k | 0 <= k < |m.epochs| ::
          && (m.epochs[k].publisher.Publishing? ==> k !in m.jobs)
          && (m.epochs[k].publisher.Published? ==> k in m.jobs))
  }

  /** Executions belong to jobs. */
  ghost predicate ExecutionsFit(m: Message) {
    forall e | 0 <= e < |m.executions| :: m.executions[e].job in m.jobs
  }

  /** The holder of an active job is an execution of that job. */
  ghost predicate HoldersFit(m: Message) {
    forall j | j in m.jobs && m.jobs[j].Active? ::
      m.jobs[j].holder < |m.executions| && m.executions[m.jobs[j].holder].job == j
  }

  ghost predicate JobsFit(m: Message) {
    EpochsFit(m) && ExecutionsFit(m) && HoldersFit(m)
  }

  ghost predicate CursorsFit(cfg: Config, m: Message) {
    forall e | 0 <= e < |m.executions| ::
      && (m.executions[e].state.Attempting? || m.executions[e].state.Calling? ==>
            m.executions[e].state.at.AtAttempt? && ValidCursor(cfg, m.executions[e].state.at))
  }

  lemma EpochsFitKept(cfg: Config, m: Message, step: Step)
    requires EpochsFit(m) && Enabled(cfg, m, step)
    ensures EpochsFit(Next(cfg, m, step))
  {
  }

  lemma ExecutionsFitKept(cfg: Config, m: Message, step: Step)
    requires ExecutionsFit(m) && Enabled(cfg, m, step)
    ensures ExecutionsFit(Next(cfg, m, step))
  {
  }

  lemma HoldersFitKept(cfg: Config, m: Message, step: Step)
    requires HoldersFit(m) && Enabled(cfg, m, step)
    ensures HoldersFit(Next(cfg, m, step))
  {
  }

  lemma JobsFitKept(cfg: Config, m: Message, step: Step)
    requires JobsFit(m) && Enabled(cfg, m, step)
    ensures JobsFit(Next(cfg, m, step))
  {
    EpochsFitKept(cfg, m, step);
    ExecutionsFitKept(cfg, m, step);
    HoldersFitKept(cfg, m, step);
  }

  lemma CursorsFitKept(cfg: Config, m: Message, step: Step)
    requires CursorsFit(cfg, m) && Enabled(cfg, m, step)
    ensures CursorsFit(cfg, Next(cfg, m, step))
  {
  }

  // ---------------------------------------------------------------- no stranded message

  /**
   * While the row waits for a dispatch, no execution of the current epoch's job has finished
   * with it, so the queue cannot have completed that job.
   */
  ghost predicate CurrentJobUndecided(m: Message)
    requires m.epochs != []
  {
    Claimable(m.row.status) ==> JobIncomplete(m) && NobodyDecided(m)
  }

  predicate JobIncomplete(m: Message)
    requires m.epochs != []
  {
    !m.epochs[Current(m)].publisher.Compensated? && (Current(m) in m.jobs ==> !m.jobs[Current(m)].Completed?)
  }

  ghost predicate NobodyDecided(m: Message)
    requires m.epochs != []
  {
    forall e: nat :: !DecidedBy(m, e)
  }

  /** The queue cannot complete a job that nobody has decided. */
  lemma UndecidedIsNotCompleted(cfg: Config, m: Message, step: Step)
    requires JobsFit(m) && NobodyDecided(m) && Enabled(cfg, m, step)
    ensures step.CompleteJob? ==> step.job != Current(m)
  {
    if step.CompleteJob? { assert !DecidedBy(m, m.jobs[step.job].holder); }
  }

  lemma JobIncompleteKept(cfg: Config, m: Message, step: Step)
    requires EpochsFit(m) && Enabled(cfg, m, step)
    requires Claimable(m.row.status) ==> JobIncomplete(m) && (step.CompleteJob? ==> step.job != Current(m))
    ensures Next(cfg, m, step).epochs != []
    ensures Claimable(Next(cfg, m, step).row.status) ==> JobIncomplete(Next(cfg, m, step))
  {
  }

  /** The execution is of the current job and has finished with it. */
  predicate DecidedBy(m: Message, e: nat)
    requires m.epochs != []
  {
    && HasExecution(m, e) && m.executions[e].job == Current(m)
    && (m.executions[e].state.DeadLettering? || m.executions[e].state.Returned?)
  }

  lemma NotDecidedStep(cfg: Config, m: Message, step: Step, e: nat)
    requires EpochsFit(m) && Enabled(cfg, m, step)
    requires HasExecution(m, e) ==> m.executions[e].job in m.jobs
    requires Claimable(m.row.status) ==> !DecidedBy(m, e)
    ensures Next(cfg, m, step).epochs != []
    ensures Claimable(Next(cfg, m, step).row.status) ==> !DecidedBy(Next(cfg, m, step), e)
  {
  }

  lemma CurrentJobUndecidedKept(cfg: Config, m: Message, step: Step)
    requires JobsFit(m) && CurrentJobUndecided(m) && Enabled(cfg, m, step)
    ensures JobsFit(Next(cfg, m, step)) && CurrentJobUndecided(Next(cfg, m, step))
  {
    JobsFitKept(cfg, m, step);
    if Claimable(m.row.status) { UndecidedIsNotCompleted(cfg, m, step); }
    JobIncompleteKept(cfg, m, step);
    forall e: nat { NotDecidedStep(cfg, m, step, e); }
  }

  /** The publisher of the current epoch has its add, or its compensation, still to do. */
  predicate PublisherPending(m: Message)
    requires m.epochs != []
  {
    m.epochs[Current(m)].publisher.Publishing? || m.epochs[Current(m)].publisher.Compensating?
  }

  /** The queue still holds the current epoch's job, and no execution has finished it. */
  predicate JobLive(m: Message)
    requires m.epochs != []
  {
    && Current(m) in m.jobs
    && (|| m.jobs[Current(m)].Waiting?
        || (&& m.jobs[Current(m)].Active?
            && m.jobs[Current(m)].holder < |m.executions|
            && m.executions[m.jobs[Current(m)].holder].job == Current(m)
            && !m.executions[m.jobs[Current(m)].holder].state.DeadLettering?
            && !m.executions[m.jobs[Current(m)].holder].state.Returned?))
  }

  /** A row that should be dispatched, with nobody left to have it dispatched. */
  predicate Stranded(m: Message)
    requires m.epochs != []
  {
    Claimable(m.row.status) && !PublisherPending(m) && !JobLive(m)
  }

  /** The current job used up its retries, or its publisher died before adding it. */
  predicate Forsaken(m: Message)
    requires m.epochs != []
  {
    || (Current(m) in m.jobs && m.jobs[Current(m)].OutOfRetries?)
    || (Current(m) !in m.jobs && m.epochs[Current(m)].publisher.Abandoned?)
  }

  /** While the row waits for a dispatch, an active current job is held by an execution still at it. */
  lemma HolderIsUndecided(m: Message)
    requires JobsFit(m) && CurrentJobUndecided(m) && Claimable(m.row.status)
    ensures JobLive(m) <==> Current(m) in m.jobs && !m.jobs[Current(m)].OutOfRetries?
  {
    if Current(m) in m.jobs && m.jobs[Current(m)].Active? { assert !DecidedBy(m, m.jobs[Current(m)].holder); }
  }

  /**
   * In every interleaving, a QUEUED or PROCESSING message is stranded exactly when its current
   * job ran out of retries, or the process that opened the epoch died before adding one.
   */
  lemma StrandedIffForsaken(cfg: Config, states: seq<Message>, steps: seq<Step>, i: nat)
    requires IsRun(cfg, states, steps) && i < |states|
    ensures states[i].epochs != []
    ensures Stranded(states[i])
            <==> Claimable(states[i].row.status) && !PublisherPending(states[i]) && Forsaken(states[i])
  {
    RunKeepsUndecided(cfg, states, steps, i);
    if Claimable(states[i].row.status) { HolderIsUndecided(states[i]); }
  }

  /** The queue has the job of the current epoch, and has not given up on it. */
  predicate JobHeld(m: Message) {
    m.epochs != [] && Current(m) in m.jobs && !m.jobs[Current(m)].OutOfRetries?
  }

  /** While a row waits for a dispatch, its job is live exactly when the queue has it and has retries left. */
  lemma LiveIffHeld(cfg: Config, states: seq<Message>, steps: seq<Step>, i: nat)
    requires IsRun(cfg, states, steps) && i < |states|
    ensures states[i].epochs != []
    ensures Claimable(states[i].row.status) ==> (JobLive(states[i]) <==> JobHeld(states[i]))
  {
    RunKeepsUndecided(cfg, states, steps, i);
    if Claimable(states[i].row.status) { HolderIsUndecided(states[i]); }
  }

  lemma {:induction false} RunKeepsUndecided(cfg: Config, states: seq<Message>, steps: seq<Step>, i: nat)
    requires IsRun(cfg, states, steps) && i < |states|
    ensures JobsFit(states[i]) && CursorsFit(cfg, states[i]) && CurrentJobUndecided(states[i])
  {
    if i > 0 {
      RunKeepsUndecided(cfg, states, steps, i - 1);
      CurrentJobUndecidedKept(cfg, states[i - 1], steps[i - 1]);
      CursorsFitKept(cfg, states[i - 1], steps[i - 1]);
    }
  }

  // ---------------------------------------------------------------- receipts

  /** A row that was never handed over, or was given up, names no provider message and no send time. */
  lemma {:induction false} UnsentRowsHaveNoReceipt(cfg: Config, states: seq<Message>, steps: seq<Step>, i: nat)
    requires IsRun(cfg, states, steps) && i < |states|
    ensures UnsentHasNoReceipt(states[i].row)
  {
    if i > 0 {
      UnsentRowsHaveNoReceipt(cfg, states, steps, i - 1);
      ReceiptStep(cfg, states[i - 1], steps[i - 1]);
    }
  }

  lemma ReceiptStep(cfg: Config, m: Message, step: Step)
    requires UnsentHasNoReceipt(m.row) && Enabled(cfg, m, step)
    ensures UnsentHasNoReceipt(Next(cfg, m, step).row)
  {
  }

  /**
   * A row waiting for a dispatch, whether new, claimed or requeued, differs from a new one only
   * in its attempts and, where a stalled worker overwrote a delivery, its deliveredAt.
   */
  ghost predicate LikeNew(row: Row) {
    Claimable(row.status) ==>
      row == NewRow.(status := row.status, attempts := row.attempts, deliveredAt := row.deliveredAt)
  }

  lemma {:induction false} ClaimableRowsAreLikeNew(cfg: Config, states: seq<Message>, steps: seq<Step>, i: nat)
    requires IsRun(cfg, states, steps) && i < |states|
    ensures LikeNew(states[i].row)
  {
    if i > 0 {
      ClaimableRowsAreLikeNew(cfg, states, steps, i - 1);
      LikeNewKept(cfg, states[i - 1], steps[i - 1]);
    }
  }

  lemma LikeNewKept(cfg: Config, m: Message, step: Step)
    requires LikeNew(m.row) && Enabled(cfg, m, step)
    ensures LikeNew(Next(cfg, m, step).row)
  {
  }

  // ---------------------------------------------------------------- attempts

  /** What is counted over the executions of a message. */
  datatype Measure = InCall | InAcceptance | AttemptsCounted

  function Weight(measure: Measure, execution: Execution): nat {
    match measure
    case InCall => if execution.state.Calling? then 1 else 0
    case InAcceptance => if execution.state.Accepted? then 1 else 0
    case AttemptsCounted => execution.counted
  }

  function Tally(measure: Measure, executions: seq<Execution>): nat {
    if executions == [] then 0
    else Tally(measure, executions[..|executions| - 1]) + Weight(measure, executions[|executions| - 1])
  }

  lemma {:induction false} TallyUpdate(measure: Measure, executions: seq<Execution>, e: nat, execution: Execution)
    requires e < |executions|
    ensures Tally(measure, executions[e := execution])
            == Tally(measure, executions) - Weight(measure, executions[e]) + Weight(measure, execution)
  {
    var n := |executions| - 1;
    var updated := executions[e := execution];
    if e == n {
      assert updated[..n] == executions[..n];
    } else {
      TallyUpdate(measure, executions[..n], e, execution);
      assert updated[..n] == executions[..n][e := execution];
    }
  }

  lemma TallyAppend(measure: Measure, executions: seq<Execution>, execution: Execution)
    ensures Tally(measure, executions + [execution]) == Tally(measure, executions) + Weight(measure, execution)
  {
    assert (executions + [execution])[..|executions|] == executions;
  }

  /** The execution a step belongs to, if it is a dispatch step of an existing one. */
  function Actor(step: Step): Option<nat> {
    match step
    case ReadRow(e) => Some(e)
    case ClaimRow(e) => Some(e)
    case CountAttempt(e) => Some(e)
    case CallProvider(e, _) => Some(e)
    case WriteSent(e, _) => Some(e)
    case WriteFatal(e, _) => Some(e)
    case DeadLetter(e) => Some(e)
    case Abort(e) => Some(e)
    case _ => None
  }

  /** What one step does to a tally: only the acting execution's weight changes. */
  lemma TallyStep(cfg: Config, m: Message, step: Step, measure: Measure)
    requires Enabled(cfg, m, step)
    ensures var after := Next(cfg, m, step).executions;
      match Actor(step)
      case None => Tally(measure, after) == Tally(measure, m.executions)
      case Some(e) =>
        && e < |m.executions| && |after| == |m.executions|
        && Tally(measure, after)
             == Tally(measure, m.executions) - Weight(measure, m.executions[e]) + Weight(measure, after[e])
  {
    var after := Next(cfg, m, step).executions;
    if Actor(step).Some? {
      var e := Actor(step).value;
      TallyUpdate(measure, m.executions, e, after[e]);
      assert after == m.executions[e := after[e]];
    } else if step.Deliver? {
      TallyAppend(measure, m.executions, Execution(step.job, Reading, 0));
    }
  }

  /**
   * Attempts are conserved: each is a provider call made, an execution now between counting it
   * and calling, or one that ended there.
   */
  ghost predicate AttemptsConserved(m: Message) {
    && m.row.attempts == m.history.calls + Tally(InCall, m.executions) + m.history.abortedBeforeCall
    && m.row.attempts == Tally(AttemptsCounted, m.executions)
  }

  lemma AttemptsConservedKept(cfg: Config, m: Message, step: Step)
    requires AttemptsConserved(m) && Enabled(cfg, m, step)
    ensures AttemptsConserved(Next(cfg, m, step))
    ensures m.row.attempts <= Next(cfg, m, step).row.attempts
    ensures !step.CountAttempt? ==> Next(cfg, m, step).row.attempts == m.row.attempts
  {
    TallyStep(cfg, m, step, InCall);
    TallyStep(cfg, m, step, AttemptsCounted);
  }

  /** An execution has counted no more attempts than its place in the plan allows. */
  ghost predicate CountedWithinPlan(cfg: Config, execution: Execution) {
    match execution.state
    case Attempting(c) => ValidCursor(cfg, c) && execution.counted <= CallsBefore(cfg, c)
    case Calling(c) => c.AtAttempt? && ValidCursor(cfg, c) && execution.counted <= CallsBefore(cfg, c) + 1
    case Reading => execution.counted == 0
    case Claiming => execution.counted == 0
    case _ => execution.counted <= |cfg.providers| * cfg.maxRetries
  }

  ghost predicate AllCountedWithinPlan(cfg: Config, m: Message) {
    forall e | 0 <= e < |m.executions| :: CountedWithinPlan(cfg, m.executions[e])
  }

  lemma CountedWithinTotal(cfg: Config, execution: Execution)
    requires CountedWithinPlan(cfg, execution)
    ensures execution.counted <= |cfg.providers| * cfg.maxRetries
  {
    match execution.state
    case Attempting(c) => if c.AtAttempt? { CursorAdvances(cfg, c, Failure("", false, 0)); }
    case Calling(c) => CursorAdvances(cfg, c, Failure("", false, 0));
    case _ => MultiplyMonotone(0, |cfg.providers|, cfg.maxRetries);
  }

  lemma CountedWithinPlanKept(cfg: Config, m: Message, step: Step)
    requires CursorsFit(cfg, m) && AllCountedWithinPlan(cfg, m) && Enabled(cfg, m, step)
    ensures AllCountedWithinPlan(cfg, Next(cfg, m, step))
  {
    var after := Next(cfg, m, step).executions;
    forall e | 0 <= e < |after| ensures CountedWithinPlan(cfg, after[e]) {
      if e < |m.executions| && Actor(step) == Some(e) {
        CountedWithinTotal(cfg, m.executions[e]);
        if step.CallProvider? && !step.reply.Accept? {
          var at := m.executions[e].state.at;
          CursorAdvances(cfg, at, NormalizeFailure(cfg.providers[at.provider], step.reply));
        }
      }
    }
  }

  lemma {:induction false} TallyBound(cfg: Config, executions: seq<Execution>)
    requires forall e | 0 <= e < |executions| :: CountedWithinPlan(cfg, executions[e])
    ensures Tally(AttemptsCounted, executions) <= |executions| * (|cfg.providers| * cfg.maxRetries)
  {
    if executions != [] {
      var n := |executions| - 1;
      TallyBound(cfg, executions[..n]);
      CountedWithinTotal(cfg, executions[n]);
      var each := |cfg.providers| * cfg.maxRetries;
      assert (n + 1) * each == n * each + each;
    }
  }

  /**
   * In every interleaving: attempts are conserved, never more than the plan allows the
   * executions so far, and never taken back, not even by a requeue.
   */
  lemma {:induction false} AttemptsOverRuns(cfg: Config, states: seq<Message>, steps: seq<Step>, i: nat)
    requires IsRun(cfg, states, steps) && i < |states|
    ensures AttemptsConserved(states[i]) && AllCountedWithinPlan(cfg, states[i])
    ensures states[i].row.attempts <= |states[i].executions| * (|cfg.providers| * cfg.maxRetries)
    ensures forall h | 0 <= h <= i :: states[h].row.attempts <= states[i].row.attempts
  {
    if i > 0 {
      AttemptsOverRuns(cfg, states, steps, i - 1);
      RunKeepsUndecided(cfg, states, steps, i - 1);
      AttemptsConservedKept(cfg, states[i - 1], steps[i - 1]);
      CountedWithinPlanKept(cfg, states[i - 1], steps[i - 1]);
    }
    TallyBound(cfg, states[i].executions);
  }

  // ---------------------------------------------------------------- requeues

  /** How many requeue epochs have their publisher in the given state. */
  function Requeued(epochs: seq<Epoch>, publisher: Publisher): nat {
    if |epochs| <= 1 then 0
    else Requeued(epochs[..|epochs| - 1], publisher)
         + if epochs[|epochs| - 1].publisher == publisher then 1 else 0
  }

  lemma {:induction false} RequeuedUpdate(epochs: seq<Epoch>, k: nat, epoch: Epoch, publisher: Publisher)
    requires k < |epochs|
    ensures Requeued(epochs[k := epoch], publisher)
            == Requeued(epochs, publisher)
               + (if k > 0 && epoch.publisher == publisher then 1 else 0)
               - (if k > 0 && epochs[k].publisher == publisher then 1 else 0)
  {
    var n := |epochs| - 1;
    var updated := epochs[k := epoch];
    if n > 0 {
      if k == n {
        assert updated[..n] == epochs[..n];
      } else {
        RequeuedUpdate(epochs[..n], k, epoch, publisher);
        assert updated[..n] == epochs[..n][k := epoch];
      }
    }
  }

  lemma {:induction false} PublishersPartition(epochs: seq<Epoch>)
    requires epochs != []
    ensures |epochs| - 1 == Requeued(epochs, Published) + Requeued(epochs, Compensated)
                            + Requeued(epochs, Publishing) + Requeued(epochs, Compensating)
                            + Requeued(epochs, Abandoned)
  {
    if |epochs| > 1 { PublishersPartition(epochs[..|epochs| - 1]); }
  }

  /**
   * Each requeue leaves FATAL_FAILURE once, so requeues never outnumber the entries into it; and
   * a restore enters it at most once for each requeue it undoes.
   */
  ghost predicate RequeuesPaidFor(m: Message) {
    && m.epochs != []
    && |m.epochs| - 1 + (if m.row.status == FatalFailure then 1 else 0)
         <= m.history.fatalByDispatch + m.history.fatalByRestore
    && m.history.fatalByRestore <= Requeued(m.epochs, Compensated)
  }

  /** How a publisher ends in this step, if it does. */
  function EndsAs(step: Step): Option<Publisher> {
    match step
    case Publish(_) => Some(Published)
    case Compensate(_, _, _) => Some(Compensated)
    case Abandon(_) => Some(Publisher.Abandoned)
    case _ => None
  }

  /** The epochs after a step: one publisher moved on, or one epoch opened, or none of it. */
  lemma EpochsStep(cfg: Config, m: Message, step: Step)
    requires Enabled(cfg, m, step)
    ensures var after := Next(cfg, m, step).epochs;
      if EndsAs(step).Some? then
        step.epoch < |m.epochs| && after == m.epochs[step.epoch := m.epochs[step.epoch].(publisher := EndsAs(step).value)]
        && Pending(m.epochs[step.epoch].publisher)
      else if step.FailPublish? then
        step.epoch < |m.epochs| && after == m.epochs[step.epoch := m.epochs[step.epoch].(publisher := Compensating)]
        && Pending(m.epochs[step.epoch].publisher)
      else if step.TransitionRequeue? && m.row.status == FatalFailure then
        |after| == |m.epochs| + 1 && after[..|m.epochs|] == m.epochs && after[|m.epochs|].publisher.Publishing?
      else after == m.epochs
  {
  }

  /** The publisher has something left to do. */
  predicate Pending(publisher: Publisher) {
    publisher.Publishing? || publisher.Compensating?
  }

  lemma RequeuedStep(cfg: Config, m: Message, step: Step, publisher: Publisher)
    requires m.epochs != [] && Enabled(cfg, m, step) && !Pending(publisher)
    ensures Requeued(Next(cfg, m, step).epochs, publisher)
            == Requeued(m.epochs, publisher) + if EndsAs(step) == Some(publisher) && step.epoch > 0 then 1 else 0
  {
    EpochsStep(cfg, m, step);
    if EndsAs(step).Some? {
      RequeuedUpdate(m.epochs, step.epoch, m.epochs[step.epoch].(publisher := EndsAs(step).value), publisher);
    } else if step.FailPublish? {
      RequeuedUpdate(m.epochs, step.epoch, m.epochs[step.epoch].(publisher := Compensating), publisher);
    }
  }

  lemma RequeuesPaidForKept(cfg: Config, m: Message, step: Step)
    requires RequeuesPaidFor(m) && Enabled(cfg, m, step)
    ensures RequeuesPaidFor(Next(cfg, m, step))
  {
    RequeuedStep(cfg, m, step, Compensated);
  }

  /**
   * Over any run: requeues never exceed the entries into FATAL_FAILURE, and those not undone,
   * whether published, pending or abandoned, never exceed the failures of a dispatch.  One fatal
   * failure yields at most one lasting requeue.
   */
  lemma {:induction false} RequeuesConserved(cfg: Config, states: seq<Message>, steps: seq<Step>, i: nat)
    requires IsRun(cfg, states, steps) && i < |states|
    ensures RequeuesPaidFor(states[i])
    ensures var m := states[i];
      && |m.epochs| - 1 <= m.history.fatalByDispatch + m.history.fatalByRestore
      && Requeued(m.epochs, Published) + Requeued(m.epochs, Publishing) + Requeued(m.epochs, Compensating)
           + Requeued(m.epochs, Abandoned) <= m.history.fatalByDispatch
  {
    if i > 0 {
      RequeuesConserved(cfg, states, steps, i - 1);
      RequeuesPaidForKept(cfg, states[i - 1], steps[i - 1]);
    }
    PublishersPartition(states[i].epochs);
  }

  // ---------------------------------------------------------------- requeues, step by step

  datatype RequeueEvent = RowRequeued | JobPublished | RowRestored | PublisherLost | AddReachedQueue

  predicate IsEvent(event: RequeueEvent, m: Message, step: Step) {
    match event
    case RowRequeued => step.TransitionRequeue? && m.row.status == FatalFailure
    case JobPublished => step.Publish? && step.epoch > 0
    case RowRestored => step.Compensate? && step.epoch > 0
    case PublisherLost => step.Abandon? && step.epoch > 0
    case AddReachedQueue => step.FailPublish? && step.epoch > 0 && step.addedAnyway
  }

  /** How often it happened in the first `i` steps. */
  function Happened(event: RequeueEvent, states: seq<Message>, steps: seq<Step>, i: nat): nat
    requires i <= |steps| && i <= |states|
  {
    if i == 0 then 0
    else Happened(event, states, steps, i - 1) + if IsEvent(event, states[i - 1], steps[i - 1]) then 1 else 0
  }

  /** The publisher that this event leaves behind. */
  function Ending(event: RequeueEvent): Option<Publisher> {
    match event
    case JobPublished => Some(Published)
    case RowRestored => Some(Compensated)
    case PublisherLost => Some(Publisher.Abandoned)
    case _ => None
  }

  lemma {:induction false} EndingsAreCounted(cfg: Config, states: seq<Message>, steps: seq<Step>, i: nat, event: RequeueEvent)
    requires IsRun(cfg, states, steps) && i < |states| && Ending(event).Some?
    ensures Happened(event, states, steps, i) == Requeued(states[i].epochs, Ending(event).value)
  {
    if i > 0 {
      EndingsAreCounted(cfg, states, steps, i - 1, event);
      RunKeepsUndecided(cfg, states, steps, i - 1);
      RequeuedStep(cfg, states[i - 1], steps[i - 1], Ending(event).value);
    }
  }

  lemma {:induction false} TransitionsAreCounted(cfg: Config, states: seq<Message>, steps: seq<Step>, i: nat)
    requires IsRun(cfg, states, steps) && i < |states|
    ensures |states[i].epochs| == Happened(RowRequeued, states, steps, i) + 1
  {
    if i > 0 { TransitionsAreCounted(cfg, states, steps, i - 1); }
  }

  function RequeueJobs(m: Message): set<nat> {
    m.jobs.Keys - {0}
  }

  predicate AddsJob(step: Step) {
    step.Publish? || (step.FailPublish? && step.addedAnyway)
  }

  lemma JobKeysStep(cfg: Config, m: Message, step: Step)
    requires EpochsFit(m) && Enabled(cfg, m, step)
    ensures AddsJob(step) ==> step.epoch !in m.jobs
    ensures AddsJob(step) ==> Next(cfg, m, step).jobs.Keys == m.jobs.Keys + {step.epoch}
    ensures !AddsJob(step) ==> Next(cfg, m, step).jobs.Keys == m.jobs.Keys
  {
  }

  lemma CountsKept(cfg: Config, m: Message, step: Step, published: nat, reached: nat)
    requires EpochsFit(m) && Enabled(cfg, m, step) && |RequeueJobs(m)| == published + reached
    ensures |RequeueJobs(Next(cfg, m, step))|
            == published + (if IsEvent(JobPublished, m, step) then 1 else 0)
               + reached + (if IsEvent(AddReachedQueue, m, step) then 1 else 0)
  {
    RequeueJobsStep(cfg, m, step);
  }

  lemma {:induction false} JobsAreCounted(cfg: Config, states: seq<Message>, steps: seq<Step>, i: nat)
    requires IsRun(cfg, states, steps) && i < |states|
    ensures |RequeueJobs(states[i])| == Happened(JobPublished, states, steps, i) + Happened(AddReachedQueue, states, steps, i)
  {
    if i == 0 {
      assert RequeueJobs(NewMessage) == {};
    } else {
      var published, reached := Happened(JobPublished, states, steps, i - 1), Happened(AddReachedQueue, states, steps, i - 1);
      JobsAreCounted(cfg, states, steps, i - 1);
      assert EpochsFit(states[i - 1]) by { RunKeepsUndecided(cfg, states, steps, i - 1); }
      CountsKept(cfg, states[i - 1], steps[i - 1], published, reached);
    }
  }

  lemma RequeueJobsStep(cfg: Config, m: Message, step: Step)
    requires EpochsFit(m) && Enabled(cfg, m, step)
    ensures |RequeueJobs(Next(cfg, m, step))|
            == |RequeueJobs(m)| + if IsEvent(JobPublished, m, step) || IsEvent(AddReachedQueue, m, step) then 1 else 0
  {
    JobKeysStep(cfg, m, step);
    RequeueJobsGrow(m, Next(cfg, m, step), step);
  }

  lemma RequeueJobsGrow(m: Message, after: Message, step: Step)
    requires AddsJob(step) ==> step.epoch !in m.jobs && after.jobs.Keys == m.jobs.Keys + {step.epoch}
    requires !AddsJob(step) ==> after.jobs.Keys == m.jobs.Keys
    ensures |RequeueJobs(after)|
            == |RequeueJobs(m)| + if IsEvent(JobPublished, m, step) || IsEvent(AddReachedQueue, m, step) then 1 else 0
  {
    OneMoreJob(m.jobs.Keys, after.jobs.Keys, AddsJob(step), if AddsJob(step) then step.epoch else 0);
  }

  lemma OneMoreJob(before: set<nat>, after: set<nat>, added: bool, k: nat)
    requires if added then k !in before && after == before + {k} else after == before
    ensures |after - {0}| == |before - {0}| + if added && k > 0 then 1 else 0
  {
    assert after - {0} == if added && k > 0 then (before - {0}) + {k} else before - {0};
  }

  /**
   * Over any run: the transitions from FATAL_FAILURE to QUEUED are the requeue jobs published, the
   * failures restored, the publishers lost with their process and those still pending.  The queue
   * holds the jobs published and those of adds that failed after reaching it, and no more of them
   * than dispatches have failed the message, but for these late adds.
   */
  lemma RequeuesAddUp(cfg: Config, states: seq<Message>, steps: seq<Step>, i: nat)
    requires IsRun(cfg, states, steps) && i < |states|
    ensures Happened(RowRequeued, states, steps, i)
            == Happened(JobPublished, states, steps, i) + Happened(RowRestored, states, steps, i)
               + Happened(PublisherLost, states, steps, i)
               + Requeued(states[i].epochs, Publishing) + Requeued(states[i].epochs, Compensating)
    ensures |RequeueJobs(states[i])| == Happened(JobPublished, states, steps, i) + Happened(AddReachedQueue, states, steps, i)
    ensures |RequeueJobs(states[i])| <= states[i].history.fatalByDispatch + Happened(AddReachedQueue, states, steps, i)
  {
    EndingsAreCounted(cfg, states, steps, i, JobPublished);
    EndingsAreCounted(cfg, states, steps, i, RowRestored);
    EndingsAreCounted(cfg, states, steps, i, PublisherLost);
    TransitionsAreCounted(cfg, states, steps, i);
    JobsAreCounted(cfg, states, steps, i);
    PublishersPartition(states[i].epochs);
    RequeuesConserved(cfg, states, steps, i);
  }
}
