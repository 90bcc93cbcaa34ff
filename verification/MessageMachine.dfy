// One SMS message and everything that acts on it, as a transition system.
//
// A state holds the stored row, the queue jobs for the message and the progress of every actor:
// the publisher of each epoch, dispatch executions, admin requeues and delivery callbacks.  Each
// step is one atomic database, queue or provider operation of one actor, so a run of steps is any
// interleaving of them, with crashes, lost locks and redeliveries wherever they can happen.
//
// An epoch begins when the row becomes QUEUED: at its insertion, and at each admin requeue.  The
// actor that made it QUEUED publishes one job, known by the number of the epoch.

module MessageMachine {
  import opened SmsMessage
  import opened DeliveryStatus
  import opened DispatchPlan

  /** What the request that opened an epoch has done since. */
  datatype Publisher =
    | Publishing     // about to add the job
    | Compensating   // the add failed; about to write the row back
    | Published
    | Compensated
    | Abandoned      // its process died, or the compensating write failed

  /** `found` is the row as the requeue request read it; unused for the first epoch. */
  datatype Epoch = Epoch(publisher: Publisher, found: Row)

  datatype Job =
    | Waiting
    | Active(holder: nat)  // the execution the queue believes to be running it
    | Completed
    | OutOfRetries

  datatype ExecutionState =
    | Reading
    | Claiming
    | Attempting(at: Cursor)                                             // about to count an attempt
    | Calling(at: Cursor)                                                // counted, call not made
    | Accepted(provider: string, providerMessageId: Option<string>)      // about to write SENT
    | Failing(lastProvider: string, lastError: string)                   // about to write FATAL_FAILURE
    | DeadLettering
    | Returned
    | Aborted                                                            // threw, or its process died

  datatype Execution = Execution(job: nat, state: ExecutionState, counted: nat)

  /** An admin requeue that found the message eligible. */
  datatype Requeue = Eligible(found: Row) | Transitioned | Rejected

  /** A delivery callback that found this message by its provider message id. */
  datatype Delivery = Found(callback: Callback) | Applied

  /** What has happened so far; no step's effect on the other fields depends on it. */
  datatype History = History(
    calls: nat,              // provider calls made
    abortedBeforeCall: nat,  // executions that ended between counting an attempt and the call
    accepted: nat,           // calls the provider accepted
    lostAccepts: nat,        // executions that ended between an acceptance and writing SENT
    sentWrites: nat,         // SENT written by a dispatch
    fatalByDispatch: nat,    // entries into FATAL_FAILURE made by a dispatch
    fatalByRestore: nat,     // entries into FATAL_FAILURE made by a restore
    deadLetters: nat,        // jobs added to the dead letter queue
    sentRow: Option<Row>,    // the row as the latest dispatch wrote it SENT
    applied: seq<Callback>)  // callbacks in the order of their UPDATEs

  datatype Message = Message(
    row: Row,
    epochs: seq<Epoch>,
    jobs: map<nat, Job>,
    executions: seq<Execution>,
    requeues: seq<Requeue>,
    deliveries: seq<Delivery>,
    history: History)

  const NoHistory := History(0, 0, 0, 0, 0, 0, 0, 0, None, [])

  /** Just inserted: the request that inserted it has yet to publish its job. */
  const NewMessage := Message(NewRow, [Epoch(Publishing, NewRow)], map[], [], [], [], NoHistory)

  datatype Step =
    | Publish(epoch: nat)
    | FailPublish(epoch: nat, addedAnyway: bool)  // the add threw, maybe after reaching the queue
    | Compensate(epoch: nat, error: string, now: Time)
    | Abandon(epoch: nat)
    | Deliver(job: nat)                           // the queue starts an execution of the job
    | Redeliver(job: nat)                         // retry, or the holder is considered gone
    | ExhaustJob(job: nat)                        // the same, with no retry left
    | CompleteJob(job: nat)
    | ReadRow(execution: nat)
    | ClaimRow(execution: nat)
    | CountAttempt(execution: nat)
    | CallProvider(execution: nat, reply: ProviderReply)
    | WriteSent(execution: nat, now: Time)
    | WriteFatal(execution: nat, now: Time)
    | DeadLetter(execution: nat)
    | Abort(execution: nat)
    | FindForRequeue
    | TransitionRequeue(requeue: nat)
    | FindForCallback(provider: string, providerMessageId: string, callback: Callback)
    | ApplyCallback(delivery: nat)

  /** Between its claim and its final write. */
  predicate Dispatching(state: ExecutionState) {
    state.Attempting? || state.Calling? || state.Accepted? || state.Failing?
  }

  predicate Ended(state: ExecutionState) {
    state.Returned? || state.Aborted?
  }

  function Current(m: Message): nat
    requires m.epochs != []
  {
    |m.epochs| - 1
  }

  predicate HasExecution(m: Message, e: nat) {
    e < |m.executions|
  }

  predicate Enabled(cfg: Config, m: Message, step: Step) {
    match step
    case Publish(k) => k < |m.epochs| && m.epochs[k].publisher.Publishing?
    case FailPublish(k, _) => k < |m.epochs| && m.epochs[k].publisher.Publishing?
    case Compensate(k, _, _) => k < |m.epochs| && m.epochs[k].publisher.Compensating?
    case Abandon(k) => k < |m.epochs| && (m.epochs[k].publisher.Publishing? || m.epochs[k].publisher.Compensating?)
    case Deliver(j) => j in m.jobs && m.jobs[j].Waiting?
    case Redeliver(j) => j in m.jobs && m.jobs[j].Active?
    case ExhaustJob(j) => j in m.jobs && m.jobs[j].Active?
    case CompleteJob(j) =>
      && j in m.jobs && m.jobs[j].Active?
      && m.jobs[j].holder < |m.executions| && m.executions[m.jobs[j].holder].state.Returned?
    case ReadRow(e) => HasExecution(m, e) && m.executions[e].state.Reading?
    case ClaimRow(e) => HasExecution(m, e) && m.executions[e].state.Claiming?
    case CountAttempt(e) => HasExecution(m, e) && m.executions[e].state.Attempting?
    case CallProvider(e, _) =>
      && HasExecution(m, e) && m.executions[e].state.Calling?
      && m.executions[e].state.at.AtAttempt? && ValidCursor(cfg, m.executions[e].state.at)
    case WriteSent(e, _) => HasExecution(m, e) && m.executions[e].state.Accepted?
    case WriteFatal(e, _) => HasExecution(m, e) && m.executions[e].state.Failing?
    case DeadLetter(e) => HasExecution(m, e) && m.executions[e].state.DeadLettering?
    case Abort(e) => HasExecution(m, e) && !Ended(m.executions[e].state)
    case FindForRequeue => m.row.status == FatalFailure
    case TransitionRequeue(r) => r < |m.requeues| && m.requeues[r].Eligible?
    case FindForCallback(provider, id, callback) =>
      m.row.selectedProvider == Some(provider) && m.row.providerMessageId == Some(id) && callback.Valid()
    case ApplyCallback(d) => d < |m.deliveries| && m.deliveries[d].Found?
  }

  function SetPublisher(m: Message, k: nat, publisher: Publisher): Message
    requires k < |m.epochs|
  {
    m.(epochs := m.epochs[k := m.epochs[k].(publisher := publisher)])
  }

  function SetExecution(m: Message, e: nat, state: ExecutionState): Message
    requires HasExecution(m, e)
  {
    m.(executions := m.executions[e := m.executions[e].(state := state)])
  }

  /** Where an execution goes when it stands at cursor `c`. */
  function StateAt(c: Cursor): ExecutionState {
    match c
    case AtAttempt(_, _) => Attempting(c)
    case OutOfProviders(provider, error) => Failing(provider, error)
  }

  function Compensation(m: Message, k: nat, error: string, now: Time): Row
    requires k < |m.epochs|
  {
    if k == 0 then MarkQueuePublishFailed(m.row, now)
    else RestoreFatalFailure(m.row, m.epochs[k].found, error, now)
  }

  function Next(cfg: Config, m: Message, step: Step): Message
    requires Enabled(cfg, m, step)
  {
    match step
    case Publish(k) => SetPublisher(m, k, Published).(jobs := m.jobs[k := Waiting])
    case FailPublish(k, addedAnyway) =>
      SetPublisher(m, k, Compensating).(jobs := if addedAnyway then m.jobs[k := Waiting] else m.jobs)
    case Compensate(k, error, now) =>
      var row := Compensation(m, k, error, now);
      var entered := if m.row.status != FatalFailure && row.status == FatalFailure then 1 else 0;
      SetPublisher(m, k, Compensated).(
        row := row, history := m.history.(fatalByRestore := m.history.fatalByRestore + entered))
    case Abandon(k) => SetPublisher(m, k, Abandoned)
    case Deliver(j) =>
      m.(jobs := m.jobs[j := Active(|m.executions|)], executions := m.executions + [Execution(j, Reading, 0)])
    case Redeliver(j) => m.(jobs := m.jobs[j := Waiting])
    case ExhaustJob(j) => m.(jobs := m.jobs[j := OutOfRetries])
    case CompleteJob(j) => m.(jobs := m.jobs[j := Completed])
    case ReadRow(e) => SetExecution(m, e, if Claimable(m.row.status) then Claiming else Returned)
    case ClaimRow(e) =>
      if Claimable(m.row.status) then
        SetExecution(m, e, StateAt(FirstCursor(cfg))).(row := MarkProcessing(m.row))
      else
        SetExecution(m, e, Returned)
    case CountAttempt(e) =>
      var execution := m.executions[e];
      m.(row := IncrementAttempts(m.row),
         executions := m.executions[e := Execution(execution.job, Calling(execution.state.at), execution.counted + 1)])
    case CallProvider(e, reply) => AfterCall(cfg, m, e, reply)
    case WriteSent(e, now) =>
      var state := m.executions[e].state;
      var row := MarkSent(m.row, state.provider, state.providerMessageId, now);
      SetExecution(m, e, Returned).(
        row := row,
        history := m.history.(sentWrites := m.history.sentWrites + 1, sentRow := Some(row), applied := []))
    case WriteFatal(e, now) =>
      var state := m.executions[e].state;
      var entered := if m.row.status != FatalFailure then 1 else 0;
      SetExecution(m, e, DeadLettering).(
        row := MarkFatalFailure(m.row, state.lastProvider, state.lastError, now),
        history := m.history.(fatalByDispatch := m.history.fatalByDispatch + entered))
    case DeadLetter(e) =>
      SetExecution(m, e, Returned).(history := m.history.(deadLetters := m.history.deadLetters + 1))
    case Abort(e) =>
      var state := m.executions[e].state;
      SetExecution(m, e, Aborted).(history := m.history.(
        abortedBeforeCall := m.history.abortedBeforeCall + if state.Calling? then 1 else 0,
        lostAccepts := m.history.lostAccepts + if state.Accepted? then 1 else 0))
    case FindForRequeue => m.(requeues := m.requeues + [Eligible(m.row)])
    case TransitionRequeue(r) =>
      if m.row.status == FatalFailure then
        m.(row := TransitionFatalFailureToQueued(m.row),
           epochs := m.epochs + [Epoch(Publishing, m.requeues[r].found)],
           requeues := m.requeues[r := Transitioned])
      else
        m.(requeues := m.requeues[r := Requeue.Rejected])
    case FindForCallback(_, _, callback) => m.(deliveries := m.deliveries + [Found(callback)])
    case ApplyCallback(d) =>
      var callback := m.deliveries[d].callback;
      m.(row := Apply(m.row, callback),
         deliveries := m.deliveries[d := Applied],
         history := m.history.(applied := m.history.applied + [callback]))
  }

  function AfterCall(cfg: Config, m: Message, e: nat, reply: ProviderReply): Message
    requires HasExecution(m, e) && m.executions[e].state.Calling?
    requires m.executions[e].state.at.AtAttempt? && ValidCursor(cfg, m.executions[e].state.at)
  {
    var at := m.executions[e].state.at;
    var provider := cfg.providers[at.provider];
    var called := m.history.(calls := m.history.calls + 1);
    if reply.Accept? then
      SetExecution(m, e, Accepted(provider, reply.providerMessageId)).(
        history := called.(accepted := m.history.accepted + 1))
    else
      SetExecution(m, e, StateAt(AfterFailure(cfg, at, NormalizeFailure(provider, reply)))).(history := called)
  }

  // ---------------------------------------------------------------- runs

  /** `states` is the run that takes `steps`, one after the other, from a new message. */
  ghost predicate IsRun(cfg: Config, states: seq<Message>, steps: seq<Step>) {
    && |states| == |steps| + 1
    && states[0] == NewMessage
    && forall i | 0 <= i < |steps| :: Enabled(cfg, states[i], steps[i]) && states[i + 1] == Next(cfg, states[i], steps[i])
  }

  // ---------------------------------------------------------------- environment assumptions

  /** Claims succeed when they find a claimable row. */
  predicate ClaimSucceeds(m: Message, step: Step) {
    step.ClaimRow? && Claimable(m.row.status)
  }

  /** E1: a claim succeeds only while no execution is between its claim and its final write. */
  predicate ClaimsAlone(m: Message, step: Step) {
    ClaimSucceeds(m, step) ==>
      forall e | 0 <= e < |m.executions| :: !Dispatching(m.executions[e].state)
  }

  /** E2: when a publish fails, no execution claims the row from the epoch's start to the compensation. */
  predicate FailedPublishUnclaimed(m: Message, step: Step) {
    && (step.FailPublish? ==> step.epoch == |m.epochs| - 1 && m.row.status == Queued)
    && (ClaimSucceeds(m, step) ==>
          forall k | 0 <= k < |m.epochs| :: !m.epochs[k].publisher.Compensating?)
  }

  /** Every step of the run respects E1 and E2. */
  ghost predicate Exclusive(states: seq<Message>, steps: seq<Step>) {
    && |states| == |steps| + 1
    && forall i | 0 <= i < |steps| ::
         ClaimsAlone(states[i], steps[i]) && FailedPublishUnclaimed(states[i], steps[i])
  }
}
