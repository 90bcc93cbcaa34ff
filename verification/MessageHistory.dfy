// What a message's history says, counted on the steps of its run: its counters count steps, and
// the sent row and the callbacks applied are those of the steps that wrote and applied them.

module MessageHistory {
  import opened SmsMessage
  import opened DeliveryStatus
  import opened DispatchPlan
  import opened MessageMachine

  datatype Counter =
    | Calls | AbortedBeforeCall | AcceptedCalls | LostAccepts | SentWrites | FatalByDispatch | FatalByRestore | DeadLetters

  function ValueOf(counter: Counter, history: History): nat {
    match counter
    case Calls => history.calls
    case AbortedBeforeCall => history.abortedBeforeCall
    case AcceptedCalls => history.accepted
    case LostAccepts => history.lostAccepts
    case SentWrites => history.sentWrites
    case FatalByDispatch => history.fatalByDispatch
    case FatalByRestore => history.fatalByRestore
    case DeadLetters => history.deadLetters
  }

  /** The steps that a counter counts. */
  predicate Counts(counter: Counter, m: Message, step: Step) {
    match counter
    case Calls => step.CallProvider?
    case AbortedBeforeCall => step.Abort? && HasExecution(m, step.execution) && m.executions[step.execution].state.Calling?
    case AcceptedCalls => step.CallProvider? && step.reply.Accept?
    case LostAccepts => step.Abort? && HasExecution(m, step.execution) && m.executions[step.execution].state.Accepted?
    case SentWrites => step.WriteSent?
    case FatalByDispatch => step.WriteFatal? && m.row.status != FatalFailure
    case FatalByRestore => step.Compensate? && step.epoch > 0 && m.row.status != FatalFailure
    case DeadLetters => step.DeadLetter?
  }

  function Counted(counter: Counter, states: seq<Message>, steps: seq<Step>, i: nat): nat
    requires i <= |steps| && i <= |states|
  {
    if i == 0 then 0
    else Counted(counter, states, steps, i - 1) + if Counts(counter, states[i - 1], steps[i - 1]) then 1 else 0
  }

  lemma CounterStep(cfg: Config, m: Message, step: Step, counter: Counter)
    requires Enabled(cfg, m, step)
    ensures ValueOf(counter, Next(cfg, m, step).history)
            == ValueOf(counter, m.history) + if Counts(counter, m, step) then 1 else 0
  {
  }

  /** In any run, each counter is the number of the steps it is for. */
  lemma {:induction false} CountersCountSteps(cfg: Config, states: seq<Message>, steps: seq<Step>, i: nat, counter: Counter)
    requires IsRun(cfg, states, steps) && i < |states|
    ensures ValueOf(counter, states[i].history) == Counted(counter, states, steps, i)
  {
    if i > 0 {
      CountersCountSteps(cfg, states, steps, i - 1, counter);
      CounterStep(cfg, states[i - 1], steps[i - 1], counter);
    }
  }

  /** The row that the last write of SENT left, if there was one. */
  function LastSent(states: seq<Message>, steps: seq<Step>, i: nat): Option<Row>
    requires i <= |steps| && i < |states|
  {
    if i == 0 then None
    else if steps[i - 1].WriteSent? then Some(states[i].row)
    else LastSent(states, steps, i - 1)
  }

  /** The callbacks of the UPDATEs since then, in their order. */
  function AppliedSince(states: seq<Message>, steps: seq<Step>, i: nat): seq<Callback>
    requires i <= |steps| && i < |states|
  {
    if i == 0 || steps[i - 1].WriteSent? then []
    else
      var step, m := steps[i - 1], states[i - 1];
      AppliedSince(states, steps, i - 1)
      + if step.ApplyCallback? && step.delivery < |m.deliveries| && m.deliveries[step.delivery].Found?
        then [m.deliveries[step.delivery].callback] else []
  }

  lemma RecordStep(cfg: Config, m: Message, step: Step)
    requires Enabled(cfg, m, step)
    ensures var after := Next(cfg, m, step);
      && after.history.sentRow == (if step.WriteSent? then Some(after.row) else m.history.sentRow)
      && after.history.applied
         == if step.WriteSent? then [] else m.history.applied + if step.ApplyCallback? then [m.deliveries[step.delivery].callback] else []
  {
  }

  /** In any run, the history holds the row last written SENT and the callbacks applied since. */
  lemma {:induction false} HistoryTellsTheRun(cfg: Config, states: seq<Message>, steps: seq<Step>, i: nat)
    requires IsRun(cfg, states, steps) && i < |states|
    ensures states[i].history.sentRow == LastSent(states, steps, i)
    ensures states[i].history.applied == AppliedSince(states, steps, i)
  {
    if i > 0 {
      HistoryTellsTheRun(cfg, states, steps, i - 1);
      RecordStep(cfg, states[i - 1], steps[i - 1]);
    }
  }

  // ---------------------------------------------------------------- the delivery time

  /** The UPDATE of a DELIVERED report that finds the row at a status it may follow. */
  predicate Delivers(m: Message, step: Step) {
    && step.ApplyCallback? && step.delivery < |m.deliveries| && m.deliveries[step.delivery].Found?
    && m.deliveries[step.delivery].callback.status == SmsStatus.Delivered
    && m.row.status != SmsStatus.Delivered && m.row.status != FatalFailure
  }

  /** The time that the last such report gave. */
  function LastDelivery(states: seq<Message>, steps: seq<Step>, i: nat): Option<Time>
    requires i <= |steps| && i < |states|
  {
    if i == 0 then None
    else if Delivers(states[i - 1], steps[i - 1]) then Some(states[i - 1].deliveries[steps[i - 1].delivery].callback.eventAt)
    else LastDelivery(states, steps, i - 1)
  }

  lemma DeliveryTimeStep(cfg: Config, m: Message, step: Step)
    requires Enabled(cfg, m, step)
    ensures Next(cfg, m, step).row.deliveredAt
            == if Delivers(m, step) then Some(m.deliveries[step.delivery].callback.eventAt) else m.row.deliveredAt
  {
  }

  /**
   * In any run, with no assumption, the row's delivery time is that of the last DELIVERED report
   * applied; no dispatch, requeue or other report ever sets or clears it.
   */
  lemma {:induction false} DeliveryTimeIsReported(cfg: Config, states: seq<Message>, steps: seq<Step>, i: nat)
    requires IsRun(cfg, states, steps) && i < |states|
    ensures states[i].row.deliveredAt == LastDelivery(states, steps, i)
  {
    if i > 0 {
      DeliveryTimeIsReported(cfg, states, steps, i - 1);
      DeliveryTimeStep(cfg, states[i - 1], steps[i - 1]);
    }
  }
}
