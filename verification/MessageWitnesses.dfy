// Runs that show which claims fail without the environment assumptions, and why a message may
// end up stranded.  Each lemma ends in the state its name describes, reached by the run it gives.

module MessageWitnesses {
  import opened SmsMessage
  import opened DispatchPlan
  import opened MessageMachine
  import opened MessageSafety
  import opened MessageDeliveries

  /** One provider, one attempt. */
  const Single := Config(["twilio"], 1)

  const Refusal := Refuse(Some("refused"), false, None)

  /** The environment assumptions a run keeps all along. */
  datatype Assumption = Nothing | E1 | E2 | Both

  predicate Keeps(assumption: Assumption, m: Message, step: Step) {
    match assumption
    case Nothing => true
    case E1 => ClaimsAlone(m, step)
    case E2 => FailedPublishUnclaimed(m, step)
    case Both => ClaimsAlone(m, step) && FailedPublishUnclaimed(m, step)
  }

  /** A run, as the list of its steps from the last to the first. */
  datatype Trace = Start | Then(before: Trace, step: Step)

  /** The message at the end of the trace, if every step of it is enabled and keeps the assumption. */
  function End(assumption: Assumption, trace: Trace): Option<Message> {
    match trace
    case Start => Some(NewMessage)
    case Then(before, step) =>
      var m := End(assumption, before);
      if m.Some? && Enabled(Single, m.value, step) && Keeps(assumption, m.value, step)
      then Some(Next(Single, m.value, step)) else None
  }

  lemma Take(assumption: Assumption, trace: Trace, m: Message, step: Step) returns (trace': Trace, m': Message)
    requires End(assumption, trace) == Some(m) && Enabled(Single, m, step) && Keeps(assumption, m, step)
    ensures End(assumption, trace') == Some(m') && m' == Next(Single, m, step)
    ensures trace' == Then(trace, step)
  {
    trace', m' := Then(trace, step), Next(Single, m, step);
  }

  lemma SameMessage(a: Message, b: Message)
    requires a.row == b.row && a.epochs == b.epochs && a.jobs == b.jobs && a.executions == b.executions
    requires a.requeues == b.requeues && a.deliveries == b.deliveries && a.history == b.history
    ensures a == b
  {
  }

  lemma {:induction false} ToRun(assumption: Assumption, trace: Trace)
      returns (states: seq<Message>, steps: seq<Step>)
    requires End(assumption, trace).Some?
    ensures IsRun(Single, states, steps) && states[|steps|] == End(assumption, trace).value
    ensures trace.Then? ==>
      |steps| > 0 && steps[|steps| - 1] == trace.step && End(assumption, trace.before) == Some(states[|steps| - 1])
    ensures forall i | 0 <= i < |steps| :: Keeps(assumption, states[i], steps[i])
  {
    match trace
    case Start => states, steps := [NewMessage], [];
    case Then(before, step) =>
      var states0, steps0 := ToRun(assumption, before);
      states, steps := states0 + [End(assumption, trace).value], steps0 + [step];
      forall i | 0 <= i < |steps|
        ensures Enabled(Single, states[i], steps[i]) && states[i + 1] == Next(Single, states[i], steps[i])
        ensures Keeps(assumption, states[i], steps[i])
      {
        if i < |steps0| {
          assert states[i] == states0[i] && steps[i] == steps0[i] && states[i + 1] == states0[i + 1];
        }
      }
  }

  const ProcessingRow := NewRow.(status := Processing)

  /** A first worker has claimed the message. */
  const FirstClaim := Message(ProcessingRow, [Epoch(Published, NewRow)], map[0 := Active(0)],
                              [Execution(0, Attempting(AtAttempt(0, 1)), 0)], [], [], NoHistory)

  lemma ReachFirstReading(assumption: Assumption) returns (t: Trace, m: Message)
    ensures End(assumption, t) == Some(m)
    ensures m == FirstClaim.(row := NewRow, executions := [Execution(0, Reading, 0)])
  {
    t, m := Start, NewMessage;
    t, m := Take(assumption, t, m, Publish(0));
    t, m := Take(assumption, t, m, Deliver(0));
    assert m.jobs == map[0 := Active(0)];
  }

  lemma ReachFirstClaim(assumption: Assumption) returns (t: Trace)
    ensures End(assumption, t) == Some(FirstClaim)
  {
    var m;
    t, m := ReachFirstReading(assumption);
    t, m := Take(assumption, t, m, ReadRow(0));
    t, m := Take(assumption, t, m, ClaimRow(0));
    SameMessage(m, FirstClaim);
  }

  /** The first worker is taken for dead, and a second one has claimed the message as well. */
  const BothClaim := FirstClaim.(
    jobs := map[0 := Active(1)],
    executions := [Execution(0, Attempting(AtAttempt(0, 1)), 0), Execution(0, Attempting(AtAttempt(0, 1)), 0)])

  lemma ReachBothClaim(assumption: Assumption) returns (t: Trace)
    requires assumption.Nothing? || assumption.E2?
    ensures End(assumption, t) == Some(BothClaim)
  {
    var m := FirstClaim;
    t := ReachFirstClaim(assumption);
    t, m := Take(assumption, t, m, Redeliver(0));
    t, m := Take(assumption, t, m, Deliver(0));
    t, m := Take(assumption, t, m, ReadRow(1));
    t, m := Take(assumption, t, m, ClaimRow(1));
    SameMessage(m, BothClaim);
  }

  /**
   * Two workers racing for one message can both win its claim, since PROCESSING is claimable:
   * the provider then accepts it twice although no execution was lost.
   */
  lemma BothWorkersWin() returns (states: seq<Message>, steps: seq<Step>)
    ensures IsRun(Single, states, steps)
    ensures states[|steps|].history.accepted == 2 && states[|steps|].history.lostAccepts == 0
  {
    var m := BothClaim;
    var t := ReachBothClaim(Nothing);
    t, m := Take(Nothing, t, m, CountAttempt(0));
    t, m := Take(Nothing, t, m, CallProvider(0, Accept(None)));
    t, m := Take(Nothing, t, m, CountAttempt(1));
    t, m := Take(Nothing, t, m, CallProvider(1, Accept(None)));
    states, steps := ToRun(Nothing, t);
  }

  /** Both have claimed the message, and the first has written it SENT. */
  lemma ReachFirstSends() returns (t: Trace, m: Message)
    ensures End(E2, t) == Some(m) && m.history.sentRow.Some?
    ensures |m.executions| == 2 && m.executions[1].state == Attempting(AtAttempt(0, 1))
  {
    m := BothClaim;
    t := ReachBothClaim(E2);
    t, m := Take(E2, t, m, CountAttempt(0));
    t, m := Take(E2, t, m, CallProvider(0, Accept(None)));
    t, m := Take(E2, t, m, WriteSent(0, 0));
  }

  /**
   * Without E1 the delivery phase can be left: one worker writes SENT, and another, which had
   * claimed the message as well, then fails and writes FATAL_FAILURE over it.
   */
  lemma SentOverwrittenByStalledWorker() returns (states: seq<Message>, steps: seq<Step>)
    ensures IsRun(Single, states, steps)
    ensures states[|steps|].history.sentRow.Some? && states[|steps|].row.status == FatalFailure
    ensures forall i | 0 <= i < |steps| :: Keeps(E2, states[i], steps[i])
  {
    var t, m := ReachFirstSends();
    t, m := Take(E2, t, m, CountAttempt(1));
    t, m := Take(E2, t, m, CallProvider(1, Refusal));
    t, m := Take(E2, t, m, WriteFatal(1, 0));
    states, steps := ToRun(E2, t);
  }

  /** A row that one dispatch through the single provider has failed. */
  const FatalRow := Row(FatalFailure, 1, Some(Single.providers[0]), None, Some("refused"), None, None, Some(0))

  /** A second worker, given the job while the first is stalled before its claim, has failed it. */
  const SecondFailed := Message(
    FatalRow, [Epoch(Published, NewRow)], map[0 := Completed],
    [Execution(0, Claiming, 0), Execution(0, Returned, 1)], [], [],
    NoHistory.(calls := 1, fatalByDispatch := 1, deadLetters := 1))

  lemma ReachSecondFailing() returns (t: Trace, m: Message)
    ensures End(Both, t) == Some(m)
    ensures m == SecondFailed.(jobs := map[0 := Active(1)], executions := [Execution(0, Claiming, 0), Execution(0, DeadLettering, 1)],
                               history := NoHistory.(calls := 1, fatalByDispatch := 1))
  {
    t, m := ReachSecondClaimed();
    t, m := Take(Both, t, m, CountAttempt(1));
    t, m := Take(Both, t, m, CallProvider(1, Refusal));
    t, m := Take(Both, t, m, WriteFatal(1, 0));
    assert m.executions == [Execution(0, Claiming, 0), Execution(0, DeadLettering, 1)];
  }

  lemma ReachSecondFailed() returns (t: Trace)
    ensures End(Both, t) == Some(SecondFailed)
  {
    var m;
    t, m := ReachSecondFailing();
    t, m := Take(Both, t, m, DeadLetter(1));
    t, m := Take(Both, t, m, CompleteJob(0));
    SameMessage(m, SecondFailed);
  }

  lemma ReachSecondClaimed() returns (t: Trace, m: Message)
    ensures End(Both, t) == Some(m)
    ensures m == Message(ProcessingRow, [Epoch(Published, NewRow)], map[0 := Active(1)],
                         [Execution(0, Claiming, 0), Execution(0, Attempting(AtAttempt(0, 1)), 0)], [], [], NoHistory)
  {
    t, m := ReachSecondClaiming();
    t, m := Take(Both, t, m, ClaimRow(1));
  }

  lemma ReachSecondClaiming() returns (t: Trace, m: Message)
    ensures End(Both, t) == Some(m)
    ensures m == Message(NewRow, [Epoch(Published, NewRow)], map[0 := Active(1)],
                         [Execution(0, Claiming, 0), Execution(0, Claiming, 0)], [], [], NoHistory)
  {
    t, m := ReachFirstReading(Both);
    t, m := Take(Both, t, m, ReadRow(0));
    t, m := Take(Both, t, m, Redeliver(0));
    t, m := Take(Both, t, m, Deliver(0));
    t, m := Take(Both, t, m, ReadRow(1));
    assert m.jobs == map[0 := Active(1)];
  }

  lemma ReachRequeued() returns (t: Trace, m: Message)
    ensures End(Both, t) == Some(m)
    ensures m.row.status == Queued && m.executions == SecondFailed.executions && m.jobs == map[0 := Completed]
    ensures forall k | 0 <= k < |m.epochs| :: !m.epochs[k].publisher.Compensating?
  {
    m := SecondFailed;
    t := ReachSecondFailed();
    t, m := Take(Both, t, m, FindForRequeue);
    t, m := Take(Both, t, m, TransitionRequeue(0));
  }

  /**
   * A PROCESSING row need not have a live job: a worker stalled since before an admin requeue
   * can claim the requeued row while its job is still being published.  Nothing else dispatches
   * and nothing fails to publish: E1 and E2 hold all along.
   */
  lemma ProcessingWithoutLiveJob() returns (states: seq<Message>, steps: seq<Step>)
    ensures IsRun(Single, states, steps) && Exclusive(states, steps)
    ensures states[|steps|].row.status == Processing && states[|steps|].jobs == map[0 := Completed]
  {
    var t, m := ReachRequeued();
    t, m := Take(Both, t, m, ClaimRow(0));
    states, steps := ToRun(Both, t);
  }

  /** A dispatch failed, its dead letter could not be published, and the job is to be retried. */
  const LeftoverJob := Message(
    FatalRow, [Epoch(Published, NewRow)], map[0 := Waiting], [Execution(0, Aborted, 1)], [], [],
    NoHistory.(calls := 1, fatalByDispatch := 1))

  lemma ReachFirstFailed() returns (t: Trace, m: Message)
    ensures End(E1, t) == Some(m)
    ensures m == LeftoverJob.(jobs := map[0 := Active(0)], executions := [Execution(0, DeadLettering, 1)])
  {
    m := FirstClaim;
    t := ReachFirstClaim(E1);
    t, m := Take(E1, t, m, CountAttempt(0));
    t, m := Take(E1, t, m, CallProvider(0, Refusal));
    t, m := Take(E1, t, m, WriteFatal(0, 0));
    assert |m.executions| == 1 && m.executions[0] == Execution(0, DeadLettering, 1);
    SameMessage(m, LeftoverJob.(jobs := map[0 := Active(0)], executions := [Execution(0, DeadLettering, 1)]));
  }

  lemma ReachLeftoverJob() returns (t: Trace)
    ensures End(E1, t) == Some(LeftoverJob)
  {
    var m;
    t, m := ReachFirstFailed();
    t, m := Take(E1, t, m, Abort(0));
    t, m := Take(E1, t, m, Redeliver(0));
    SameMessage(m, LeftoverJob);
  }

  /** An admin requeue is publishing when the leftover job's execution claims the row. */
  const LeftoverClaim := Message(
    ProcessingRow.(attempts := 1), [Epoch(Published, NewRow), Epoch(Publishing, FatalRow)], map[0 := Active(1)],
    [Execution(0, Aborted, 1), Execution(0, Attempting(AtAttempt(0, 1)), 0)], [Transitioned], [],
    NoHistory.(calls := 1, fatalByDispatch := 1))

  lemma ReachLeftoverClaim() returns (t: Trace)
    ensures End(E1, t) == Some(LeftoverClaim)
  {
    var m := LeftoverJob;
    t := ReachLeftoverJob();
    t, m := Take(E1, t, m, FindForRequeue);
    t, m := Take(E1, t, m, TransitionRequeue(0));
    t, m := Take(E1, t, m, Deliver(0));
    t, m := Take(E1, t, m, ReadRow(1));
    t, m := Take(E1, t, m, ClaimRow(1));
    SameMessage(m, LeftoverClaim);
  }

  /**
   * Without E2 the delivery phase can be left even though no two workers ever overlap: the job
   * left over from a failed dead-letter publish sends the requeued message while its requeue is
   * still publishing, and the failed requeue then restores FATAL_FAILURE over SENT.
   */
  lemma SentOverwrittenByFailedRequeue() returns (states: seq<Message>, steps: seq<Step>)
    ensures IsRun(Single, states, steps)
    ensures states[|steps|].history.sentRow.Some? && states[|steps|].row.status == FatalFailure
    ensures forall i | 0 <= i < |steps| :: Keeps(E1, states[i], steps[i])
  {
    var m := LeftoverClaim;
    var t := ReachLeftoverClaim();
    t, m := Take(E1, t, m, CountAttempt(1));
    t, m := Take(E1, t, m, CallProvider(1, Accept(None)));
    t, m := Take(E1, t, m, WriteSent(1, 0));
    t, m := Take(E1, t, m, FailPublish(1, false));
    t, m := Take(E1, t, m, Compensate(1, "queue down", 0));
    states, steps := ToRun(E1, t);
  }

  /**
   * A callback may come before its message can be found: the provider has accepted the message
   * under its id, and the lookup finds nothing, for want of the SENT write, which comes next.  Had
   * the callback been retried, it would have been found.
   */
  lemma CallbackBeforeSentWrite() returns (states: seq<Message>, steps: seq<Step>)
    ensures IsRun(Single, states, steps) && Exclusive(states, steps) && |steps| > 0
    ensures AwaitsWrite(states[|steps| - 1], 0, Single.providers[0], "SM1")
    ensures !Matches(states[|steps| - 1], Single.providers[0], "SM1")
    ensures Matches(states[|steps|], Single.providers[0], "SM1")
  {
    var m := FirstClaim;
    var t := ReachFirstClaim(Both);
    t, m := Take(Both, t, m, CountAttempt(0));
    t, m := Take(Both, t, m, CallProvider(0, Accept(Some("SM1"))));
    var before, accepted := t, m;
    t, m := Take(Both, t, m, WriteSent(0, 0));
    states, steps := ToRun(Both, t);
  }

  /** A worker that dies with no retry left strands the row on PROCESSING. */
  lemma StrandedByExhaustion() returns (states: seq<Message>, steps: seq<Step>)
    ensures IsRun(Single, states, steps)
    ensures states[|steps|].epochs != [] && Stranded(states[|steps|]) && states[|steps|].row.status == Processing
  {
    var m := FirstClaim;
    var t := ReachFirstClaim(Nothing);
    t, m := Take(Nothing, t, m, Abort(0));
    t, m := Take(Nothing, t, m, ExhaustJob(0));
    states, steps := ToRun(Nothing, t);
  }

  /** An API process that dies between its commit and its publish strands the row on QUEUED. */
  lemma StrandedByLostPublish() returns (states: seq<Message>, steps: seq<Step>)
    ensures IsRun(Single, states, steps)
    ensures states[|steps|].epochs != [] && Stranded(states[|steps|]) && states[|steps|].row.status == Queued
  {
    var m := NewMessage;
    var t := Start;
    t, m := Take(Nothing, t, m, Abandon(0));
    states, steps := ToRun(Nothing, t);
  }
}
