// The provider calls that an execution makes in a run of a message's machine, and the plan they
// follow: for whatever replies the providers give, and whatever everyone else does meanwhile.

module DispatchRuns {
  import opened Numbers
  import opened SmsMessage
  import opened DispatchPlan
  import opened DispatchLaws
  import opened MessageMachine

  datatype CallMade = CallMade(call: Call, reply: ProviderReply)

  predicate CallsProvider(m: Message, step: Step, e: nat) {
    && step.CallProvider? && step.execution == e
    && HasExecution(m, e) && m.executions[e].state.Calling? && m.executions[e].state.at.AtAttempt?
  }

  function CallOf(m: Message, step: Step, e: nat): CallMade
    requires CallsProvider(m, step, e)
  {
    var at := m.executions[e].state.at;
    CallMade(Call(at.provider, at.attempt), step.reply)
  }

  /** The provider calls among the first `i` steps that are execution `e`'s, with their replies. */
  function CallsMade(states: seq<Message>, steps: seq<Step>, i: nat, e: nat): seq<CallMade>
    requires i <= |steps| && i <= |states|
  {
    if i == 0 then []
    else
      CallsMade(states, steps, i - 1, e)
      + if CallsProvider(states[i - 1], steps[i - 1], e) then [CallOf(states[i - 1], steps[i - 1], e)] else []
  }

  lemma {:induction false} CallsMadeInLongerRun(states: seq<Message>, steps: seq<Step>,
                                                states': seq<Message>, steps': seq<Step>, i: nat, e: nat)
    requires i <= |steps| && i <= |states| && states <= states' && steps <= steps'
    ensures CallsMade(states, steps, i, e) == CallsMade(states', steps', i, e)
  {
    if i > 0 { CallsMadeInLongerRun(states, steps, states', steps', i - 1, e); }
  }

  /** One more step of a run. */
  lemma RunGoesOn(cfg: Config, states: seq<Message>, steps: seq<Step>, step: Step)
    requires IsRun(cfg, states, steps) && Enabled(cfg, states[|steps|], step)
    ensures IsRun(cfg, states + [Next(cfg, states[|steps|], step)], steps + [step])
  {
    var states', steps' := states + [Next(cfg, states[|steps|], step)], steps + [step];
    forall i | 0 <= i < |steps'|
      ensures Enabled(cfg, states'[i], steps'[i]) && states'[i + 1] == Next(cfg, states'[i], steps'[i])
    {
      if i < |steps| { assert states'[i] == states[i] && steps'[i] == steps[i] && states'[i + 1] == states[i + 1]; }
    }
  }

  lemma CallsGoOn(states: seq<Message>, steps: seq<Step>, m: Message, step: Step, e: nat)
    requires |states| == |steps| + 1
    ensures CallsMade(states + [m], steps + [step], |steps| + 1, e)
            == CallsMade(states, steps, |steps|, e)
               + if CallsProvider(states[|steps|], step, e) then [CallOf(states[|steps|], step, e)] else []
  {
    CallsMadeInLongerRun(states, steps, states + [m], steps + [step], |steps|, e);
  }

  function Calls(made: seq<CallMade>): (calls: seq<Call>)
    ensures |calls| == |made| && forall k | 0 <= k < |made| :: calls[k] == made[k].call
  {
    seq(|made|, k requires 0 <= k < |made| => made[k].call)
  }

  function Replies(made: seq<CallMade>): (replies: seq<ProviderReply>)
    ensures |replies| == |made| && forall k | 0 <= k < |made| :: replies[k] == made[k].reply
  {
    seq(|made|, k requires 0 <= k < |made| => made[k].reply)
  }

  /** Calls, each with the reply that this list has for it. */
  function Paired(calls: seq<Call>, replies: seq<ProviderReply>): (made: seq<CallMade>)
    ensures |made| == |calls|
  {
    seq(|calls|, k requires 0 <= k < |calls| => CallMade(calls[k], ReplyAt(replies, k)))
  }

  /** The calls got the first of these replies. */
  ghost predicate Answered(replies: seq<ProviderReply>, made: seq<CallMade>) {
    forall k | 0 <= k < |made| :: ReplyAt(replies, k) == made[k].reply
  }

  // ---------------------------------------------------------------- on the plan

  /** The calls so far, and the rest of the plan at cursor `c`, make up the plan. */
  ghost predicate Ahead(cfg: Config, baseDelayMs: Positive, replies: seq<ProviderReply>, calls: seq<Call>, c: Cursor) {
    && ValidCursor(cfg, c)
    && var plan, rest := PlanOf(cfg, baseDelayMs, replies), PlanFrom(cfg, baseDelayMs, replies, c, |calls|);
       plan.calls == calls + rest.calls && plan.end == rest.end
  }

  /** An execution that made these calls, and is in this state, has followed the plan so far. */
  ghost predicate OnPlan(cfg: Config, baseDelayMs: Positive, replies: seq<ProviderReply>, calls: seq<Call>, state: ExecutionState) {
    var plan := PlanOf(cfg, baseDelayMs, replies);
    match state
    case Reading => calls == []
    case Claiming => calls == []
    case Attempting(c) => Ahead(cfg, baseDelayMs, replies, calls, c)
    case Calling(c) => Ahead(cfg, baseDelayMs, replies, calls, c)
    case Accepted(provider, id) => plan.calls == calls && plan.end == SentBy(provider, id)
    case Failing(provider, error) => plan.calls == calls && plan.end == GaveUp(provider, error)
    case DeadLettering => plan.calls == calls && plan.end.GaveUp?
    case Returned => calls == [] || plan.calls == calls
    case Aborted => calls <= plan.calls
  }

  lemma AheadAtFirst(cfg: Config, baseDelayMs: Positive, replies: seq<ProviderReply>)
    ensures OnPlan(cfg, baseDelayMs, replies, [], StateAt(FirstCursor(cfg)))
  {
    assert forall calls: seq<Call> :: [] + calls == calls;
  }

  lemma CallKeepsToPlan(cfg: Config, baseDelayMs: Positive, replies: seq<ProviderReply>, calls: seq<Call>, c: Cursor)
    requires c.AtAttempt? && Ahead(cfg, baseDelayMs, replies, calls, c)
    ensures var reply, call := ReplyAt(replies, |calls|), Call(c.provider, c.attempt);
      OnPlan(cfg, baseDelayMs, replies, calls + [call],
             if reply.Accept? then Accepted(cfg.providers[c.provider], reply.providerMessageId)
             else StateAt(AfterFailure(cfg, c, FailureAt(cfg, replies, c.provider, |calls|))))
  {
    if !ReplyAt(replies, |calls|).Accept? {
      FailureKeepsToPlan(cfg, baseDelayMs, replies, calls, c);
      var next := AfterFailure(cfg, c, FailureAt(cfg, replies, c.provider, |calls|));
      if next.OutOfProviders? { NothingAhead(cfg, baseDelayMs, replies, calls + [Call(c.provider, c.attempt)], next); }
    }
  }

  lemma FailureKeepsToPlan(cfg: Config, baseDelayMs: Positive, replies: seq<ProviderReply>, calls: seq<Call>, c: Cursor)
    requires c.AtAttempt? && Ahead(cfg, baseDelayMs, replies, calls, c) && !ReplyAt(replies, |calls|).Accept?
    ensures Ahead(cfg, baseDelayMs, replies, calls + [Call(c.provider, c.attempt)],
                  AfterFailure(cfg, c, FailureAt(cfg, replies, c.provider, |calls|)))
  {
    var plan, rest := PlanOf(cfg, baseDelayMs, replies), PlanFrom(cfg, baseDelayMs, replies, c, |calls|);
    var later := PlanFrom(cfg, baseDelayMs, replies, AfterFailure(cfg, c, FailureAt(cfg, replies, c.provider, |calls|)), |calls| + 1);
    PlanUnfold(cfg, baseDelayMs, replies, c, |calls|);
    Regroup(plan.calls, calls, Call(c.provider, c.attempt), rest.calls, later.calls);
  }

  lemma Regroup(all: seq<Call>, calls: seq<Call>, call: Call, rest: seq<Call>, later: seq<Call>)
    requires all == calls + rest && rest == [call] + later
    ensures all == (calls + [call]) + later && |calls + [call]| == |calls| + 1
  {
  }

  lemma NothingAhead(cfg: Config, baseDelayMs: Positive, replies: seq<ProviderReply>, calls: seq<Call>, c: Cursor)
    requires c.OutOfProviders? && Ahead(cfg, baseDelayMs, replies, calls, c)
    ensures PlanOf(cfg, baseDelayMs, replies).calls == calls
    ensures PlanOf(cfg, baseDelayMs, replies).end == GaveUp(c.lastProvider, c.lastError)
  {
    assert calls + [] == calls;
  }

  /** What one step, anyone's, does to an execution that is on its plan. */
  lemma StepKeepsToPlan(cfg: Config, baseDelayMs: Positive, replies: seq<ProviderReply>, m: Message, step: Step,
                        calls: seq<Call>, e: nat)
    requires Enabled(cfg, m, step) && HasExecution(m, e) && OnPlan(cfg, baseDelayMs, replies, calls, m.executions[e].state)
    requires CallsProvider(m, step, e) ==> ReplyAt(replies, |calls|) == step.reply
    ensures HasExecution(Next(cfg, m, step), e)
    ensures OnPlan(cfg, baseDelayMs, replies,
                   calls + if CallsProvider(m, step, e) then [CallOf(m, step, e).call] else [],
                   Next(cfg, m, step).executions[e].state)
  {
    var state := m.executions[e].state;
    assert calls + [] == calls;
    if CallsProvider(m, step, e) {
      CallKeepsToPlan(cfg, baseDelayMs, replies, calls, state.at);
    } else if step.ClaimRow? && step.execution == e {
      AheadAtFirst(cfg, baseDelayMs, replies);
    } else if Next(cfg, m, step).executions[e].state != state {
      OwnStepKeepsToPlan(cfg, baseDelayMs, replies, m, step, calls, e);
    }
  }

  lemma OwnStepKeepsToPlan(cfg: Config, baseDelayMs: Positive, replies: seq<ProviderReply>, m: Message, step: Step,
                           calls: seq<Call>, e: nat)
    requires Enabled(cfg, m, step) && HasExecution(m, e) && OnPlan(cfg, baseDelayMs, replies, calls, m.executions[e].state)
    requires step.ReadRow? || step.CountAttempt? || step.WriteSent? || step.WriteFatal? || step.DeadLetter? || step.Abort?
    requires step.execution == e
    ensures OnPlan(cfg, baseDelayMs, replies, calls, Next(cfg, m, step).executions[e].state)
  {
  }

  lemma AnsweredBefore(replies: seq<ProviderReply>, before: seq<CallMade>, made: seq<CallMade>)
    requires before <= made && Answered(replies, made)
    ensures Answered(replies, before)
  {
  }

  /** If the execution exists, and these are the replies, it is on its plan. */
  ghost predicate KeepsToPlan(cfg: Config, baseDelayMs: Positive, replies: seq<ProviderReply>,
                              made: seq<CallMade>, m: Message, e: nat) {
    if HasExecution(m, e) then Answered(replies, made) ==> OnPlan(cfg, baseDelayMs, replies, Calls(made), m.executions[e].state)
    else made == []
  }

  lemma MadeKeepsToPlan(cfg: Config, baseDelayMs: Positive, replies: seq<ProviderReply>, m: Message, step: Step,
                        before: seq<CallMade>, made: seq<CallMade>, e: nat)
    requires Enabled(cfg, m, step) && KeepsToPlan(cfg, baseDelayMs, replies, before, m, e)
    requires made == before + if CallsProvider(m, step, e) then [CallOf(m, step, e)] else []
    ensures KeepsToPlan(cfg, baseDelayMs, replies, made, Next(cfg, m, step), e)
  {
    if HasExecution(m, e) && Answered(replies, made) {
      AnsweredBefore(replies, before, made);
      if CallsProvider(m, step, e) { assert made[|before|] == CallOf(m, step, e); }
      StepKeepsToPlan(cfg, baseDelayMs, replies, m, step, Calls(before), e);
      assert Calls(made) == Calls(before) + if CallsProvider(m, step, e) then [CallOf(m, step, e).call] else [];
    } else if !HasExecution(m, e) {
      assert Calls(made) == [];
    }
  }

  lemma {:induction false} RunsKeepToPlan(cfg: Config, baseDelayMs: Positive, replies: seq<ProviderReply>,
                                          states: seq<Message>, steps: seq<Step>, i: nat, e: nat)
    requires IsRun(cfg, states, steps) && i < |states|
    ensures KeepsToPlan(cfg, baseDelayMs, replies, CallsMade(states, steps, i, e), states[i], e)
  {
    if i > 0 {
      var m, step := states[i - 1], steps[i - 1];
      var before, made := CallsMade(states, steps, i - 1, e), CallsMade(states, steps, i, e);
      assert KeepsToPlan(cfg, baseDelayMs, replies, made, Next(cfg, m, step), e) by {
        RunsKeepToPlan(cfg, baseDelayMs, replies, states, steps, i - 1, e);
        MadeKeepsToPlan(cfg, baseDelayMs, replies, m, step, before, made, e);
      }
    }
  }

  /**
   * In any run, whatever else happens: each execution has made the first calls of the plan for the
   * replies it got, all of them once it is through with its providers, and is where the plan says.
   */
  lemma CallsFollowThePlan(cfg: Config, baseDelayMs: Positive, replies: seq<ProviderReply>,
                           states: seq<Message>, steps: seq<Step>, i: nat, e: nat)
    requires IsRun(cfg, states, steps) && i < |states| && HasExecution(states[i], e)
    requires Answered(replies, CallsMade(states, steps, i, e))
    ensures OnPlan(cfg, baseDelayMs, replies, Calls(CallsMade(states, steps, i, e)), states[i].executions[e].state)
  {
    RunsKeepToPlan(cfg, baseDelayMs, replies, states, steps, i, e);
  }

  lemma OnPlanMeans(cfg: Config, baseDelayMs: Positive, replies: seq<ProviderReply>, calls: seq<Call>, state: ExecutionState)
    requires OnPlan(cfg, baseDelayMs, replies, calls, state)
    ensures var plan := PlanOf(cfg, baseDelayMs, replies);
      && calls <= plan.calls
      && (state.Accepted? ==> calls == plan.calls && plan.end == SentBy(state.provider, state.providerMessageId))
      && (state.Failing? ==> calls == plan.calls && plan.end == GaveUp(state.lastProvider, state.lastError))
  {
  }

  /** An execution writes the row as it ended. */
  lemma FinalWrite(cfg: Config, m: Message, step: Step, end: End, e: nat, now: Time)
    requires Enabled(cfg, m, step) && (step == WriteSent(e, now) || step == WriteFatal(e, now))
    requires var state := m.executions[e].state;
      end == if state.Accepted? then SentBy(state.provider, state.providerMessageId)
             else if state.Failing? then GaveUp(state.lastProvider, state.lastError) else end
    ensures m.executions[e].state.Accepted? || m.executions[e].state.Failing?
    ensures Next(cfg, m, step).row == EndRow(m.row, end, now)
  {
  }

  /** The same for the very replies received, and for the rows that dispatches write at their end. */
  lemma DispatchesMakeTheirPlans(cfg: Config, baseDelayMs: Positive, states: seq<Message>, steps: seq<Step>, i: nat, e: nat)
    requires IsRun(cfg, states, steps) && i < |steps| && HasExecution(states[i], e)
    ensures var made := CallsMade(states, steps, i, e);
      var plan := PlanOf(cfg, baseDelayMs, Replies(made));
      && Calls(made) <= plan.calls
      && (forall now :: steps[i] == WriteSent(e, now) || steps[i] == WriteFatal(e, now) ==>
            Calls(made) == plan.calls && states[i + 1].row == EndRow(states[i].row, plan.end, now))
  {
    var made := CallsMade(states, steps, i, e);
    var replies, calls := Replies(made), Calls(made);
    var plan := PlanOf(cfg, baseDelayMs, replies);
    CallsFollowThePlan(cfg, baseDelayMs, replies, states, steps, i, e);
    OnPlanMeans(cfg, baseDelayMs, replies, calls, states[i].executions[e].state);
    forall now | steps[i] == WriteSent(e, now) || steps[i] == WriteFatal(e, now)
      ensures calls == plan.calls && states[i + 1].row == EndRow(states[i].row, plan.end, now)
    {
      FinalWrite(cfg, states[i], steps[i], plan.end, e, now);
    }
  }

  // ---------------------------------------------------------------- in the replies' own terms

  /**
   * In any run, each provider call of an execution is the one that the reply to the call before it
   * asks for: a retry after an exception or a refusal worth retrying, below the limit, and the
   * first attempt at the next provider after any other failure.
   */
  lemma CallsFollowReplies(cfg: Config, states: seq<Message>, steps: seq<Step>, i: nat, e: nat, k: nat)
    requires IsRun(cfg, states, steps) && i < |states| && HasExecution(states[i], e)
    ensures var made := CallsMade(states, steps, i, e);
      && (made != [] ==> made[0].call == Call(0, 1))
      && (k + 1 < |made| ==>
            && !made[k].reply.Accept?
            && made[k + 1].call
               == if MayBeRetried(made[k].reply) && made[k].call.attempt < cfg.maxRetries
                  then Call(made[k].call.provider, made[k].call.attempt + 1)
                  else Call(made[k].call.provider + 1, 1))
  {
    var made := CallsMade(states, steps, i, e);
    var replies, calls := Replies(made), PlanOf(cfg, 1, Replies(made)).calls;
    assert Calls(made) <= calls by {
      CallsFollowThePlan(cfg, 1, replies, states, steps, i, e);
      OnPlanMeans(cfg, 1, replies, Calls(made), states[i].executions[e].state);
    }
    PlanFollowsReplies(cfg, 1, replies);
    if k + 1 < |made| {
      assert FollowedAt(cfg, replies, calls, 0, k) && calls[k] == made[k].call && calls[k + 1] == made[k + 1].call;
    }
  }

  /**
   * A row written after these calls: SENT under the id that the last reply carried, or
   * FATAL_FAILURE in the words of the last reply, which left nothing to try; or for want of any
   * provider.  The attempts and the delivery time are left as they were.
   */
  ghost predicate SpeaksForLastReply(cfg: Config, made: seq<CallMade>, before: Row, row: Row, now: Time) {
    && row.attempts == before.attempts && row.deliveredAt == before.deliveredAt
    && (row.status == SmsStatus.Sent || row.status == FatalFailure)
    && (if row.status == SmsStatus.Sent then row.sentAt == Some(now) && row.failedAt.None? && row.lastError.None?
        else row.failedAt == Some(now) && row.sentAt.None? && row.providerMessageId.None?)
    && if cfg.providers == [] then
      made == [] && row.status == FatalFailure && row.selectedProvider == Some("unknown")
      && row.lastError == Some("No SMS provider is configured.")
    else
      && made != [] && made[|made| - 1].call.provider < |cfg.providers|
      && var last := made[|made| - 1];
         var provider := cfg.providers[last.call.provider];
         && row.selectedProvider == Some(provider)
         && if last.reply.Accept? then
              row.status == SmsStatus.Sent && row.providerMessageId == last.reply.providerMessageId
            else
              && row.status == FatalFailure && row.lastError.Some?
              && EndsWith(provider, last.reply, GaveUp(provider, row.lastError.value))
              && last.call.provider + 1 == |cfg.providers|
              && (!MayBeRetried(last.reply) || last.call.attempt == cfg.maxRetries)
  }

  lemma EndRowSpeaks(cfg: Config, made: seq<CallMade>, end: End, row: Row, now: Time)
    requires made != [] && made[|made| - 1].call.provider < |cfg.providers|
    requires EndsWith(cfg.providers[made[|made| - 1].call.provider], made[|made| - 1].reply, end)
    requires CallFollowed(cfg, Calls(made), |made| - 1, made[|made| - 1].reply)
    ensures SpeaksForLastReply(cfg, made, row, EndRow(row, end, now), now)
  {
  }

  lemma PlanEndSpeaks(cfg: Config, made: seq<CallMade>, row: Row, now: Time)
    requires PlanOf(cfg, 1, Replies(made)).calls == Calls(made)
    ensures SpeaksForLastReply(cfg, made, row, EndRow(row, PlanOf(cfg, 1, Replies(made)).end, now), now)
  {
    var replies, n := Replies(made), |made| - 1;
    PlanEndsWithLastReply(cfg, 1, replies);
    if cfg.providers != [] {
      assert CallFollowed(cfg, Calls(made), n, made[n].reply) by {
        PlanFollowsReplies(cfg, 1, replies);
        assert FollowedAt(cfg, replies, Calls(made), 0, n);
      }
      EndRowSpeaks(cfg, made, PlanOf(cfg, 1, replies).end, row, now);
    }
  }

  /** In any run, the final write of an execution speaks for the last reply it got. */
  lemma FinalWritesSpeakForLastReply(cfg: Config, states: seq<Message>, steps: seq<Step>, i: nat, e: nat, now: Time)
    requires IsRun(cfg, states, steps) && i < |steps| && HasExecution(states[i], e)
    requires steps[i] == WriteSent(e, now) || steps[i] == WriteFatal(e, now)
    ensures SpeaksForLastReply(cfg, CallsMade(states, steps, i, e), states[i].row, states[i + 1].row, now)
  {
    DispatchesMakeTheirPlans(cfg, 1, states, steps, i, e);
    PlanEndSpeaks(cfg, CallsMade(states, steps, i, e), states[i].row, now);
  }
}
