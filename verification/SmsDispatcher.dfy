// The dispatch of a message as the program it is: the read, the claim, and the nested loops over
// providers and attempts, each database or provider operation one step of the message's machine.
//
// Between two operations a worker awaits.  Anything may happen to the message meanwhile, which
// `Await` states by promising only that the execution's own record is untouched, or that the
// execution has been aborted: by a crash, or by an operation that threw.

module SmsDispatcher {
  import opened Numbers
  import opened SmsMessage
  import opened DispatchPlan
  import opened DispatchLaws
  import opened MessageMachine
  import opened DispatchRuns

  // ---------------------------------------------------------------- following a plan

  /** The calls and sleeps so far, and the rest of the plan at cursor `c`, make up the plan. */
  ghost predicate Follows(cfg: Config, baseDelayMs: Positive, replies: seq<ProviderReply>, c: Cursor,
                          calls: seq<Call>, sleeps: seq<nat>)
  {
    && Ahead(cfg, baseDelayMs, replies, calls, c)
    && PlanOf(cfg, baseDelayMs, replies).sleeps == sleeps + PlanFrom(cfg, baseDelayMs, replies, c, |calls|).sleeps
  }

  lemma FollowsThroughFailure(cfg: Config, baseDelayMs: Positive, replies: seq<ProviderReply>, c: Cursor,
                              calls: seq<Call>, sleeps: seq<nat>)
    requires Follows(cfg, baseDelayMs, replies, c, calls, sleeps)
    requires c.AtAttempt? && !ReplyAt(replies, |calls|).Accept?
    ensures var failure := FailureAt(cfg, replies, c.provider, |calls|);
      Follows(cfg, baseDelayMs, replies, AfterFailure(cfg, c, failure), calls + [Call(c.provider, c.attempt)],
              sleeps + if Retries(cfg, c, failure) then [RetryDelay(c.attempt, baseDelayMs, failure)] else [])
  {
    var failure := FailureAt(cfg, replies, c.provider, |calls|);
    var rest := PlanFrom(cfg, baseDelayMs, replies, AfterFailure(cfg, c, failure), |calls| + 1);
    var slept := if Retries(cfg, c, failure) then [RetryDelay(c.attempt, baseDelayMs, failure)] else [];
    FailureKeepsToPlan(cfg, baseDelayMs, replies, calls, c);
    PlanUnfold(cfg, baseDelayMs, replies, c, |calls|);
    RegroupSleeps(PlanOf(cfg, baseDelayMs, replies).sleeps, sleeps, slept, rest.sleeps);
    assert |calls + [Call(c.provider, c.attempt)]| == |calls| + 1;
  }

  lemma RegroupSleeps(all: seq<nat>, sleeps: seq<nat>, slept: seq<nat>, later: seq<nat>)
    requires all == sleeps + (slept + later)
    ensures all == (sleeps + slept) + later
  {
  }

  lemma FollowsToAcceptance(cfg: Config, baseDelayMs: Positive, replies: seq<ProviderReply>, c: Cursor,
                            calls: seq<Call>, sleeps: seq<nat>)
    requires Follows(cfg, baseDelayMs, replies, c, calls, sleeps)
    requires c.AtAttempt? && ReplyAt(replies, |calls|).Accept?
    ensures PlanOf(cfg, baseDelayMs, replies)
            == Plan(calls + [Call(c.provider, c.attempt)], sleeps,
                    SentBy(cfg.providers[c.provider], ReplyAt(replies, |calls|).providerMessageId))
  {
    assert sleeps + [] == sleeps;
  }

  lemma FollowsToTheEnd(cfg: Config, baseDelayMs: Positive, replies: seq<ProviderReply>, c: Cursor,
                        calls: seq<Call>, sleeps: seq<nat>)
    requires Follows(cfg, baseDelayMs, replies, c, calls, sleeps) && c.OutOfProviders?
    ensures PlanOf(cfg, baseDelayMs, replies) == Plan(calls, sleeps, GaveUp(c.lastProvider, c.lastError))
  {
    assert calls + [] == calls && sleeps + [] == sleeps;
  }

  lemma FollowsFromTheStart(cfg: Config, baseDelayMs: Positive, replies: seq<ProviderReply>)
    ensures Follows(cfg, baseDelayMs, replies, FirstCursor(cfg), [], [])
  {
    var plan := PlanOf(cfg, baseDelayMs, replies);
    assert [] + plan.calls == plan.calls && [] + plan.sleeps == plan.sleeps;
  }

  // ---------------------------------------------------------------- pauses

  /** A sleep, and how many provider calls its execution had made before it. */
  datatype Pause = Pause(ms: nat, after: nat)

  function Sleeps(pauses: seq<Pause>): (sleeps: seq<nat>)
    ensures |sleeps| == |pauses|
  {
    seq(|pauses|, j requires 0 <= j < |pauses| => pauses[j].ms)
  }

  /** The pause follows a call worth retrying, and is as long as that call's reply asks for. */
  ghost predicate PauseFits(cfg: Config, baseDelayMs: Positive, replies: seq<ProviderReply>, calls: seq<Call>, pause: Pause) {
    && 0 < pause.after <= |calls|
    && var k := pause.after - 1;
       && MayBeRetried(ReplyAt(replies, k)) && calls[k].attempt < cfg.maxRetries
       && IsPause(pause.ms, calls[k].attempt, baseDelayMs, ReplyAt(replies, k))
  }

  /** Each pause follows a call of its own, in the order of the calls. */
  ghost predicate PausesFit(cfg: Config, baseDelayMs: Positive, replies: seq<ProviderReply>, calls: seq<Call>, pauses: seq<Pause>) {
    pauses != [] ==>
      var n := |pauses| - 1;
      && PausesFit(cfg, baseDelayMs, replies, calls, pauses[..n])
      && PauseFits(cfg, baseDelayMs, replies, calls, pauses[n])
      && (n > 0 ==> pauses[n - 1].after < pauses[n].after)
  }

  lemma {:induction false} PausesFitLonger(cfg: Config, baseDelayMs: Positive, replies: seq<ProviderReply>,
                                           calls: seq<Call>, call: Call, pauses: seq<Pause>)
    requires PausesFit(cfg, baseDelayMs, replies, calls, pauses)
    ensures PausesFit(cfg, baseDelayMs, replies, calls + [call], pauses)
    ensures pauses != [] ==> pauses[|pauses| - 1].after <= |calls|
  {
    if pauses != [] { PausesFitLonger(cfg, baseDelayMs, replies, calls, call, pauses[..|pauses| - 1]); }
  }

  lemma PauseAfterLastCall(cfg: Config, baseDelayMs: Positive, replies: seq<ProviderReply>, calls: seq<Call>, call: Call,
                           pauses: seq<Pause>, pause: Pause)
    requires PausesFit(cfg, baseDelayMs, replies, calls, pauses)
    requires pause.after == |calls| + 1 && PauseFits(cfg, baseDelayMs, replies, calls + [call], pause)
    ensures PausesFit(cfg, baseDelayMs, replies, calls + [call], pauses + [pause])
    ensures Sleeps(pauses + [pause]) == Sleeps(pauses) + [pause.ms]
  {
    PausesFitLonger(cfg, baseDelayMs, replies, calls, call, pauses);
    assert (pauses + [pause])[..|pauses|] == pauses;
  }

  lemma PauseIsDue(cfg: Config, baseDelayMs: Positive, replies: seq<ProviderReply>, calls: seq<Call>, c: Cursor, pauses: seq<Pause>)
    requires c.AtAttempt? && ValidCursor(cfg, c) && !ReplyAt(replies, |calls|).Accept?
    requires PausesFit(cfg, baseDelayMs, replies, calls, pauses)
    ensures var failure := FailureAt(cfg, replies, c.provider, |calls|);
      Retries(cfg, c, failure) ==>
        PausesFit(cfg, baseDelayMs, replies, calls + [Call(c.provider, c.attempt)],
                  pauses + [Pause(RetryDelay(c.attempt, baseDelayMs, failure), |calls| + 1)])
  {
    var failure := FailureAt(cfg, replies, c.provider, |calls|);
    if Retries(cfg, c, failure) {
      RetryDelayIsPause(cfg, c.provider, c.attempt, baseDelayMs, ReplyAt(replies, |calls|));
      PauseAfterLastCall(cfg, baseDelayMs, replies, calls, Call(c.provider, c.attempt), pauses,
                         Pause(RetryDelay(c.attempt, baseDelayMs, failure), |calls| + 1));
    }
  }

  lemma PairedOneMore(calls: seq<Call>, call: Call, replies: seq<ProviderReply>)
    ensures Paired(calls + [call], replies) == Paired(calls, replies) + [CallMade(call, ReplyAt(replies, |calls|))]
  {
  }

  /** Where the machine has the execution once the loops are over. */
  function EndState(end: End): ExecutionState {
    match end
    case SentBy(provider, id) => Accepted(provider, id)
    case GaveUp(provider, error) => Failing(provider, error)
  }

  /** The columns of a row that a dispatch has just written, whatever row it wrote over. */
  ghost predicate EndsRow(row: Row, end: End, now: Time) {
    match end
    case SentBy(provider, id) =>
      && row.status == SmsStatus.Sent && row.selectedProvider == Some(provider) && row.providerMessageId == id
      && row.lastError.None? && row.sentAt == Some(now) && row.failedAt.None?
    case GaveUp(provider, error) =>
      && row.status == FatalFailure && row.selectedProvider == Some(provider) && row.providerMessageId.None?
      && row.lastError == Some(error) && row.sentAt.None? && row.failedAt == Some(now)
  }

  datatype DispatchOutcome = Skipped | Sent(row: Row) | DeadLettered(row: Row) | Interrupted

  /** How the attempts at one provider came out. */
  datatype ProviderOutcome = Lost | Accepts(end: End) | Fails(error: string)

  /** The calls, the sleeps and the row written are all of the plan's; or its first ones, if interrupted. */
  ghost predicate AsPlanned(plan: Plan, outcome: DispatchOutcome, calls: seq<Call>, sleeps: seq<nat>, now: Time) {
    match outcome
    case Skipped => calls == [] && sleeps == []
    case Sent(row) => plan.calls == calls && plan.sleeps == sleeps && plan.end.SentBy? && EndsRow(row, plan.end, now)
    case DeadLettered(row) => plan.calls == calls && plan.sleeps == sleeps && plan.end.GaveUp? && EndsRow(row, plan.end, now)
    case Interrupted => calls <= plan.calls && sleeps <= plan.sleeps
  }

  /**
   * The message, and the steps that everyone has taken.  `slept` is what each execution has asked
   * the runtime to sleep, which is no operation on the message; `mayFail` is whether an operation
   * of a dispatch may throw, or its process die.
   */
  class MessageHost {
    const cfg: Config
    const mayFail: bool
    var m: Message
    ghost var states: seq<Message>
    ghost var steps: seq<Step>
    ghost var slept: map<nat, seq<Pause>>

    /** `m` is the state that the steps taken so far, by everyone, have led to. */
    ghost predicate Valid()
      reads this
    {
      IsRun(cfg, states, steps) && m == states[|steps|]
    }

    /** The provider calls among the steps that are the execution's, with their replies. */
    ghost function Made(e: nat): seq<CallMade>
      requires Valid()
      reads this
    {
      CallsMade(states, steps, |steps|, e)
    }

    ghost function LastStep(): Option<Step>
      reads this
    {
      if steps == [] then None else Some(steps[|steps| - 1])
    }

    ghost function Slept(e: nat): seq<Pause>
      reads this
    {
      if e in slept then slept[e] else []
    }

    constructor (cfg: Config, mayFail: bool)
      ensures Valid() && this.cfg == cfg && this.mayFail == mayFail && m == NewMessage && steps == []
    {
      this.cfg, this.mayFail, m := cfg, mayFail, NewMessage;
      states, steps, slept := [NewMessage], [], map[];
    }

    method Take(step: Step)
      requires Valid() && Enabled(cfg, m, step)
      modifies this
      ensures Valid() && m == Next(cfg, old(m), step) && slept == old(slept)
      ensures steps == old(steps) + [step] && states == old(states) + [m]
      ensures forall e: nat ::
        Made(e) == old(Made(e)) + if CallsProvider(old(m), step, e) then [CallOf(old(m), step, e)] else []
    {
      RunGoesOn(cfg, states, steps, step);
      forall e: nat { CallsGoOn(states, steps, Next(cfg, m, step), step, e); }
      m := Next(cfg, m, step);
      states, steps := states + [m], steps + [step];
    }

    /** Everyone else acts; the execution itself may be lost, but does nothing. */
    method Await(e: nat) returns (alive: bool)
      requires Valid() && HasExecution(m, e) && !Ended(m.executions[e].state)
      modifies this
      ensures Valid() && HasExecution(m, e) && old(steps) <= steps
      ensures Made(e) == old(Made(e)) && Slept(e) == old(Slept(e))
      ensures if alive then m.executions[e] == old(m.executions[e]) else mayFail && m.executions[e].state.Aborted?
    {
      var fails: bool := *;
      alive := !(mayFail && fails);
      if !alive { Take(Abort(e)); }
    }

    /** Asks for a sleep, and awaits its end. */
    method Sleep(e: nat, ms: nat) returns (alive: bool)
      requires Valid() && HasExecution(m, e) && !Ended(m.executions[e].state)
      modifies this
      ensures Valid() && HasExecution(m, e) && old(steps) <= steps
      ensures Made(e) == old(Made(e)) && Slept(e) == old(Slept(e)) + [Pause(ms, |Made(e)|)]
      ensures if alive then m.executions[e] == old(m.executions[e]) else mayFail && m.executions[e].state.Aborted?
    {
      slept := slept[e := Slept(e) + [Pause(ms, |Made(e)|)]];
      alive := Await(e);
    }

    /** Since step `from`, the execution has read the row, or tried to claim it, in a status that is not dispatchable. */
    ghost predicate FoundUndispatchable(e: nat, from: nat)
      reads this
    {
      exists k | from <= k < |steps| && k < |states| ::
        (steps[k] == ReadRow(e) || steps[k] == ClaimRow(e)) && !Claimable(states[k].row.status)
    }

    /** Reads the row and claims it, unless either finds it in a status that is not dispatchable. */
    method ReadAndClaim(e: nat) returns (claimed: bool)
      requires Valid() && HasExecution(m, e) && m.executions[e].state.Reading?
      modifies this
      ensures Valid() && HasExecution(m, e) && old(steps) <= steps
      ensures Made(e) == old(Made(e)) && Slept(e) == old(Slept(e))
      ensures claimed ==> m.executions[e].state == StateAt(FirstCursor(cfg)) && m.row.status == SmsStatus.Processing
      ensures claimed ==> m.row.lastError.None?
      ensures !claimed ==> m.executions[e].state.Returned? || (mayFail && m.executions[e].state.Aborted?)
      ensures !claimed && m.executions[e].state.Returned? ==> FoundUndispatchable(e, |old(steps)|)
      ensures !Claimable(old(m.row.status)) ==> m.executions[e].state.Returned? && m.row == old(m.row)
    {
      ghost var from, at := |steps|, |steps|;
      Take(ReadRow(e));
      if m.executions[e].state.Returned? {
        assert steps[at] == ReadRow(e) && !Claimable(states[at].row.status);
        return false;
      }
      var alive := Await(e);
      if !alive { return false; }
      at := |steps|;
      Take(ClaimRow(e));
      assert from <= at && steps[at] == ClaimRow(e);
      return !m.executions[e].state.Returned?;
    }

    /** Counts an attempt, then makes the call. */
    method AttemptOnce(e: nat, c: Cursor, reply: ProviderReply) returns (alive: bool)
      requires Valid() && HasExecution(m, e) && m.executions[e].state == Attempting(c)
      requires c.AtAttempt? && ValidCursor(cfg, c)
      modifies this
      ensures Valid() && HasExecution(m, e) && old(steps) <= steps && Slept(e) == old(Slept(e))
      ensures Made(e) == old(Made(e)) + if alive then [CallMade(Call(c.provider, c.attempt), reply)] else []
      ensures !mayFail ==> alive
      ensures m.executions[e].state ==
        if !alive then Aborted
        else if reply.Accept? then Accepted(cfg.providers[c.provider], reply.providerMessageId)
        else StateAt(AfterFailure(cfg, c, NormalizeFailure(cfg.providers[c.provider], reply)))
    {
      alive := Await(e);
      if !alive { return; }
      Take(CountAttempt(e));
      alive := CallOnce(e, c, reply);
    }

    /** The throttle, then the call itself. */
    method CallOnce(e: nat, c: Cursor, reply: ProviderReply) returns (alive: bool)
      requires Valid() && HasExecution(m, e) && m.executions[e].state == Calling(c)
      requires c.AtAttempt? && ValidCursor(cfg, c)
      modifies this
      ensures Valid() && HasExecution(m, e) && old(steps) <= steps && Slept(e) == old(Slept(e))
      ensures Made(e) == old(Made(e)) + if alive then [CallMade(Call(c.provider, c.attempt), reply)] else []
      ensures !mayFail ==> alive
      ensures m.executions[e].state ==
        if !alive then Aborted
        else if reply.Accept? then Accepted(cfg.providers[c.provider], reply.providerMessageId)
        else StateAt(AfterFailure(cfg, c, NormalizeFailure(cfg.providers[c.provider], reply)))
    {
      alive := Await(e);
      if !alive { return; }
      Take(CallProvider(e, reply));
    }

    /** Writes the row as the dispatch ended: the whole row is what it was but for that. */
    method WriteEnd(e: nat, end: End, now: Time)
      requires Valid() && HasExecution(m, e) && m.executions[e].state == EndState(end)
      modifies this
      ensures Valid() && HasExecution(m, e) && old(steps) <= steps
      ensures Made(e) == old(Made(e)) && Slept(e) == old(Slept(e))
      ensures m.row == EndRow(old(m.row), end, now)
      ensures m.executions[e].state == if end.SentBy? then Returned else DeadLettering
    {
      if end.SentBy? { Take(WriteSent(e, now)); } else { Take(WriteFatal(e, now)); }
    }

    /**
     * One job execution, from its read of the row to the end.  The provider calls it makes, and
     * their replies, are exactly those listed, and so are its sleeps, each between the call that
     * failed and its retry.  Unless it is interrupted, these are all of the plan's and it writes
     * exactly the plan's end; and one that gives up makes one attempt to publish a dead letter.
     */
    method Dispatch(e: nat, baseDelayMs: Positive, replies: seq<ProviderReply>, now: Time)
        returns (outcome: DispatchOutcome, calls: seq<Call>, sleeps: seq<nat>)
      requires Valid() && HasExecution(m, e) && m.executions[e].state.Reading? && Slept(e) == []
      modifies this
      ensures Valid() && HasExecution(m, e) && old(steps) <= steps
      ensures Made(e) == Paired(calls, replies)
      ensures Sleeps(Slept(e)) == sleeps && PausesFit(cfg, baseDelayMs, replies, calls, Slept(e))
      ensures m.executions[e].state == if outcome.Interrupted? then Aborted else Returned
      ensures !mayFail ==> !outcome.Interrupted?
      ensures !Claimable(old(m.row.status)) ==> outcome.Skipped? && m.row == old(m.row)
      ensures outcome.Skipped? ==> FoundUndispatchable(e, |old(steps)|)
      ensures AsPlanned(PlanOf(cfg, baseDelayMs, replies), outcome, calls, sleeps, now)
      ensures outcome.Sent? ==> m.row == outcome.row
      ensures outcome.DeadLettered? ==> LastStep() == Some(DeadLetter(e))
    {
      outcome, calls, sleeps := Skipped, [], [];
      NothingMadeYet(e);
      var claimed := ReadAndClaim(e);
      if !claimed {
        if !m.executions[e].state.Returned? { outcome := Interrupted; }
        return;
      }
      outcome, calls, sleeps := DispatchClaimed(e, baseDelayMs, replies, now);
    }

    /** What follows a successful claim. */
    method DispatchClaimed(e: nat, baseDelayMs: Positive, replies: seq<ProviderReply>, now: Time)
        returns (outcome: DispatchOutcome, calls: seq<Call>, sleeps: seq<nat>)
      requires Valid() && HasExecution(m, e) && m.executions[e].state == StateAt(FirstCursor(cfg))
      requires Made(e) == [] && Slept(e) == []
      modifies this
      ensures Valid() && HasExecution(m, e) && old(steps) <= steps
      ensures Made(e) == Paired(calls, replies)
      ensures Sleeps(Slept(e)) == sleeps && PausesFit(cfg, baseDelayMs, replies, calls, Slept(e))
      ensures m.executions[e].state == if outcome.Interrupted? then Aborted else Returned
      ensures !mayFail ==> !outcome.Interrupted?
      ensures !outcome.Skipped? && AsPlanned(PlanOf(cfg, baseDelayMs, replies), outcome, calls, sleeps, now)
      ensures outcome.Sent? ==> m.row == outcome.row
      ensures outcome.DeadLettered? ==> LastStep() == Some(DeadLetter(e))
    {
      FollowsFromTheStart(cfg, baseDelayMs, replies);
      var end;
      end, calls, sleeps := DispatchAcrossProviders(e, baseDelayMs, replies);
      outcome := Interrupted;
      if end.Some? { outcome := Finish(e, end.value, now); }
    }

    lemma NothingMadeYet(e: nat)
      requires Valid() && HasExecution(m, e) && m.executions[e].state.Reading?
      ensures Made(e) == []
    {
      CallsFollowThePlan(cfg, 1, Replies(Made(e)), states, steps, |steps|, e);
    }

    /** The final write and, after a fatal failure, the one attempt to publish a dead letter. */
    method Finish(e: nat, end: End, now: Time) returns (outcome: DispatchOutcome)
      requires Valid() && HasExecution(m, e) && m.executions[e].state == EndState(end)
      modifies this
      ensures Valid() && HasExecution(m, e) && old(steps) <= steps
      ensures Made(e) == old(Made(e)) && Slept(e) == old(Slept(e))
      ensures m.executions[e].state == if outcome.Interrupted? then Aborted else Returned
      ensures !mayFail ==> !outcome.Interrupted?
      ensures !outcome.Skipped? && (outcome.Sent? ==> end.SentBy?) && (outcome.DeadLettered? ==> end.GaveUp?)
      ensures outcome.Sent? || outcome.DeadLettered? ==> EndsRow(outcome.row, end, now)
      ensures outcome.Sent? ==> m.row == outcome.row
      ensures outcome.DeadLettered? ==> LastStep() == Some(DeadLetter(e))
    {
      outcome := Interrupted;
      var alive := Await(e);
      if !alive { return; }
      WriteEnd(e, end, now);
      var row := m.row;
      if end.SentBy? { return DispatchOutcome.Sent(row); }
      alive := PublishDeadLetter(e);
      if alive { outcome := DispatchOutcome.DeadLettered(row); }
    }

    method PublishDeadLetter(e: nat) returns (alive: bool)
      requires Valid() && HasExecution(m, e) && m.executions[e].state.DeadLettering?
      modifies this
      ensures Valid() && HasExecution(m, e) && old(steps) <= steps
      ensures Made(e) == old(Made(e)) && Slept(e) == old(Slept(e))
      ensures m.executions[e].state == if alive then Returned else Aborted
      ensures !mayFail ==> alive
      ensures alive ==> LastStep() == Some(DeadLetter(e))
    {
      alive := Await(e);
      if alive { Take(DeadLetter(e)); }
    }

    /** These are the calls the execution has made and its sleeps, each after the call it belongs to. */
    ghost predicate OnRecord(e: nat, baseDelayMs: Positive, replies: seq<ProviderReply>, calls: seq<Call>, sleeps: seq<nat>)
      requires Valid()
      reads this
    {
      Made(e) == Paired(calls, replies) && Sleeps(Slept(e)) == sleeps && PausesFit(cfg, baseDelayMs, replies, calls, Slept(e))
    }

    /** The execution is at cursor `c`, with the calls and sleeps of the plan up to there behind it. */
    ghost predicate StandsAt(e: nat, c: Cursor, baseDelayMs: Positive, replies: seq<ProviderReply>,
                             calls: seq<Call>, sleeps: seq<nat>, slept: seq<nat>)
      reads this
    {
      && Valid() && HasExecution(m, e) && m.executions[e].state == StateAt(c)
      && OnRecord(e, baseDelayMs, replies, calls, slept)
      && Follows(cfg, baseDelayMs, replies, c, calls, sleeps)
    }

    /** The execution is through with its providers, having made all calls and sleeps of the plan. */
    ghost predicate IsThrough(e: nat, end: End, baseDelayMs: Positive, replies: seq<ProviderReply>,
                              calls: seq<Call>, sleeps: seq<nat>, slept: seq<nat>)
      reads this
    {
      && Valid() && HasExecution(m, e) && m.executions[e].state == EndState(end)
      && OnRecord(e, baseDelayMs, replies, calls, slept)
      && PlanOf(cfg, baseDelayMs, replies) == Plan(calls, sleeps, end)
    }

    /** The execution is lost, having made the first of the plan's calls and sleeps. */
    ghost predicate IsLost(e: nat, baseDelayMs: Positive, replies: seq<ProviderReply>,
                           calls: seq<Call>, sleeps: seq<nat>, slept: seq<nat>)
      reads this
    {
      && mayFail && Valid() && HasExecution(m, e) && m.executions[e].state.Aborted?
      && OnRecord(e, baseDelayMs, replies, calls, slept)
      && calls <= PlanOf(cfg, baseDelayMs, replies).calls && sleeps <= PlanOf(cfg, baseDelayMs, replies).sleeps
    }

    /** One attempt of the loop, which leaves the rest of the plan to follow. */
    method AttemptOnPlan(e: nat, c: Cursor, baseDelayMs: Positive, replies: seq<ProviderReply>,
                         calls: seq<Call>, sleeps: seq<nat>, ghost slept: seq<nat>) returns (alive: bool)
      requires c.AtAttempt? && StandsAt(e, c, baseDelayMs, replies, calls, sleeps, slept)
      modifies this
      ensures old(steps) <= steps && Slept(e) == old(Slept(e))
      ensures var reply, calls' := ReplyAt(replies, |calls|), calls + [Call(c.provider, c.attempt)];
        if !alive then IsLost(e, baseDelayMs, replies, calls, sleeps, slept)
        else if reply.Accept? then
          IsThrough(e, SentBy(cfg.providers[c.provider], reply.providerMessageId), baseDelayMs, replies, calls', sleeps, slept)
        else
          var failure := FailureAt(cfg, replies, c.provider, |calls|);
          && StandsAt(e, AfterFailure(cfg, c, failure), baseDelayMs, replies, calls',
                      sleeps + if Retries(cfg, c, failure) then [RetryDelay(c.attempt, baseDelayMs, failure)] else [], slept)
          && (Retries(cfg, c, failure) ==>
                PausesFit(cfg, baseDelayMs, replies, calls', Slept(e) + [Pause(RetryDelay(c.attempt, baseDelayMs, failure), |calls'|)]))
    {
      var reply := ReplyAt(replies, |calls|);
      alive := AttemptOnce(e, c, reply);
      if alive {
        PairedOneMore(calls, Call(c.provider, c.attempt), replies);
        PausesFitLonger(cfg, baseDelayMs, replies, calls, Call(c.provider, c.attempt), Slept(e));
        if reply.Accept? {
          FollowsToAcceptance(cfg, baseDelayMs, replies, c, calls, sleeps);
        } else {
          FollowsThroughFailure(cfg, baseDelayMs, replies, c, calls, sleeps);
          PauseIsDue(cfg, baseDelayMs, replies, calls, c, Slept(e));
        }
      }
    }

    /** The sleep that is due before the next attempt. */
    method SleepOnPlan(e: nat, ms: nat, ghost c: Cursor, ghost baseDelayMs: Positive, ghost replies: seq<ProviderReply>,
                       ghost calls: seq<Call>, ghost sleeps: seq<nat>, ghost slept: seq<nat>) returns (alive: bool)
      requires c.AtAttempt? && StandsAt(e, c, baseDelayMs, replies, calls, sleeps, slept)
      requires PausesFit(cfg, baseDelayMs, replies, calls, Slept(e) + [Pause(ms, |calls|)])
      modifies this
      ensures old(steps) <= steps
      ensures if alive then StandsAt(e, c, baseDelayMs, replies, calls, sleeps, slept + [ms])
              else IsLost(e, baseDelayMs, replies, calls, sleeps, slept + [ms])
    {
      assert Sleeps(Slept(e) + [Pause(ms, |calls|)]) == slept + [ms];
      alive := Sleep(e, ms);
    }

    /** An attempt and, when it is to be retried, the sleep before the next one. */
    method AttemptAndSleep(e: nat, c: Cursor, baseDelayMs: Positive, replies: seq<ProviderReply>,
                           calls: seq<Call>, sleeps: seq<nat>) returns (alive: bool, calls': seq<Call>, sleeps': seq<nat>)
      requires c.AtAttempt? && StandsAt(e, c, baseDelayMs, replies, calls, sleeps, sleeps)
      modifies this
      ensures old(steps) <= steps
      ensures var reply := ReplyAt(replies, |calls|);
        if !alive then IsLost(e, baseDelayMs, replies, calls', sleeps', sleeps')
        else if reply.Accept? then
          IsThrough(e, SentBy(cfg.providers[c.provider], reply.providerMessageId), baseDelayMs, replies, calls', sleeps', sleeps')
        else
          var failure := NormalizeFailure(cfg.providers[c.provider], reply);
          StandsAt(e, AfterFailure(cfg, c, failure), baseDelayMs, replies, calls', sleeps', sleeps')
    {
      var reply := ReplyAt(replies, |calls|);
      calls', sleeps' := calls, sleeps;
      alive := AttemptOnPlan(e, c, baseDelayMs, replies, calls, sleeps, sleeps);
      if !alive { return; }
      calls' := calls + [Call(c.provider, c.attempt)];
      if reply.Accept? { return; }
      var failure := NormalizeFailure(cfg.providers[c.provider], reply);
      if !failure.isRetryable || c.attempt >= cfg.maxRetries {
        assert sleeps + [] == sleeps;
        return;
      }
      var delayMs := RetryDelay(c.attempt, baseDelayMs, failure);
      sleeps' := sleeps + [delayMs];
      alive := SleepOnPlan(e, delayMs, AfterFailure(cfg, c, failure), baseDelayMs, replies, calls', sleeps', sleeps);
    }

    lemma ThroughAtTheEnd(e: nat, c: Cursor, baseDelayMs: Positive, replies: seq<ProviderReply>, calls: seq<Call>, sleeps: seq<nat>)
      requires c.OutOfProviders? && StandsAt(e, c, baseDelayMs, replies, calls, sleeps, sleeps)
      ensures IsThrough(e, GaveUp(c.lastProvider, c.lastError), baseDelayMs, replies, calls, sleeps, sleeps)
    {
      FollowsToTheEnd(cfg, baseDelayMs, replies, c, calls, sleeps);
    }

    /** The loop over the attempts at one provider. */
    method AttemptProvider(e: nat, providerIndex: nat, baseDelayMs: Positive, replies: seq<ProviderReply>,
                           calls0: seq<Call>, sleeps0: seq<nat>)
        returns (outcome: ProviderOutcome, calls: seq<Call>, sleeps: seq<nat>)
      requires providerIndex < |cfg.providers|
      requires StandsAt(e, AtAttempt(providerIndex, 1), baseDelayMs, replies, calls0, sleeps0, sleeps0)
      modifies this
      ensures old(steps) <= steps
      ensures match outcome
        case Lost => IsLost(e, baseDelayMs, replies, calls, sleeps, sleeps)
        case Accepts(end) => IsThrough(e, end, baseDelayMs, replies, calls, sleeps, sleeps)
        case Fails(error) =>
          StandsAt(e, AfterProvider(cfg, providerIndex, error), baseDelayMs, replies, calls, sleeps, sleeps)
    {
      calls, sleeps := calls0, sleeps0;
      var attempt: Positive := 1;
      while true
        invariant attempt <= cfg.maxRetries && old(steps) <= steps
        invariant StandsAt(e, AtAttempt(providerIndex, attempt), baseDelayMs, replies, calls, sleeps, sleeps)
        decreases cfg.maxRetries - attempt
      {
        var reply := ReplyAt(replies, |calls|);
        var alive;
        alive, calls, sleeps := AttemptAndSleep(e, AtAttempt(providerIndex, attempt), baseDelayMs, replies, calls, sleeps);
        if !alive { return Lost, calls, sleeps; }
        if reply.Accept? {
          return Accepts(SentBy(cfg.providers[providerIndex], reply.providerMessageId)), calls, sleeps;
        }
        var failure := NormalizeFailure(cfg.providers[providerIndex], reply);
        if !failure.isRetryable || attempt >= cfg.maxRetries {
          return Fails(failure.error), calls, sleeps;
        }
        attempt := attempt + 1;
      }
    }

    /** The loop over providers. */
    method DispatchAcrossProviders(e: nat, baseDelayMs: Positive, replies: seq<ProviderReply>)
        returns (end: Option<End>, calls: seq<Call>, sleeps: seq<nat>)
      requires StandsAt(e, FirstCursor(cfg), baseDelayMs, replies, [], [], [])
      modifies this
      ensures old(steps) <= steps
      ensures match end
        case Some(end) => IsThrough(e, end, baseDelayMs, replies, calls, sleeps, sleeps)
        case None => IsLost(e, baseDelayMs, replies, calls, sleeps, sleeps)
    {
      calls, sleeps := [], [];
      var lastProviderName := if cfg.providers == [] then "unknown" else cfg.providers[0];
      var lastError := "No SMS provider is configured.";
      var providerIndex := 0;
      ghost var c := FirstCursor(cfg);
      while providerIndex < |cfg.providers|
        invariant 0 <= providerIndex <= |cfg.providers|
        invariant c == if providerIndex < |cfg.providers| then AtAttempt(providerIndex, 1)
                       else OutOfProviders(lastProviderName, lastError)
        invariant StandsAt(e, c, baseDelayMs, replies, calls, sleeps, sleeps) && old(steps) <= steps
      {
        lastProviderName := cfg.providers[providerIndex];
        var outcome;
        outcome, calls, sleeps := AttemptProvider(e, providerIndex, baseDelayMs, replies, calls, sleeps);
        match outcome
        case Lost => return None, calls, sleeps;
        case Accepts(end) => return Some(end), calls, sleeps;
        case Fails(error) => lastError := error;
        c := AfterProvider(cfg, providerIndex, lastError);
        providerIndex := providerIndex + 1;
      }
      ThroughAtTheEnd(e, c, baseDelayMs, replies, calls, sleeps);
      end := Some(GaveUp(lastProviderName, lastError));
    }
  }
}
