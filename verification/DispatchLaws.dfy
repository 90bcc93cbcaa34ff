// What the calls, the sleeps and the end of a plan are, in terms of the replies' own fields.

module DispatchLaws {
  import opened Numbers
  import opened SmsMessage
  import opened DispatchPlan

  // ---------------------------------------------------------------- the next call

  /** An exception, or a refusal that the provider marked as worth retrying. */
  predicate MayBeRetried(reply: ProviderReply) {
    reply.Threw? || (reply.Refuse? && reply.isRetryable)
  }

  /**
   * What follows a call with this reply: nothing after an acceptance; another attempt after a
   * failure worth retrying, below the limit; otherwise the next provider, if there is one.
   */
  ghost predicate CallFollowed(cfg: Config, calls: seq<Call>, i: nat, reply: ProviderReply)
    requires i < |calls|
  {
    var call := calls[i];
    && call.provider < |cfg.providers| && 1 <= call.attempt <= cfg.maxRetries
    && (if reply.Accept? then i + 1 == |calls|
        else if MayBeRetried(reply) && call.attempt < cfg.maxRetries then
          i + 1 < |calls| && calls[i + 1] == Call(call.provider, call.attempt + 1)
        else if call.provider + 1 < |cfg.providers| then
          i + 1 < |calls| && calls[i + 1] == Call(call.provider + 1, 1)
        else i + 1 == |calls|)
  }

  ghost predicate FollowedAt(cfg: Config, replies: seq<ProviderReply>, calls: seq<Call>, k: nat, i: nat)
    requires i < |calls|
  {
    CallFollowed(cfg, calls, i, ReplyAt(replies, k + i))
  }

  /** So it is of every call of the list, the first of which got the `k`-th reply. */
  ghost predicate AllFollowed(cfg: Config, replies: seq<ProviderReply>, calls: seq<Call>, k: nat) {
    forall i | 0 <= i < |calls| :: FollowedAt(cfg, replies, calls, k, i)
  }

  lemma {:induction false} CallsFromFollow(cfg: Config, baseDelayMs: Positive, replies: seq<ProviderReply>, c: Cursor, k: nat)
    requires ValidCursor(cfg, c)
    ensures AllFollowed(cfg, replies, PlanFrom(cfg, baseDelayMs, replies, c, k).calls, k)
    decreases ProvidersLeft(cfg, c), AttemptsLeft(cfg, c)
  {
    if c.AtAttempt? {
      var call := Call(c.provider, c.attempt);
      FirstFollowed(cfg, baseDelayMs, replies, c, k);
      CallsUnfold(cfg, baseDelayMs, replies, c, k);
      if ReplyAt(replies, k).Accept? {
        FollowedBefore(cfg, replies, call, [], k);
      } else {
        var next := AfterFailure(cfg, c, FailureAt(cfg, replies, c.provider, k));
        CallsFromFollow(cfg, baseDelayMs, replies, next, k + 1);
        FollowedBefore(cfg, replies, call, PlanFrom(cfg, baseDelayMs, replies, next, k + 1).calls, k);
      }
    }
  }

  lemma FirstFollowed(cfg: Config, baseDelayMs: Positive, replies: seq<ProviderReply>, c: Cursor, k: nat)
    requires c.AtAttempt? && ValidCursor(cfg, c)
    ensures PlanFrom(cfg, baseDelayMs, replies, c, k).calls != []
    ensures FollowedAt(cfg, replies, PlanFrom(cfg, baseDelayMs, replies, c, k).calls, k, 0)
  {
    CallsUnfold(cfg, baseDelayMs, replies, c, k);
    if !ReplyAt(replies, k).Accept? {
      var next := AfterFailure(cfg, c, FailureAt(cfg, replies, c.provider, k));
      if next.AtAttempt? { CallsUnfold(cfg, baseDelayMs, replies, next, k + 1); }
    }
  }

  lemma FollowedBefore(cfg: Config, replies: seq<ProviderReply>, call: Call, later: seq<Call>, k: nat)
    requires AllFollowed(cfg, replies, later, k + 1)
    requires FollowedAt(cfg, replies, [call] + later, k, 0)
    ensures AllFollowed(cfg, replies, [call] + later, k)
  {
    var calls := [call] + later;
    forall i | 0 <= i < |calls| ensures FollowedAt(cfg, replies, calls, k, i) {
      if i > 0 {
        assert FollowedAt(cfg, replies, later, k + 1, i - 1);
        assert calls[i] == later[i - 1] && (i < |later| ==> calls[i + 1] == later[i]);
        assert k + i == (k + 1) + (i - 1);
      }
    }
  }

  /** The calls of a dispatch: the first attempt at the first provider, and from there as the replies say. */
  lemma PlanFollowsReplies(cfg: Config, baseDelayMs: Positive, replies: seq<ProviderReply>)
    ensures var calls := PlanOf(cfg, baseDelayMs, replies).calls;
      && (calls == [] <==> cfg.providers == [])
      && (calls != [] ==> calls[0] == Call(0, 1))
      && AllFollowed(cfg, replies, calls, 0)
  {
    CallsFromFollow(cfg, baseDelayMs, replies, FirstCursor(cfg), 0);
    if cfg.providers != [] { CallsUnfold(cfg, baseDelayMs, replies, FirstCursor(cfg), 0); }
  }

  /** No other list of calls starts and goes on like that. */
  lemma {:induction false} CallsAreDetermined(cfg: Config, replies: seq<ProviderReply>, a: seq<Call>, b: seq<Call>, n: nat)
    requires a != [] && b != [] && a[0] == b[0] && n <= |a|
    requires AllFollowed(cfg, replies, a, 0) && AllFollowed(cfg, replies, b, 0)
    ensures n <= |b| && a[..n] == b[..n] && (n == |a| ==> a == b)
  {
    if n > 1 {
      CallsAreDetermined(cfg, replies, a, b, n - 1);
      assert a[n - 2] == a[..n - 1][n - 2] && b[n - 2] == b[..n - 1][n - 2];
      assert FollowedAt(cfg, replies, a, 0, n - 2) && FollowedAt(cfg, replies, b, 0, n - 2);
    }
    if n == |a| {
      assert FollowedAt(cfg, replies, a, 0, n - 1) && FollowedAt(cfg, replies, b, 0, n - 1);
    }
  }

  // ---------------------------------------------------------------- failover after an exception

  /**
   * In the calls of any dispatch, an exception is followed by a call to another provider exactly
   * when it ended the last attempt allowed; otherwise the same provider is called again.  It ends
   * the dispatch exactly when it ended the last attempt at the last provider.
   */
  lemma ThrowMovesOnOnlyAtTheLimit(cfg: Config, baseDelayMs: Positive, replies: seq<ProviderReply>, i: nat)
    requires i < |PlanOf(cfg, baseDelayMs, replies).calls| && ReplyAt(replies, i).Threw?
    ensures var calls := PlanOf(cfg, baseDelayMs, replies).calls;
      && (i + 1 < |calls| ==> (calls[i + 1].provider != calls[i].provider <==> calls[i].attempt == cfg.maxRetries))
      && (i + 1 < |calls| && calls[i].attempt < cfg.maxRetries ==> calls[i + 1] == Call(calls[i].provider, calls[i].attempt + 1))
      && (i + 1 == |calls| <==> calls[i].attempt == cfg.maxRetries && calls[i].provider + 1 == |cfg.providers|)
  {
    PlanFollowsReplies(cfg, baseDelayMs, replies);
    assert FollowedAt(cfg, replies, PlanOf(cfg, baseDelayMs, replies).calls, 0, i);
  }

  /** A provider that throws from its first attempt on is called up to the retry limit, whatever others there are. */
  lemma ThrowingProviderIsRetried(cfg: Config, baseDelayMs: Positive, replies: seq<ProviderReply>, i: nat, j: nat)
    requires i < |PlanOf(cfg, baseDelayMs, replies).calls| && PlanOf(cfg, baseDelayMs, replies).calls[i].attempt == 1
    requires j < cfg.maxRetries && forall k :: i <= k < i + j ==> ReplyAt(replies, k).Threw?
    ensures var calls := PlanOf(cfg, baseDelayMs, replies).calls;
      i + j < |calls| && calls[i + j] == Call(calls[i].provider, j + 1)
  {
    var calls := PlanOf(cfg, baseDelayMs, replies).calls;
    PlanFollowsReplies(cfg, baseDelayMs, replies);
    AttemptsFollow(cfg, calls, replies, i, j);
  }

  lemma {:induction false} AttemptsFollow(cfg: Config, calls: seq<Call>, replies: seq<ProviderReply>, i: nat, j: nat)
    requires i < |calls| && calls[i].attempt == 1 && j < cfg.maxRetries
    requires AllFollowed(cfg, replies, calls, 0) && forall k :: i <= k < i + j ==> ReplyAt(replies, k).Threw?
    ensures i + j < |calls| && calls[i + j] == Call(calls[i].provider, j + 1)
  {
    if j > 0 {
      AttemptsFollow(cfg, calls, replies, i, j - 1);
      assert FollowedAt(cfg, replies, calls, 0, i + j - 1);
    }
  }

  /** Two providers and two attempts each: the first provider throws, and is called again. */
  lemma ThrowWithoutFailover() returns (cfg: Config, replies: seq<ProviderReply>)
    ensures replies != [] && replies[0] == Threw(Some("socket hang up")) && |cfg.providers| == 2
    ensures forall baseDelayMs: Positive ::
      PlanOf(cfg, baseDelayMs, replies).calls == [Call(0, 1), Call(0, 2)]
  {
    cfg, replies := Config(["twilio", "bird"], 2), [Threw(Some("socket hang up")), Accept(None)];
    forall baseDelayMs: Positive ensures PlanOf(cfg, baseDelayMs, replies).calls == [Call(0, 1), Call(0, 2)] {
      CallsUnfold(cfg, baseDelayMs, replies, AtAttempt(0, 1), 0);
      CallsUnfold(cfg, baseDelayMs, replies, AtAttempt(0, 2), 1);
    }
  }

  // ---------------------------------------------------------------- the pauses

  /** The reply's own wish, if it has one. */
  function OwnPause(reply: ProviderReply): nat {
    if reply.Refuse? && reply.retryAfterMs.Some? then reply.retryAfterMs.value else 0
  }

  /** How long to wait after a failed attempt: the backoff or the reply's own wish, whichever is longer. */
  ghost predicate IsPause(ms: nat, attempt: nat, baseDelayMs: Positive, reply: ProviderReply) {
    && 1 <= attempt
    && baseDelayMs * Pow2(attempt - 1) <= ms && OwnPause(reply) <= ms
    && (ms == baseDelayMs * Pow2(attempt - 1) || ms == OwnPause(reply))
  }

  lemma RetryDelayIsPause(cfg: Config, provider: nat, attempt: Positive, baseDelayMs: Positive, reply: ProviderReply)
    requires provider < |cfg.providers| && !reply.Accept?
    ensures IsPause(RetryDelay(attempt, baseDelayMs, NormalizeFailure(cfg.providers[provider], reply)), attempt, baseDelayMs, reply)
  {
    RetryDelayIsTheLonger(attempt, baseDelayMs, NormalizeFailure(cfg.providers[provider], reply));
  }

  /** A sleep after call `i`: its retry follows, and the sleep is as long as the reply says. */
  ghost predicate SleepFits(baseDelayMs: Positive, replies: seq<ProviderReply>, calls: seq<Call>, ms: nat, i: nat, k: nat) {
    && i + 1 < |calls| && calls[i + 1] == Call(calls[i].provider, calls[i].attempt + 1)
    && IsPause(ms, calls[i].attempt, baseDelayMs, ReplyAt(replies, k + i))
  }

  predicate IsRetry(calls: seq<Call>, i: nat) {
    i + 1 < |calls| && calls[i + 1].attempt > 1
  }

  /** The sleeps are those after the calls listed, in order: exactly the calls that are followed by a retry. */
  ghost predicate SleepsFit(baseDelayMs: Positive, replies: seq<ProviderReply>, calls: seq<Call>, sleeps: seq<nat>,
                            after: seq<nat>, k: nat)
  {
    && |after| == |sleeps|
    && (forall i, j | 0 <= i < j < |after| :: after[i] < after[j])
    && (forall j | 0 <= j < |after| :: SleepFits(baseDelayMs, replies, calls, sleeps[j], after[j], k))
    && (forall i: nat | IsRetry(calls, i) :: i in after)
  }

  function Shifted(after: seq<nat>): (shifted: seq<nat>)
    ensures |shifted| == |after| && forall j | 0 <= j < |after| :: shifted[j] == after[j] + 1
  {
    seq(|after|, j requires 0 <= j < |after| => after[j] + 1)
  }

  lemma SleepFitsLater(baseDelayMs: Positive, replies: seq<ProviderReply>, call: Call, later: seq<Call>, ms: nat, i: nat, k: nat)
    requires SleepFits(baseDelayMs, replies, later, ms, i, k + 1)
    ensures SleepFits(baseDelayMs, replies, [call] + later, ms, i + 1, k)
  {
    var calls := [call] + later;
    assert calls[i + 1] == later[i] && calls[i + 2] == later[i + 1] && k + (i + 1) == (k + 1) + i;
  }

  lemma RetriesStayListed(call: Call, later: seq<Call>, after: seq<nat>, all: seq<nat>)
    requires forall i: nat | IsRetry(later, i) :: i in after
    requires Shifted(after) == all || [0] + Shifted(after) == all
    ensures forall i: nat | IsRetry([call] + later, i) && i > 0 :: i in all
  {
    forall i: nat | IsRetry([call] + later, i) && i > 0 ensures i in all {
      assert ([call] + later)[i + 1] == later[i] && IsRetry(later, i - 1);
      var j :| 0 <= j < |after| && after[j] == i - 1;
      assert Shifted(after)[j] == i;
    }
  }

  /** With no sleep after the first of the calls, which no retry follows. */
  lemma SleepsFitWithout(baseDelayMs: Positive, replies: seq<ProviderReply>, call: Call, later: seq<Call>, sleeps: seq<nat>,
                         after: seq<nat>, k: nat)
    requires SleepsFit(baseDelayMs, replies, later, sleeps, after, k + 1)
    requires later == [] || later[0].attempt <= 1
    ensures SleepsFit(baseDelayMs, replies, [call] + later, sleeps, Shifted(after), k)
  {
    var calls, all := [call] + later, Shifted(after);
    forall j | 0 <= j < |all| ensures SleepFits(baseDelayMs, replies, calls, sleeps[j], all[j], k) {
      SleepFitsLater(baseDelayMs, replies, call, later, sleeps[j], after[j], k);
    }
    RetriesStayListed(call, later, after, all);
  }

  /** With a sleep after the first of the calls, which its retry follows. */
  lemma SleepsFitWith(baseDelayMs: Positive, replies: seq<ProviderReply>, call: Call, later: seq<Call>, sleeps: seq<nat>,
                      after: seq<nat>, ms: nat, k: nat)
    requires SleepsFit(baseDelayMs, replies, later, sleeps, after, k + 1)
    requires SleepFits(baseDelayMs, replies, [call] + later, ms, 0, k)
    ensures SleepsFit(baseDelayMs, replies, [call] + later, [ms] + sleeps, [0] + Shifted(after), k)
  {
    var calls, all, slept := [call] + later, [0] + Shifted(after), [ms] + sleeps;
    forall j | 0 <= j < |all| ensures SleepFits(baseDelayMs, replies, calls, slept[j], all[j], k) {
      if j > 0 { SleepFitsLater(baseDelayMs, replies, call, later, sleeps[j - 1], after[j - 1], k); }
    }
    RetriesStayListed(call, later, after, all);
    assert all[0] == 0;
  }

  lemma {:induction false} SleepsFromFollow(cfg: Config, baseDelayMs: Positive, replies: seq<ProviderReply>, c: Cursor, k: nat)
      returns (after: seq<nat>)
    requires ValidCursor(cfg, c)
    ensures var plan := PlanFrom(cfg, baseDelayMs, replies, c, k);
      SleepsFit(baseDelayMs, replies, plan.calls, plan.sleeps, after, k)
    decreases ProvidersLeft(cfg, c), AttemptsLeft(cfg, c)
  {
    after := [];
    if c.AtAttempt? && !ReplyAt(replies, k).Accept? {
      var failure, call := FailureAt(cfg, replies, c.provider, k), Call(c.provider, c.attempt);
      var next := AfterFailure(cfg, c, failure);
      var later := PlanFrom(cfg, baseDelayMs, replies, next, k + 1);
      after := SleepsFromFollow(cfg, baseDelayMs, replies, next, k + 1);
      PlanUnfold(cfg, baseDelayMs, replies, c, k);
      if next.AtAttempt? { CallsUnfold(cfg, baseDelayMs, replies, next, k + 1); }
      if Retries(cfg, c, failure) {
        RetryDelayIsPause(cfg, c.provider, c.attempt, baseDelayMs, ReplyAt(replies, k));
        SleepsFitWith(baseDelayMs, replies, call, later.calls, later.sleeps, after, RetryDelay(c.attempt, baseDelayMs, failure), k);
        after := [0] + Shifted(after);
      } else {
        SleepsFitWithout(baseDelayMs, replies, call, later.calls, later.sleeps, after, k);
        assert [] + later.sleeps == later.sleeps;
        after := Shifted(after);
      }
    }
  }

  /** A dispatch sleeps before its retries, once before each, and nowhere else; each as long as it has to. */
  lemma PlanSleepsBeforeRetries(cfg: Config, baseDelayMs: Positive, replies: seq<ProviderReply>) returns (after: seq<nat>)
    ensures var plan := PlanOf(cfg, baseDelayMs, replies);
      SleepsFit(baseDelayMs, replies, plan.calls, plan.sleeps, after, 0)
  {
    after := SleepsFromFollow(cfg, baseDelayMs, replies, FirstCursor(cfg), 0);
  }

  lemma PlanUnfold(cfg: Config, baseDelayMs: Positive, replies: seq<ProviderReply>, c: Cursor, k: nat)
    requires c.AtAttempt? && ValidCursor(cfg, c) && !ReplyAt(replies, k).Accept?
    ensures var failure := FailureAt(cfg, replies, c.provider, k);
      var later := PlanFrom(cfg, baseDelayMs, replies, AfterFailure(cfg, c, failure), k + 1);
      && PlanFrom(cfg, baseDelayMs, replies, c, k).calls == [Call(c.provider, c.attempt)] + later.calls
      && PlanFrom(cfg, baseDelayMs, replies, c, k).end == later.end
      && PlanFrom(cfg, baseDelayMs, replies, c, k).sleeps
         == (if Retries(cfg, c, failure) then [RetryDelay(c.attempt, baseDelayMs, failure)] else []) + later.sleeps
  {
  }

  // ---------------------------------------------------------------- the end

  /** A dispatch that ends with this reply from this provider: sent under its id, or given up with its own words. */
  predicate EndsWith(provider: string, reply: ProviderReply, end: End) {
    match reply
    case Accept(id) => end == SentBy(provider, id)
    case Refuse(Some(error), _, _) => end == GaveUp(provider, error)
    case Refuse(None, _, _) => end == GaveUp(provider, "SMS provider returned an unsuccessful response.")
    case Threw(Some(message)) => end == GaveUp(provider, message)
    case Threw(None) => end == GaveUp(provider, "Provider " + provider + " threw an error.")
  }

  /** A dispatch ends with the reply to its last call; without a provider it gives up at once. */
  lemma PlanEndsWithLastReply(cfg: Config, baseDelayMs: Positive, replies: seq<ProviderReply>)
    ensures var plan := PlanOf(cfg, baseDelayMs, replies);
      if cfg.providers == [] then plan == Plan([], [], GaveUp("unknown", "No SMS provider is configured."))
      else
        && plan.calls != [] && plan.calls[|plan.calls| - 1].provider < |cfg.providers|
        && EndsWith(cfg.providers[plan.calls[|plan.calls| - 1].provider], ReplyAt(replies, |plan.calls| - 1), plan.end)
  {
    if cfg.providers != [] {
      PlanEnd(cfg, baseDelayMs, replies, FirstCursor(cfg), 0);
      LastReplyEnds(cfg, replies, PlanOf(cfg, baseDelayMs, replies));
    }
  }

  lemma LastReplyEnds(cfg: Config, replies: seq<ProviderReply>, plan: Plan)
    requires EndsWithLastCall(cfg, replies, 0, plan)
    ensures plan.calls != [] && plan.calls[|plan.calls| - 1].provider < |cfg.providers|
    ensures EndsWith(cfg.providers[plan.calls[|plan.calls| - 1].provider], ReplyAt(replies, |plan.calls| - 1), plan.end)
  {
  }
}
