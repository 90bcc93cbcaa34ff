// What one dispatch does, as a function of the providers, the retry limit and the replies: which
// provider calls it makes, how long it sleeps between them, and how the message ends.

module DispatchPlan {
  import opened Numbers
  import opened SmsMessage

  /** The configuration is validated at startup, which refuses values below 1. */
  datatype Config = Config(providers: seq<string>, maxRetries: Positive)

  /** What a provider strategy gives back; `Threw` is an exception it let escape. */
  datatype ProviderReply =
    | Accept(providerMessageId: Option<string>)
    | Refuse(error: Option<string>, isRetryable: bool, retryAfterMs: Option<nat>)
    | Threw(message: Option<string>)

  /** The reply to the `k`-th provider call of a dispatch; past the end of the list they all throw. */
  function ReplyAt(replies: seq<ProviderReply>, k: nat): ProviderReply {
    if k < |replies| then replies[k] else Threw(None)
  }

  /** An unsuccessful send, as `sendWithProvider` normalizes it. */
  datatype Failure = Failure(error: string, isRetryable: bool, retryAfterMs: nat)

  function NormalizeFailure(provider: string, reply: ProviderReply): Failure
    requires !reply.Accept?
  {
    match reply
    case Refuse(error, isRetryable, retryAfterMs) =>
      Failure(if error.Some? then error.value else "SMS provider returned an unsuccessful response.",
              isRetryable,
              if retryAfterMs.Some? then retryAfterMs.value else 0)
    case Threw(message) =>
      Failure(if message.Some? then message.value else "Provider " + provider + " threw an error.",
              true, 0)
  }

  /** Where a dispatch stands: about to make an attempt, or out of providers. */
  datatype Cursor =
    | AtAttempt(provider: nat, attempt: nat)
    | OutOfProviders(lastProvider: string, lastError: string)

  predicate ValidCursor(cfg: Config, c: Cursor) {
    c.AtAttempt? ==> c.provider < |cfg.providers| && 1 <= c.attempt <= cfg.maxRetries
  }

  function FirstCursor(cfg: Config): (c: Cursor)
    ensures ValidCursor(cfg, c)
  {
    if cfg.providers == [] then OutOfProviders("unknown", "No SMS provider is configured.")
    else AtAttempt(0, 1)
  }

  predicate Retries(cfg: Config, c: Cursor, failure: Failure)
    requires c.AtAttempt?
  {
    failure.isRetryable && c.attempt < cfg.maxRetries
  }

  function ProvidersLeft(cfg: Config, c: Cursor): nat
    requires ValidCursor(cfg, c)
  {
    if c.AtAttempt? then |cfg.providers| - c.provider else 0
  }

  function AttemptsLeft(cfg: Config, c: Cursor): nat
    requires ValidCursor(cfg, c)
  {
    if c.AtAttempt? then cfg.maxRetries - c.attempt else 0
  }

  /** Where a dispatch goes when a provider has failed for good. */
  function AfterProvider(cfg: Config, provider: nat, error: string): Cursor
    requires provider < |cfg.providers|
  {
    if provider + 1 < |cfg.providers| then AtAttempt(provider + 1, 1) else OutOfProviders(cfg.providers[provider], error)
  }

  function AfterFailure(cfg: Config, c: Cursor, failure: Failure): (next: Cursor)
    requires c.AtAttempt? && ValidCursor(cfg, c)
    ensures ValidCursor(cfg, next)
    ensures ProvidersLeft(cfg, next) < ProvidersLeft(cfg, c)
            || (ProvidersLeft(cfg, next) == ProvidersLeft(cfg, c) && AttemptsLeft(cfg, next) < AttemptsLeft(cfg, c))
  {
    if Retries(cfg, c, failure) then AtAttempt(c.provider, c.attempt + 1)
    else AfterProvider(cfg, c.provider, failure.error)
  }

  /** Calls already spent when the cursor is reached, at the very most. */
  function CallsBefore(cfg: Config, c: Cursor): nat
    requires ValidCursor(cfg, c)
  {
    if c.AtAttempt? then c.provider * cfg.maxRetries + c.attempt - 1
    else |cfg.providers| * cfg.maxRetries
  }

  lemma CursorAdvances(cfg: Config, c: Cursor, failure: Failure)
    requires c.AtAttempt? && ValidCursor(cfg, c)
    ensures CallsBefore(cfg, c) + 1 <= CallsBefore(cfg, AfterFailure(cfg, c, failure))
    ensures CallsBefore(cfg, AfterFailure(cfg, c, failure)) <= |cfg.providers| * cfg.maxRetries
  {
    var m, n := cfg.maxRetries, |cfg.providers|;
    assert (c.provider + 1) * m == c.provider * m + m;
    MultiplyMonotone(c.provider + 1, n, m);
    if c.provider + 2 <= n { MultiplyMonotone(c.provider + 2, n, m); }
    assert c.provider + 2 <= n ==> (c.provider + 2) * m == c.provider * m + m + m;
  }

  // ---------------------------------------------------------------- backoff

  function Pow2(n: nat): (p: nat)
    ensures p >= 1
  {
    if n == 0 then 1 else 2 * Pow2(n - 1)
  }

  function Doubled(ms: Positive, times: nat): Positive {
    if times == 0 then ms else 2 * Doubled(ms, times - 1)
  }

  lemma {:induction false} DoubledIsPow2(ms: Positive, times: nat)
    ensures Doubled(ms, times) == ms * Pow2(times)
  {
    if times > 0 {
      DoubledIsPow2(ms, times - 1);
      TwiceProduct(ms, Pow2(times - 1));
    }
  }

  datatype BackoffResult = Delay(ms: nat) | InvalidAttempt(attempt: int) | InvalidBaseDelay(baseDelayMs: int)

  function CalculateExponentialBackoff(attempt: int, baseDelayMs: int): BackoffResult {
    if attempt < 1 then InvalidAttempt(attempt)
    else if baseDelayMs < 1 then InvalidBaseDelay(baseDelayMs)
    else Delay(Doubled(baseDelayMs, attempt - 1))
  }

  function RetryDelay(attempt: Positive, baseDelayMs: Positive, failure: Failure): nat {
    var backoff := CalculateExponentialBackoff(attempt, baseDelayMs).ms;
    if failure.retryAfterMs > backoff then failure.retryAfterMs else backoff
  }

  /**
   * The delay before the next attempt: base * 2^(attempt-1), or the provider's own pause when that
   * is longer.  A bad attempt number or base is an error, the former first.
   */
  lemma RetryDelayIsTheLonger(attempt: int, baseDelayMs: int, failure: Failure)
    ensures match CalculateExponentialBackoff(attempt, baseDelayMs)
      case InvalidAttempt(a) => a == attempt < 1
      case InvalidBaseDelay(b) => b == baseDelayMs < 1 <= attempt
      case Delay(ms) =>
        && 1 <= attempt && 1 <= baseDelayMs && ms == baseDelayMs * Pow2(attempt - 1)
        && RetryDelay(attempt, baseDelayMs, failure) in {ms, failure.retryAfterMs}
        && ms <= RetryDelay(attempt, baseDelayMs, failure) && failure.retryAfterMs <= RetryDelay(attempt, baseDelayMs, failure)
  {
    if 1 <= attempt && 1 <= baseDelayMs { DoubledIsPow2(baseDelayMs, attempt - 1); }
  }

  // ---------------------------------------------------------------- the plan

  datatype Call = Call(provider: nat, attempt: nat)

  datatype End =
    | SentBy(provider: string, providerMessageId: Option<string>)
    | GaveUp(lastProvider: string, lastError: string)

  datatype Plan = Plan(calls: seq<Call>, sleeps: seq<nat>, end: End)

  /** The rest of a dispatch at cursor `c` whose next call is the `k`-th. */
  function PlanFrom(cfg: Config, baseDelayMs: Positive, replies: seq<ProviderReply>, c: Cursor, k: nat): Plan
    requires ValidCursor(cfg, c)
    decreases ProvidersLeft(cfg, c), AttemptsLeft(cfg, c)
  {
    match c
    case OutOfProviders(lastProvider, lastError) => Plan([], [], GaveUp(lastProvider, lastError))
    case AtAttempt(provider, attempt) =>
      var call := Call(provider, attempt);
      match ReplyAt(replies, k)
      case Accept(id) => Plan([call], [], SentBy(cfg.providers[provider], id))
      case _ =>
        var failure := NormalizeFailure(cfg.providers[provider], ReplyAt(replies, k));
        var slept := if Retries(cfg, c, failure) then [RetryDelay(attempt, baseDelayMs, failure)] else [];
        var rest := PlanFrom(cfg, baseDelayMs, replies, AfterFailure(cfg, c, failure), k + 1);
        Plan([call] + rest.calls, slept + rest.sleeps, rest.end)
  }

  function PlanOf(cfg: Config, baseDelayMs: Positive, replies: seq<ProviderReply>): Plan {
    PlanFrom(cfg, baseDelayMs, replies, FirstCursor(cfg), 0)
  }

  /** The row a dispatch writes at its end. */
  function EndRow(row: Row, end: End, now: Time): Row {
    match end
    case SentBy(provider, id) => MarkSent(row, provider, id, now)
    case GaveUp(lastProvider, lastError) => MarkFatalFailure(row, lastProvider, lastError, now)
  }

  // ---------------------------------------------------------------- the plan, in segments

  function FailureAt(cfg: Config, replies: seq<ProviderReply>, provider: nat, k: nat): Failure
    requires provider < |cfg.providers| && !ReplyAt(replies, k).Accept?
  {
    NormalizeFailure(cfg.providers[provider], ReplyAt(replies, k))
  }

  /**
   * `length` calls to one provider, the first of which is call `start`: cut at the first
   * success, at the first failure that is not worth retrying, or at the retry limit.
   */
  ghost predicate IsSegment(cfg: Config, replies: seq<ProviderReply>, provider: nat, start: nat, length: nat)
    requires provider < |cfg.providers|
  {
    && 1 <= length <= cfg.maxRetries
    && (forall k :: start <= k < start + length - 1 ==>
          !ReplyAt(replies, k).Accept? && FailureAt(cfg, replies, provider, k).isRetryable)
    && (var last := start + length - 1;
        || length == cfg.maxRetries
        || ReplyAt(replies, last).Accept?
        || !FailureAt(cfg, replies, provider, last).isRetryable)
  }

  /**
   * Segments for the providers from `provider` on, `first` calls to it and `rest` to those after
   * it, the whole cut at the first success.
   */
  ghost predicate SegmentsFrom(cfg: Config, replies: seq<ProviderReply>, provider: nat, start: nat,
                               first: nat, rest: seq<nat>)
    requires provider < |cfg.providers|
    decreases |cfg.providers| - provider
  {
    && IsSegment(cfg, replies, provider, start, first)
    && (if ReplyAt(replies, start + first - 1).Accept? || provider + 1 == |cfg.providers| then rest == []
        else rest != [] && SegmentsFrom(cfg, replies, provider + 1, start + first, rest[0], rest[1..]))
  }

  ghost predicate AreSegments(cfg: Config, replies: seq<ProviderReply>, lengths: seq<nat>) {
    if cfg.providers == [] then lengths == []
    else lengths != [] && SegmentsFrom(cfg, replies, 0, 0, lengths[0], lengths[1..])
  }

  /** `count` calls to one provider, numbered from attempt `from` on. */
  function Attempts(provider: nat, from: nat, count: nat): seq<Call>
    decreases count
  {
    if count == 0 then [] else [Call(provider, from)] + Attempts(provider, from + 1, count - 1)
  }

  /** The calls that segments of these lengths stand for, provider by provider. */
  function CallsOf(provider: nat, lengths: seq<nat>): seq<Call>
    decreases |lengths|
  {
    if lengths == [] then [] else Attempts(provider, 1, lengths[0]) + CallsOf(provider + 1, lengths[1..])
  }

  /** There is only one way to cut the replies into segments. */
  lemma SegmentsAreUnique(cfg: Config, replies: seq<ProviderReply>, a: seq<nat>, b: seq<nat>)
    requires AreSegments(cfg, replies, a) && AreSegments(cfg, replies, b)
    ensures a == b
  {
    if cfg.providers != [] {
      SegmentsFromAreUnique(cfg, replies, 0, 0, a[0], a[1..], b[0], b[1..]);
      assert a == [a[0]] + a[1..] && b == [b[0]] + b[1..];
    }
  }

  lemma {:induction false} SegmentsFromAreUnique(cfg: Config, replies: seq<ProviderReply>, provider: nat, start: nat,
                                                 a: nat, as_: seq<nat>, b: nat, bs: seq<nat>)
    requires provider < |cfg.providers|
    requires SegmentsFrom(cfg, replies, provider, start, a, as_)
    requires SegmentsFrom(cfg, replies, provider, start, b, bs)
    ensures a == b && as_ == bs
    decreases |cfg.providers| - provider
  {
    SegmentIsUnique(cfg, replies, provider, start, a, b);
    if as_ != [] && bs != [] {
      SegmentsFromAreUnique(cfg, replies, provider + 1, start + a, as_[0], as_[1..], bs[0], bs[1..]);
      assert as_ == [as_[0]] + as_[1..] && bs == [bs[0]] + bs[1..];
    }
  }

  lemma SegmentIsUnique(cfg: Config, replies: seq<ProviderReply>, provider: nat, start: nat, a: nat, b: nat)
    requires provider < |cfg.providers|
    requires IsSegment(cfg, replies, provider, start, a) && IsSegment(cfg, replies, provider, start, b)
    ensures a == b
  {
  }

  /** The provider has been called `c.attempt - 1` times, each failing in a way worth retrying. */
  ghost predicate Retrying(cfg: Config, replies: seq<ProviderReply>, c: Cursor, k: nat) {
    && c.AtAttempt? && ValidCursor(cfg, c) && c.attempt <= k + 1
    && forall j :: k + 1 - c.attempt <= j < k ==>
         !ReplyAt(replies, j).Accept? && FailureAt(cfg, replies, c.provider, j).isRetryable
  }

  /** How many calls are still to come from cursor `c`: to its own provider, then to each later one. */
  function Cut(cfg: Config, replies: seq<ProviderReply>, c: Cursor, k: nat): (cut: (nat, seq<nat>))
    requires c.AtAttempt? && ValidCursor(cfg, c)
    ensures cut.0 >= 1
    decreases ProvidersLeft(cfg, c), AttemptsLeft(cfg, c)
  {
    if ReplyAt(replies, k).Accept? then (1, [])
    else
      var failure := FailureAt(cfg, replies, c.provider, k);
      var next := AfterFailure(cfg, c, failure);
      if next.OutOfProviders? then (1, [])
      else
        var cut := Cut(cfg, replies, next, k + 1);
        if Retries(cfg, c, failure) then (cut.0 + 1, cut.1) else (1, [cut.0] + cut.1)
  }

  /** The cut is into segments, the first of which began at call `start` with the attempts before `c`. */
  ghost predicate CutFits(cfg: Config, replies: seq<ProviderReply>, c: Cursor, start: nat, cut: (nat, seq<nat>)) {
    && c.AtAttempt? && 1 <= c.attempt && c.provider < |cfg.providers|
    && SegmentsFrom(cfg, replies, c.provider, start, c.attempt - 1 + cut.0, cut.1)
  }

  lemma LastCutFits(cfg: Config, replies: seq<ProviderReply>, c: Cursor, k: nat, start: nat)
    requires Retrying(cfg, replies, c, k) && start + c.attempt == k + 1
    requires ReplyAt(replies, k).Accept? || AfterFailure(cfg, c, FailureAt(cfg, replies, c.provider, k)).OutOfProviders?
    ensures CutFits(cfg, replies, c, start, (1, []))
  {
    assert IsSegment(cfg, replies, c.provider, start, c.attempt);
  }

  lemma EarlierCutFits(cfg: Config, replies: seq<ProviderReply>, c: Cursor, k: nat, start: nat, cut: (nat, seq<nat>))
    requires Retrying(cfg, replies, c, k) && start + c.attempt == k + 1 && !ReplyAt(replies, k).Accept?
    requires var next := AfterFailure(cfg, c, FailureAt(cfg, replies, c.provider, k));
      CutFits(cfg, replies, next, if next.AtAttempt? && next.provider == c.provider then start else k + 1, cut)
    ensures CutFits(cfg, replies, c, start,
                    if Retries(cfg, c, FailureAt(cfg, replies, c.provider, k)) then (cut.0 + 1, cut.1) else (1, [cut.0] + cut.1))
  {
    if Retries(cfg, c, FailureAt(cfg, replies, c.provider, k)) {
      assert c.attempt + 1 - 1 + cut.0 == c.attempt - 1 + (cut.0 + 1);
    } else {
      assert IsSegment(cfg, replies, c.provider, start, c.attempt);
      assert ([cut.0] + cut.1)[1..] == cut.1 && start + c.attempt == k + 1 && 1 - 1 + cut.0 == cut.0;
    }
  }

  lemma RetryingNext(cfg: Config, replies: seq<ProviderReply>, c: Cursor, k: nat)
    requires Retrying(cfg, replies, c, k) && !ReplyAt(replies, k).Accept?
    ensures var next := AfterFailure(cfg, c, FailureAt(cfg, replies, c.provider, k));
      next.AtAttempt? ==> Retrying(cfg, replies, next, k + 1)
  {
  }

  lemma {:induction false} CutIsSegments(cfg: Config, replies: seq<ProviderReply>, c: Cursor, k: nat, start: nat)
    requires Retrying(cfg, replies, c, k) && start + c.attempt == k + 1
    ensures CutFits(cfg, replies, c, start, Cut(cfg, replies, c, k))
    decreases ProvidersLeft(cfg, c), AttemptsLeft(cfg, c)
  {
    if ReplyAt(replies, k).Accept? || AfterFailure(cfg, c, FailureAt(cfg, replies, c.provider, k)).OutOfProviders? {
      LastCutFits(cfg, replies, c, k, start);
    } else {
      var next := AfterFailure(cfg, c, FailureAt(cfg, replies, c.provider, k));
      RetryingNext(cfg, replies, c, k);
      CutIsSegments(cfg, replies, next, k + 1, if next.provider == c.provider then start else k + 1);
      EarlierCutFits(cfg, replies, c, k, start, Cut(cfg, replies, next, k + 1));
    }
  }

  /** The calls from cursor `c` on, for a cut of what is still to come. */
  ghost predicate CallsMatch(calls: seq<Call>, c: Cursor, cut: (nat, seq<nat>)) {
    c.AtAttempt? && calls == Attempts(c.provider, c.attempt, cut.0) + CallsOf(c.provider + 1, cut.1)
  }

  lemma LastCallMatches(c: Cursor)
    requires c.AtAttempt?
    ensures CallsMatch([Call(c.provider, c.attempt)] + [], c, (1, []))
  {
  }

  lemma EarlierCallMatches(later: seq<Call>, c: Cursor, next: Cursor, cut: (nat, seq<nat>))
    requires c.AtAttempt? && CallsMatch(later, next, cut)
    ensures next == AtAttempt(c.provider, c.attempt + 1) ==>
      CallsMatch([Call(c.provider, c.attempt)] + later, c, (cut.0 + 1, cut.1))
    ensures next == AtAttempt(c.provider + 1, 1) ==>
      CallsMatch([Call(c.provider, c.attempt)] + later, c, (1, [cut.0] + cut.1))
  {
    assert Attempts(c.provider, c.attempt, 1) == [Call(c.provider, c.attempt)];
    assert ([cut.0] + cut.1)[1..] == cut.1;
  }

  lemma {:induction false} CutGivesCalls(cfg: Config, baseDelayMs: Positive, replies: seq<ProviderReply>,
                                         c: Cursor, k: nat)
    requires c.AtAttempt? && ValidCursor(cfg, c)
    ensures CallsMatch(PlanFrom(cfg, baseDelayMs, replies, c, k).calls, c, Cut(cfg, replies, c, k))
    decreases ProvidersLeft(cfg, c), AttemptsLeft(cfg, c)
  {
    LastCallMatches(c);
    if !ReplyAt(replies, k).Accept? {
      var next := AfterFailure(cfg, c, FailureAt(cfg, replies, c.provider, k));
      if next.AtAttempt? {
        CutGivesCalls(cfg, baseDelayMs, replies, next, k + 1);
        EarlierCallMatches(PlanFrom(cfg, baseDelayMs, replies, next, k + 1).calls, c, next, Cut(cfg, replies, next, k + 1));
      }
    }
  }

  /**
   * The calls of a dispatch are exactly its provider segments, in priority order.  With
   * `SegmentsAreUnique` the lengths are determined by the replies alone.
   */
  lemma PlanIsSegments(cfg: Config, baseDelayMs: Positive, replies: seq<ProviderReply>)
      returns (lengths: seq<nat>)
    ensures AreSegments(cfg, replies, lengths)
    ensures PlanOf(cfg, baseDelayMs, replies).calls == CallsOf(0, lengths)
  {
    if cfg.providers == [] {
      lengths := [];
    } else {
      CutIsSegments(cfg, replies, FirstCursor(cfg), 0, 0);
      CutGivesCalls(cfg, baseDelayMs, replies, FirstCursor(cfg), 0);
      var cut := Cut(cfg, replies, FirstCursor(cfg), 0);
      lengths := [cut.0] + cut.1;
      assert lengths[1..] == cut.1;
    }
  }

  lemma CallsUnfold(cfg: Config, baseDelayMs: Positive, replies: seq<ProviderReply>, c: Cursor, k: nat)
    requires c.AtAttempt? && ValidCursor(cfg, c)
    ensures PlanFrom(cfg, baseDelayMs, replies, c, k).calls
            == [Call(c.provider, c.attempt)]
               + if ReplyAt(replies, k).Accept? then []
                 else PlanFrom(cfg, baseDelayMs, replies, AfterFailure(cfg, c, FailureAt(cfg, replies, c.provider, k)), k + 1).calls
  {
  }

  // ---------------------------------------------------------------- the end of a plan

  /** How a plan ends is decided by its last call; before it, every reply was a failure. */
  ghost predicate EndsWithLastCall(cfg: Config, replies: seq<ProviderReply>, k: nat, plan: Plan) {
    && plan.calls != []
    && (forall j :: k <= j < k + |plan.calls| - 1 ==> !ReplyAt(replies, j).Accept?)
    && (var provider, last := plan.calls[|plan.calls| - 1].provider, k + |plan.calls| - 1;
        && provider < |cfg.providers|
        && plan.end == match ReplyAt(replies, last)
                       case Accept(id) => SentBy(cfg.providers[provider], id)
                       case _ => GaveUp(cfg.providers[provider], FailureAt(cfg, replies, provider, last).error))
  }

  lemma {:induction false} PlanEnd(cfg: Config, baseDelayMs: Positive, replies: seq<ProviderReply>,
                                   c: Cursor, k: nat)
    requires ValidCursor(cfg, c) && c.AtAttempt?
    ensures EndsWithLastCall(cfg, replies, k, PlanFrom(cfg, baseDelayMs, replies, c, k))
    ensures |PlanFrom(cfg, baseDelayMs, replies, c, k).calls| <= |cfg.providers| * cfg.maxRetries - CallsBefore(cfg, c)
    decreases ProvidersLeft(cfg, c), AttemptsLeft(cfg, c)
  {
    CursorAdvances(cfg, c, Failure("", false, 0));
    if !ReplyAt(replies, k).Accept? {
      var failure := FailureAt(cfg, replies, c.provider, k);
      var next := AfterFailure(cfg, c, failure);
      CursorAdvances(cfg, c, failure);
      if next.AtAttempt? {
        PlanEnd(cfg, baseDelayMs, replies, next, k + 1);
        EndOfLongerPlan(cfg, replies, k, Call(c.provider, c.attempt),
                        PlanFrom(cfg, baseDelayMs, replies, next, k + 1),
                        PlanFrom(cfg, baseDelayMs, replies, c, k));
      }
    }
  }

  lemma EndOfLongerPlan(cfg: Config, replies: seq<ProviderReply>, k: nat, call: Call, rest: Plan, plan: Plan)
    requires !ReplyAt(replies, k).Accept? && EndsWithLastCall(cfg, replies, k + 1, rest)
    requires plan.calls == [call] + rest.calls && plan.end == rest.end
    ensures EndsWithLastCall(cfg, replies, k, plan)
  {
    assert plan.calls[|plan.calls| - 1] == rest.calls[|rest.calls| - 1];
  }

  lemma AcceptedLast(cfg: Config, replies: seq<ProviderReply>, plan: Plan)
    requires EndsWithLastCall(cfg, replies, 0, plan)
    ensures plan.end.SentBy? <==> exists k :: 0 <= k < |plan.calls| && ReplyAt(replies, k).Accept?
  {
    assert plan.end.SentBy? <==> ReplyAt(replies, |plan.calls| - 1).Accept?;
  }

  /** A dispatch ends SENT exactly when some call it makes is accepted. */
  lemma SentIffSomeCallAccepted(cfg: Config, baseDelayMs: Positive, replies: seq<ProviderReply>)
    ensures var plan := PlanOf(cfg, baseDelayMs, replies);
      plan.end.SentBy? <==> exists k :: 0 <= k < |plan.calls| && ReplyAt(replies, k).Accept?
  {
    if cfg.providers != [] {
      PlanEnd(cfg, baseDelayMs, replies, FirstCursor(cfg), 0);
      AcceptedLast(cfg, replies, PlanOf(cfg, baseDelayMs, replies));
    }
  }

  // ---------------------------------------------------------------- time spent sleeping

  function Total(sleeps: seq<nat>): nat {
    if sleeps == [] then 0 else sleeps[0] + Total(sleeps[1..])
  }

  lemma {:induction false} Pow2Monotone(a: nat, b: nat)
    requires a <= b
    ensures Pow2(a) <= Pow2(b)
  {
    if a < b { Pow2Monotone(a, b - 1); }
  }

  /** Pure backoff of one provider's attempts `attempt` to `maxRetries`, all failing. */
  function BackoffFrom(cfg: Config, baseDelayMs: Positive, attempt: Positive): (ms: nat)
    requires attempt <= cfg.maxRetries
  {
    Pow2Monotone(attempt - 1, cfg.maxRetries - 1);
    baseDelayMs * (Pow2(cfg.maxRetries - 1) - Pow2(attempt - 1))
  }

  /** The most a provider's remaining retries can sleep when no reply asks for more than `cap`. */
  function ProviderSleepBound(cfg: Config, baseDelayMs: Positive, cap: nat, attempt: Positive): int
    requires attempt <= cfg.maxRetries
  {
    (cfg.maxRetries - attempt) * cap + BackoffFrom(cfg, baseDelayMs, attempt)
  }

  function SleepBound(cfg: Config, baseDelayMs: Positive, cap: nat, c: Cursor): int
    requires ValidCursor(cfg, c)
  {
    match c
    case OutOfProviders(_, _) => 0
    case AtAttempt(provider, attempt) =>
      ProviderSleepBound(cfg, baseDelayMs, cap, attempt)
      + (|cfg.providers| - provider - 1) * ProviderSleepBound(cfg, baseDelayMs, cap, 1)
  }

  lemma BoundPaysForRetry(cfg: Config, baseDelayMs: Positive, cap: nat, attempt: Positive, failure: Failure)
    requires attempt < cfg.maxRetries && failure.retryAfterMs <= cap
    ensures RetryDelay(attempt, baseDelayMs, failure) + ProviderSleepBound(cfg, baseDelayMs, cap, attempt + 1)
            <= ProviderSleepBound(cfg, baseDelayMs, cap, attempt)
    ensures cap == 0 ==>
      RetryDelay(attempt, baseDelayMs, failure) + ProviderSleepBound(cfg, baseDelayMs, cap, attempt + 1)
      == ProviderSleepBound(cfg, baseDelayMs, cap, attempt)
  {
    var rest, now := Pow2(cfg.maxRetries - 1) - Pow2(attempt), Pow2(attempt - 1);
    DoubledIsPow2(baseDelayMs, attempt - 1);
    assert Pow2(attempt) == 2 * now;
    assert baseDelayMs * (rest + now) == baseDelayMs * rest + baseDelayMs * now;
    assert (cfg.maxRetries - attempt) * cap == (cfg.maxRetries - (attempt + 1)) * cap + cap;
  }

  lemma BoundPaysForFailover(cfg: Config, baseDelayMs: Positive, cap: nat, c: Cursor)
    requires c.AtAttempt? && ValidCursor(cfg, c) && c.provider + 1 < |cfg.providers|
    ensures SleepBound(cfg, baseDelayMs, cap, AtAttempt(c.provider + 1, 1)) <= SleepBound(cfg, baseDelayMs, cap, c)
    ensures c.attempt == cfg.maxRetries ==>
      SleepBound(cfg, baseDelayMs, cap, AtAttempt(c.provider + 1, 1)) == SleepBound(cfg, baseDelayMs, cap, c)
  {
    var one := ProviderSleepBound(cfg, baseDelayMs, cap, 1);
    var after := |cfg.providers| - c.provider - 2;
    assert (after + 1) * one == after * one + one;
    BoundIsNatural(cfg, baseDelayMs, cap, c.attempt);
  }

  lemma BoundPaysForFailure(cfg: Config, baseDelayMs: Positive, cap: nat, c: Cursor, failure: Failure, rest: seq<nat>)
    requires c.AtAttempt? && ValidCursor(cfg, c) && failure.retryAfterMs <= cap
    requires Total(rest) <= SleepBound(cfg, baseDelayMs, cap, AfterFailure(cfg, c, failure))
    ensures var slept := if Retries(cfg, c, failure) then [RetryDelay(c.attempt, baseDelayMs, failure)] else [];
      && Total(slept + rest) <= SleepBound(cfg, baseDelayMs, cap, c)
      && (cap == 0 && failure.isRetryable && Total(rest) == SleepBound(cfg, baseDelayMs, cap, AfterFailure(cfg, c, failure)) ==>
            Total(slept + rest) == SleepBound(cfg, baseDelayMs, cap, c))
  {
    BoundIsNatural(cfg, baseDelayMs, cap, c.attempt);
    if Retries(cfg, c, failure) {
      BoundPaysForRetry(cfg, baseDelayMs, cap, c.attempt, failure);
      assert ([RetryDelay(c.attempt, baseDelayMs, failure)] + rest)[1..] == rest;
    } else {
      assert [] + rest == rest;
      if c.provider + 1 < |cfg.providers| { BoundPaysForFailover(cfg, baseDelayMs, cap, c); }
    }
  }

  lemma BoundIsNatural(cfg: Config, baseDelayMs: Positive, cap: nat, attempt: Positive)
    requires attempt <= cfg.maxRetries
    ensures 0 <= ProviderSleepBound(cfg, baseDelayMs, cap, attempt)
    ensures attempt == cfg.maxRetries ==> ProviderSleepBound(cfg, baseDelayMs, cap, attempt) == 0
  {
    MultiplyMonotone(0, cfg.maxRetries - attempt, cap);
  }

  /** No reply of the list asks for a pause longer than `cap`. */
  ghost predicate PausesAtMost(replies: seq<ProviderReply>, cap: nat) {
    forall k | 0 <= k < |replies| ::
      replies[k].Refuse? && replies[k].retryAfterMs.Some? ==> replies[k].retryAfterMs.value <= cap
  }

  /** No reply is an acceptance, and each failure is worth retrying. */
  ghost predicate AllFailRetryably(replies: seq<ProviderReply>) {
    forall k | 0 <= k < |replies| :: !replies[k].Accept? && (replies[k].Refuse? ==> replies[k].isRetryable)
  }

  lemma {:induction false} SleepsWithinBound(cfg: Config, baseDelayMs: Positive, replies: seq<ProviderReply>,
                                             c: Cursor, k: nat, cap: nat)
    requires ValidCursor(cfg, c) && PausesAtMost(replies, cap)
    ensures Total(PlanFrom(cfg, baseDelayMs, replies, c, k).sleeps) <= SleepBound(cfg, baseDelayMs, cap, c)
    ensures AllFailRetryably(replies) && cap == 0 ==>
      Total(PlanFrom(cfg, baseDelayMs, replies, c, k).sleeps) == SleepBound(cfg, baseDelayMs, cap, c)
    decreases ProvidersLeft(cfg, c), AttemptsLeft(cfg, c)
  {
    if c.AtAttempt? {
      BoundIsNatural(cfg, baseDelayMs, cap, c.attempt);
      BoundIsNatural(cfg, baseDelayMs, cap, 1);
      MultiplyMonotone(0, |cfg.providers| - c.provider - 1, ProviderSleepBound(cfg, baseDelayMs, cap, 1));
      if !ReplyAt(replies, k).Accept? {
        var failure := FailureAt(cfg, replies, c.provider, k);
        var next := AfterFailure(cfg, c, failure);
        SleepsWithinBound(cfg, baseDelayMs, replies, next, k + 1, cap);
        BoundPaysForFailure(cfg, baseDelayMs, cap, c, failure, PlanFrom(cfg, baseDelayMs, replies, next, k + 1).sleeps);
      }
    }
  }

  /**
   * Over n providers and m attempts each, one dispatch sleeps at most
   * n * ((m - 1) * cap + base * (2^(m-1) - 1)), and exactly that when cap is 0 and all calls fail
   * in a way worth retrying.
   */
  lemma TotalSleepBound(cfg: Config, baseDelayMs: Positive, replies: seq<ProviderReply>, cap: nat)
    requires PausesAtMost(replies, cap)
    ensures var n, m := |cfg.providers|, cfg.maxRetries;
      var bound := n * ((m - 1) * cap + baseDelayMs * (Pow2(m - 1) - 1));
      var slept := Total(PlanOf(cfg, baseDelayMs, replies).sleeps);
      slept <= bound && (AllFailRetryably(replies) && cap == 0 ==> slept == bound)
  {
    SleepsWithinBound(cfg, baseDelayMs, replies, FirstCursor(cfg), 0, cap);
    BoundFromTheStart(cfg, baseDelayMs, cap);
  }

  lemma BoundFromTheStart(cfg: Config, baseDelayMs: Positive, cap: nat)
    ensures SleepBound(cfg, baseDelayMs, cap, FirstCursor(cfg))
            == |cfg.providers| * ((cfg.maxRetries - 1) * cap + baseDelayMs * (Pow2(cfg.maxRetries - 1) - 1))
  {
    var one := ProviderSleepBound(cfg, baseDelayMs, cap, 1);
    assert one == (cfg.maxRetries - 1) * cap + baseDelayMs * (Pow2(cfg.maxRetries - 1) - 1);
    if cfg.providers != [] { OneMore(|cfg.providers| - 1, one); }
  }
}
