// The fixed-window throttle of one provider: a shared counter per window, and callers that sleep
// until the counter they were refused by has expired.

module RateLimiter {
  import opened Numbers
  import opened SmsMessage

  datatype Limit = Limit(max: Positive, durationMs: Positive)

  function Bucket(limit: Limit, now: Time): int {
    now / limit.durationMs
  }

  // ---------------------------------------------------------------- the counter store

  /** A counter and the moment it is gone. */
  datatype Counter = Counter(count: Positive, expiresAt: Time)

  /** INCR, with PEXPIRE when it created the key: the counter afterwards. */
  function Incremented(counters: map<int, Counter>, key: int, now: Time, durationMs: Positive): Counter {
    if key in counters && now < counters[key].expiresAt
    then counters[key].(count := counters[key].count + 1)
    else Counter(1, now + durationMs)
  }

  function TtlMs(counter: Counter, now: Time): Positive {
    if counter.expiresAt - now >= 1 then counter.expiresAt - now else 1
  }

  // ---------------------------------------------------------------- callers

  /**
   * One call of `throttle`: when it was let through, if it was; until when it sleeps; and, for
   * the record, the windows that refused it.
   */
  datatype Caller = Caller(granted: Option<Time>, wakeAt: Time, refusedIn: seq<int>)

  datatype Limiter = Limiter(now: Time, counters: map<int, Counter>, callers: seq<Caller>)

  datatype Step =
    | Join(now: Time)                // a new call begins
    | Attempt(caller: nat, now: Time)  // a call that is awake increments its window's counter

  predicate Enabled(l: Limiter, step: Step) {
    && l.now <= step.now
    && (step.Attempt? ==>
          && step.caller < |l.callers| && l.callers[step.caller].granted.None?
          && l.callers[step.caller].wakeAt <= step.now)
  }

  function Attempted(limit: Limit, caller: Caller, counter: Counter, now: Time): Caller {
    if counter.count <= limit.max then caller.(granted := Some(now))
    else caller.(wakeAt := now + TtlMs(counter, now), refusedIn := caller.refusedIn + [Bucket(limit, now)])
  }

  function Next(limit: Limit, l: Limiter, step: Step): Limiter
    requires Enabled(l, step)
  {
    match step
    case Join(now) => Limiter(now, l.counters, l.callers + [Caller(None, now, [])])
    case Attempt(i, now) =>
      var key := Bucket(limit, now);
      var counter := Incremented(l.counters, key, now, limit.durationMs);
      Limiter(now, l.counters[key := counter], l.callers[i := Attempted(limit, l.callers[i], counter, now)])
  }

  ghost predicate IsRun(limit: Limit, states: seq<Limiter>, steps: seq<Step>) {
    && |states| == |steps| + 1
    && states[0].counters == map[] && states[0].callers == []
    && forall i | 0 <= i < |steps| :: Enabled(states[i], steps[i]) && states[i + 1] == Next(limit, states[i], steps[i])
  }

  // ---------------------------------------------------------------- grants

  predicate GrantedIn(limit: Limit, caller: Caller, bucket: int) {
    caller.granted.Some? && Bucket(limit, caller.granted.value) == bucket
  }

  /** How many calls were let through in a window. */
  function Grants(limit: Limit, callers: seq<Caller>, bucket: int): nat {
    if callers == [] then 0
    else Grants(limit, callers[..|callers| - 1], bucket)
         + if GrantedIn(limit, callers[|callers| - 1], bucket) then 1 else 0
  }

  lemma {:induction false} GrantsUpdate(limit: Limit, callers: seq<Caller>, i: nat, caller: Caller, bucket: int)
    requires i < |callers|
    ensures Grants(limit, callers[i := caller], bucket)
            == Grants(limit, callers, bucket) + (if GrantedIn(limit, caller, bucket) then 1 else 0)
               - (if GrantedIn(limit, callers[i], bucket) then 1 else 0)
  {
    var n := |callers| - 1;
    var updated := callers[i := caller];
    if i == n {
      assert updated[..n] == callers[..n];
    } else {
      GrantsUpdate(limit, callers[..n], i, caller, bucket);
      assert updated[..n] == callers[..n][i := caller];
    }
  }

  // ---------------------------------------------------------------- the invariant

  /**
   * The counter of a window is live throughout it, though never for longer than a window from
   * now, and counts what the window let through.
   */
  ghost predicate CountersFit(limit: Limit, l: Limiter) {
    && (forall b | b in l.counters ::
          && b <= Bucket(limit, l.now)
          && (b + 1) * limit.durationMs <= l.counters[b].expiresAt <= l.now + limit.durationMs)
    && (forall b: int :: Grants(limit, l.callers, b)
          == if b !in l.counters then 0 else if l.counters[b].count <= limit.max then l.counters[b].count else limit.max)
  }

  /** A call was only ever refused by full windows, each later than the one before. */
  ghost predicate CallerFits(limit: Limit, l: Limiter, caller: Caller) {
    && (forall j | 0 <= j < |caller.refusedIn| :: Grants(limit, l.callers, caller.refusedIn[j]) == limit.max)
    && (forall j, k | 0 <= j < k < |caller.refusedIn| :: caller.refusedIn[j] < caller.refusedIn[k])
    && (forall j | 0 <= j < |caller.refusedIn| :: caller.refusedIn[j] < Bucket(limit, caller.wakeAt))
    && (caller.granted.Some? ==> caller.wakeAt <= caller.granted.value)
  }

  ghost predicate Sound(limit: Limit, l: Limiter) {
    && CountersFit(limit, l)
    && forall i | 0 <= i < |l.callers| :: CallerFits(limit, l, l.callers[i])
  }

  lemma BucketBounds(limit: Limit, now: Time)
    ensures Bucket(limit, now) * limit.durationMs <= now < (Bucket(limit, now) + 1) * limit.durationMs
  {
    var d := limit.durationMs;
    assert now == d * (now / d) + now % d;
    assert (now / d + 1) * d == d * (now / d) + d;
  }

  lemma BucketMonotone(limit: Limit, a: Time, b: Time)
    requires a <= b
    ensures Bucket(limit, a) <= Bucket(limit, b)
  {
    BucketBounds(limit, a);
    BucketBounds(limit, b);
    if Bucket(limit, a) > Bucket(limit, b) {
      MultiplyMonotone(Bucket(limit, b) + 1, Bucket(limit, a), limit.durationMs);
    }
  }

  /** From the end of a window on, the time belongs to a later one. */
  lemma LaterBucket(limit: Limit, bucket: int, now: Time)
    requires (bucket + 1) * limit.durationMs <= now
    ensures bucket < Bucket(limit, now)
  {
    BucketBounds(limit, now);
    if Bucket(limit, now) <= bucket {
      MultiplyMonotone(Bucket(limit, now) + 1, bucket + 1, limit.durationMs);
    }
  }

  /**
   * Inside its own window a counter never expires, so an attempt there always adds to it; and a
   * refused call is told to sleep for a window's length at most, to past the window's end.
   */
  lemma NoExpiryInsideWindow(limit: Limit, l: Limiter, now: Time)
    requires CountersFit(limit, l) && l.now <= now
    ensures var key := Bucket(limit, now);
      var counter := Incremented(l.counters, key, now, limit.durationMs);
      && (key in l.counters ==> now < l.counters[key].expiresAt)
      && counter.count == (if key in l.counters then l.counters[key].count else 0) + 1
      && (key + 1) * limit.durationMs <= counter.expiresAt
      && TtlMs(counter, now) == counter.expiresAt - now <= limit.durationMs
  {
    BucketBounds(limit, now);
    var key := Bucket(limit, now);
    assert (key + 1) * limit.durationMs == key * limit.durationMs + limit.durationMs;
  }

  lemma CountersFitKept(limit: Limit, l: Limiter, step: Step)
    requires CountersFit(limit, l) && Enabled(l, step)
    ensures CountersFit(limit, Next(limit, l, step))
  {
    var next := Next(limit, l, step);
    BucketMonotone(limit, l.now, step.now);
    if step.Join? {
      assert next.callers[..|l.callers|] == l.callers;
    } else {
      NoExpiryInsideWindow(limit, l, step.now);
      forall b: int
        ensures Grants(limit, next.callers, b)
          == if b !in next.counters then 0 else if next.counters[b].count <= limit.max then next.counters[b].count else limit.max
      {
        GrantsUpdate(limit, l.callers, step.caller, next.callers[step.caller], b);
      }
    }
  }

  /** A full window stays full. */
  lemma GrantsKept(limit: Limit, l: Limiter, step: Step, bucket: int)
    requires CountersFit(limit, l) && Enabled(l, step)
    ensures Grants(limit, l.callers, bucket) <= Grants(limit, Next(limit, l, step).callers, bucket)
  {
    var next := Next(limit, l, step);
    if step.Join? {
      assert next.callers[..|l.callers|] == l.callers;
    } else {
      GrantsUpdate(limit, l.callers, step.caller, next.callers[step.caller], bucket);
    }
  }

  /** A call that does not act keeps its record, and the windows that refused it stay full. */
  lemma BystanderFitsKept(limit: Limit, l: Limiter, step: Step, i: nat)
    requires Sound(limit, l) && Enabled(l, step) && CountersFit(limit, Next(limit, l, step))
    requires i < |l.callers| && !(step.Attempt? && step.caller == i)
    ensures CallerFits(limit, Next(limit, l, step), l.callers[i])
  {
    assert CallerFits(limit, l, l.callers[i]);
    var refusedIn := l.callers[i].refusedIn;
    forall j | 0 <= j < |refusedIn| ensures Grants(limit, Next(limit, l, step).callers, refusedIn[j]) == limit.max {
      GrantsKept(limit, l, step, refusedIn[j]);
    }
  }

  lemma AttemptFitsKept(limit: Limit, l: Limiter, step: Step)
    requires Sound(limit, l) && Enabled(l, step) && CountersFit(limit, Next(limit, l, step)) && step.Attempt?
    ensures CallerFits(limit, Next(limit, l, step), Next(limit, l, step).callers[step.caller])
  {
    var before, after := l.callers[step.caller], Next(limit, l, step).callers[step.caller];
    var key := Bucket(limit, step.now);
    assert CallerFits(limit, l, before);
    BucketMonotone(limit, before.wakeAt, step.now);
    NoExpiryInsideWindow(limit, l, step.now);
    LaterBucket(limit, key, Incremented(l.counters, key, step.now, limit.durationMs).expiresAt);
    forall j | 0 <= j < |after.refusedIn| ensures Grants(limit, Next(limit, l, step).callers, after.refusedIn[j]) == limit.max {
      GrantsKept(limit, l, step, after.refusedIn[j]);
    }
  }

  lemma {:induction false} RunsAreSound(limit: Limit, states: seq<Limiter>, steps: seq<Step>, i: nat)
    requires IsRun(limit, states, steps) && i < |states|
    ensures Sound(limit, states[i])
  {
    if i > 0 {
      RunsAreSound(limit, states, steps, i - 1);
      CountersFitKept(limit, states[i - 1], steps[i - 1]);
      forall c | 0 <= c < |states[i].callers| ensures CallerFits(limit, states[i], states[i].callers[c]) {
        if steps[i - 1].Attempt? && steps[i - 1].caller == c {
          AttemptFitsKept(limit, states[i - 1], steps[i - 1]);
        } else if c < |states[i - 1].callers| {
          BystanderFitsKept(limit, states[i - 1], steps[i - 1], c);
        }
      }
    }
  }

  // ---------------------------------------------------------------- counting over windows

  /** How many calls were let through in all the windows listed. */
  function GrantsOver(limit: Limit, callers: seq<Caller>, buckets: seq<int>): nat {
    if buckets == [] then 0
    else GrantsOver(limit, callers, buckets[..|buckets| - 1]) + Grants(limit, callers, buckets[|buckets| - 1])
  }

  ghost predicate Increasing(buckets: seq<int>) {
    forall j, k | 0 <= j < k < |buckets| :: buckets[j] < buckets[k]
  }

  ghost predicate GrantedInOneOf(limit: Limit, caller: Caller, buckets: seq<int>) {
    caller.granted.Some? && Bucket(limit, caller.granted.value) in buckets
  }

  /** One more call adds at most one grant over distinct windows. */
  lemma {:induction false} GrantsOverAppend(limit: Limit, callers: seq<Caller>, caller: Caller, buckets: seq<int>)
    requires Increasing(buckets)
    ensures GrantsOver(limit, callers + [caller], buckets)
            == GrantsOver(limit, callers, buckets) + if GrantedInOneOf(limit, caller, buckets) then 1 else 0
  {
    if buckets != [] {
      var n := |buckets| - 1;
      GrantsOverAppend(limit, callers, caller, buckets[..n]);
      assert (callers + [caller])[..|callers|] == callers;
      assert buckets == buckets[..n] + [buckets[n]];
    }
  }

  lemma {:induction false} GrantsOverEmpty(limit: Limit, buckets: seq<int>)
    ensures GrantsOver(limit, [], buckets) == 0
  {
    if buckets != [] { GrantsOverEmpty(limit, buckets[..|buckets| - 1]); }
  }

  /** Each call is let through once, so it is counted in one window at most. */
  lemma {:induction false} GrantsOverBound(limit: Limit, callers: seq<Caller>, buckets: seq<int>)
    requires Increasing(buckets)
    ensures GrantsOver(limit, callers, buckets) <= |callers|
    ensures forall i | 0 <= i < |callers| && !GrantedInOneOf(limit, callers[i], buckets) ::
      GrantsOver(limit, callers, buckets) <= |callers| - 1
  {
    if callers == [] {
      GrantsOverEmpty(limit, buckets);
    } else {
      var n := |callers| - 1;
      GrantsOverBound(limit, callers[..n], buckets);
      GrantsOverAppend(limit, callers[..n], callers[n], buckets);
      assert callers[..n] + [callers[n]] == callers;
    }
  }

  lemma {:induction false} GrantsOverFull(limit: Limit, callers: seq<Caller>, buckets: seq<int>)
    requires forall j | 0 <= j < |buckets| :: Grants(limit, callers, buckets[j]) == limit.max
    ensures GrantsOver(limit, callers, buckets) == |buckets| * limit.max
  {
    if buckets != [] {
      GrantsOverFull(limit, callers, buckets[..|buckets| - 1]);
      assert (|buckets| - 1) * limit.max + limit.max == |buckets| * limit.max;
    }
  }

  /**
   * The throttle loop ends: with N calls in the run, each of them is refused at most
   * (N - 1) / max times, since every refusal is paid for by max grants to other calls.
   */
  lemma RefusalsAreBounded(limit: Limit, l: Limiter, i: nat)
    requires Sound(limit, l) && i < |l.callers|
    ensures |l.callers[i].refusedIn| * limit.max <= |l.callers| - 1
  {
    var caller := l.callers[i];
    assert CallerFits(limit, l, caller);
    GrantsOverFull(limit, l.callers, caller.refusedIn);
    if caller.granted.Some? {
      BucketMonotone(limit, caller.wakeAt, caller.granted.value);
      assert forall j | 0 <= j < |caller.refusedIn| :: caller.refusedIn[j] < Bucket(limit, caller.granted.value);
    }
    assert !GrantedInOneOf(limit, caller, caller.refusedIn);
    GrantsOverBound(limit, l.callers, caller.refusedIn);
  }

  lemma ThrottleTerminates(limit: Limit, states: seq<Limiter>, steps: seq<Step>, i: nat, c: nat)
    requires IsRun(limit, states, steps) && i < |states| && c < |states[i].callers|
    ensures |states[i].callers[c].refusedIn| <= (|states[i].callers| - 1) / limit.max
  {
    RunsAreSound(limit, states, steps, i);
    RefusalsAreBounded(limit, states[i], c);
    AtMost(|states[i].callers[c].refusedIn|, limit.max, |states[i].callers| - 1);
  }

  // ---------------------------------------------------------------- time spent asleep

  /** How long the step sends caller `i` to sleep. */
  function SleepAfter(after: Limiter, step: Step, i: nat): nat {
    if step.Attempt? && step.caller == i && i < |after.callers| && after.callers[i].granted.None? && step.now <= after.callers[i].wakeAt
    then after.callers[i].wakeAt - step.now else 0
  }

  /** How long caller `i` was sent to sleep in the first `n` steps, all its sleeps together. */
  function Slept(states: seq<Limiter>, steps: seq<Step>, n: nat, i: nat): nat
    requires n <= |steps| && n < |states|
  {
    if n == 0 then 0 else Slept(states, steps, n - 1, i) + SleepAfter(states[n], steps[n - 1], i)
  }

  lemma {:induction false} SleptInLongerRun(states: seq<Limiter>, steps: seq<Step>, states': seq<Limiter>,
                                            steps': seq<Step>, n: nat, i: nat)
    requires n <= |steps| && n < |states| && states <= states' && steps <= steps'
    ensures Slept(states, steps, n, i) == Slept(states', steps', n, i)
  {
    if n > 0 { SleptInLongerRun(states, steps, states', steps', n - 1, i); }
  }

  /** What one step adds to a caller's refusals and to its sleep. */
  lemma SleepStep(limit: Limit, l: Limiter, step: Step, i: nat)
    requires Sound(limit, l) && Enabled(l, step) && i < |Next(limit, l, step).callers|
    ensures var before := if i < |l.callers| then |l.callers[i].refusedIn| else 0;
      var refusals, slept := |Next(limit, l, step).callers[i].refusedIn| - before, SleepAfter(Next(limit, l, step), step, i);
      (refusals == 0 && slept == 0) || (refusals == 1 && slept <= limit.durationMs)
  {
    if step.Attempt? { NoExpiryInsideWindow(limit, l, step.now); }
  }

  lemma SleepStaysBounded(limit: Limit, l: Limiter, step: Step, i: nat, slept: nat)
    requires Sound(limit, l) && Enabled(l, step)
    requires slept <= if i < |l.callers| then |l.callers[i].refusedIn| * limit.durationMs else 0
    ensures slept + SleepAfter(Next(limit, l, step), step, i)
            <= if i < |Next(limit, l, step).callers| then |Next(limit, l, step).callers[i].refusedIn| * limit.durationMs else 0
  {
    if i < |Next(limit, l, step).callers| {
      SleepStep(limit, l, step, i);
      OneMore(if i < |l.callers| then |l.callers[i].refusedIn| else 0, limit.durationMs);
    }
  }

  /** In any run, a call sleeps no longer than a window for each refusal; one that has not begun sleeps not at all. */
  lemma {:induction false} SleepIsBounded(limit: Limit, states: seq<Limiter>, steps: seq<Step>, n: nat, i: nat)
    requires IsRun(limit, states, steps) && n < |states|
    ensures Slept(states, steps, n, i)
            <= if i < |states[n].callers| then |states[n].callers[i].refusedIn| * limit.durationMs else 0
  {
    if n > 0 {
      SleepIsBounded(limit, states, steps, n - 1, i);
      assert Sound(limit, states[n - 1]) by { RunsAreSound(limit, states, steps, n - 1); }
      SleepStaysBounded(limit, states[n - 1], steps[n - 1], i, Slept(states, steps, n - 1, i));
    }
  }

  // ---------------------------------------------------------------- the rate

  /** How many calls were let through from `from` on and before `to`. */
  function GrantedBetween(callers: seq<Caller>, from: Time, to: Time): nat {
    if callers == [] then 0
    else
      var last := callers[|callers| - 1];
      GrantedBetween(callers[..|callers| - 1], from, to)
      + if last.granted.Some? && from <= last.granted.value < to then 1 else 0
  }

  function Windows(first: int, count: nat): seq<int> {
    seq(count, j requires 0 <= j => first + j)
  }

  /** An interval as long as `k` windows touches at most `k + 1` of them. */
  lemma IntervalTouches(limit: Limit, from: Time, k: nat, time: Time)
    requires from <= time < from + k * limit.durationMs
    ensures Bucket(limit, time) in Windows(Bucket(limit, from), k + 1)
  {
    BucketMonotone(limit, from, time);
    BucketBounds(limit, from);
    BucketBounds(limit, time);
    var first, last, d := Bucket(limit, from), Bucket(limit, time), limit.durationMs;
    assert (first + k + 1) * d == (first + 1) * d + k * d;
    if last > first + k { MultiplyMonotone(first + k + 1, last, d); }
    assert Windows(first, k + 1)[last - first] == last;
  }

  lemma {:induction false} GrantedBetweenWithinWindows(limit: Limit, callers: seq<Caller>, from: Time, k: nat)
    ensures GrantedBetween(callers, from, from + k * limit.durationMs)
            <= GrantsOver(limit, callers, Windows(Bucket(limit, from), k + 1))
  {
    var windows := Windows(Bucket(limit, from), k + 1);
    if callers != [] {
      var n := |callers| - 1;
      GrantedBetweenWithinWindows(limit, callers[..n], from, k);
      GrantsOverAppend(limit, callers[..n], callers[n], windows);
      assert callers[..n] + [callers[n]] == callers;
      if callers[n].granted.Some? && from <= callers[n].granted.value < from + k * limit.durationMs {
        IntervalTouches(limit, from, k, callers[n].granted.value);
      }
    }
  }

  lemma {:induction false} GrantsOverAtMost(limit: Limit, callers: seq<Caller>, buckets: seq<int>)
    requires forall b: int :: Grants(limit, callers, b) <= limit.max
    ensures GrantsOver(limit, callers, buckets) <= |buckets| * limit.max
  {
    if buckets != [] {
      GrantsOverAtMost(limit, callers, buckets[..|buckets| - 1]);
      assert (|buckets| - 1) * limit.max + limit.max == |buckets| * limit.max;
    }
  }

  /**
   * At most max calls are let through in any window; so over any interval as long as k windows,
   * wherever it starts, at most (k + 1) * max, all workers together.
   */
  lemma RateIsBounded(limit: Limit, states: seq<Limiter>, steps: seq<Step>, i: nat, from: Time, k: nat)
    requires IsRun(limit, states, steps) && i < |states|
    ensures forall b: int :: Grants(limit, states[i].callers, b) <= limit.max
    ensures GrantedBetween(states[i].callers, from, from + k * limit.durationMs) <= (k + 1) * limit.max
  {
    RunsAreSound(limit, states, steps, i);
    GrantedBetweenWithinWindows(limit, states[i].callers, from, k);
    GrantsOverAtMost(limit, states[i].callers, Windows(Bucket(limit, from), k + 1));
  }
}
