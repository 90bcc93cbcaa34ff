// The counter store and the throttle loop as the programs they are, over the machine of one
// provider's limiter.

module ProviderRateLimiter {
  import opened Numbers
  import opened SmsMessage
  import opened RateLimiter

  class RedisRateLimitCounterStore {
    var counters: map<int, Counter>

    constructor ()
      ensures counters == map[]
    {
      counters := map[];
    }

    /** The script: INCR, PEXPIRE on a first count, PTTL. */
    method Increment(key: int, durationMs: Positive, now: Time) returns (count: Positive, ttlMs: Positive)
      modifies this
      ensures counters == old(counters)[key := Incremented(old(counters), key, now, durationMs)]
      ensures count == counters[key].count && ttlMs == TtlMs(counters[key], now)
    {
      if key in counters && now < counters[key].expiresAt {
        count := counters[key].count + 1;
        counters := counters[key := counters[key].(count := count)];
      } else {
        count := 1;
        counters := counters[key := Counter(1, 0)];
      }
      if count == 1 {
        counters := counters[key := counters[key].(expiresAt := now + durationMs)];
      }
      ttlMs := TtlMs(counters[key], now);
    }
  }

  class ProviderRateLimiterService {
    const limit: Limit
    const counterStore: RedisRateLimitCounterStore
    ghost const callsInAll: nat
    var now: Time
    ghost var callers: seq<Caller>
    ghost var states: seq<Limiter>
    ghost var steps: seq<Step>

    ghost function State(): Limiter
      reads this, counterStore
    {
      Limiter(now, counterStore.counters, callers)
    }

    /** How long the steps taken have sent call `i` to sleep. */
    ghost function Asleep(i: nat): nat
      requires Valid()
      reads this, counterStore
    {
      Slept(states, steps, |steps|, i)
    }

    /** The calls so far, everyone's, have led to this state, and there will be `callsInAll`. */
    ghost predicate Valid()
      reads this, counterStore
    {
      && IsRun(limit, states, steps) && State() == states[|steps|]
      && |callers| <= callsInAll
    }

    constructor (limit: Limit, now: Time, ghost callsInAll: nat)
      ensures Valid() && fresh(counterStore) && callers == [] && this.now == now
      ensures this.limit == limit && this.callsInAll == callsInAll
    {
      this.limit, this.callsInAll := limit, callsInAll;
      counterStore := new RedisRateLimitCounterStore();
      this.now, callers := now, [];
      states, steps := [Limiter(now, map[], [])], [];
    }

    ghost method Took(step: Step)
      requires IsRun(limit, states, steps) && Enabled(states[|steps|], step)
      requires State() == Next(limit, states[|steps|], step) && |callers| <= callsInAll
      modifies this`states, this`steps
      ensures Valid() && steps == old(steps) + [step]
      ensures forall i: nat :: Slept(states, steps, |steps|, i) == Slept(old(states), old(steps), |old(steps)|, i) + SleepAfter(State(), step, i)
    {
      var states0, steps0 := states, steps;
      states, steps := states + [State()], steps + [step];
      forall i | 0 <= i < |steps|
        ensures Enabled(states[i], steps[i]) && states[i + 1] == Next(limit, states[i], steps[i])
      {
        if i < |steps0| { assert states[i] == states0[i] && steps[i] == steps0[i] && states[i + 1] == states0[i + 1]; }
      }
      forall i: nat { SleptInLongerRun(states0, steps0, states, steps, |steps0|, i); }
    }

    /** Everyone else's calls act, until this one wakes; the time it wakes at. */
    method Sleep(ghost i: nat, milliseconds: nat, from: Time) returns (at: Time)
      requires Valid() && i < |callers| && callers[i].granted.None? && callers[i].wakeAt == from + milliseconds
      modifies this, counterStore
      ensures Valid() && i < |callers| && callers[i] == old(callers[i]) && old(steps) <= steps
      ensures Asleep(i) == old(Asleep(i))
      ensures callers[i].wakeAt <= at && now <= at
    {
      at := if from + milliseconds < now then now else from + milliseconds;
    }

    /** A call begins: it has been refused nowhere, and has not slept. */
    method Begin(arrival: Time) returns (ghost i: nat)
      requires Valid() && now <= arrival && |callers| < callsInAll
      modifies this
      ensures Valid() && i == |old(callers)| && callers == old(callers) + [Caller(None, arrival, [])]
      ensures now == arrival && Asleep(i) == 0
    {
      i := |callers|;
      SleepIsBounded(limit, states, steps, |steps|, i);
      now, callers := arrival, callers + [Caller(None, arrival, [])];
      Took(Join(arrival));
    }

    /** One turn of the loop: the window's counter lets the call through, or says how long to sleep. */
    method Attempt(ghost i: nat, time: Time) returns (granted: bool, ttlMs: Positive)
      requires Valid() && i < |callers| && callers[i].granted.None? && callers[i].wakeAt <= time && now <= time
      modifies this, counterStore
      ensures Valid() && i < |callers| && now == time && old(steps) <= steps
      ensures granted ==> callers[i] == old(callers[i]).(granted := Some(time)) && Asleep(i) == old(Asleep(i))
      ensures !granted ==>
        && callers[i] == old(callers[i]).(wakeAt := time + ttlMs, refusedIn := old(callers[i]).refusedIn + [Bucket(limit, time)])
        && Asleep(i) == old(Asleep(i)) + ttlMs
    {
      var bucket := Bucket(limit, time);
      var count;
      count, ttlMs := counterStore.Increment(bucket, limit.durationMs, time);
      granted := count <= limit.max;
      now, callers := time, callers[i := Attempted(limit, callers[i], counterStore.counters[bucket], time)];
      Took(Step.Attempt(i, time));
    }

    /**
     * One call of `throttle`, whatever the other calls of the run do meanwhile: the loop ends,
     * within the refusals that the calls in all can pay for and a window's sleep for each, and
     * lets the call through at a moment whose window had room for it.
     */
    method Throttle(arrival: Time) returns (ghost i: nat, grantedAt: Time, sleptMs: nat)
      requires Valid() && now <= arrival && |callers| < callsInAll
      modifies this, counterStore
      ensures Valid() && i == |old(callers)| < |callers| && callers[i].granted == Some(grantedAt)
      ensures |callers[i].refusedIn| <= (callsInAll - 1) / limit.max
      ensures sleptMs == Asleep(i) <= |callers[i].refusedIn| * limit.durationMs
      ensures Grants(limit, callers, Bucket(limit, grantedAt)) <= limit.max
    {
      i := Begin(arrival);
      var time := Sleep(i, 0, arrival);
      sleptMs := 0;
      while true
        invariant Valid() && i == |old(callers)| < |callers| && callers[i].granted.None?
        invariant callers[i].wakeAt <= time && now <= time && sleptMs == Asleep(i)
        decreases callsInAll - |callers[i].refusedIn| * limit.max
      {
        ghost var refusals := |callers[i].refusedIn|;
        var granted, ttlMs := Attempt(i, time);
        BoundedNow(i);
        if granted {
          return i, time, sleptMs;
        }
        OneMore(refusals, limit.max);
        sleptMs := sleptMs + ttlMs;
        time := Sleep(i, ttlMs, time);
      }
    }

    lemma BoundedNow(i: nat)
      requires Valid() && i < |callers|
      ensures |callers[i].refusedIn| * limit.max <= callsInAll - 1
      ensures |callers[i].refusedIn| <= (callsInAll - 1) / limit.max
      ensures Asleep(i) <= |callers[i].refusedIn| * limit.durationMs
      ensures forall b: int :: Grants(limit, callers, b) <= limit.max
    {
      RunsAreSound(limit, states, steps, |steps|);
      SleepIsBounded(limit, states, steps, |steps|, i);
      RefusalsAreBounded(limit, State(), i);
      AtMost(|callers[i].refusedIn|, limit.max, callsInAll - 1);
    }
  }
}
