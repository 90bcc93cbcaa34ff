// The Redis keys of the idempotency cache, the request locks and the webhook claims: one store
// with expiry times, three key spaces, and services that each touch only their own.
//
// `Represents` reads the store, at one moment, as the maps that the request and webhook machines
// work on.  `MachineStores` relates what an operation does to those maps to the machines' actions;
// what the clock does to them is a number of expiries.

module RedisStores {
  import opened Numbers
  import opened SmsMessage

  datatype Entry = Entry(value: string, expiresAt: Time)

  const LOCK_TTL_SECONDS: Positive := 30

  // ---------------------------------------------------------------- key spaces

  function BuildCacheKey(idempotencyKey: string): string {
    "sms:idempotency:" + idempotencyKey
  }

  function BuildLockKey(idempotencyKey: string): string {
    "sms:idempotency-lock:" + idempotencyKey
  }

  function BuildBirdKey(webhookId: string): string {
    "sms:webhook:bird:" + webhookId
  }

  function BuildCounterKey(provider: string, bucket: string): string {
    "sms:rate-limit:" + provider + ":" + bucket
  }

  /** No key of one space is a key of another, and within a space equal keys have equal names. */
  lemma KeySpacesAreDisjoint()
    ensures forall a, b :: BuildCacheKey(a) != BuildLockKey(b)
    ensures forall a, b :: BuildLockKey(a) != BuildBirdKey(b)
    ensures forall a, b :: BuildCacheKey(a) != BuildBirdKey(b)
    ensures forall a, b, provider, bucket :: BuildCounterKey(provider, bucket) !in {BuildCacheKey(a), BuildLockKey(a), BuildBirdKey(b)}
    ensures forall a, b :: BuildCacheKey(a) == BuildCacheKey(b) ==> a == b
    ensures forall a, b :: BuildLockKey(a) == BuildLockKey(b) ==> a == b
    ensures forall a, b :: BuildBirdKey(a) == BuildBirdKey(b) ==> a == b
  {
    assert forall a :: BuildCacheKey(a)[15] == ':' && BuildCacheKey(a)[4] == 'i' && BuildCacheKey(a)[16..] == a;
    assert forall a :: BuildLockKey(a)[15] == '-' && BuildLockKey(a)[4] == 'i' && BuildLockKey(a)[21..] == a;
    assert forall a :: BuildBirdKey(a)[4] == 'w' && BuildBirdKey(a)[17..] == a;
    assert forall provider, bucket :: BuildCounterKey(provider, bucket)[4] == 'r';
  }

  /** A bucket is written in digits, so the last colon of a counter key tells its provider from its bucket. */
  lemma CounterKeysAreTold(provider: string, bucket: string, provider': string, bucket': string)
    requires ':' !in bucket && ':' !in bucket' && BuildCounterKey(provider, bucket) == BuildCounterKey(provider', bucket')
    ensures provider == provider' && bucket == bucket'
  {
    var a, b := provider + ":" + bucket, provider' + ":" + bucket';
    assert a == BuildCounterKey(provider, bucket)[15..] && b == BuildCounterKey(provider', bucket')[15..];
    assert a[|provider|] == ':' && b[|provider'|] == ':';
    assert forall j | |provider| < j < |a| :: a[j] == bucket[j - |provider| - 1];
    assert forall j | |provider'| < j < |b| :: b[j] == bucket'[j - |provider'| - 1];
    assert |provider| == |provider'|;
    assert a[..|provider|] == provider && b[..|provider'|] == provider';
    assert a[|provider| + 1..] == bucket && b[|provider'| + 1..] == bucket';
  }

  // ---------------------------------------------------------------- the store

  class Redis {
    var entries: map<string, Entry>

    constructor ()
      ensures entries == map[]
    {
      entries := map[];
    }

    /** What a GET answers. */
    function Live(key: string, now: Time): Option<string>
      reads this
    {
      if key in entries && now < entries[key].expiresAt then Some(entries[key].value) else None
    }

    /** The cache, the locks and the claims as they are at `now`. */
    ghost predicate Represents(cache: map<string, string>, locks: map<string, string>, claims: set<string>, now: Time)
      reads this
    {
      && (forall k :: Live(BuildCacheKey(k), now) == if k in cache then Some(cache[k]) else None)
      && (forall k :: Live(BuildLockKey(k), now) == if k in locks then Some(locks[k]) else None)
      && (forall id :: Live(BuildBirdKey(id), now).Some? <==> id in claims)
    }

    /** Time only ever takes entries away, each of them one expiry. */
    lemma TimePasses(cache: map<string, string>, locks: map<string, string>, claims: set<string>, now: Time, later: Time)
      requires Represents(cache, locks, claims, now) && now <= later
      ensures exists cache', locks', claims' ::
        && Represents(cache', locks', claims', later)
        && cache'.Items <= cache.Items && locks'.Items <= locks.Items && claims' <= claims
    {
      var cache' := map k | k in cache && Live(BuildCacheKey(k), later).Some? :: cache[k];
      var locks' := map k | k in locks && Live(BuildLockKey(k), later).Some? :: locks[k];
      var claims' := set id | id in claims && Live(BuildBirdKey(id), later).Some?;
      assert forall key :: Live(key, later).Some? ==> Live(key, now) == Live(key, later);
      assert Represents(cache', locks', claims', later);
    }

    /** Afterwards only `key` may differ, and holds `value` until it expires, or nothing. */
    twostate predicate Changed(key: string, value: Option<string>, now: Time, until: Time)
      reads this
    {
      && (forall other: string, t: Time :: other != key ==> Live(other, t) == old(Live(other, t)))
      && (forall t: Time | now <= t :: Live(key, t) == if t < until then value else None)
    }

    /** SET key value EX seconds. */
    method SetEx(key: string, value: string, seconds: Positive, now: Time)
      modifies this
      ensures Changed(key, Some(value), now, now + 1000 * seconds)
    {
      entries := entries[key := Entry(value, now + 1000 * seconds)];
    }

    /** SET key value EX seconds NX. */
    method SetNxEx(key: string, value: string, seconds: Positive, now: Time) returns (ok: bool)
      modifies this
      ensures ok <==> old(Live(key, now)).None?
      ensures if ok then Changed(key, Some(value), now, now + 1000 * seconds) else unchanged(this)
    {
      ok := Live(key, now).None?;
      if ok { SetEx(key, value, seconds, now); }
    }

    method Del(key: string, now: Time)
      modifies this
      ensures Changed(key, None, now, now)
    {
      entries := entries - {key};
    }

    /** The release script: a GET and, when it answers `value`, a DEL. */
    method CompareAndDelete(key: string, value: string, now: Time)
      modifies this
      ensures if old(Live(key, now)) == Some(value) then Changed(key, None, now, now) else unchanged(this)
    {
      if Live(key, now) == Some(value) { Del(key, now); }
    }
  }

  function Without(values: map<string, string>, key: string): (rest: map<string, string>)
    ensures rest == values - {key}
  {
    map k | k in values && k != key :: values[k]
  }

  // ---------------------------------------------------------------- requests

  class IdempotencyService {
    const redis: Redis
    const ttlSeconds: Positive

    constructor (redis: Redis, ttlSeconds: Positive)
      ensures this.redis == redis && this.ttlSeconds == ttlSeconds
    {
      this.redis, this.ttlSeconds := redis, ttlSeconds;
    }

    method GetMessageId(idempotencyKey: string, now: Time) returns (id: Option<string>)
      ensures id == redis.Live(BuildCacheKey(idempotencyKey), now)
    {
      id := redis.Live(BuildCacheKey(idempotencyKey), now);
    }

    method StoreMessageId(idempotencyKey: string, messageId: string, now: Time)
      modifies redis
      ensures forall cache, locks, claims | old(redis.Represents(cache, locks, claims, now)) ::
        redis.Represents(cache[idempotencyKey := messageId], locks, claims, now)
      ensures forall t: Time | now <= t ::
        redis.Live(BuildCacheKey(idempotencyKey), t) == if t < now + 1000 * ttlSeconds then Some(messageId) else None
    {
      redis.SetEx(BuildCacheKey(idempotencyKey), messageId, ttlSeconds, now);
      KeySpacesAreDisjoint();
    }

    method DeleteMessageId(idempotencyKey: string, now: Time)
      modifies redis
      ensures forall cache, locks, claims | old(redis.Represents(cache, locks, claims, now)) ::
        redis.Represents(Without(cache, idempotencyKey), locks, claims, now)
    {
      redis.Del(BuildCacheKey(idempotencyKey), now);
      KeySpacesAreDisjoint();
    }

    /** The lock is set only when nobody holds it, and then nothing but a release ends it for 30 seconds. */
    method AcquireLock(idempotencyKey: string, token: string, now: Time) returns (acquired: bool)
      modifies redis
      ensures forall cache, locks, claims | old(redis.Represents(cache, locks, claims, now)) ::
        && (acquired <==> idempotencyKey !in locks)
        && redis.Represents(cache, if acquired then locks[idempotencyKey := token] else locks, claims, now)
      ensures acquired ==> forall t: Time | now <= t ::
        redis.Live(BuildLockKey(idempotencyKey), t) == if t < now + 30_000 then Some(token) else None
    {
      acquired := redis.SetNxEx(BuildLockKey(idempotencyKey), token, LOCK_TTL_SECONDS, now);
      KeySpacesAreDisjoint();
    }

    /** Releases the lock if it is still this request's, and no lock otherwise. */
    method ReleaseLock(idempotencyKey: string, token: string, now: Time)
      modifies redis
      ensures forall cache, locks, claims | old(redis.Represents(cache, locks, claims, now)) ::
        var held := idempotencyKey in locks && locks[idempotencyKey] == token;
        redis.Represents(cache, if held then Without(locks, idempotencyKey) else locks, claims, now)
    {
      ghost var held := redis.Live(BuildLockKey(idempotencyKey), now) == Some(token);
      redis.CompareAndDelete(BuildLockKey(idempotencyKey), token, now);
      KeySpacesAreDisjoint();
      forall cache, locks, claims | old(redis.Represents(cache, locks, claims, now))
        ensures held <==> idempotencyKey in locks && locks[idempotencyKey] == token
        ensures redis.Represents(cache, if held then Without(locks, idempotencyKey) else locks, claims, now)
      {
        assert old(redis.Live(BuildLockKey(idempotencyKey), now))
            == if idempotencyKey in locks then Some(locks[idempotencyKey]) else None;
        if held {
          assert redis.Represents(cache, Without(locks, idempotencyKey), claims, now);
        }
      }
    }
  }

  // ---------------------------------------------------------------- webhooks

  class WebhookIdempotencyService {
    const redis: Redis
    const ttlSeconds: Positive

    constructor (redis: Redis, ttlSeconds: Positive)
      ensures this.redis == redis && this.ttlSeconds == ttlSeconds
    {
      this.redis, this.ttlSeconds := redis, ttlSeconds;
    }

    method ClaimBirdWebhook(webhookId: string, now: Time) returns (claimed: bool)
      modifies redis
      ensures forall cache, locks, claims | old(redis.Represents(cache, locks, claims, now)) ::
        && (claimed <==> webhookId !in claims)
        && redis.Represents(cache, locks, claims + {webhookId}, now)
      ensures claimed ==> forall t: Time | now <= t ::
        redis.Live(BuildBirdKey(webhookId), t) == if t < now + 1000 * ttlSeconds then Some("1") else None
    {
      claimed := redis.SetNxEx(BuildBirdKey(webhookId), "1", ttlSeconds, now);
      KeySpacesAreDisjoint();
      forall cache, locks, claims | old(redis.Represents(cache, locks, claims, now))
        ensures claimed <==> webhookId !in claims
        ensures redis.Represents(cache, locks, claims + {webhookId}, now)
      {
        if !claimed { assert claims + {webhookId} == claims; }
      }
    }

    /** Unconditional: whoever claimed it, the claim is gone. */
    method ReleaseBirdWebhook(webhookId: string, now: Time)
      modifies redis
      ensures forall cache, locks, claims | old(redis.Represents(cache, locks, claims, now)) ::
        redis.Represents(cache, locks, claims - {webhookId}, now)
    {
      redis.Del(BuildBirdKey(webhookId), now);
      KeySpacesAreDisjoint();
    }
  }
}
