/** src/infrastructure/locks/distributed-lock.service.ts over the in-memory Redis. */
module DistributedLocks {
  import opened Wrappers
  import opened Leases
  import opened MockRedis

  class DistributedLock {
    const key: string
    const ownerToken: Token
    const ttlMs: nat
    var owned: bool
    var heartbeat: bool                    // the renewal timer is running

    constructor (key: string, ownerToken: Token, ttlMs: nat)
      ensures this.key == key && this.ownerToken == ownerToken && this.ttlMs == ttlMs && owned && !heartbeat
    {
      this.key, this.ownerToken, this.ttlMs := key, ownerToken, ttlMs;
      owned, heartbeat := true, false;
    }

    method MarkLost()
      modifies this
      ensures !owned && heartbeat == (old(heartbeat) && !old(owned))
    {
      if owned {
        owned := false;
        heartbeat := false;
      }
    }
  }

  datatype LockError = LockUnavailable

  /**
   `reachable` says whether Redis answers. Where it does not, acquire throws if locks are required or the environment
   is production, and returns null otherwise.
   */
  method Acquire(redis: Redis, key: string, token: Token, ttlMs: nat, reachable: bool, required: bool)
    returns (r: Result<DistributedLock?, LockError>)
    requires redis.Valid() && ttlMs > 0
    modifies redis
    ensures redis.Valid() && redis.now == old(redis.now)
    ensures r.Err? <==> !reachable && required
    ensures r.Ok? ==> (r.value != null <==> reachable && key !in old(redis.Seen()))
    ensures r.Ok? && r.value != null ==>
              && fresh(r.value) && r.value.key == key && r.value.ownerToken == token && r.value.ttlMs == ttlMs
              && r.value.owned && r.value.heartbeat
    ensures redis.Seen() ==
            if reachable then SetIfAbsent(old(redis.Seen()), redis.now, key, token, ttlMs) else old(redis.Seen())
  {
    if !reachable {
      return if required then Err(LockUnavailable) else Ok(null);
    }
    var ok := redis.Set(key, token, ttlMs, true);
    if !ok {
      return Ok(null);
    }
    var lock := new DistributedLock(key, token, ttlMs);
    lock.heartbeat := true;
    r := Ok(lock);
  }

  /** A handle that is not confirmed by Redis is lost for good; a foreign lease is not touched. */
  method Renew(redis: Redis, lock: DistributedLock, reachable: bool) returns (renewed: bool)
    requires redis.Valid() && lock.ttlMs > 0
    modifies redis, lock
    ensures redis.Valid() && redis.now == old(redis.now)
    ensures renewed <==> old(lock.owned) && reachable && Stores(old(redis.Seen()), lock.key, lock.ownerToken)
    ensures lock.owned <==> renewed
    ensures redis.Seen() ==
            if old(lock.owned) && reachable
            then ExtendIfMine(old(redis.Seen()), redis.now, lock.key, lock.ownerToken, lock.ttlMs)
            else old(redis.Seen())
  {
    if !lock.owned {
      return false;
    }
    if !reachable {
      lock.MarkLost();
      return false;
    }
    renewed := redis.EvalExtend(lock.key, lock.ownerToken, lock.ttlMs);
    if !renewed {
      lock.MarkLost();
    }
  }

  method Release(redis: Redis, lock: DistributedLock, reachable: bool) returns (released: bool)
    requires redis.Valid()
    modifies redis, lock
    ensures redis.Valid() && redis.now == old(redis.now)
    ensures released <==> old(lock.owned) && reachable && Stores(old(redis.Seen()), lock.key, lock.ownerToken)
    ensures !lock.owned && !lock.heartbeat
    ensures redis.Seen() ==
            if old(lock.owned) && reachable
            then DeleteIfMine(old(redis.Seen()), lock.key, lock.ownerToken)
            else old(redis.Seen())
  {
    lock.heartbeat := false;
    if !lock.owned {
      return false;
    }
    released := false;
    if reachable {
      released := redis.EvalDelete(lock.key, lock.ownerToken);
    }
    lock.MarkLost();
  }
}
