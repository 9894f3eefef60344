/**
 src/infrastructure/redis/redis.mock.ts: a map with lazy expiry and one timeout per expiring key. The event
 loop's pending timeouts are part of the state; a timeout may fire at any moment at or after its due time.
 */
module MockRedis {
  import opened Wrappers
  import opened Leases

  datatype Timeout = Timeout(key: string, due: int)

  class Redis {
    var store: map<string, Entry>
    var timers: map<string, nat>           // key -> timeout id
    var pending: map<nat, Timeout>         // timeouts the event loop still holds
    var nextId: nat
    var now: int

    /** Exactly the expiring keys have a timeout, it is due at the key's current expiry, and no other is pending. */
    ghost predicate Valid()
      reads this
    {
      && (forall k :: k in timers <==> k in store && store[k].expiresAt.Some?)
      && (forall k :: k in timers ==>
            timers[k] in pending && pending[timers[k]] == Timeout(k, store[k].expiresAt.value))
      && (forall id :: id in pending ==>
            id < nextId && pending[id].key in timers && timers[pending[id].key] == id)
    }

    /** What clients can observe. */
    ghost function Seen(): View
      reads this
    {
      Visible(store, now)
    }

    constructor (now: int)
      ensures Valid() && Seen() == map[] && this.now == now
    {
      store, timers, pending, nextId := map[], map[], map[], 0;
      this.now := now;
    }

    /** clearTimeout and forget the key's timer. */
    method ClearTimer(key: string)
      modifies this`timers, this`pending
      ensures timers == old(timers) - {key}
      ensures pending == if key in old(timers) then old(pending) - {old(timers)[key]} else old(pending)
    {
      if key in timers {
        pending := pending - {timers[key]};
        timers := timers - {key};
      }
    }

    /** setTimeout for the key. */
    method StartTimer(key: string, ttl: nat)
      modifies this`timers, this`pending, this`nextId
      ensures timers == old(timers)[key := old(nextId)] && nextId == old(nextId) + 1
      ensures pending == old(pending)[old(nextId) := Timeout(key, now + ttl)]
    {
      pending := pending[nextId := Timeout(key, now + ttl)];
      timers := timers[key := nextId];
      nextId := nextId + 1;
    }

    method CleanExpired(key: string)
      requires Valid()
      modifies this`store, this`timers, this`pending
      ensures Valid() && Seen() == old(Seen())
      ensures key in store <==> key in Seen()
    {
      if key in store && store[key].expiresAt.Some? && store[key].expiresAt.value <= now {
        store := store - {key};
        ClearTimer(key);
      }
    }

    /** Store an entry and give it the timeout its expiry asks for, in place of any earlier one. */
    method Place(key: string, value: Token, ttl: Option<nat>)
      requires Valid()
      modifies this
      ensures Valid() && now == old(now)
      ensures store == old(store)[key := Entry(value, if ttl.Some? then Some(now + ttl.value) else None)]
    {
      ClearTimer(key);
      store := store[key := Entry(value, if ttl.Some? then Some(now + ttl.value) else None)];
      if ttl.Some? {
        StartTimer(key, ttl.value);
      }
    }

    /** SET key value [PX ttl] [NX]; a time to live of 0 counts as none. */
    method Set(key: string, value: Token, ttl: nat, nx: bool) returns (ok: bool)
      requires Valid()
      modifies this
      ensures Valid() && now == old(now)
      ensures ok <==> !(nx && key in old(Seen()))
      ensures ok ==> Seen() == old(Seen())[key := Entry(value, if ttl > 0 then Some(now + ttl) else None)]
      ensures !ok ==> Seen() == old(Seen())
    {
      CleanExpired(key);
      if nx && key in store {
        return false;
      }
      VisibleUpdate(store, now, key, Entry(value, if ttl > 0 then Some(now + ttl) else None));
      Place(key, value, if ttl > 0 then Some(ttl) else None);
      ok := true;
    }

    method Get(key: string) returns (value: Option<Token>)
      requires Valid()
      modifies this
      ensures Valid() && now == old(now) && Seen() == old(Seen())
      ensures value == if key in Seen() then Some(Seen()[key].value) else None
    {
      CleanExpired(key);
      value := if key in store then Some(store[key].value) else None;
    }

    method DelOne(key: string) returns (deleted: bool)
      requires Valid()
      modifies this
      ensures Valid() && now == old(now)
      ensures deleted <==> key in old(Seen())
      ensures Seen() == old(Seen()) - {key}
    {
      CleanExpired(key);
      ClearTimer(key);
      deleted := key in store;
      store := store - {key};
    }

    /** DEL key...: the number of keys that were there, a repeated key counting once. */
    method Del(keys: seq<string>) returns (count: nat)
      requires Valid()
      modifies this
      ensures Valid() && now == old(now)
      ensures Seen() == old(Seen()) - (set k | k in keys)
      ensures count == |set k | k in keys && k in old(Seen())|
    {
      count := 0;
      ghost var gone: set<string> := {};
      for i := 0 to |keys|
        invariant Valid() && now == old(now)
        invariant Seen() == old(Seen()) - (set k | k in keys[..i])
        invariant gone == (set k | k in keys[..i] && k in old(Seen()))
        invariant count == |gone|
      {
        var deleted := DelOne(keys[i]);
        assert keys[..i + 1] == keys[..i] + [keys[i]];
        if deleted {
          count := count + 1;
          gone := gone + {keys[i]};
        }
      }
      assert keys[..|keys|] == keys;
    }

    method Pexpire(key: string, ttl: nat) returns (found: bool)
      requires Valid()
      modifies this
      ensures Valid() && now == old(now)
      ensures found <==> key in old(Seen())
      ensures found ==> Seen() == Visible(old(Seen())[key := Entry(old(Seen())[key].value, Some(now + ttl))], now)
      ensures !found ==> Seen() == old(Seen())
    {
      CleanExpired(key);
      if key !in store {
        return false;
      }
      var value := store[key].value;
      VisibleRenewal(store, now, key, now + ttl);
      Place(key, value, Some(ttl));
      found := true;
    }

    /** The renewal script: extend the key if it stores the token; a time to live of 0 changes nothing. */
    method EvalExtend(key: string, token: Token, ttl: nat) returns (done: bool)
      requires Valid()
      modifies this
      ensures Valid() && now == old(now)
      ensures done <==> Stores(old(Seen()), key, token)
      ensures Seen() == if ttl > 0 then ExtendIfMine(old(Seen()), now, key, token, ttl) else old(Seen())
    {
      var current := Get(key);
      done := current == Some(token);
      if done && ttl > 0 {
        var _ := Pexpire(key, ttl);
      }
    }

    /** The release script: delete the key if it stores the token. */
    method EvalDelete(key: string, token: Token) returns (done: bool)
      requires Valid()
      modifies this
      ensures Valid() && now == old(now)
      ensures done <==> Stores(old(Seen()), key, token)
      ensures Seen() == DeleteIfMine(old(Seen()), key, token)
    {
      var current := Get(key);
      done := current == Some(token);
      if done {
        var _ := DelOne(key);
      }
    }

    method FlushAll()
      modifies this
      ensures Valid() && Seen() == map[] && now == old(now)
    {
      timers, pending, store := map[], map[], map[];
    }

    /** The event loop runs a timeout that is due: it never removes a key anybody can still see. */
    method Fire(id: nat)
      requires Valid() && id in pending && pending[id].due <= now
      modifies this
      ensures Valid() && now == old(now) && Seen() == old(Seen())
      ensures pending == old(pending) - {id}
    {
      var key := pending[id].key;
      pending := pending - {id};
      store := store - {key};
      timers := timers - {key};
    }

    method Advance(ms: nat)
      requires Valid()
      modifies this`now
      ensures Valid() && now == old(now) + ms
      ensures Seen() == Visible(old(Seen()), now)
    {
      now := now + ms;
    }
  }
}
