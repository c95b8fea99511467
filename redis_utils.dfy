/**
 * The cache utilities of the server: key building, get/set/delete of single
 * values and lists, the cache-aside wrapper and its lock-guarded variant,
 * multi-get/multi-set and hash fields. Each utility is a method on the shared
 * `RedisServer`, proved against a function of the connection state and the
 * keyspace it starts from; the properties of those functions are in
 * redis_proofs.dfy.
 *
 * A `ttl` of 0 stands for both `0` and an omitted ttl: the code only tests it
 * for truthiness. A callback `fetchFunction` is given as `fetched`, the value
 * (or exception) it would produce; `calledFetch` says whether it was invoked.
 */
module RedisUtils {
  import opened Js
  import opened Codec
  import opened RedisStore

  /** The lock lifetime of `cacheWrapWithLock` when the caller gives none, in milliseconds. */
  const DefaultLockTimeout: int := 5000

  /**
   * How `Array.prototype.join` writes each key part: a string verbatim, a
   * number in decimal, and null or undefined as the empty string.
   */
  function KeyParts(args: seq<Value>): (r: seq<string>)
    ensures |r| == |args|
    ensures forall k :: 0 <= k < |args| && args[k].Str? ==> r[k] == args[k].s
    ensures forall k :: 0 <= k < |args| && args[k].Num? ==> r[k] == IntToString(args[k].n)
    ensures forall k :: 0 <= k < |args| && (args[k].Null? || args[k].Undefined?) ==> r[k] == ""
  {
    seq(|args|, k requires 0 <= k < |args| => JoinElement(args[k]))
  }

  /** `generateCacheKey(...args)`: the parts joined with ":". */
  function GenerateCacheKey(args: seq<Value>): (key: string)
    ensures args == [] ==> key == ""
    ensures |args| >= 1 ==> KeyParts(args)[0] <= key
    ensures |args| >= 2 ==> |key| > |KeyParts(args)[0]| && key[|KeyParts(args)[0]|] == ':'
  {
    JoinStr(KeyParts(args), ":")
  }

  /** The key the lock wrapper locks for `key`. */
  function LockKey(key: string): (lockKey: string)
    ensures lockKey != key
    ensures |lockKey| == |key| + 5 && lockKey[..|key|] == key
  {
    key + ":lock"
  }

  /** `data ? deserialize(data) : null` applied to a GET-style reply. */
  function Decoded(reply: Result<Option<Payload>>): Result<Value> {
    match reply
    case Err(e) => Err(e)
    case Ok(None) => Ok(Null)
    case Ok(Some(p)) => Deserialize(p)
  }

  function CacheGetResult(online: bool, store: Store, key: string): Result<Value> {
    Decoded(Get(online, store, key))
  }

  /** A truthy ttl is sent as `EX ttl`; otherwise the entry has no expiry. */
  function TtlExpiry(ttl: int): Expiry {
    if ttl != 0 then ExpireSeconds(ttl) else Persistent
  }

  /** The keyspace after `cacheSet`, which swallows a failed SET. */
  function CacheSetStore(online: bool, store: Store, key: string, value: Value, ttl: int): Store {
    match Set(online, store, key, Serialize(value), TtlExpiry(ttl))
    case Ok(s) => s
    case Err(_) => store
  }

  /** `cacheSetList`: the same SET, but a failure is thrown. */
  function CacheSetListResult(online: bool, store: Store, key: string, items: seq<Value>, ttl: int): Result<Store> {
    Set(online, store, key, Serialize(Arr(items)), TtlExpiry(ttl))
  }

  /** What a cache wrapper returns, whether it invoked the fetch callback, and the keyspace it leaves. */
  datatype Outcome = Outcome(result: Result<Value>, calledFetch: bool, store: Store)

  function CacheWrapSpec(online: bool, store: Store, key: string, ttl: int, fetched: Result<Value>): Outcome {
    var cached := CacheGetResult(online, store, key);
    if cached.Err? then Outcome(cached, false, store)
    else if Truthy(cached.value) then Outcome(cached, false, store)
    else if fetched.Err? then Outcome(fetched, true, store)
    else if Truthy(fetched.value) then Outcome(fetched, true, CacheSetStore(online, store, key, fetched.value, ttl))
    else Outcome(fetched, true, store)
  }

  /**
   * The lock is held (`lockStore` has it): fetch, cache a truthy result, and
   * release the lock in `finally`. The connection has just served the SET NX,
   * so the DEL that releases the lock goes through.
   */
  function LockedFetch(online: bool, lockStore: Store, key: string, ttl: int, fetched: Result<Value>): Outcome {
    var written :=
      if fetched.Ok? && Truthy(fetched.value) then CacheSetStore(online, lockStore, key, fetched.value, ttl)
      else lockStore;
    Outcome(fetched, true, written - {LockKey(key)})
  }

  /**
   * `cacheWrapWithLock`. Each failed lock attempt waits, and `pauses` gives the
   * keyspace as other clients leave it after each wait; when the pauses run
   * out while the lock is still taken, the call ends with `LockStillHeld`.
   */
  function CacheWrapWithLockSpec(online: bool, store: Store, key: string, ttl: int, fetched: Result<Value>,
                                 lockTimeout: int, pauses: seq<Store>): Outcome
    decreases |pauses|
  {
    var cached := CacheGetResult(online, store, key);
    if cached.Err? then Outcome(cached, false, store)
    else if Truthy(cached.value) then Outcome(cached, false, store)
    else match SetIfAbsent(online, store, LockKey(key), LockToken, ExpireMillis(lockTimeout))
      case Err(e) => Outcome(Err(e), false, store)
      case Ok(lock) =>
        if lock.0 then LockedFetch(online, lock.1, key, ttl, fetched)
        else if pauses == [] then Outcome(Err(LockStillHeld), false, store)
        else CacheWrapWithLockSpec(online, pauses[0], key, ttl, fetched, lockTimeout, pauses[1..])
  }

  /** Decoding an MGET reply in order; the first payload that does not decode rejects the whole call. */
  function DecodeAll(items: seq<Option<Payload>>): Result<seq<Value>> {
    if items == [] then Ok([])
    else match Decoded(Ok(items[0]))
      case Err(e) => Err(e)
      case Ok(v) =>
        match DecodeAll(items[1..])
        case Err(e) => Err(e)
        case Ok(vs) => Ok([v] + vs)
  }

  function CacheMGetResult(online: bool, store: Store, keys: seq<string>): Result<seq<Value>> {
    match MGet(online, store, keys)
    case Err(e) => Err(e)
    case Ok(items) => DecodeAll(items)
  }

  /**
   * The SETs of a pipeline applied in order. A SET the server refuses is
   * reported in the pipeline's reply and changes nothing; it does not reject.
   */
  function MSetFrom(store: Store, pairs: seq<(string, Value)>, ttl: int): Store
    decreases |pairs|
  {
    if pairs == [] then store
    else MSetFrom(CacheSetStore(true, store, pairs[0].0, pairs[0].1, ttl), pairs[1..], ttl)
  }

  function CacheMSetResult(online: bool, store: Store, pairs: seq<(string, Value)>, ttl: int): Result<Store> {
    if !online then Err(ConnectionError) else Ok(MSetFrom(store, pairs, ttl))
  }

  function CreateHashSetResult(online: bool, store: Store, key: string, field: string, value: Value): Result<Store> {
    HSet(online, store, key, field, Serialize(value))
  }

  function CacheHashGetResult(online: bool, store: Store, key: string, field: string): Result<Value> {
    Decoded(HGet(online, store, key, field))
  }

  method CacheGet(redis: RedisServer, key: string) returns (r: Result<Value>)
    ensures r == CacheGetResult(redis.online, redis.store, key)
  {
    var data := Get(redis.online, redis.store, key);
    if data.Ok? && data.value.Some? {
      r := Deserialize(data.value.value);
    } else if data.Ok? {
      r := Ok(Null);
    } else {
      r := Err(data.error);
    }
  }

  method CacheSet(redis: RedisServer, key: string, value: Value, ttl: int)
    modifies redis
    ensures redis.online == old(redis.online)
    ensures redis.store == CacheSetStore(old(redis.online), old(redis.store), key, value, ttl)
  {
    var data := Serialize(value);
    var reply;
    if ttl != 0 {
      reply := Set(redis.online, redis.store, key, data, ExpireSeconds(ttl));
    } else {
      reply := Set(redis.online, redis.store, key, data, Persistent);
    }
    // a failed SET is logged and not rethrown
    if reply.Ok? {
      redis.store := reply.value;
    }
  }

  method CacheDelete(redis: RedisServer, key: string) returns (r: Result<()>)
    modifies redis
    ensures redis.online == old(redis.online)
    ensures r == if old(redis.online) then Ok(()) else Err(ConnectionError)
    ensures redis.store == if r.Ok? then old(redis.store) - {key} else old(redis.store)
  {
    var reply := Del(redis.online, redis.store, key);
    if reply.Ok? {
      redis.store := reply.value;
      r := Ok(());
    } else {
      r := Err(reply.error);
    }
  }

  method CacheSetList(redis: RedisServer, key: string, items: seq<Value>, ttl: int) returns (r: Result<()>)
    modifies redis
    ensures redis.online == old(redis.online)
    ensures var reply := CacheSetListResult(old(redis.online), old(redis.store), key, items, ttl);
            (if reply.Ok? then r == Ok(()) && redis.store == reply.value
             else r == Err(reply.error) && redis.store == old(redis.store))
  {
    var data := Serialize(Arr(items));
    var reply;
    if ttl != 0 {
      reply := Set(redis.online, redis.store, key, data, ExpireSeconds(ttl));
    } else {
      reply := Set(redis.online, redis.store, key, data, Persistent);
    }
    if reply.Ok? {
      redis.store := reply.value;
      r := Ok(());
    } else {
      r := Err(reply.error);
    }
  }

  /** `cacheGetList` reads exactly as `cacheGet` does; the element type is only a compile-time cast. */
  method CacheGetList(redis: RedisServer, key: string) returns (r: Result<Value>)
    ensures r == CacheGetResult(redis.online, redis.store, key)
  {
    r := CacheGet(redis, key);
  }

  method CacheWrap(redis: RedisServer, key: string, ttl: int, fetched: Result<Value>)
    returns (r: Result<Value>, calledFetch: bool)
    modifies redis
    ensures redis.online == old(redis.online)
    ensures Outcome(r, calledFetch, redis.store) == CacheWrapSpec(old(redis.online), old(redis.store), key, ttl, fetched)
  {
    var cached := CacheGet(redis, key);
    if cached.Err? || Truthy(cached.value) {
      return cached, false;
    }
    calledFetch := true;
    r := fetched;
    if fetched.Ok? && Truthy(fetched.value) {
      CacheSet(redis, key, fetched.value, ttl);
    }
  }

  method CacheWrapWithLock(redis: RedisServer, key: string, ttl: int, fetched: Result<Value>,
                           lockTimeout: int, pauses: seq<Store>)
    returns (r: Result<Value>, calledFetch: bool)
    modifies redis
    ensures redis.online == old(redis.online)
    ensures Outcome(r, calledFetch, redis.store)
         == CacheWrapWithLockSpec(old(redis.online), old(redis.store), key, ttl, fetched, lockTimeout, pauses)
  {
    var i := 0;
    while true
      invariant 0 <= i <= |pauses|
      invariant redis.online == old(redis.online)
      invariant CacheWrapWithLockSpec(redis.online, redis.store, key, ttl, fetched, lockTimeout, pauses[i..])
             == CacheWrapWithLockSpec(old(redis.online), old(redis.store), key, ttl, fetched, lockTimeout, pauses)
      decreases |pauses| - i
    {
      var cached := CacheGet(redis, key);
      if cached.Err? || Truthy(cached.value) {
        return cached, false;
      }
      var lockKey := LockKey(key);
      var lock := SetIfAbsent(redis.online, redis.store, lockKey, LockToken, ExpireMillis(lockTimeout));
      if lock.Err? {
        return Err(lock.error), false;
      }
      if lock.value.0 {
        redis.store := lock.value.1;
        calledFetch := true;
        r := fetched;
        if fetched.Ok? && Truthy(fetched.value) {
          CacheSet(redis, key, fetched.value, ttl);
        }
        // finally: release the lock
        var released := Del(redis.online, redis.store, lockKey);
        redis.store := released.value;
        return;
      }
      if i == |pauses| {
        return Err(LockStillHeld), false;
      }
      // the 100 ms wait, during which other clients may change the keyspace; then retry
      redis.store := pauses[i];
      i := i + 1;
    }
  }

  method CacheMGet(redis: RedisServer, keys: seq<string>) returns (r: Result<seq<Value>>)
    ensures r == CacheMGetResult(redis.online, redis.store, keys)
  {
    var data := MGet(redis.online, redis.store, keys);
    if data.Err? {
      return Err(data.error);
    }
    r := DecodeAll(data.value);
  }

  method CacheMSet(redis: RedisServer, pairs: seq<(string, Value)>, ttl: int) returns (r: Result<()>)
    modifies redis
    ensures redis.online == old(redis.online)
    ensures var reply := CacheMSetResult(old(redis.online), old(redis.store), pairs, ttl);
            (if reply.Ok? then r == Ok(()) && redis.store == reply.value
             else r == Err(reply.error) && redis.store == old(redis.store))
  {
    // the pipeline's SETs, applied to a staged copy of the keyspace; `exec` commits them
    var staged := redis.store;
    var k := 0;
    while k < |pairs|
      invariant 0 <= k <= |pairs|
      invariant MSetFrom(staged, pairs[k..], ttl) == MSetFrom(redis.store, pairs, ttl)
    {
      var (key, value) := pairs[k];
      var data := Serialize(value);
      var reply;
      if ttl != 0 {
        reply := Set(true, staged, key, data, ExpireSeconds(ttl));
      } else {
        reply := Set(true, staged, key, data, Persistent);
      }
      if reply.Ok? {
        staged := reply.value;
      }
      k := k + 1;
    }
    if !redis.online {
      return Err(ConnectionError);
    }
    redis.store := staged;
    r := Ok(());
  }

  method CreateHashSet(redis: RedisServer, key: string, field: string, value: Value) returns (r: Result<()>)
    modifies redis
    ensures redis.online == old(redis.online)
    ensures var reply := CreateHashSetResult(old(redis.online), old(redis.store), key, field, value);
            (if reply.Ok? then r == Ok(()) && redis.store == reply.value
             else r == Err(reply.error) && redis.store == old(redis.store))
  {
    var data := Serialize(value);
    var reply := HSet(redis.online, redis.store, key, field, data);
    if reply.Ok? {
      redis.store := reply.value;
      r := Ok(());
    } else {
      r := Err(reply.error);
    }
  }

  method CacheHashGet(redis: RedisServer, key: string, field: string) returns (r: Result<Value>)
    ensures r == CacheHashGetResult(redis.online, redis.store, key, field)
  {
    var data := HGet(redis.online, redis.store, key, field);
    if data.Ok? && data.value.Some? {
      r := Deserialize(data.value.value);
    } else if data.Ok? {
      r := Ok(Null);
    } else {
      r := Err(data.error);
    }
  }
}
