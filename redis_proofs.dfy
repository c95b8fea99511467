/**
 * Properties of the cache utilities: key building, what each write leaves in
 * the keyspace and what a later read returns, the two cache-aside wrappers,
 * multi-get/multi-set and hash fields.
 */
module RedisProofs {
  import opened Js
  import opened Codec
  import opened RedisStore
  import opened RedisUtils

  // ---- keys ----

  lemma CacheKeyOfTwo(a: Value, b: Value)
    ensures GenerateCacheKey([a, b]) == JoinElement(a) + ":" + JoinElement(b)
  {
    var parts := KeyParts([a, b]);
    assert parts[1..] == [JoinElement(b)];
    assert JoinStr(parts[1..], ":") == JoinElement(b);
  }

  /** Splitting a key at ':' gives back its parts when no part holds a ':'. */
  lemma CacheKeySplit(args: seq<Value>)
    requires |args| >= 1
    requires forall i :: 0 <= i < |args| ==> ':' !in JoinElement(args[i])
    ensures SplitOn(GenerateCacheKey(args), ':') == KeyParts(args)
  {
    var parts := KeyParts(args);
    forall i, k | 0 <= i < |parts| && 0 <= k < |parts[i]|
      ensures parts[i][k] != ':'
    {
      assert parts[i] == JoinElement(args[i]);
    }
    assert ":" == [':'];
    SplitJoin(parts, ':');
  }

  /** Locks of different keys are different keys. */
  lemma LockKeyInjective(a: string, b: string)
    requires LockKey(a) == LockKey(b)
    ensures a == b
  {
    assert a == LockKey(a)[..|a|];
  }

  // ---- single values ----

  /** What `cacheSet` leaves: the entry, its expiry, what `cacheGet` then reads, and nothing else changed. */
  lemma CacheSetEffect(online: bool, store: Store, key: string, value: Value, ttl: int)
    ensures var s := CacheSetStore(online, store, key, value, ttl);
            s - {key} == store - {key} &&
            (online && ttl >= 0 ==>
              key in s && s[key] == StringEntry(Serialize(value), if ttl > 0 then ExpireSeconds(ttl) else Persistent) &&
              CacheGetResult(online, s, key) == Ok(Normalize(value))) &&
            (!online || ttl < 0 ==> s == store)
  {
    var s := CacheSetStore(online, store, key, value, ttl);
    if online && ttl >= 0 {
      assert s == store[key := StringEntry(Serialize(value), TtlExpiry(ttl))];
      assert s - {key} == store - {key};
    }
  }

  /** After `cacheDelete`, `cacheGet` reads null and the other keys are as they were. */
  lemma CacheDeleteEffect(store: Store, key: string)
    ensures var s := Del(true, store, key).value;
            CacheGetResult(true, s, key) == Ok(Null) && s - {key} == store - {key}
  {
    var s := Del(true, store, key).value;
    assert s - {key} == store - {key};
  }

  /** `cacheSetList` writes what `cacheSet` would, but reports the failure `cacheSet` swallows. */
  lemma CacheSetListAgrees(online: bool, store: Store, key: string, items: seq<Value>, ttl: int)
    ensures var r := CacheSetListResult(online, store, key, items, ttl);
            (r.Ok? <==> online && ttl >= 0) &&
            (r.Ok? ==> r.value == CacheSetStore(online, store, key, Arr(items), ttl)) &&
            (r.Err? ==> CacheSetStore(online, store, key, Arr(items), ttl) == store &&
                        r.error == (if online then InvalidExpireTime else ConnectionError))
  {
  }

  // ---- cache-aside ----

  /** A truthy cached value is returned without fetching and without writing. */
  lemma CacheWrapHit(online: bool, store: Store, key: string, ttl: int, fetched: Result<Value>)
    requires CacheGetResult(online, store, key).Ok? && Truthy(CacheGetResult(online, store, key).value)
    ensures CacheWrapSpec(online, store, key, ttl, fetched) == Outcome(CacheGetResult(online, store, key), false, store)
  {
  }

  /**
   * On a miss (a falsy cached value counts as one) the fetched value is
   * returned, and it is cached only when it is truthy.
   */
  lemma CacheWrapMiss(online: bool, store: Store, key: string, ttl: int, fetched: Result<Value>)
    requires CacheGetResult(online, store, key).Ok? && !Truthy(CacheGetResult(online, store, key).value)
    ensures var o := CacheWrapSpec(online, store, key, ttl, fetched);
            o.calledFetch && o.result == fetched &&
            o.store - {key} == store - {key} &&
            (fetched.Ok? && Truthy(fetched.value) && ttl >= 0 ==>
              CacheGetResult(online, o.store, key) == Ok(Normalize(fetched.value))) &&
            (fetched.Err? || !Truthy(fetched.value) ==> o.store == store)
  {
    if fetched.Ok? && Truthy(fetched.value) {
      CacheSetEffect(online, store, key, fetched.value, ttl);
    }
  }

  /** Once a truthy value has been fetched and cached, the next call is a hit and does not fetch. */
  lemma CacheWrapTwice(online: bool, store: Store, key: string, ttl: int, v: Value, again: Result<Value>)
    requires ttl >= 0 && Truthy(v)
    requires CacheGetResult(online, store, key).Ok? && !Truthy(CacheGetResult(online, store, key).value)
    ensures var first := CacheWrapSpec(online, store, key, ttl, Ok(v));
            CacheWrapSpec(online, first.store, key, ttl, again) == Outcome(Ok(Normalize(v)), false, first.store)
  {
    CacheWrapMiss(online, store, key, ttl, Ok(v));
  }

  // ---- the lock-guarded wrapper ----

  /** A truthy hit returns without fetching and leaves every key, the lock key included, untouched. */
  lemma LockHit(online: bool, store: Store, key: string, ttl: int, fetched: Result<Value>, lockTimeout: int,
                pauses: seq<Store>)
    requires CacheGetResult(online, store, key).Ok? && Truthy(CacheGetResult(online, store, key).value)
    ensures CacheWrapWithLockSpec(online, store, key, ttl, fetched, lockTimeout, pauses)
         == Outcome(CacheGetResult(online, store, key), false, store)
  {
  }

  /**
   * When another client holds the lock, an attempt neither fetches nor writes:
   * it gives up when no more waits are modelled, and otherwise starts over from
   * the cache read on the keyspace it finds after the wait.
   */
  lemma LockHeldRetries(store: Store, key: string, ttl: int, fetched: Result<Value>, lockTimeout: int,
                        pauses: seq<Store>)
    requires CacheGetResult(true, store, key).Ok? && !Truthy(CacheGetResult(true, store, key).value)
    requires lockTimeout > 0 && LockKey(key) in store
    ensures CacheWrapWithLockSpec(true, store, key, ttl, fetched, lockTimeout, pauses)
         == if pauses == [] then Outcome(Err(LockStillHeld), false, store)
            else CacheWrapWithLockSpec(true, pauses[0], key, ttl, fetched, lockTimeout, pauses[1..])
  {
  }

  /** With the lock free, the lock wrapper does exactly what `cacheWrap` does, and leaves no lock behind. */
  lemma LockFreeIsCacheWrap(store: Store, key: string, ttl: int, fetched: Result<Value>, lockTimeout: int,
                            pauses: seq<Store>)
    requires CacheGetResult(true, store, key).Ok? && !Truthy(CacheGetResult(true, store, key).value)
    requires lockTimeout > 0 && LockKey(key) !in store
    ensures CacheWrapWithLockSpec(true, store, key, ttl, fetched, lockTimeout, pauses)
         == CacheWrapSpec(true, store, key, ttl, fetched)
  {
    var lockKey := LockKey(key);
    var locked := store[lockKey := StringEntry(LockToken, ExpireMillis(lockTimeout))];
    assert locked - {lockKey} == store;
    if fetched.Ok? && Truthy(fetched.value) {
      var v := fetched.value;
      var e := TtlExpiry(ttl);
      if ttl >= 0 {
        assert CacheSetStore(true, locked, key, v, ttl) == locked[key := StringEntry(Serialize(v), e)];
        assert locked[key := StringEntry(Serialize(v), e)] - {lockKey} == store[key := StringEntry(Serialize(v), e)];
      }
    }
  }

  /**
   * The lock's lifetime is checked by the server: a lifetime that is not
   * positive makes the SET NX fail, so a miss rejects without fetching. With
   * the default lifetime of 5000 ms and the lock free, the call is `cacheWrap`.
   */
  lemma LockTimeoutChecked(store: Store, key: string, ttl: int, fetched: Result<Value>, lockTimeout: int,
                           pauses: seq<Store>)
    requires CacheGetResult(true, store, key).Ok? && !Truthy(CacheGetResult(true, store, key).value)
    ensures lockTimeout <= 0 ==>
              CacheWrapWithLockSpec(true, store, key, ttl, fetched, lockTimeout, pauses)
              == Outcome(Err(InvalidExpireTime), false, store)
    ensures lockTimeout == DefaultLockTimeout && LockKey(key) !in store ==>
              CacheWrapWithLockSpec(true, store, key, ttl, fetched, lockTimeout, pauses)
              == CacheWrapSpec(true, store, key, ttl, fetched)
  {
    if lockTimeout == DefaultLockTimeout && LockKey(key) !in store {
      LockFreeIsCacheWrap(store, key, ttl, fetched, lockTimeout, pauses);
    }
  }

  /**
   * Whenever the fetch callback ran, its result is the result, the lock key is
   * gone, and a truthy fetched value is what the cache now holds.
   */
  lemma {:induction false} LockReleased(online: bool, store: Store, key: string, ttl: int, fetched: Result<Value>,
                                        lockTimeout: int, pauses: seq<Store>)
    ensures var o := CacheWrapWithLockSpec(online, store, key, ttl, fetched, lockTimeout, pauses);
            o.calledFetch ==>
              o.result == fetched && LockKey(key) !in o.store &&
              (fetched.Ok? && Truthy(fetched.value) && ttl >= 0 ==>
                CacheGetResult(online, o.store, key) == Ok(Normalize(fetched.value)))
    decreases |pauses|
  {
    var cached := CacheGetResult(online, store, key);
    if cached.Ok? && !Truthy(cached.value) {
      var lock := SetIfAbsent(online, store, LockKey(key), LockToken, ExpireMillis(lockTimeout));
      if lock.Ok? && lock.value.0 {
        if fetched.Ok? && Truthy(fetched.value) {
          CacheSetEffect(online, lock.value.1, key, fetched.value, ttl);
        }
      } else if lock.Ok? && pauses != [] {
        LockReleased(online, pauses[0], key, ttl, fetched, lockTimeout, pauses[1..]);
      }
    }
  }

  // ---- multi-get ----

  /** The value one MGET slot decodes to. */
  function MGetSlot(store: Store, key: string): Result<Value> {
    if key in store && store[key].StringEntry? then Deserialize(store[key].payload) else Ok(Null)
  }

  lemma {:induction false} DecodeAllEach(items: seq<Option<Payload>>)
    ensures var r := DecodeAll(items);
            (r.Ok? <==> forall i :: 0 <= i < |items| ==> Decoded(Ok(items[i])).Ok?) &&
            (r.Ok? ==> |r.value| == |items| && forall i :: 0 <= i < |items| ==> r.value[i] == Decoded(Ok(items[i])).value)
  {
    if items != [] {
      DecodeAllEach(items[1..]);
      assert forall i :: 1 <= i < |items| ==> items[i] == items[1..][i - 1];
    }
  }

  /**
   * `cacheMGet`: one value per key in key order, null for an absent key or one
   * that holds a hash; it rejects exactly when offline, when no key is given
   * (the server refuses the MGET) or when some slot does not decode. Wherever
   * `cacheGet` succeeds on a key, it reads the same value.
   */
  lemma CacheMGetEach(online: bool, store: Store, keys: seq<string>)
    ensures var r := CacheMGetResult(online, store, keys);
            (r.Ok? <==> online && |keys| > 0 && forall i :: 0 <= i < |keys| ==> MGetSlot(store, keys[i]).Ok?) &&
            (online && keys == [] ==> r == Err(WrongArity)) &&
            (r.Ok? ==>
               |r.value| == |keys| &&
               (forall i :: 0 <= i < |keys| ==> r.value[i] == MGetSlot(store, keys[i]).value) &&
               (forall i :: 0 <= i < |keys| && CacheGetResult(online, store, keys[i]).Ok? ==>
                  CacheGetResult(online, store, keys[i]) == Ok(r.value[i])))
  {
    if online && keys != [] {
      var items := MGet(online, store, keys).value;
      DecodeAllEach(items);
      assert forall i :: 0 <= i < |keys| ==> Decoded(Ok(items[i])) == MGetSlot(store, keys[i]);
    }
  }

  // ---- multi-set ----

  /** A key no pair names keeps its entry (or its absence). */
  lemma {:induction false} MSetUntouched(store: Store, pairs: seq<(string, Value)>, ttl: int, key: string)
    requires forall j :: 0 <= j < |pairs| ==> pairs[j].0 != key
    ensures var s := MSetFrom(store, pairs, ttl);
            (key in s <==> key in store) && (key in store ==> s[key] == store[key])
    decreases |pairs|
  {
    if pairs != [] {
      var next := CacheSetStore(true, store, pairs[0].0, pairs[0].1, ttl);
      CacheSetEffect(true, store, pairs[0].0, pairs[0].1, ttl);
      assert key in next - {pairs[0].0} <==> key in store - {pairs[0].0};
      if key in store {
        assert (next - {pairs[0].0})[key] == (store - {pairs[0].0})[key];
      }
      MSetUntouched(next, pairs[1..], ttl, key);
    }
  }

  /** For a key named several times, the last pair wins. */
  lemma {:induction false} MSetLastWins(store: Store, pairs: seq<(string, Value)>, ttl: int, j: nat)
    requires ttl >= 0
    requires j < |pairs|
    requires forall j' :: j < j' < |pairs| ==> pairs[j'].0 != pairs[j].0
    ensures var s := MSetFrom(store, pairs, ttl);
            pairs[j].0 in s && s[pairs[j].0] == StringEntry(Serialize(pairs[j].1), TtlExpiry(ttl))
    decreases |pairs|
  {
    var next := CacheSetStore(true, store, pairs[0].0, pairs[0].1, ttl);
    if j == 0 {
      CacheSetEffect(true, store, pairs[0].0, pairs[0].1, ttl);
      MSetUntouched(next, pairs[1..], ttl, pairs[0].0);
    } else {
      MSetLastWins(next, pairs[1..], ttl, j - 1);
    }
  }

  /** With an invalid (negative) ttl every SET of the pipeline is refused and nothing changes. */
  lemma {:induction false} MSetRefused(store: Store, pairs: seq<(string, Value)>, ttl: int)
    requires ttl < 0
    ensures MSetFrom(store, pairs, ttl) == store
    decreases |pairs|
  {
    if pairs != [] {
      CacheSetEffect(true, store, pairs[0].0, pairs[0].1, ttl);
      MSetRefused(store, pairs[1..], ttl);
    }
  }

  // ---- hash fields ----

  /**
   * `createHashSet` fails exactly offline or on a key holding a string; after
   * it, `cacheHashGet` reads the value back, other fields read as before and
   * other keys are unchanged.
   */
  lemma HashSetEffect(online: bool, store: Store, key: string, field: string, value: Value)
    ensures var r := CreateHashSetResult(online, store, key, field, value);
            (r.Err? <==> !online || (key in store && store[key].StringEntry?)) &&
            (r.Ok? ==>
              CacheHashGetResult(online, r.value, key, field) == Ok(Normalize(value)) &&
              r.value - {key} == store - {key} &&
              forall f :: f != field ==> CacheHashGetResult(online, r.value, key, f) == CacheHashGetResult(online, store, key, f))
  {
    var r := CreateHashSetResult(online, store, key, field, value);
    if r.Ok? {
      assert r.value - {key} == store - {key};
    }
  }

  /** A missing key or a missing field reads as null. */
  lemma HashGetMissing(store: Store, key: string, field: string)
    requires key !in store || (store[key].HashEntry? && field !in store[key].fields)
    ensures CacheHashGetResult(true, store, key, field) == Ok(Null)
  {
  }
}
