/**
 * The Redis server the cache utilities talk to, reduced to the commands they
 * send: GET, SET (with EX, or with NX and PX), DEL, MGET, HSET and HGET. One
 * keyspace holds both string and hash entries, as in Redis; a command of the
 * wrong kind for an entry is refused with WRONGTYPE. Each command is a function
 * of the connection state and the keyspace; `RedisServer` is the client object
 * whose keyspace the utilities update in place.
 */
module RedisStore {
  import opened Js
  import opened Codec

  /** The expiry a string entry was stored with; it is recorded, not run down over time. */
  datatype Expiry = Persistent | ExpireSeconds(seconds: int) | ExpireMillis(millis: int)

  datatype Entry =
    | StringEntry(payload: Payload, expiry: Expiry)
    | HashEntry(fields: map<string, Payload>)

  type Store = map<string, Entry>

  /** Redis refuses `EX n` and `PX n` unless n is positive. */
  predicate ValidExpiry(e: Expiry) {
    match e
    case Persistent => true
    case ExpireSeconds(n) => n > 0
    case ExpireMillis(n) => n > 0
  }

  /** The client connection and the server's keyspace. */
  class RedisServer {
    /** False while the server is unreachable: every command is then rejected. */
    var online: bool
    var store: Store

    constructor(online: bool)
      ensures this.online == online && store == map[]
    {
      this.online := online;
      store := map[];
    }
  }

  /** GET: absent keys give nil. */
  function Get(online: bool, store: Store, key: string): Result<Option<Payload>> {
    if !online then Err(ConnectionError)
    else if key !in store then Ok(None)
    else match store[key]
      case HashEntry(_) => Err(WrongType)
      case StringEntry(p, _) => Ok(Some(p))
  }

  /** SET, which replaces an entry of either kind. */
  function Set(online: bool, store: Store, key: string, p: Payload, e: Expiry): Result<Store> {
    if !online then Err(ConnectionError)
    else if !ValidExpiry(e) then Err(InvalidExpireTime)
    else Ok(store[key := StringEntry(p, e)])
  }

  /** SET ... NX: stores only when the key is absent, and says whether it did. */
  function SetIfAbsent(online: bool, store: Store, key: string, p: Payload, e: Expiry): Result<(bool, Store)> {
    if !online then Err(ConnectionError)
    else if !ValidExpiry(e) then Err(InvalidExpireTime)
    else if key in store then Ok((false, store))
    else Ok((true, store[key := StringEntry(p, e)]))
  }

  function Del(online: bool, store: Store, key: string): Result<Store> {
    if !online then Err(ConnectionError) else Ok(store - {key})
  }

  /** MGET: nil for a key that is absent or does not hold a string; Redis refuses an MGET of no keys. */
  function MGet(online: bool, store: Store, keys: seq<string>): Result<seq<Option<Payload>>> {
    if !online then Err(ConnectionError)
    else if keys == [] then Err(WrongArity)
    else Ok(seq(|keys|, k requires 0 <= k < |keys| =>
                  if keys[k] in store && store[keys[k]].StringEntry? then Some(store[keys[k]].payload) else None))
  }

  /** HSET of one field; an absent key starts an empty hash. */
  function HSet(online: bool, store: Store, key: string, field: string, p: Payload): Result<Store> {
    if !online then Err(ConnectionError)
    else if key !in store then Ok(store[key := HashEntry(map[field := p])])
    else match store[key]
      case StringEntry(_, _) => Err(WrongType)
      case HashEntry(fields) => Ok(store[key := HashEntry(fields[field := p])])
  }

  /** HGET: nil for an absent key or an absent field. */
  function HGet(online: bool, store: Store, key: string, field: string): Result<Option<Payload>> {
    if !online then Err(ConnectionError)
    else if key !in store then Ok(None)
    else match store[key]
      case StringEntry(_, _) => Err(WrongType)
      case HashEntry(fields) => Ok(if field in fields then Some(fields[field]) else None)
  }
}
