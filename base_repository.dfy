/**
 * The cache-aside repository (`BaseRepository`, server/src/repositories/base.repository.ts)
 * and the query runner it uses (`QueryBuilder.query`).
 *
 * The relational server is not modelled: `Database` records every statement
 * it is sent, with its parameters, and each repository call is given the
 * server's `reply`, the rows it returns or the error it raises. A query result
 * is kept as the object `{ rows }`.
 *
 * Each operation is a method on the repository, proved against a function of
 * the cache's connection state and keyspace that gives the result, the keyspace
 * left behind and the statements sent; repository_proofs.dfy states what those
 * functions promise.
 */
module Repository {
  import opened Js
  import opened Sql
  import opened Codec
  import opened RedisStore
  import opened RedisUtils
  import opened QueryBuilder

  /** Every cache write of the repository lives for a day: 60 * 60 * 24 seconds. */
  const CacheTtl: int := 86400

  /** The defaults of `findAll`. */
  const DefaultLimit: Value := Num(10)
  const DefaultOffset: Value := Num(0)

  datatype Statement = Statement(text: string, params: seq<Value>)

  /** The query result object, `{ rows }`. */
  function QueryResult(rows: seq<Value>): Value {
    Obj([("rows", Arr(rows))])
  }

  class Database {
    /** The statements sent so far, in order. */
    var log: seq<Statement>

    constructor()
      ensures log == []
    {
      log := [];
    }

    /**
     * `QueryBuilder.query`: sends the statement; any error of the server is
     * logged and replaced by "Database Query Error".
     */
    method Query(text: string, params: seq<Value>, reply: Result<seq<Value>>) returns (r: Result<seq<Value>>)
      modifies this
      ensures log == old(log) + [Statement(text, params)]
      ensures r == if reply.Ok? then reply else Err(DatabaseQueryError)
    {
      log := log + [Statement(text, params)];
      if reply.Ok? {
        r := reply;
      } else {
        r := Err(DatabaseQueryError);
      }
    }
  }

  /** What a repository call returns, the cache keyspace it leaves, and the statements it sent. */
  datatype RepoOutcome = RepoOutcome(result: Result<Value>, store: Store, sent: seq<Statement>)

  /** `rows[0]`, which is `undefined` for no rows. */
  function FirstRow(rows: seq<Value>): Value {
    At(Arr(rows), 0)
  }

  /** `generateCacheKey(tableName, part)` */
  function TableKey(table: string, part: Value): string {
    GenerateCacheKey([Str(table), part])
  }

  function FindAllText(table: string, whereClause: string): string {
    "SELECT * FROM " + table + " " + whereClause + " LIMIT $1 OFFSET $2"
  }

  function FindAllSpec(table: string, online: bool, store: Store, filters: Filter, limit: Value, offset: Value,
                       reply: Result<seq<Value>>): RepoOutcome
  {
    match RenderWhere(Where(filters, 1))
    case Err(e) => RepoOutcome(Err(e), store, [])
    case Ok(w) =>
      var key := TableKey(table, Str(w.whereClause));
      var cached := CacheGetResult(online, store, key);
      if cached.Err? || Truthy(cached.value) then RepoOutcome(cached, store, [])
      else
        var sent := [Statement(FindAllText(table, w.whereClause), [limit, offset])];
        match reply
        case Err(_) => RepoOutcome(Err(DatabaseQueryError), store, sent)
        case Ok(rows) => RepoOutcome(Ok(Arr(rows)), CacheSetStore(online, store, key, QueryResult(rows), CacheTtl), sent)
  }

  function FindByIdText(table: string): string {
    "SELECT * FROM " + table + " WHERE id = $1 LIMIT 1"
  }

  function FindByIdSpec(table: string, online: bool, store: Store, id: string, reply: Result<seq<Value>>): RepoOutcome {
    var key := TableKey(table, Str(id));
    var cached := CacheGetResult(online, store, key);
    if cached.Err? || Truthy(cached.value) then RepoOutcome(cached, store, [])
    else
      var sent := [Statement(FindByIdText(table), [Str(id)])];
      match reply
      case Err(_) => RepoOutcome(Err(DatabaseQueryError), store, sent)
      case Ok(rows) =>
        // `rows[0] || null`
        var row := FirstRow(rows);
        RepoOutcome(Ok(if Truthy(row) then row else Null), CacheSetStore(online, store, key, QueryResult(rows), CacheTtl), sent)
  }

  function CreateText(table: string, clause: InsertClause): string {
    "INSERT INTO " + table + " (" + clause.columns + ") VALUES (" + clause.placeholders + ") RETURNING *"
  }

  function CreateSpec(table: string, online: bool, store: Store, entity: Filter, reply: Result<seq<Value>>): RepoOutcome {
    var clause := BuildInsertClause(entity);
    var sent := [Statement(CreateText(table, clause), clause.values)];
    match reply
    case Err(_) => RepoOutcome(Err(DatabaseQueryError), store, sent)
    case Ok(rows) =>
      // `result.rows[0].id` throws when there is no row
      if rows == [] || rows[0].Undefined? || rows[0].Null? then RepoOutcome(Err(TypeError), store, sent)
      else RepoOutcome(Ok(rows[0]), CacheSetStore(online, store, TableKey(table, Prop(rows[0], "id")), QueryResult(rows), CacheTtl), sent)
  }

  function UpdateText(table: string, clause: UpdateClause): string {
    "UPDATE " + table + " SET " + clause.setClause + " WHERE id = $1 RETURNING *"
  }

  function UpdateSpec(table: string, online: bool, store: Store, id: string, updates: Filter,
                      reply: Result<seq<Value>>): RepoOutcome
  {
    var clause := BuildUpdateClause(updates);
    var sent := [Statement(UpdateText(table, clause), [Str(id)] + clause.values)];
    match reply
    case Err(_) => RepoOutcome(Err(DatabaseQueryError), store, sent)
    case Ok(rows) => RepoOutcome(Ok(FirstRow(rows)), CacheSetStore(online, store, TableKey(table, Str(id)), QueryResult(rows), CacheTtl), sent)
  }

  function DeleteText(table: string, soft: bool): string {
    if soft then "UPDATE " + table + " SET deleted_at = NOW() WHERE id = $1"
    else "DELETE FROM " + table + " WHERE id = $1"
  }

  function DeleteSpec(table: string, soft: bool, online: bool, store: Store, id: string, reply: Result<seq<Value>>): RepoOutcome {
    var sent := [Statement(DeleteText(table, soft), [Str(id)])];
    if reply.Err? then RepoOutcome(Err(DatabaseQueryError), store, sent)
    else match Del(online, store, TableKey(table, Str(id)))
      case Err(e) => RepoOutcome(Err(e), store, sent)
      case Ok(s) => RepoOutcome(Ok(Undefined), s, sent)
  }

  class BaseRepository {
    const tableName: string
    /** What `supportsSoftDelete()` answers: false unless a subclass overrides it. */
    const softDelete: bool
    const cache: RedisServer
    const db: Database

    constructor(tableName: string, cache: RedisServer, db: Database)
      ensures this.tableName == tableName && this.cache == cache && this.db == db
      ensures !softDelete
    {
      this.tableName := tableName;
      this.softDelete := false;
      this.cache := cache;
      this.db := db;
    }

    /** A repository whose subclass overrides `supportsSoftDelete()` to answer true. */
    constructor SoftDeleting(tableName: string, cache: RedisServer, db: Database)
      ensures this.tableName == tableName && this.cache == cache && this.db == db
      ensures softDelete
    {
      this.tableName := tableName;
      this.softDelete := true;
      this.cache := cache;
      this.db := db;
    }

    method FindAll(filters: Filter, limit: Value, offset: Value, reply: Result<seq<Value>>) returns (r: Result<Value>)
      modifies cache, db
      ensures cache.online == old(cache.online)
      ensures var o := FindAllSpec(tableName, old(cache.online), old(cache.store), filters, limit, offset, reply);
              r == o.result && cache.store == o.store && db.log == old(db.log) + o.sent
    {
      var where := BuildWhereClause(filters, 1);
      if where.Err? {
        return Err(where.error);
      }
      var whereClause := where.value;
      var query := "SELECT * FROM " + tableName + " " + whereClause.whereClause + " LIMIT $1 OFFSET $2";
      var cacheKey := GenerateCacheKey([Str(tableName), Str(whereClause.whereClause)]);
      var cachedFind := CacheGet(cache, cacheKey);
      if cachedFind.Err? || Truthy(cachedFind.value) {
        return cachedFind;
      }
      var result := db.Query(query, [limit, offset], reply);
      if result.Err? {
        return Err(result.error);
      }
      CacheSet(cache, cacheKey, QueryResult(result.value), 60 * 60 * 24);
      r := Ok(Arr(result.value));
    }

    method FindById(id: string, reply: Result<seq<Value>>) returns (r: Result<Value>)
      modifies cache, db
      ensures cache.online == old(cache.online)
      ensures var o := FindByIdSpec(tableName, old(cache.online), old(cache.store), id, reply);
              r == o.result && cache.store == o.store && db.log == old(db.log) + o.sent
    {
      var query := "SELECT * FROM " + tableName + " WHERE id = $1 LIMIT 1";
      var cacheKey := GenerateCacheKey([Str(tableName), Str(id)]);
      var cachedFind := CacheGet(cache, cacheKey);
      if cachedFind.Err? || Truthy(cachedFind.value) {
        return cachedFind;
      }
      var result := db.Query(query, [Str(id)], reply);
      if result.Err? {
        return Err(result.error);
      }
      CacheSet(cache, cacheKey, QueryResult(result.value), 60 * 60 * 24);
      var row := At(Arr(result.value), 0);
      r := Ok(if Truthy(row) then row else Null);
    }

    method Create(entity: Filter, reply: Result<seq<Value>>) returns (r: Result<Value>)
      modifies cache, db
      ensures cache.online == old(cache.online)
      ensures var o := CreateSpec(tableName, old(cache.online), old(cache.store), entity, reply);
              r == o.result && cache.store == o.store && db.log == old(db.log) + o.sent
    {
      var clause := BuildInsertClause(entity);
      var query := "INSERT INTO " + tableName + " (" + clause.columns + ") VALUES (" + clause.placeholders + ") RETURNING *";
      var result := db.Query(query, clause.values, reply);
      if result.Err? {
        return Err(result.error);
      }
      var rows := result.value;
      if rows == [] || rows[0].Undefined? || rows[0].Null? {
        return Err(TypeError);
      }
      var cacheKey := GenerateCacheKey([Str(tableName), Prop(rows[0], "id")]);
      CacheSet(cache, cacheKey, QueryResult(rows), 60 * 60 * 24);
      r := Ok(rows[0]);
    }

    method Update(id: string, updates: Filter, reply: Result<seq<Value>>) returns (r: Result<Value>)
      modifies cache, db
      ensures cache.online == old(cache.online)
      ensures var o := UpdateSpec(tableName, old(cache.online), old(cache.store), id, updates, reply);
              r == o.result && cache.store == o.store && db.log == old(db.log) + o.sent
    {
      var clause := BuildUpdateClause(updates);
      var query := "UPDATE " + tableName + " SET " + clause.setClause + " WHERE id = $1 RETURNING *";
      var cacheKey := GenerateCacheKey([Str(tableName), Str(id)]);
      var result := db.Query(query, [Str(id)] + clause.values, reply);
      if result.Err? {
        return Err(result.error);
      }
      CacheSet(cache, cacheKey, QueryResult(result.value), 60 * 60 * 24);
      r := Ok(At(Arr(result.value), 0));
    }

    method Delete(id: string, reply: Result<seq<Value>>) returns (r: Result<Value>)
      modifies cache, db
      ensures cache.online == old(cache.online)
      ensures var o := DeleteSpec(tableName, softDelete, old(cache.online), old(cache.store), id, reply);
              r == o.result && cache.store == o.store && db.log == old(db.log) + o.sent
    {
      var cacheKey := GenerateCacheKey([Str(tableName), Str(id)]);
      var query;
      if softDelete {
        query := "UPDATE " + tableName + " SET deleted_at = NOW() WHERE id = $1";
      } else {
        query := "DELETE FROM " + tableName + " WHERE id = $1";
      }
      var result := db.Query(query, [Str(id)], reply);
      if result.Err? {
        return Err(result.error);
      }
      var deleted := CacheDelete(cache, cacheKey);
      if deleted.Err? {
        return Err(deleted.error);
      }
      r := Ok(Undefined);
    }
  }
}
