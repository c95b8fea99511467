/**
 * What the repository operations read, write and send: which cache key each
 * touches, which statement it runs with which parameters, and what a later
 * call then finds in the cache.
 */
module RepositoryProofs {
  import opened Js
  import opened Sql
  import opened Codec
  import opened RedisStore
  import opened RedisUtils
  import opened RedisProofs
  import opened QueryBuilder
  import opened QueryBuilderProofs
  import opened Repository

  // ---- findAll ----

  /** The `findAll` cache key of a filter: the table name and the rendered where clause. */
  function FindAllKey(table: string, filters: Filter): string
    requires Where(filters, 1).Ok?
  {
    TableKey(table, Str(Render(Where(filters, 1).value.pieces)))
  }

  /** A truthy cached result is returned as stored, with no statement sent and nothing written. */
  lemma FindAllHit(table: string, online: bool, store: Store, filters: Filter, limit: Value, offset: Value,
                   reply: Result<seq<Value>>)
    requires Where(filters, 1).Ok?
    requires CacheGetResult(online, store, FindAllKey(table, filters)).Ok?
    requires Truthy(CacheGetResult(online, store, FindAllKey(table, filters)).value)
    ensures FindAllSpec(table, online, store, filters, limit, offset, reply)
         == RepoOutcome(CacheGetResult(online, store, FindAllKey(table, filters)), store, [])
  {
  }

  /**
   * On a miss `findAll` sends one statement whose parameters are exactly
   * `[limit, offset]`, never the filter's values. A failed query leaves the
   * cache alone; otherwise the whole query result is cached under the key for
   * a day, no other key changes, and the rows are returned.
   */
  lemma FindAllMiss(table: string, store: Store, filters: Filter, limit: Value, offset: Value,
                    reply: Result<seq<Value>>)
    requires Where(filters, 1).Ok?
    requires CacheGetResult(true, store, FindAllKey(table, filters)).Ok?
    requires !Truthy(CacheGetResult(true, store, FindAllKey(table, filters)).value)
    ensures var o := FindAllSpec(table, true, store, filters, limit, offset, reply);
            var key := FindAllKey(table, filters);
            o.sent == [Statement(FindAllText(table, Render(Where(filters, 1).value.pieces)), [limit, offset])] &&
            (reply.Err? ==> o.result == Err(DatabaseQueryError) && o.store == store) &&
            (reply.Ok? ==>
               o.result == Ok(Arr(reply.value)) &&
               key in o.store && o.store[key] == StringEntry(Serialize(QueryResult(reply.value)), ExpireSeconds(86400)) &&
               o.store - {key} == store - {key})
  {
    if reply.Ok? {
      CacheSetEffect(true, store, FindAllKey(table, filters), QueryResult(reply.value), CacheTtl);
    }
  }

  /**
   * Called without limit and offset, a miss sends the first page's `[10, 0]`:
   * the offset 0 is sent although it is falsy.
   */
  lemma FindAllDefaultPage(table: string, store: Store, filters: Filter, reply: Result<seq<Value>>)
    requires Where(filters, 1).Ok?
    requires CacheGetResult(true, store, FindAllKey(table, filters)).Ok?
    requires !Truthy(CacheGetResult(true, store, FindAllKey(table, filters)).value)
    ensures FindAllSpec(table, true, store, filters, DefaultLimit, DefaultOffset, reply).sent
            == [Statement(FindAllText(table, Render(Where(filters, 1).value.pieces)), [Num(10), Num(0)])]
    ensures !Truthy(DefaultOffset)
  {
    FindAllMiss(table, store, filters, DefaultLimit, DefaultOffset, reply);
  }

  /**
   * The key holds the where clause's text, which has placeholders and not
   * values, and it leaves out limit and offset. So once one filter's result is
   * cached, any filter rendering the same clause (same columns and operators,
   * other values), at any page, is answered from that entry without a query;
   * what comes back is the cached query result object, not its rows.
   */
  lemma FindAllSharedKey(table: string, store: Store, f1: Filter, f2: Filter, limit1: Value, offset1: Value,
                         limit2: Value, offset2: Value, rows: seq<Value>, reply2: Result<seq<Value>>)
    requires Where(f1, 1).Ok? && Where(f2, 1).Ok?
    requires Render(Where(f1, 1).value.pieces) == Render(Where(f2, 1).value.pieces)
    requires CacheGetResult(true, store, FindAllKey(table, f1)).Ok?
    requires !Truthy(CacheGetResult(true, store, FindAllKey(table, f1)).value)
    ensures var first := FindAllSpec(table, true, store, f1, limit1, offset1, Ok(rows));
            FindAllSpec(table, true, first.store, f2, limit2, offset2, reply2)
              == RepoOutcome(Ok(Normalize(QueryResult(rows))), first.store, [])
  {
    FindAllMiss(table, store, f1, limit1, offset1, Ok(rows));
  }

  /** Two equality filters on one column with different values render the same clause. */
  lemma EqualityFiltersShareKey(table: string, column: string, a: Value, b: Value)
    requires !IsObject(a) && !IsObject(b)
    ensures Where([(column, a)], 1).Ok? && Where([(column, b)], 1).Ok?
    ensures Where([(column, a)], 1).value.values == [a] && Where([(column, b)], 1).value.values == [b]
    ensures FindAllKey(table, [(column, a)]) == FindAllKey(table, [(column, b)])
  {
    WhereEquality(column, a, 1);
    WhereEquality(column, b, 1);
  }

  /** The `findAll` statement as pieces: its own `$1` and `$2` come after the where clause's. */
  function FindAllPieces(table: string, w: WhereOut): seq<Piece> {
    [Text("SELECT * FROM " + table + " ")] + w.pieces + [Text(" LIMIT "), Param(1), Text(" OFFSET "), Param(2)]
  }

  /** The statement's own tail, ` LIMIT $1 OFFSET $2`: placeholders 1 and 2. */
  lemma FindAllTail()
    ensures Render([Text(" LIMIT "), Param(1), Text(" OFFSET "), Param(2)]) == " LIMIT $1 OFFSET $2"
    ensures Params([Text(" LIMIT "), Param(1), Text(" OFFSET "), Param(2)]) == [1, 2]
  {
    var tail := [Text(" LIMIT "), Param(1), Text(" OFFSET "), Param(2)];
    SmallNumerals();
    assert tail[1..][1..][1..][1..] == [];
  }

  /**
   * For filters without `or` groups, the where clause numbers its placeholders
   * from `$1`, and the statement then adds its own `$1` and `$2` for limit and
   * offset: a filter with values reuses `$1`, and its values are bound to
   * `[limit, offset]`, the only parameters sent.
   */
  lemma FindAllPlaceholders(table: string, filters: Filter)
    requires NoOr(filters)
    requires Where(filters, 1).Ok?
    ensures var w := Where(filters, 1).value;
            var ps := FindAllPieces(table, w);
            Render(ps) == FindAllText(table, Render(w.pieces)) &&
            Params(ps) == Range(1, |w.values|) + [1, 2] &&
            (|w.values| >= 1 ==> Params(ps)[0] == Params(ps)[|w.values|] == 1)
  {
    var w := Where(filters, 1).value;
    var head := [Text("SELECT * FROM " + table + " ")];
    var tail := [Text(" LIMIT "), Param(1), Text(" OFFSET "), Param(2)];
    WherePlaceholders(filters, 1);
    FindAllTail();
    RenderAppend(head + w.pieces, tail);
    RenderAppend(head, w.pieces);
    ParamsAppend(head + w.pieces, tail);
    ParamsAppend(head, w.pieces);
    assert Params(head) == [];
  }

  // ---- findById ----

  /**
   * `findById` reads `table:id`; on a hit it returns the cached value with no
   * query. On a miss it queries with `[id]`, caches the whole result for a day
   * even when there is no row, changes no other key, and returns the first row
   * or null; a failed query changes nothing in the cache.
   */
  lemma FindByIdEffect(table: string, store: Store, id: string, reply: Result<seq<Value>>)
    requires CacheGetResult(true, store, TableKey(table, Str(id))).Ok?
    ensures var o := FindByIdSpec(table, true, store, id, reply);
            var key := TableKey(table, Str(id));
            var cached := CacheGetResult(true, store, key).value;
            (Truthy(cached) ==> o == RepoOutcome(Ok(cached), store, [])) &&
            (!Truthy(cached) ==>
               o.sent == [Statement(FindByIdText(table), [Str(id)])] &&
               (reply.Err? ==> o.result == Err(DatabaseQueryError) && o.store == store) &&
               (reply.Ok? ==>
                  o.result == Ok(if reply.value != [] && Truthy(reply.value[0]) then reply.value[0] else Null) &&
                  key in o.store && o.store[key] == StringEntry(Serialize(QueryResult(reply.value)), ExpireSeconds(86400)) &&
                  o.store - {key} == store - {key}))
  {
    if reply.Ok? {
      CacheSetEffect(true, store, TableKey(table, Str(id)), QueryResult(reply.value), CacheTtl);
    }
  }

  /**
   * A lookup that finds no row still caches the empty result; the next lookup
   * of that id is a hit and returns the cached result object instead of null.
   */
  lemma FindByIdCachesNotFound(table: string, store: Store, id: string, reply2: Result<seq<Value>>)
    requires CacheGetResult(true, store, TableKey(table, Str(id))).Ok?
    requires !Truthy(CacheGetResult(true, store, TableKey(table, Str(id))).value)
    ensures var first := FindByIdSpec(table, true, store, id, Ok([]));
            first.result == Ok(Null) &&
            FindByIdSpec(table, true, first.store, id, reply2) == RepoOutcome(Ok(QueryResult([])), first.store, [])
  {
    FindByIdEffect(table, store, id, Ok([]));
    NormalizeKeeps(QueryResult([]));
  }

  // ---- create ----

  /**
   * `create` sends the insert with the entity's values in key order. It caches
   * the whole result under `table:<id of the returned row>` for a day, changes
   * no other key, and returns that row; no row is a TypeError, and neither that
   * nor a failed query touches the cache.
   */
  lemma CreateEffect(table: string, store: Store, entity: Filter, reply: Result<seq<Value>>)
    ensures var o := CreateSpec(table, true, store, entity, reply);
            var clause := BuildInsertClause(entity);
            o.sent == [Statement(CreateText(table, clause), clause.values)] &&
            |clause.values| == |entity| && (forall k :: 0 <= k < |entity| ==> clause.values[k] == entity[k].1) &&
            (reply.Err? ==> o.result == Err(DatabaseQueryError) && o.store == store) &&
            (reply.Ok? && reply.value == [] ==> o.result == Err(TypeError) && o.store == store) &&
            (reply.Ok? && reply.value != [] && IsObject(reply.value[0]) ==>
               var key := TableKey(table, Prop(reply.value[0], "id"));
               o.result == Ok(reply.value[0]) &&
               key in o.store && o.store[key] == StringEntry(Serialize(QueryResult(reply.value)), ExpireSeconds(86400)) &&
               o.store - {key} == store - {key})
  {
    InsertClauseLayout(entity);
    if reply.Ok? && reply.value != [] {
      CacheSetEffect(true, store, TableKey(table, Prop(reply.value[0], "id")), QueryResult(reply.value), CacheTtl);
    }
  }

  // ---- update ----

  /**
   * `update` sends one statement with the parameters `[id, ...values]`: with
   * `UpdateClausePlaceholders`, `$1` binds the id and `$(k + 2)` the k-th
   * update value.
   */
  lemma UpdateStatement(table: string, online: bool, store: Store, id: string, updates: Filter,
                        reply: Result<seq<Value>>)
    ensures var sent := UpdateSpec(table, online, store, id, updates, reply).sent;
            |sent| == 1 && |sent[0].params| == |updates| + 1 && sent[0].params[0] == Str(id) &&
            forall k :: 0 <= k < |updates| ==> sent[0].params[k + 1] == updates[k].1
  {
    UpdateSent(table, online, store, id, updates, reply);
    var params := [Str(id)] + ValuesOf(updates);
    forall k | 0 <= k < |updates|
      ensures params[k + 1] == updates[k].1
    {
    }
  }

  /** The statement's text: the keys verbatim, numbered from `$2`, and the id as `$1`. */
  lemma UpdateStatementText(table: string, online: bool, store: Store, id: string, updates: Filter,
                            reply: Result<seq<Value>>)
    ensures var sent := UpdateSpec(table, online, store, id, updates, reply).sent;
            |sent| == 1 &&
            sent[0].text == "UPDATE " + table + " SET " + JoinStr(AssignmentTexts(updates), ", ") + " WHERE id = $1 RETURNING *"
  {
    UpdateSent(table, online, store, id, updates, reply);
    UpdateClauseText(updates);
  }

  lemma UpdateSent(table: string, online: bool, store: Store, id: string, updates: Filter,
                   reply: Result<seq<Value>>)
    ensures UpdateSpec(table, online, store, id, updates, reply).sent
            == [Statement(UpdateText(table, BuildUpdateClause(updates)), [Str(id)] + ValuesOf(updates))]
  {
  }

  /**
   * `update` then overwrites only `table:id`, with the whole result, for a
   * day, and returns the first row; a failed query changes nothing.
   */
  lemma UpdateEffect(table: string, store: Store, id: string, updates: Filter, reply: Result<seq<Value>>)
    ensures var o := UpdateSpec(table, true, store, id, updates, reply);
            var key := TableKey(table, Str(id));
            (reply.Err? ==> o.result == Err(DatabaseQueryError) && o.store == store) &&
            (reply.Ok? ==>
               o.result == Ok(FirstRow(reply.value)) &&
               key in o.store && o.store[key] == StringEntry(Serialize(QueryResult(reply.value)), ExpireSeconds(86400)) &&
               o.store - {key} == store - {key})
  {
    if reply.Ok? {
      CacheSetEffect(true, store, TableKey(table, Str(id)), QueryResult(reply.value), CacheTtl);
    }
  }

  // ---- delete ----

  /**
   * `delete` sends the soft-deleting UPDATE or the DELETE, as the repository
   * says, with `[id]`, and then removes `table:id` and nothing else; a failed
   * query leaves the cache alone.
   */
  lemma DeleteEffect(table: string, soft: bool, store: Store, id: string, reply: Result<seq<Value>>)
    ensures var o := DeleteSpec(table, soft, true, store, id, reply);
            var key := TableKey(table, Str(id));
            o.sent == [Statement(if soft then "UPDATE " + table + " SET deleted_at = NOW() WHERE id = $1"
                                 else "DELETE FROM " + table + " WHERE id = $1", [Str(id)])] &&
            (reply.Err? ==> o.result == Err(DatabaseQueryError) && o.store == store) &&
            (reply.Ok? ==> o.result.Ok? && o.store == store - {key} && CacheGetResult(true, o.store, key) == Ok(Null))
  {
  }

  /** Whatever the operation, a failed query leaves the cache exactly as it was. */
  lemma QueryFailureKeepsCache(table: string, soft: bool, online: bool, store: Store, filters: Filter,
                               limit: Value, offset: Value, id: string, fields: Filter, e: Error)
    ensures FindAllSpec(table, online, store, filters, limit, offset, Err(e)).store == store
    ensures FindByIdSpec(table, online, store, id, Err(e)).store == store
    ensures CreateSpec(table, online, store, fields, Err(e)).store == store
    ensures UpdateSpec(table, online, store, id, fields, Err(e)).store == store
    ensures DeleteSpec(table, soft, online, store, id, Err(e)).store == store
  {
  }
}
