# myDayTasks core, modelled in Dafny

This project models the logic at the heart of the myDayTasks server and
client, and proves properties of it:

- **the PostgreSQL statement builder** (`QueryBuilder`): it turns an ordered
  filter object into a `WHERE` clause with `$n` placeholders and the values
  they bind (operators `like`, `ilike`, `range`, `in`, `notIn`, `gte`, `lte`,
  `neq`, plain equality and nested `or` groups), and it builds the INSERT
  column list, the UPDATE `SET` list and the paginated SELECT statement;
- **the Redis cache layer** (`redis.utils.ts`): cache keys, get/set with a
  ttl, delete, lists, multi-get, a pipelined multi-set, hash fields, the
  cache-aside wrapper `cacheWrap` and the lock-guarded `cacheWrapWithLock`;
- **the cache-aside repository** (`BaseRepository`): `findAll`, `findById`,
  `create`, `update` and `delete`, which build a statement, send it to the
  database, and read, write or remove cache entries;
- **the client's todo list** (`TodoContext`): `addTodo`, `toggleTodo` and
  `deleteTodo`.

Layout, one module per file:

| file | module | what it holds |
|---|---|---|
| js.dfy | `Js` | JavaScript values, truthiness, `String(n)`, `join`, `split`, the errors |
| sql.dfy | `Sql` | statement text as pieces (`Text` or `Param(n)`), their rendering and placeholder lists |
| query_builder.dfy | `QueryBuilder` | the builder as functions on pieces, and as methods with the source's loops and counters |
| query_builder_proofs.dfy | `QueryBuilderProofs` | what the builder guarantees |
| codec.dfy | `Codec` | the MessagePack codec's visible effect |
| redis_store.dfy | `RedisStore` | the Redis server: a class holding the keyspace, and its commands |
| redis_utils.dfy | `RedisUtils` | the cache helpers as methods over that class, each tied to a specification function |
| redis_proofs.dfy | `RedisProofs` | what the cache helpers guarantee |
| base_repository.dfy | `Repository` | the database connection and the repository class |
| repository_proofs.dfy | `RepositoryProofs` | which keys each repository operation reads, writes and removes, and what it sends |
| todo_context.dfy | `TodoContext` | the todo list updates and their properties |

How the model is built:

- A filter is a sequence of `(column, value)` pairs, in `Object.entries`
  order. Values are JavaScript values (`undefined`, `null`, booleans,
  numbers, strings, arrays, objects), so every `if (filter.like)` test
  is written with an explicit `Truthy`.
- The builder's specification (`Condition`, `Where`, `Fold`, `Step`,
  `OrParts`, `SelectQuery`) produces pieces. A piece is a text or a
  placeholder, so the placeholder numbers are visible to the proofs. The
  methods (`BuildWhereClause`, `OrGroup`, `ProcessCondition`,
  `BuildSelectQueryWithJoins` and the rest) keep the source's `values.push`,
  its `index++` and `index += …` counter, and its string concatenation. Each
  is proved to return exactly the rendering of the specification.
- A loop or a `.map` that can throw, such as `Object.entries(null)` or
  `.map` on a non-array, yields a `Result` error.
- Redis is a class `RedisServer` with one keyspace map, which holds string
  entries (with their expiry) and hash entries. An `online` flag stands for a
  connection that is down, so that each command's error path is modelled. The
  helpers are methods that modify the server and are proved equal to
  specification functions. The lemmas are proved about those functions.
- The database is a class `Database` that logs each statement it is sent. The
  server's reply is a parameter of each repository operation.
- `Date.now()` (the id of a new todo) is a parameter. So is the keyspace
  other clients leave behind during each 100 ms wait of the lock wrapper
  (`pauses`).

Where the code does something its comments or names do not suggest, the
model follows the code:

- **`or` groups.** The code advances the outer counter by the number of `$`
  characters in each nested clause (`whereClause.split("$").length - 1`,
  equal to `CountChar` by `Js.SplitCount`). It does not count the values
  bound. It also drops the nested values, and it keeps each nested clause's
  `WHERE ` prefix. So a filter with an `or` group has more placeholders than
  values (`QueryBuilderProofs.OrGroupExample`).
- **Cache failures.** Only `cacheSet` swallows a failure. `cacheGet`,
  `cacheDelete`, `cacheSetList`, `cacheMGet`, `cacheMSet`, `createHashSet`
  and `cacheHashGet` pass it on to the caller.
- **`findAll`** sends `… LIMIT $1 OFFSET $2` with exactly `[limit, offset]`.
  Those placeholders collide with the where clause's own `$1, $2, …`.
- **`findAll`, `findById`, `create` and `update`** cache the whole query
  result (`{ rows }`), not the row. A later cache hit returns that object.
- **The lock wrapper** retries by calling itself with no bound. Here it is a
  loop that ends when the modelled waits run out.

## Model

| member | source | states |
|---|---|---|
| QueryBuilder.Placeholders | server/src/lib/query-builder.ts:67 | the `.map(...).join(", ")` of a list of length n is `$index, $index+1, …, $index+n-1` and the counter ends n further on |
| QueryBuilder.SingleCondition | server/src/lib/query-builder.ts:74-82 | a one-value operator renders `column op $index`, binds that one value and advances the counter by one |
| QueryBuilder.BetweenCondition | server/src/lib/query-builder.ts:63-65 | `range` renders `column BETWEEN $i AND $i+1`, binds `range[0]` then `range[1]`, counter advanced by two |
| QueryBuilder.InCondition | server/src/lib/query-builder.ts:66-73 | `in`/`notIn` binds every list element in order, one placeholder each inside the parentheses; a non-array throws |
| QueryBuilder.ProcessCondition | server/src/lib/query-builder.ts:54-91 | the imperative `processCondition` (push, then return text, `index++`) returns exactly the rendering of the specification `Condition`: operators tried in source order, equality for non-objects, `""` for an object with no truthy operator |
| QueryBuilder.OrItem | server/src/lib/query-builder.ts:98-101 | one nested filter of an `or` group: `Object.entries` failing on null/undefined, otherwise the recursive `buildWhereClause` from the current counter |
| QueryBuilder.OrGroup | server/src/lib/query-builder.ts:95-104 | the `or` branch returns the parenthesised `" OR "` join of the parenthesised nested clauses, and the counter after it is the start plus the number of `$` characters in the group's text |
| QueryBuilder.OrFromParts | server/src/lib/query-builder.ts:97-103 | the step-by-step loop over the nested filters agrees with the `.map` formulation, on success and at the first nested filter that throws |
| QueryBuilder.BuildWhereClause | server/src/lib/query-builder.ts:45-114 | the loop over the entries (push, counter, recursion into `or` groups) returns exactly the rendered text and the values of the specification `Where` |
| QueryBuilder.PushTrailing | server/src/lib/query-builder.ts:188-196 | a truthy value is pushed and rendered as `keyword $<number of values after the push>`; a falsy one changes nothing |
| QueryBuilder.PushLimitOffset | server/src/lib/query-builder.ts:188-196 | LIMIT and then OFFSET are appended in that order, each numbered by the length of the values after its push |
| QueryBuilder.SelectHeadText | server/src/lib/query-builder.ts:167-175 | `SELECT cols FROM table`, followed by ` JOIN t ON c …` only when there are joins |
| QueryBuilder.BuildSelectQueryWithJoins | server/src/lib/query-builder.ts:155-199 | the `+=`/`push` construction returns exactly the rendering of the specification `SelectQuery`, and fails exactly when the where clause does |
| QueryBuilderProofs.FirstOperatorFrom | server/src/lib/query-builder.ts:57-83 | finds the first operator, in the order like, ilike, range, in, notIn, gte, lte, neq, whose property is truthy; none is found only when all are falsy |
| QueryBuilderProofs.ConditionByOperator | server/src/lib/query-builder.ts:55-90 | a non-object (null included) is equality binding itself; an object with no truthy operator gives the empty condition binding nothing; otherwise the first truthy operator decides the text and the bound values (`%v%` for like/ilike, both ends for range, every element for in/notIn), and only a non-array in/notIn fails |
| QueryBuilderProofs.SinglePlaceholders | server/src/lib/query-builder.ts:74-82 | a one-value operator consumes exactly one placeholder, numbered by the counter |
| QueryBuilderProofs.BetweenPlaceholders | server/src/lib/query-builder.ts:63-65 | `range` consumes exactly two placeholders, `$i` and `$i+1` |
| QueryBuilderProofs.InListPlaceholders | server/src/lib/query-builder.ts:66-73 | `in`/`notIn` consume one placeholder per element, so an empty list renders `IN ()` and consumes none |
| QueryBuilderProofs.ConditionPlaceholders | server/src/lib/query-builder.ts:54-91 | every condition numbers its placeholders `i, i+1, …`, one per bound value, and leaves the counter just past them |
| QueryBuilderProofs.StepNumbered | server/src/lib/query-builder.ts:105-108 | one ordinary entry, under any column name, keeps the loop's numbering: the placeholders so far are `start, …` one per value, and the counter is past them; a column name without `$` adds no `$` of its own |
| QueryBuilderProofs.FoldNumbered | server/src/lib/query-builder.ts:94-109 | without `or` groups, whatever the column names, the loop numbers all placeholders consecutively from the start, one per value, one condition per entry |
| QueryBuilderProofs.WhereClausePieces | server/src/lib/query-builder.ts:111-112 | `WHERE ` and the `" AND "` join add no placeholder and keep the conditions' ones in order |
| QueryBuilderProofs.WherePlaceholders | server/src/lib/query-builder.ts:49-113 | without `or` groups, whatever the column names, the clause's placeholders are `$start, $start+1, …` in text order, as many as values, so `$k` binds `values[k - start]`; when no column name holds a `$`, the text holds exactly one `$` per value |
| QueryBuilderProofs.FoldAppend | server/src/lib/query-builder.ts:94-109 | the loop visits the entries in order: the entries of `a + b` are processed as those of `a`, then those of `b` from the state `a` leaves |
| QueryBuilderProofs.FoldConds | server/src/lib/query-builder.ts:94-109 | each entry appends exactly one condition after the earlier ones, and values are only ever appended |
| QueryBuilderProofs.WhereShape | server/src/lib/query-builder.ts:111-113 | an empty filter gives the empty clause and no values; any other clause is `WHERE ` followed by one condition per entry joined with `" AND "` |
| QueryBuilderProofs.WhereEquality | server/src/lib/query-builder.ts:84-88 | a single scalar entry is `WHERE column = $i` binding that scalar |
| QueryBuilderProofs.WhereTwo | server/src/lib/query-builder.ts:94-113 | two ordinary entries: their conditions in entry order joined with `" AND "`, the second numbered from where the first left the counter, values concatenated |
| QueryBuilderProofs.GteCondition | server/src/lib/query-builder.ts:74-76 | `{gte: v}` with v truthy is `column >= $i` binding v |
| QueryBuilderProofs.IlikeCondition | server/src/lib/query-builder.ts:60-62 | `{ilike: v}` with v truthy is `column ILIKE $i` binding `%v%` |
| QueryBuilderProofs.OperatorsExample | server/src/lib/query-builder.ts:45-114 | `{age: {gte: 18}, name: {ilike: "jo"}}` renders `WHERE age >= $1 AND name ILIKE $2` with values `[18, "%jo%"]` |
| QueryBuilderProofs.OrPartsOfTwo | server/src/lib/query-builder.ts:97-103 | in a group of two nested filters the second is built from the counter the first's `$` count leaves |
| QueryBuilderProofs.StepOrGroup | server/src/lib/query-builder.ts:95-104 | an `or` entry appends the parenthesised group and moves the counter, and appends no value |
| QueryBuilderProofs.StepPlain | server/src/lib/query-builder.ts:105-108 | a scalar entry under any key but `or` appends `column = $index` and its value |
| QueryBuilderProofs.OrExampleWhere | server/src/lib/query-builder.ts:94-113 | `{or: [{a: 1}, {b: 2}], c: 3}` builds the group of the two nested clauses and then `c = $3`, with the value list `[3]` |
| QueryBuilderProofs.OrGroupExample | server/src/lib/query-builder.ts:94-113 | that filter renders `WHERE ((WHERE a = $1) OR (WHERE b = $2)) AND c = $3`: the nested clauses keep `WHERE `, three placeholders face the single value `[3]` |
| QueryBuilder.ToSnakeCase | server/src/lib/query-builder.ts:134-136 | the result is never shorter than the input and has no uppercase letter; ToSnakeCaseRef and ToSnakeCaseProperties give the exact text and length |
| QueryBuilder.BuildInsertClause | server/src/lib/query-builder.ts:119-132 | the k-th value bound is the k-th entry's value; InsertClauseLayout gives the columns and placeholders |
| QueryBuilder.BuildUpdateClause | server/src/lib/query-builder.ts:141-150 | the k-th value bound is the k-th update's value; UpdateClauseText and UpdateClausePlaceholders give the SET list and its binding |
| QueryBuilderProofs.ToSnakeCaseRef | server/src/lib/query-builder.ts:134-136 | `replace(/([A-Z])/g, "_$1").toLowerCase()` equals replacing each uppercase letter c by `_` and lower(c), character by character |
| QueryBuilderProofs.ToSnakeCaseProperties | server/src/lib/query-builder.ts:134-136 | the result has no uppercase letter, is one character longer per uppercase letter, and snake-casing twice equals once |
| QueryBuilderProofs.InsertClauseLayout | server/src/lib/query-builder.ts:119-132 | n snake-cased columns in key order, placeholders exactly `$1, …, $n`, and the n values in the same order so `$(k+1)` binds the k-th value |
| QueryBuilderProofs.AssignmentTexts | server/src/lib/query-builder.ts:145-147 | the k-th assignment is the k-th key verbatim followed by ` = $(k+2)` |
| QueryBuilderProofs.AssignmentPieces | server/src/lib/query-builder.ts:146 | the k-th assignment renders `key = $(k+2)` and has the single placeholder k+2 |
| QueryBuilderProofs.UpdateClauseText | server/src/lib/query-builder.ts:145-147 | the SET list is the assignments joined with `", "` |
| QueryBuilderProofs.SetPiecesParams | server/src/lib/query-builder.ts:145-147 | the SET list's placeholders are `$2, …, $(n+1)` in text order |
| QueryBuilderProofs.UpdateClausePlaceholders | server/src/lib/query-builder.ts:141-150 | with parameters `[id, ...values]` the id binds `$1` and each SET placeholder binds its own key's value |
| QueryBuilderProofs.BodyParams | server/src/lib/query-builder.ts:167-186 | the head, the joins and ORDER BY add no placeholder; the where clause's are present only for a non-empty filter |
| QueryBuilderProofs.TrailingParams | server/src/lib/query-builder.ts:188-196 | a truthy limit or offset adds one value and the placeholder numbered by the values' length after the push; a falsy one adds neither |
| QueryBuilderProofs.TrailingLayout | server/src/lib/query-builder.ts:188-196 | LIMIT then OFFSET: the values grow by a truthy limit then a truthy offset, each placeholder numbered after its own push |
| QueryBuilderProofs.SelectLayout | server/src/lib/query-builder.ts:155-199 | the statement fails exactly when the where clause does; its values are the filter values, then a truthy limit, then a truthy offset, numbered accordingly |
| QueryBuilderProofs.SelectPlaceholders | server/src/lib/query-builder.ts:155-199 | without `or` groups, whatever the column names, the whole statement's placeholders are `$1, …, $n` in text order, one per value |
| Js.SplitCount | server/src/lib/query-builder.ts:100 | `s.split("$").length - 1` is the number of `$` characters in s, the count the `or` branch advances by |
| Codec.Normalize | server/src/utils/redis.utils.ts:19-29 | what MessagePack keeps of a value (`undefined` becomes `null`) is truthy exactly when the value is |
| Codec.Serialize | server/src/utils/redis.utils.ts:19-29 | decoding an encoded value gives back its normalised form |
| Codec.Deserialize | server/src/utils/redis.utils.ts:39-49 | decoding succeeds exactly on packed payloads and throws otherwise |
| Codec.NormalizeDefined | server/src/utils/redis.utils.ts:39-49 | nothing read back from the cache holds `undefined` |
| Codec.NormalizeKeeps | server/src/utils/redis.utils.ts:19-49 | a value without `undefined` survives the round trip unchanged |
| Codec.NormalizeIdempotent | server/src/utils/redis.utils.ts:19-49 | writing back a value read from the cache stores the same payload |
| RedisStore.RedisServer.constructor | server/src/lib/redis.ts:11-16 | a fresh server connection, reachable or not, over an empty keyspace |
| RedisUtils.KeyParts | server/src/utils/redis.utils.ts:187-189 | one key part per argument: a string verbatim, a number in decimal, null or undefined as the empty string |
| RedisUtils.GenerateCacheKey | server/src/utils/redis.utils.ts:187-189 | no arguments give `""`; otherwise the key starts with the first part, followed by `:` when there is a second; CacheKeyOfTwo and CacheKeySplit give the whole key and its inverse |
| RedisUtils.LockKey | server/src/utils/redis.utils.ts:278 | the lock key is `key:lock`: the key followed by five characters, never the key itself |
| RedisUtils.CacheGet | server/src/utils/redis.utils.ts:93-96 | GET returns null for an absent key and the decoded payload otherwise; a connection error or a payload that does not decode is thrown |
| RedisUtils.CacheSet | server/src/utils/redis.utils.ts:109-134 | SET with `EX ttl` for a truthy ttl and without expiry otherwise; a failed SET is swallowed and leaves the keyspace unchanged |
| RedisUtils.CacheDelete | server/src/utils/redis.utils.ts:145-147 | DEL removes the key and nothing else; offline it throws and changes nothing |
| RedisUtils.CacheSetList | server/src/utils/redis.utils.ts:228-239 | the same SET as `cacheSet`, but a failure is thrown and changes nothing |
| RedisUtils.CacheGetList | server/src/utils/redis.utils.ts:250-253 | reads exactly as `cacheGet` does |
| RedisUtils.CacheWrap | server/src/utils/redis.utils.ts:202-215 | returns, fetches and writes exactly as `CacheWrapSpec`: truthy hit returned, otherwise fetch, cache a truthy result, return it |
| RedisUtils.CacheWrapWithLock | server/src/utils/redis.utils.ts:267-301 | the recursion becomes a loop over the modelled waits and returns, fetches and writes exactly as `CacheWrapWithLockSpec` |
| RedisUtils.CacheMGet | server/src/utils/redis.utils.ts:312-317 | MGET, decoding each slot in order; an MGET of no keys is refused by the server and rejects |
| RedisUtils.CacheMSet | server/src/utils/redis.utils.ts:329-343 | the pipeline's SETs are applied in order with the same ttl rule; an unreachable server rejects (an assumption about the client, see "## Left out") |
| RedisUtils.CreateHashSet | server/src/utils/redis.utils.ts:356-363 | HSET of the encoded value; failure thrown with the keyspace unchanged |
| RedisUtils.CacheHashGet | server/src/utils/redis.utils.ts:375-381 | HGET, null for an absent key or field, otherwise the decoded payload |
| RedisProofs.CacheKeyOfTwo | server/src/utils/redis.utils.ts:187-189 | the key of two arguments is the first, `:`, the second |
| RedisProofs.CacheKeySplit | server/src/utils/redis.utils.ts:187-189 | splitting a key at `:` gives back its parts when no part holds `:` |
| RedisProofs.LockKeyInjective | server/src/utils/redis.utils.ts:278 | different keys have different lock keys |
| RedisProofs.CacheSetEffect | server/src/utils/redis.utils.ts:109-134 | after `cacheSet` online with a valid ttl, the key holds the encoded value with expiry ttl seconds (none for ttl 0) and `cacheGet` reads it back; no other key changes; otherwise nothing changes |
| RedisProofs.CacheDeleteEffect | server/src/utils/redis.utils.ts:145-147 | after `cacheDelete`, `cacheGet` reads null and the other keys are as they were |
| RedisProofs.CacheSetListAgrees | server/src/utils/redis.utils.ts:228-239 | `cacheSetList` writes what `cacheSet` would, and reports the failures `cacheSet` swallows |
| RedisProofs.CacheWrapHit | server/src/utils/redis.utils.ts:207-209 | a truthy cached value is returned without fetching and without writing |
| RedisProofs.CacheWrapMiss | server/src/utils/redis.utils.ts:210-214 | on a miss (a falsy cached value counts) the fetched result is returned and is cached only when truthy; no other key changes |
| RedisProofs.CacheWrapTwice | server/src/utils/redis.utils.ts:202-215 | once a truthy value has been fetched and cached, the next call is a hit and does not fetch |
| RedisProofs.LockHit | server/src/utils/redis.utils.ts:273-276 | a truthy hit returns without fetching and without touching any key, the lock key included |
| RedisProofs.LockHeldRetries | server/src/utils/redis.utils.ts:282-300 | while another client holds the lock an attempt neither fetches nor writes; it starts over from the cache read after the wait |
| RedisProofs.LockFreeIsCacheWrap | server/src/utils/redis.utils.ts:278-295 | with the lock free, the lock wrapper does exactly what `cacheWrap` does and leaves no lock behind |
| RedisProofs.LockTimeoutChecked | server/src/utils/redis.utils.ts:267-282 | a lock lifetime that is not positive makes the SET NX fail, so a miss rejects without fetching; with the default 5000 ms and a free lock the call is `cacheWrap` |
| RedisProofs.LockReleased | server/src/utils/redis.utils.ts:285-295 | whenever fetch ran, its result (value or exception) is the result, the lock key is gone, and a truthy value is what the cache holds |
| RedisProofs.DecodeAllEach | server/src/utils/redis.utils.ts:314-316 | the reply is decoded slot by slot, and rejects exactly when some slot does not decode |
| RedisProofs.CacheMGetEach | server/src/utils/redis.utils.ts:312-317 | rejects exactly offline, on an empty key list (wrong number of arguments) or when a slot does not decode; otherwise one value per key in key order, null for a missing key, and where `cacheGet` succeeds it reads the same value |
| RedisProofs.MSetUntouched | server/src/utils/redis.utils.ts:329-343 | a key no pair names keeps its entry or its absence |
| RedisProofs.MSetLastWins | server/src/utils/redis.utils.ts:333-342 | for a key named several times the last pair wins, with the ttl rule of `cacheSet` |
| RedisProofs.MSetRefused | server/src/utils/redis.utils.ts:333-342 | with an invalid ttl every SET is refused and nothing changes |
| RedisProofs.HashSetEffect | server/src/utils/redis.utils.ts:356-363 | `createHashSet` fails exactly offline or on a string key; after it `cacheHashGet` reads the value back, other fields and other keys unchanged |
| RedisProofs.HashGetMissing | server/src/utils/redis.utils.ts:375-381 | a missing key or field reads as null |
| Repository.Database.constructor | server/src/repositories/base.repository.ts:22-24 | a database connection that has been sent no statement |
| Repository.Database.Query | server/src/lib/query-builder.ts:25-35 | each statement is sent once with its parameters; a server error is replaced by "Database Query Error" |
| Repository.BaseRepository.constructor | server/src/repositories/base.repository.ts:22-24 | a repository over a table, the cache and the database, hard-deleting by default |
| Repository.BaseRepository.SoftDeleting | server/src/repositories/base.repository.ts:148-150 | a repository whose `supportsSoftDelete()` is overridden to answer true |
| Repository.BaseRepository.FindAll | server/src/repositories/base.repository.ts:32-56 | returns, writes the cache and sends statements exactly as `FindAllSpec` |
| Repository.BaseRepository.FindById | server/src/repositories/base.repository.ts:62-81 | returns, writes the cache and sends statements exactly as `FindByIdSpec` |
| Repository.BaseRepository.Create | server/src/repositories/base.repository.ts:87-101 | returns, writes the cache and sends statements exactly as `CreateSpec` |
| Repository.BaseRepository.Update | server/src/repositories/base.repository.ts:108-120 | returns, writes the cache and sends statements exactly as `UpdateSpec` |
| Repository.BaseRepository.Delete | server/src/repositories/base.repository.ts:127-143 | returns, removes from the cache and sends statements exactly as `DeleteSpec`, by the repository's soft-delete choice |
| RepositoryProofs.FindAllHit | server/src/repositories/base.repository.ts:41-46 | a truthy cached result under `table:<where clause>` is returned with no statement sent and nothing written |
| RepositoryProofs.FindAllMiss | server/src/repositories/base.repository.ts:37-55 | on a miss one statement `SELECT * FROM t <where> LIMIT $1 OFFSET $2` is sent with exactly `[limit, offset]`; the whole result is cached for 86400 s under the key, no other key changes, the rows are returned; a failed query leaves the cache alone |
| RepositoryProofs.FindAllDefaultPage | server/src/repositories/base.repository.ts:32-48 | called without limit and offset, a miss sends `[10, 0]`, the falsy offset 0 included |
| RepositoryProofs.FindAllSharedKey | server/src/repositories/base.repository.ts:37-46 | two filters rendering the same clause share a key, whatever their values, limit and offset: the second is answered from the first's entry without a query, and gets the cached result object |
| RepositoryProofs.EqualityFiltersShareKey | server/src/repositories/base.repository.ts:37-39 | equality filters on one column with different values have the same `findAll` key |
| RepositoryProofs.FindAllPlaceholders | server/src/repositories/base.repository.ts:37-38 | without `or` groups, whatever the column names, the where clause numbers from `$1` and the statement adds its own `$1` and `$2`, so a filter with a value reuses `$1` |
| RepositoryProofs.FindByIdEffect | server/src/repositories/base.repository.ts:62-81 | key `table:id`: a hit returns with no query; a miss queries with `[id]`, caches the whole result for 86400 s even with no row, changes no other key and returns `rows[0]` or null |
| RepositoryProofs.FindByIdCachesNotFound | server/src/repositories/base.repository.ts:66-80 | a lookup that finds no row returns null, and the next lookup of that id is a hit returning the cached empty result |
| RepositoryProofs.CreateEffect | server/src/repositories/base.repository.ts:87-101 | sends the insert with the values in key order; caches the whole result under `table:<id of rows[0]>` for 86400 s, changes no other key, returns `rows[0]`; no row is a TypeError and a failed query changes nothing |
| RepositoryProofs.UpdateStatement | server/src/repositories/base.repository.ts:108-113 | one statement with parameters `[id, ...values]`, `$1` the id and the k-th value at position k+1 |
| RepositoryProofs.UpdateStatementText | server/src/repositories/base.repository.ts:109-110 | the statement is `UPDATE t SET key = $2, … WHERE id = $1 RETURNING *` with the keys verbatim |
| RepositoryProofs.UpdateSent | server/src/repositories/base.repository.ts:109-113 | the statement sent is built from `buildUpdateClause` with `[id]` followed by the values |
| RepositoryProofs.UpdateEffect | server/src/repositories/base.repository.ts:108-120 | only `table:id` is overwritten, with the whole result for 86400 s, and `rows[0]` is returned; a failed query changes nothing |
| RepositoryProofs.DeleteEffect | server/src/repositories/base.repository.ts:127-143 | the soft-deleting UPDATE or the DELETE is sent with `[id]` as the repository says; then only `table:id` is removed; a failed query leaves the cache alone |
| RepositoryProofs.QueryFailureKeepsCache | server/src/repositories/base.repository.ts:32-143 | for every operation, a failed query leaves the cache exactly as it was |
| TodoContext.AddTodo | client/src/context/TodoContext.tsx:36-44 | appends exactly one todo and keeps the earlier ones in order; the new one has id `String(now)`, the title, not completed, the category or `"other"` for an empty one, and no tags |
| TodoContext.ToggleTodo | client/src/context/TodoContext.tsx:46-52 | same length and order; `completed` flips exactly on the todos with that id; every other field and every other todo unchanged |
| TodoContext.DeleteTodo | client/src/context/TodoContext.tsx:54-56 | no todo left has the id, and a todo is kept exactly when it was in the list with another id |
| TodoContext.ToggleTwice | client/src/context/TodoContext.tsx:46-52 | toggling the same id twice gives back the list |
| TodoContext.ToggleAbsent | client/src/context/TodoContext.tsx:46-52 | toggling an id no todo has changes nothing |
| TodoContext.DeleteAppend | client/src/context/TodoContext.tsx:54-56 | deleting distributes over concatenation, so the kept todos keep their order |
| TodoContext.DeleteAbsent | client/src/context/TodoContext.tsx:54-56 | deleting an id no todo has changes nothing |
| TodoContext.DeleteKeepsOthers | client/src/context/TodoContext.tsx:54-56 | a todo with another id survives; one with that id does not |
| TodoContext.AddThenDelete | client/src/context/TodoContext.tsx:36-56 | adding a todo and then deleting its id is the same as deleting that id from the list before |

## Left out

- The MessagePack encoder and decoder and the JSON fallback (`serialize`, `deserialize`): a payload is the normalised value. The modelled `Value` holds no function, so MessagePack accepts it and the JSON fallback is not modelled. A repository's cached result is modelled as the value `{ rows }`. The program caches the pg driver's whole result object, which may hold parser functions that MessagePack rejects. There the JSON fallback may be taken, and a cache hit would then return Date columns as strings. The pg driver is not part of this model. The only undecodable payload is the lock's `"locked"` string.
- `cacheDeleteByPattern`: a fire-and-forget scan stream whose glob matching happens inside Redis.
- `cacheHealthCheck` and `flushCache`: network I/O only.
- Wall-clock time: entries carry their expiry but never expire in the model. The 100 ms wait of the lock wrapper is a step whose effect is the next keyspace in `pauses`.
- CacheWrapWithLock: the retry is bounded by the modelled waits (`LockStillHeld` when they run out), although the source recurses without a bound. The model is sequential, so it makes no claim that concurrent callers fetch only once. It also does not check that the lock deleted in `finally` is still the caller's lock.
- A connection that fails between two commands of one operation: `online` is fixed for a whole call.
- `QueryBuilder.transaction` and the pg pool: connection I/O. `query` is modelled only by its error wrapping. The server's reply is a parameter, and SQL itself is not evaluated.
- The logger calls and `console.error`: they have no effect on results.
- `toLowerCase` outside ASCII: only `A`–`Z` are lowercased, which is also all the regular expression `[A-Z]` marks.
- Numbers are integers. Floating point, object keys that JavaScript would reorder (integer-like keys) and duplicate keys are not modelled; a filter's entries are taken in the given order.
- An omitted ttl is passed as 0 (both are falsy). `orderBy` passed as `null` is `None`, and the default `id ASC` is `Some`.
- `localStorage` persistence of the todo list and React state handling: the updates are modelled as functions on the list.
- The ioredis pipeline's reply format: a refused SET inside `cacheMSet` is not reported.
- RedisUtils.CacheMSet: an unreachable server makes `pipeline.exec()` reject, also for an empty pair list. This is an assumption about the ioredis client, which is not part of this model; a client that reports connection errors inside the reply tuples would resolve with the keyspace unchanged.
- The Express server, routes, middleware, controllers, services, dependency wiring, error classes, models and client pages are not part of this model.
