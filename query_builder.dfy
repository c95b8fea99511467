/**
 * The SQL statement builder (`QueryBuilder` in server/src/lib/query-builder.ts).
 *
 * The functions give the meaning of each builder operation on `Sql` pieces;
 * the methods are the builder's own imperative code (a value list grown by
 * push, a running placeholder counter, a loop over the filter entries) and
 * are proved to produce the rendering of those functions.
 *
 * A filter is the sequence of its `Object.entries`, in that order.
 */
module QueryBuilder {
  import opened Js
  import opened Sql

  type Filter = seq<(string, Value)>

  /* ------------------------------------------------------------------ */
  /* A measure for the recursion through `or` groups                      */
  /* ------------------------------------------------------------------ */

  function Max(a: nat, b: nat): nat { if a < b then b else a }

  /** Nesting depth of arrays and objects. */
  function Depth(v: Value): nat
    decreases v, 1
  {
    match v
    case Arr(_) => 1 + DepthFrom(v, 0)
    case Obj(_) => 1 + DepthFrom(v, 0)
    case _ => 0
  }

  /** The largest depth among the children of `v` from the k-th on. */
  function DepthFrom(v: Value, k: nat): nat
    requires IsObject(v)
    decreases v, 0, (if v.Arr? then |v.items| else |v.fields|) - k
  {
    match v
    case Arr(items) => if k >= |items| then 0 else Max(Depth(items[k]), DepthFrom(v, k + 1))
    case Obj(fields) => if k >= |fields| then 0 else Max(Depth(fields[k].1), DepthFrom(v, k + 1))
  }

  function DepthOf(es: Filter): nat {
    if es == [] then 0 else Max(Depth(es[0].1), DepthOf(es[1..]))
  }

  lemma {:induction false} DepthFromBound(v: Value, j: nat, k: nat)
    requires v.Arr? && j <= k < |v.items|
    ensures Depth(v.items[k]) <= DepthFrom(v, j)
    decreases k - j
  {
    if j < k {
      DepthFromBound(v, j + 1, k);
    }
  }

  lemma {:induction false} DepthOfChildren(es: Filter, v: Value, j: nat)
    requires IsObject(v)
    requires j <= |es| == (if v.Arr? then |v.items| else |v.fields|)
    requires forall k :: j <= k < |es| ==> es[k].1 == (if v.Arr? then v.items[k] else v.fields[k].1)
    ensures DepthOf(es[j..]) == DepthFrom(v, j)
    decreases |es| - j
  {
    if j < |es| {
      DepthOfChildren(es, v, j + 1);
      assert es[j..][1..] == es[j + 1..];
    } else {
      assert es[j..] == [];
    }
  }

  lemma {:induction false} DepthOfBound(es: Filter, i: nat)
    requires i < |es|
    ensures Depth(es[i].1) <= DepthOf(es)
  {
    if i > 0 {
      DepthOfBound(es[1..], i - 1);
    }
  }

  lemma {:induction false} DepthOfFlat(es: Filter)
    requires forall k :: 0 <= k < |es| ==> Depth(es[k].1) == 0
    ensures DepthOf(es) == 0
  {
    if es != [] {
      DepthOfFlat(es[1..]);
    }
  }

  /* ------------------------------------------------------------------ */
  /* processCondition                                                    */
  /* ------------------------------------------------------------------ */

  /** One rendered condition, the values it pushed, and the counter after it. */
  datatype Cond = Cond(pieces: seq<Piece>, pushed: seq<Value>, next: int)

  /** `${column}${op}$${index++}` after pushing `v`. */
  function Single(column: string, op: string, i: int, v: Value): Cond {
    Cond([Text(column + op), Param(i)], [v], i + 1)
  }

  /** `%${v}%`, the pattern bound for `like` and `ilike`. */
  function Pattern(v: Value): Value {
    Str("%" + ToStr(v) + "%")
  }

  /** The `in` / `notIn` branch: one placeholder per element; `.map` throws on a non-array. */
  function InList(column: string, op: string, list: Value, i: int): Result<Cond> {
    if list.Arr? then
      Ok(Cond([Text(column + op)] + ListPieces(i, |list.items|) + [Text(")")], list.items, i + |list.items|))
    else Err(TypeError)
  }

  /** `processCondition(column, filter)` with the counter at `i`. */
  function Condition(column: string, filter: Value, i: int): Result<Cond> {
    if IsObject(filter) then
      if Truthy(Prop(filter, "like")) then Ok(Single(column, " LIKE ", i, Pattern(Prop(filter, "like"))))
      else if Truthy(Prop(filter, "ilike")) then Ok(Single(column, " ILIKE ", i, Pattern(Prop(filter, "ilike"))))
      else if Truthy(Prop(filter, "range")) then
        var range := Prop(filter, "range");
        Ok(Cond([Text(column + " BETWEEN "), Param(i), Text(" AND "), Param(i + 1)], [At(range, 0), At(range, 1)], i + 2))
      else if Truthy(Prop(filter, "in")) then InList(column, " IN (", Prop(filter, "in"), i)
      else if Truthy(Prop(filter, "notIn")) then InList(column, " NOT IN (", Prop(filter, "notIn"), i)
      else if Truthy(Prop(filter, "gte")) then Ok(Single(column, " >= ", i, Prop(filter, "gte")))
      else if Truthy(Prop(filter, "lte")) then Ok(Single(column, " <= ", i, Prop(filter, "lte")))
      else if Truthy(Prop(filter, "neq")) then Ok(Single(column, " != ", i, Prop(filter, "neq")))
      else Ok(Cond([], [], i))
    else
      Ok(Single(column, " = ", i, filter))
  }

  /* ------------------------------------------------------------------ */
  /* buildWhereClause                                                    */
  /* ------------------------------------------------------------------ */

  /** `Object.entries(v)`; it throws on null and undefined. */
  function Entries(v: Value): Result<Filter> {
    match v
    case Undefined => Err(TypeError)
    case Null => Err(TypeError)
    case Bool(_) => Ok([])
    case Num(_) => Ok([])
    case Str(s) => Ok(seq(|s|, k requires 0 <= k < |s| => (NatToString(k), Str([s[k]]))))
    case Arr(items) => Ok(seq(|items|, k requires 0 <= k < |items| => (NatToString(k), items[k])))
    case Obj(fields) => Ok(fields)
  }

  lemma EntriesDepth(v: Value)
    ensures Entries(v).Ok? ==> DepthOf(Entries(v).value) <= Depth(v)
  {
    match v
    case Str(s) =>
      DepthOfFlat(Entries(v).value);
    case Arr(items) =>
      DepthOfChildren(Entries(v).value, v, 0);
      assert Entries(v).value[0..] == Entries(v).value;
    case Obj(fields) =>
      DepthOfChildren(fields, v, 0);
      assert fields[0..] == fields;
    case _ =>
  }

  /** The state of the loop over the entries: conditions so far, values so far, counter. */
  datatype Acc = Acc(conds: seq<seq<Piece>>, values: seq<Value>, index: int)

  /** The clause, the bound values and the counter after the last entry. */
  datatype WhereOut = WhereOut(pieces: seq<Piece>, values: seq<Value>, next: int)

  /** `buildWhereClause(filters, start)` */
  function Where(filters: Filter, start: int): Result<WhereOut>
    decreases DepthOf(filters), 3
  {
    match Fold(filters, Acc([], [], start))
    case Err(e) => Err(e)
    case Ok(acc) =>
      Ok(WhereOut(if |acc.conds| > 0 then [Text("WHERE ")] + JoinPieces(acc.conds, " AND ") else [],
                  acc.values, acc.index))
  }

  /** The for-of loop over the entries, from state `acc`. */
  function Fold(es: Filter, acc: Acc): Result<Acc>
    decreases DepthOf(es), 2, |es|
  {
    if es == [] then Ok(acc)
    else
      match Step(acc, es[0].0, es[0].1)
      case Err(e) => Err(e)
      case Ok(acc') => Fold(es[1..], acc')
  }

  /** One iteration of the loop: an `or` group when the key is "or" and the value an array. */
  function Step(acc: Acc, column: string, filter: Value): Result<Acc>
    decreases Depth(filter), 1
  {
    if column == "or" && filter.Arr? then
      match OrParts(filter, 0, acc.index)
      case Err(e) => Err(e)
      case Ok(group) =>
        // the nested values are not appended
        Ok(Acc(acc.conds + [[Text("(")] + JoinPieces(group.0, " OR ") + [Text(")")]], acc.values, group.1))
    else
      match Condition(column, filter, acc.index)
      case Err(e) => Err(e)
      case Ok(c) => Ok(Acc(acc.conds + [c.pieces], acc.values + c.pushed, c.next))
  }

  /**
   * The `filter.map(...)` of an `or` group from its k-th nested filter on: each is
   * built from the current counter, parenthesised, and the counter advanced by
   * the number of '$' characters in its rendered text.
   */
  function OrParts(group: Value, k: nat, index: int): Result<(seq<seq<Piece>>, int)>
    requires group.Arr? && k <= |group.items|
    decreases Depth(group), 0, |group.items| - k
  {
    if k == |group.items| then Ok(([], index))
    else
      match Entries(group.items[k])
      case Err(e) => Err(e)
      case Ok(es) =>
        EntriesDepth(group.items[k]);
        DepthFromBound(group, 0, k);
        match Where(es, index)
        case Err(e) => Err(e)
        case Ok(w) =>
          match OrParts(group, k + 1, index + CountChar(Render(w.pieces), '$'))
          case Err(e) => Err(e)
          case Ok(rest) => Ok(([[Text("(")] + w.pieces + [Text(")")]] + rest.0, rest.1))
  }

  /* ------------------------------------------------------------------ */
  /* buildInsertClause, toSnakeCase, buildUpdateClause                   */
  /* ------------------------------------------------------------------ */

  predicate IsUpper(c: char) { 'A' <= c <= 'Z' }

  function Lower(c: char): char {
    if IsUpper(c) then (c as int + 32) as char else c
  }

  /** `str.replace(/([A-Z])/g, "_$1")` */
  function MarkUpper(s: string): (r: string)
    ensures |r| >= |s|
  {
    if s == [] then []
    else (if IsUpper(s[0]) then ['_', s[0]] else [s[0]]) + MarkUpper(s[1..])
  }

  /** `str.toLowerCase()`, on the ASCII letters. */
  function ToLowerCase(s: string): (r: string)
    ensures |r| == |s|
    ensures forall k :: 0 <= k < |r| ==> !IsUpper(r[k])
  {
    seq(|s|, k requires 0 <= k < |s| => Lower(s[k]))
  }

  /** `toSnakeCase`: no uppercase letter is left, and the result is never shorter. */
  function ToSnakeCase(s: string): (r: string)
    ensures |r| >= |s|
    ensures forall k :: 0 <= k < |r| ==> !IsUpper(r[k])
  {
    ToLowerCase(MarkUpper(s))
  }

  function KeysOf(entity: Filter): (r: seq<string>)
    ensures |r| == |entity|
  {
    seq(|entity|, k requires 0 <= k < |entity| => entity[k].0)
  }

  function ValuesOf(entity: Filter): (r: seq<Value>)
    ensures |r| == |entity| && forall k :: 0 <= k < |entity| ==> r[k] == entity[k].1
  {
    seq(|entity|, k requires 0 <= k < |entity| => entity[k].1)
  }

  datatype InsertClause = InsertClause(columns: string, placeholders: string, values: seq<Value>)

  /** The snake-cased column names, comma separated. */
  function InsertColumns(entity: Filter): string {
    JoinStr(seq(|entity|, k requires 0 <= k < |entity| => ToSnakeCase(entity[k].0)), ", ")
  }

  /** `buildInsertClause`: the k-th value bound is the k-th entry's value. */
  function BuildInsertClause(entity: Filter): (r: InsertClause)
    ensures |r.values| == |entity| && forall k :: 0 <= k < |entity| ==> r.values[k] == entity[k].1
  {
    InsertClause(InsertColumns(entity), Render(ListPieces(1, |entity|)), ValuesOf(entity))
  }

  datatype UpdateClause = UpdateClause(setClause: string, values: seq<Value>)

  /** The k-th assignment of the SET list, `key = $(k + 2)`, with the key verbatim. */
  function Assignment(updates: Filter, k: nat): seq<Piece>
    requires k < |updates|
  {
    [Text(updates[k].0 + " = "), Param(k + 2)]
  }

  function Assignments(updates: Filter): (r: seq<seq<Piece>>)
    ensures |r| == |updates| && forall k :: 0 <= k < |updates| ==> r[k] == Assignment(updates, k)
  {
    seq(|updates|, k requires 0 <= k < |updates| => Assignment(updates, k))
  }

  /** The assignments, comma separated. */
  function SetPieces(updates: Filter): seq<Piece> {
    JoinPieces(Assignments(updates), ", ")
  }

  /** `buildUpdateClause`: the k-th value bound is the k-th update's value. */
  function BuildUpdateClause(updates: Filter): (r: UpdateClause)
    ensures |r.values| == |updates| && forall k :: 0 <= k < |updates| ==> r.values[k] == updates[k].1
  {
    UpdateClause(Render(SetPieces(updates)), ValuesOf(updates))
  }

  /* ------------------------------------------------------------------ */
  /* buildSelectQueryWithJoins                                           */
  /* ------------------------------------------------------------------ */

  datatype Join = Join(table: string, on: string)

  datatype Direction = Asc | Desc

  datatype OrderBy = OrderBy(column: string, direction: Direction)

  /** The default ordering `{ column: "id", direction: "ASC" }`. */
  const DefaultOrder := OrderBy("id", Asc)

  function DirectionText(d: Direction): string {
    match d
    case Asc => "ASC"
    case Desc => "DESC"
  }

  function JoinClauses(joins: seq<Join>): (r: seq<string>)
    ensures |r| == |joins|
  {
    seq(|joins|, k requires 0 <= k < |joins| => "JOIN " + joins[k].table + " ON " + joins[k].on)
  }

  datatype Select = Select(pieces: seq<Piece>, values: seq<Value>)

  /** `SELECT cols FROM table`, then the joins when there are any. */
  function SelectHead(table: string, columns: seq<string>, joins: seq<Join>): string {
    "SELECT " + JoinStr(columns, ", ") + " FROM " + table
      + (if |joins| > 0 then " " + JoinStr(JoinClauses(joins), " ") else "")
  }

  function OrderText(orderBy: OrderBy): string {
    " ORDER BY " + orderBy.column + " " + DirectionText(orderBy.direction)
  }

  /** A truthy `value` is pushed and rendered as `${keyword}$${values.length}`. */
  function Trailing(s: Select, keyword: string, value: Value): Select {
    if Truthy(value) then
      Select(s.pieces + [Text(keyword), Param(|s.values| + 1)], s.values + [value])
    else s
  }

  /**
   * `buildSelectQueryWithJoins(...)`. `orderBy` is `None` when the caller passes
   * `null` (the default parameter is `Some(DefaultOrder)`); the where clause is
   * built from placeholder 1 and only for a non-empty filter object.
   */
  function SelectQuery(table: string, columns: seq<string>, joins: seq<Join>, filters: Filter,
                       limit: Value, offset: Value, orderBy: Option<OrderBy>): Result<Select>
  {
    var where := if |filters| > 0 then Where(filters, 1) else Ok(WhereOut([], [], 1));
    match where
    case Err(e) => Err(e)
    case Ok(w) =>
      Ok(Trailing(Trailing(SelectBody(table, columns, joins, |filters| > 0, w, orderBy), " LIMIT ", limit),
                  " OFFSET ", offset))
  }

  /** The statement up to ORDER BY, and the where clause's values. */
  function SelectBody(table: string, columns: seq<string>, joins: seq<Join>, hasWhere: bool, w: WhereOut,
                      orderBy: Option<OrderBy>): Select
  {
    Select([Text(SelectHead(table, columns, joins))]
           + (if hasWhere then [Text(" ")] + w.pieces else [])
           + (if orderBy.Some? then [Text(OrderText(orderBy.value))] else []), w.values)
  }

  /* ------------------------------------------------------------------ */
  /* The builder's imperative code                                       */
  /* ------------------------------------------------------------------ */

  /** A rendered condition: its text, the values it pushed and the counter after it. */
  datatype Rendered = Rendered(text: string, pushed: seq<Value>, next: int)

  function RenderCond(r: Result<Cond>): Result<Rendered> {
    match r
    case Err(e) => Err(e)
    case Ok(c) => Ok(Rendered(Render(c.pieces), c.pushed, c.next))
  }

  /** The `{ whereClause, values }` that buildWhereClause returns. */
  datatype WhereClause = WhereClause(whereClause: string, values: seq<Value>)

  function RenderWhere(r: Result<WhereOut>): Result<WhereClause> {
    match r
    case Err(e) => Err(e)
    case Ok(w) => Ok(WhereClause(Render(w.pieces), w.values))
  }

  lemma RenderSingle(column: string, op: string, i: int, v: Value)
    ensures Render(Single(column, op, i, v).pieces) == column + op + "$" + IntToString(i)
  {
    var ps := [Text(column + op), Param(i)];
    assert ps[1..][1..] == [];
    assert Render(ps[1..]) == "$" + IntToString(i) + Render([]);
  }

  lemma RenderWrapped(open: string, ps: seq<Piece>, close: string)
    ensures Render([Text(open)] + ps + [Text(close)]) == open + Render(ps) + close
  {
    RenderAppend([Text(open)] + ps, [Text(close)]);
    RenderAppend([Text(open)], ps);
  }

  /** `list.map(() => `$${index++}`).join(", ")` for a list of length n. */
  method Placeholders(n: nat, index: int) returns (s: string, next: int)
    ensures s == Render(ListPieces(index, n))
    ensures next == index + n
  {
    var marks: seq<string> := [];
    ghost var parts: seq<seq<Piece>> := [];
    next := index;
    while |marks| < n
      invariant |marks| <= n && next == index + |marks|
      invariant parts == ListParts(index, |marks|) && marks == RenderAll(parts)
    {
      RenderAllAppend(parts, [[Param(next)]]);
      RenderParam(next);
      marks := marks + ["$" + IntToString(next)];
      parts := parts + [[Param(next)]];
      next := next + 1;
    }
    ListPartsAre(index, n);
    RenderJoin(parts, ", ");
    s := JoinStr(marks, ", ");
  }

  /** `${column}${op}$${index++}` after pushing `v`. */
  method SingleCondition(column: string, op: string, index: int, v: Value) returns (r: Result<Rendered>)
    ensures r == RenderCond(Ok(Single(column, op, index, v)))
  {
    RenderSingle(column, op, index, v);
    r := Ok(Rendered(column + op + "$" + IntToString(index), [v], index + 1));
  }

  /** `${column} BETWEEN $${index++} AND $${index++}` after pushing both ends of `range`. */
  method BetweenCondition(column: string, range: Value, index: int) returns (r: Result<Rendered>)
    ensures r == RenderCond(Ok(Cond([Text(column + " BETWEEN "), Param(index), Text(" AND "), Param(index + 1)],
                                    [At(range, 0), At(range, 1)], index + 2)))
  {
    RenderTwoParams(column + " BETWEEN ", index, " AND ", index + 1);
    r := Ok(Rendered(column + " BETWEEN " + "$" + IntToString(index) + " AND " + "$" + IntToString(index + 1),
                     [At(range, 0), At(range, 1)], index + 2));
  }

  /** `${column}${op}${placeholders})` after pushing every item of `list`; `.map` throws on a non-array. */
  method InCondition(column: string, op: string, list: Value, index: int) returns (r: Result<Rendered>)
    ensures r == RenderCond(InList(column, op, list, index))
  {
    if list.Arr? {
      var placeholders, next := Placeholders(|list.items|, index);
      RenderWrapped(column + op, ListPieces(index, |list.items|), ")");
      r := Ok(Rendered(column + op + placeholders + ")", list.items, next));
    } else {
      r := Err(TypeError);
    }
  }

  /** `processCondition(column, filter)` with the counter at `index`. */
  method ProcessCondition(column: string, filter: Value, index: int) returns (r: Result<Rendered>)
    ensures r == RenderCond(Condition(column, filter, index))
  {
    if IsObject(filter) {
      var like, ilike, range := Prop(filter, "like"), Prop(filter, "ilike"), Prop(filter, "range");
      var inList, notIn := Prop(filter, "in"), Prop(filter, "notIn");
      var gte, lte, neq := Prop(filter, "gte"), Prop(filter, "lte"), Prop(filter, "neq");
      if Truthy(like) {
        r := SingleCondition(column, " LIKE ", index, Pattern(like));
      } else if Truthy(ilike) {
        r := SingleCondition(column, " ILIKE ", index, Pattern(ilike));
      } else if Truthy(range) {
        r := BetweenCondition(column, range, index);
      } else if Truthy(inList) {
        r := InCondition(column, " IN (", inList, index);
      } else if Truthy(notIn) {
        r := InCondition(column, " NOT IN (", notIn, index);
      } else if Truthy(gte) {
        r := SingleCondition(column, " >= ", index, gte);
      } else if Truthy(lte) {
        r := SingleCondition(column, " <= ", index, lte);
      } else if Truthy(neq) {
        r := SingleCondition(column, " != ", index, neq);
      } else {
        r := Ok(Rendered("", [], index));
      }
    } else {
      r := SingleCondition(column, " = ", index, filter);
    }
  }

  /** The nested parts already built, put in front of what the rest of the group gives. */
  function Prepend(done: seq<seq<Piece>>, rest: Result<(seq<seq<Piece>>, int)>): Result<(seq<seq<Piece>>, int)> {
    match rest
    case Err(e) => Err(e)
    case Ok(r) => Ok((done + r.0, r.1))
  }

  lemma PrependNothing(rest: Result<(seq<seq<Piece>>, int)>)
    ensures Prepend([], rest) == rest
  {
    if rest.Ok? {
      assert [] + rest.value.0 == rest.value.0;
    }
  }

  /** The text of an `or` group, `(` + the parts joined with " OR " + `)`, and the counter after it. */
  function GroupPieces(parts: seq<seq<Piece>>): seq<Piece> {
    [Text("(")] + JoinPieces(parts, " OR ") + [Text(")")]
  }

  function RenderGroup(r: Result<(seq<seq<Piece>>, int)>): Result<(string, int)> {
    match r
    case Err(e) => Err(e)
    case Ok(g) => Ok((Render(GroupPieces(g.0)), g.1))
  }

  lemma FoldAt(es: Filter, i: nat, acc: Acc)
    requires i < |es|
    ensures Fold(es[i..], acc) == match Step(acc, es[i].0, es[i].1)
                                   case Err(e) => Err(e)
                                   case Ok(a) => Fold(es[i + 1..], a)
  {
    assert es[i..][0] == es[i] && es[i..][1..] == es[i + 1..];
  }

  /** One nested filter of `OrParts`: its wrapped part goes in front of the rest. */
  lemma OrPartsUnfold(group: Value, k: nat, index: int, w: WhereOut)
    requires group.Arr? && k < |group.items|
    requires Entries(group.items[k]).Ok? && Where(Entries(group.items[k]).value, index) == Ok(w)
    ensures OrParts(group, k, index)
            == Prepend([[Text("(")] + w.pieces + [Text(")")]], OrParts(group, k + 1, index + CountChar(Render(w.pieces), '$')))
  {
    var es := Entries(group.items[k]).value;
    assert Where(es, index) == Ok(w);
  }

  lemma PrependTwice(a: seq<seq<Piece>>, b: seq<seq<Piece>>, rest: Result<(seq<seq<Piece>>, int)>)
    ensures Prepend(a, Prepend(b, rest)) == Prepend(a + b, rest)
  {
    if rest.Ok? {
      assert a + (b + rest.value.0) == (a + b) + rest.value.0;
    }
  }

  /** One step of the `or` loop: the part for item `k` moves from the rest to the parts done. */
  lemma OrPartsStep(group: Value, k: nat, index: int, done: seq<seq<Piece>>, w: WhereOut)
    requires group.Arr? && k < |group.items|
    requires Entries(group.items[k]).Ok? && Where(Entries(group.items[k]).value, index) == Ok(w)
    ensures Prepend(done, OrParts(group, k, index))
            == Prepend(done + [[Text("(")] + w.pieces + [Text(")")]],
                       OrParts(group, k + 1, index + CountChar(Render(w.pieces), '$')))
  {
    var part := [Text("(")] + w.pieces + [Text(")")];
    var rest := OrParts(group, k + 1, index + CountChar(Render(w.pieces), '$'));
    OrPartsUnfold(group, k, index, w);
    assert OrParts(group, k, index) == Prepend([part], rest);
    PrependTwice(done, [part], rest);
  }

  /** The `or` loop from item `k` on, with the parts `done` so far: one step per nested filter. */
  function OrFrom(group: Value, k: nat, index: int, done: seq<seq<Piece>>): Result<(seq<seq<Piece>>, int)>
    requires group.Arr? && k <= |group.items|
    decreases |group.items| - k
  {
    if k == |group.items| then Ok((done, index))
    else
      match Entries(group.items[k])
      case Err(e) => Err(e)
      case Ok(es) =>
        match Where(es, index)
        case Err(e) => Err(e)
        case Ok(w) => OrFrom(group, k + 1, index + CountChar(Render(w.pieces), '$'), done + [[Text("(")] + w.pieces + [Text(")")]])
  }

  lemma OrFromStep(group: Value, k: nat, index: int, done: seq<seq<Piece>>, w: WhereOut, index': int, done': seq<seq<Piece>>)
    requires group.Arr? && k < |group.items|
    requires Entries(group.items[k]).Ok? && Where(Entries(group.items[k]).value, index) == Ok(w)
    requires index' == index + CountChar(Render(w.pieces), '$')
    requires done' == done + [[Text("(")] + w.pieces + [Text(")")]]
    ensures OrFrom(group, k, index, done) == OrFrom(group, k + 1, index', done')
  {
  }

  /** The `or` loop stops at the first nested filter that throws, with that error. */
  lemma OrFromFails(group: Value, k: nat, index: int, done: seq<seq<Piece>>)
    requires group.Arr? && k < |group.items|
    ensures Entries(group.items[k]).Err? ==> OrFrom(group, k, index, done) == Err(Entries(group.items[k]).error)
    ensures Entries(group.items[k]).Ok? && Where(Entries(group.items[k]).value, index).Err? ==>
              OrFrom(group, k, index, done) == Err(Where(Entries(group.items[k]).value, index).error)
  {
  }

  /** A nested filter that throws stops both formulations with the same error. */
  lemma OrFailsAgree(group: Value, k: nat, index: int, done: seq<seq<Piece>>)
    requires group.Arr? && k < |group.items|
    requires Entries(group.items[k]).Err? || Where(Entries(group.items[k]).value, index).Err?
    ensures OrFrom(group, k, index, done) == Prepend(done, OrParts(group, k, index))
  {
    OrFromFails(group, k, index, done);
    var entries := Entries(group.items[k]);
    if entries.Err? {
      assert OrParts(group, k, index) == Err(entries.error);
    } else {
      assert OrParts(group, k, index) == Err(Where(entries.value, index).error);
    }
  }

  lemma {:induction false} OrFromParts(group: Value, k: nat, index: int, done: seq<seq<Piece>>)
    requires group.Arr? && k <= |group.items|
    ensures OrFrom(group, k, index, done) == Prepend(done, OrParts(group, k, index))
    decreases |group.items| - k
  {
    if k == |group.items| {
      assert done + [] == done;
    } else {
      var entries := Entries(group.items[k]);
      if entries.Err? || Where(entries.value, index).Err? {
        OrFailsAgree(group, k, index, done);
      } else {
        var w := Where(entries.value, index).value;
        var index' := index + CountChar(Render(w.pieces), '$');
        var done' := done + [[Text("(")] + w.pieces + [Text(")")]];
        OrFromStep(group, k, index, done, w, index', done');
        OrFromParts(group, k + 1, index', done');
        OrPartsStep(group, k, index, done, w);
      }
    }
  }

  /** The texts of the parts done, one more part. */
  lemma OrLoopText(done: seq<seq<Piece>>, parts: seq<string>, ps: seq<Piece>)
    requires parts == RenderAll(done)
    ensures parts + ["(" + Render(ps) + ")"] == RenderAll(done + [[Text("(")] + ps + [Text(")")]])
  {
    RenderWrapped("(", ps, ")");
    RenderAllAppend(done, [[Text("(")] + ps + [Text(")")]]);
  }

  /** The number of '$' characters across the texts `parts`. */
  function DollarsIn(parts: seq<string>): nat {
    if parts == [] then 0 else CountChar(parts[0], '$') + DollarsIn(parts[1..])
  }

  lemma {:induction false} DollarsInSnoc(parts: seq<string>, s: string)
    ensures DollarsIn(parts + [s]) == DollarsIn(parts) + CountChar(s, '$')
  {
    if parts == [] {
      assert [s][1..] == [];
    } else {
      assert (parts + [s])[1..] == parts[1..] + [s];
      DollarsInSnoc(parts[1..], s);
    }
  }

  /** Joining with a '$'-free separator adds no '$'. */
  lemma {:induction false} JoinDollars(parts: seq<string>, sep: string)
    requires CountChar(sep, '$') == 0
    ensures CountChar(JoinStr(parts, sep), '$') == DollarsIn(parts)
  {
    if |parts| == 1 {
      assert parts[1..] == [];
    } else if |parts| > 1 {
      JoinDollars(parts[1..], sep);
      CountCharAppend(parts[0] + sep, JoinStr(parts[1..], sep), '$');
      CountCharAppend(parts[0], sep, '$');
    }
  }

  /** Parentheses add no '$'. */
  lemma ParenDollars(s: string)
    ensures CountChar("(" + s + ")", '$') == CountChar(s, '$')
  {
    CountCharAppend("(" + s, ")", '$');
    CountCharAppend("(", s, '$');
  }

  /** A wrapped clause adds its own '$' characters to the count. */
  lemma OrCounterStep(parts: seq<string>, clause: string)
    ensures DollarsIn(parts + ["(" + clause + ")"]) == DollarsIn(parts) + CountChar(clause, '$')
  {
    DollarsInSnoc(parts, "(" + clause + ")");
    ParenDollars(clause);
  }

  /** The group's text holds exactly the '$' characters of its parts. */
  lemma OrCounterEnd(parts: seq<string>)
    ensures CountChar("(" + JoinStr(parts, " OR ") + ")", '$') == DollarsIn(parts)
  {
    assert CountChar(" OR ", '$') == 0;
    JoinDollars(parts, " OR ");
    ParenDollars(JoinStr(parts, " OR "));
  }

  /** After the `or` loop: the joined text is the group's rendering, and the counter has passed its '$' characters. */
  lemma OrLoopDone(done: seq<seq<Piece>>, parts: seq<string>, index: int, next: int)
    requires parts == RenderAll(done) && next == index + DollarsIn(parts)
    ensures "(" + JoinStr(parts, " OR ") + ")" == Render(GroupPieces(done))
    ensures next == index + CountChar("(" + JoinStr(parts, " OR ") + ")", '$')
  {
    RenderJoin(done, " OR ");
    RenderWrapped("(", JoinPieces(done, " OR "), ")");
    OrCounterEnd(parts);
  }

  /** One turn of the `or` loop keeps its invariants. */
  lemma OrLoopAdvance(group: Value, k: nat, index: int, next: int, done: seq<seq<Piece>>, parts: seq<string>,
                       w: WhereOut, next': int, done': seq<seq<Piece>>, parts': seq<string>)
    requires group.Arr? && k < |group.items|
    requires Entries(group.items[k]).Ok? && Where(Entries(group.items[k]).value, next) == Ok(w)
    requires parts == RenderAll(done) && OrFrom(group, 0, index, []) == OrFrom(group, k, next, done)
    requires next == index + DollarsIn(parts)
    requires parts' == parts + ["(" + Render(w.pieces) + ")"]
    requires done' == done + [[Text("(")] + w.pieces + [Text(")")]]
    requires next' == next + CountChar(Render(w.pieces), '$')
    ensures parts' == RenderAll(done')
    ensures next' == index + DollarsIn(parts')
    ensures OrFrom(group, 0, index, []) == OrFrom(group, k + 1, next', done')
  {
    OrFromStep(group, k, next, done, w, next', done');
    OrLoopText(done, parts, w.pieces);
    OrCounterStep(parts, Render(w.pieces));
  }

  /** `buildWhereClause(nestedFilter, paramIndex)` for the k-th nested filter of an `or` group. */
  method OrItem(group: Value, k: nat, index: int) returns (r: Result<WhereClause>)
    requires group.Arr? && k < |group.items|
    ensures Entries(group.items[k]).Err? ==> r == Err(Entries(group.items[k]).error)
    ensures Entries(group.items[k]).Ok? ==> r == RenderWhere(Where(Entries(group.items[k]).value, index))
    decreases Depth(group), 1
  {
    var nested := Entries(group.items[k]);
    if nested.Err? {
      r := Err(nested.error);
      return;
    }
    EntriesDepth(group.items[k]);
    DepthFromBound(group, 0, k);
    r := BuildWhereClause(nested.value, index);
  }

  /**
   * The `or` branch: each nested filter built from the current counter, joined with " OR ".
   * It is specified by the loop's own recursion `OrFrom`, which `OrFromParts` shows to be `OrParts`.
   */
  method OrGroup(group: Value, index: int) returns (r: Result<(string, int)>)
    requires group.Arr?
    ensures r == RenderGroup(OrFrom(group, 0, index, []))
    ensures r.Ok? ==> r.value.1 == index + CountChar(r.value.0, '$')
    decreases Depth(group), 2
  {
    var parts: seq<string> := [];
    ghost var done: seq<seq<Piece>> := [];
    var next := index;
    var k := 0;
    while k < |group.items|
      invariant 0 <= k <= |group.items|
      invariant parts == RenderAll(done)
      invariant OrFrom(group, 0, index, []) == OrFrom(group, k, next, done)
      invariant next == index + DollarsIn(parts)
    {
      var sub := OrItem(group, k, next);
      if sub.Err? {
        OrFromFails(group, k, next, done);
        r := Err(sub.error);
        return;
      }
      ghost var w := Where(Entries(group.items[k]).value, next).value;
      assert sub.value.whereClause == Render(w.pieces);
      var parts' := parts + ["(" + sub.value.whereClause + ")"];
      ghost var done' := done + [[Text("(")] + w.pieces + [Text(")")]];
      var next' := next + CountChar(sub.value.whereClause, '$');
      OrLoopAdvance(group, k, index, next, done, parts, w, next', done', parts');
      parts, done, next := parts', done', next';
      k := k + 1;
    }
    OrLoopDone(done, parts, index, next);
    r := Ok(("(" + JoinStr(parts, " OR ") + ")", next));
  }

  /**
   * `buildWhereClause(filters, indexStart)`: a loop over the entries that pushes
   * values and advances `index`, recursing into the nested filters of an `or` group.
   */
  method BuildWhereClause(filters: Filter, indexStart: int) returns (r: Result<WhereClause>)
    ensures r == RenderWhere(Where(filters, indexStart))
    decreases DepthOf(filters), 3
  {
    var conditions: seq<string> := [];
    var values: seq<Value> := [];
    var index := indexStart;
    ghost var acc := Acc([], [], indexStart);
    var i := 0;
    while i < |filters|
      invariant 0 <= i <= |filters|
      invariant conditions == RenderAll(acc.conds) && values == acc.values && index == acc.index
      invariant Fold(filters, Acc([], [], indexStart)) == Fold(filters[i..], acc)
    {
      var column, filter := filters[i].0, filters[i].1;
      FoldAt(filters, i, acc);
      if column == "or" && filter.Arr? {
        DepthOfBound(filters, i);
        var group := OrGroup(filter, index);
        OrFromParts(filter, 0, index, []);
        PrependNothing(OrParts(filter, 0, index));
        if group.Err? {
          r := Err(group.error);
          return;
        }
        ghost var g := OrParts(filter, 0, index).value;
        RenderAllAppend(acc.conds, [GroupPieces(g.0)]);
        conditions := conditions + [group.value.0];
        index := group.value.1;
        acc := Acc(acc.conds + [GroupPieces(g.0)], acc.values, g.1);
      } else {
        var c := ProcessCondition(column, filter, index);
        if c.Err? {
          r := Err(c.error);
          return;
        }
        ghost var cond := Condition(column, filter, index).value;
        RenderAllAppend(acc.conds, [cond.pieces]);
        conditions := conditions + [c.value.text];
        values := values + c.value.pushed;
        index := c.value.next;
        acc := Acc(acc.conds + [cond.pieces], acc.values + cond.pushed, cond.next);
      }
      i := i + 1;
    }
    assert filters[i..] == [];
    RenderJoin(acc.conds, " AND ");
    if |conditions| > 0 {
      RenderAppend([Text("WHERE ")], JoinPieces(acc.conds, " AND "));
    }
    r := Ok(WhereClause(if |conditions| > 0 then "WHERE " + JoinStr(conditions, " AND ") else "", values));
  }

  datatype SelectText = SelectText(query: string, values: seq<Value>)

  function RenderSelect(r: Result<Select>): Result<SelectText> {
    match r
    case Err(e) => Err(e)
    case Ok(q) => Ok(SelectText(Render(q.pieces), q.values))
  }

  lemma RenderTrailing(s: Select, keyword: string, value: Value)
    requires Truthy(value)
    ensures Render(Trailing(s, keyword, value).pieces)
            == Render(s.pieces) + keyword + "$" + IntToString(|s.values| + 1)
  {
    RenderAppend(s.pieces, [Text(keyword), Param(|s.values| + 1)]);
    RenderPair(Text(keyword), Param(|s.values| + 1));
  }

  /** `if (value) { values.push(value); query += `${keyword}$${values.length}`; }` */
  method PushTrailing(query: string, values: seq<Value>, ghost q: Select, keyword: string, value: Value)
    returns (query': string, values': seq<Value>)
    requires Render(q.pieces) == query && q.values == values
    ensures var t := Trailing(q, keyword, value);
            Render(t.pieces) == query' && t.values == values'
  {
    query', values' := query, values;
    if Truthy(value) {
      RenderTrailing(q, keyword, value);
      values' := values' + [value];
      query' := query' + keyword + "$" + IntToString(|values'|);
    }
  }

  method SelectHeadText(table: string, columns: seq<string>, joins: seq<Join>) returns (query: string)
    ensures query == SelectHead(table, columns, joins)
  {
    query := "SELECT " + JoinStr(columns, ", ") + " FROM " + table;
    if |joins| > 0 {
      var joinClauses := seq(|joins|, k requires 0 <= k < |joins| => "JOIN " + joins[k].table + " ON " + joins[k].on);
      assert joinClauses == JoinClauses(joins);
      query := query + " " + JoinStr(joinClauses, " ");
    }
  }

  lemma SelectQueryIs(table: string, columns: seq<string>, joins: seq<Join>, filters: Filter,
                      limit: Value, offset: Value, orderBy: Option<OrderBy>, w: WhereOut)
    requires if |filters| > 0 then Where(filters, 1) == Ok(w) else w == WhereOut([], [], 1)
    ensures SelectQuery(table, columns, joins, filters, limit, offset, orderBy)
            == Ok(Trailing(Trailing(SelectBody(table, columns, joins, |filters| > 0, w, orderBy), " LIMIT ", limit),
                           " OFFSET ", offset))
  {
  }

  /** The LIMIT and OFFSET placeholders, numbered by the length of the values at each push. */
  method PushLimitOffset(query: string, values: seq<Value>, ghost q: Select, limit: Value, offset: Value)
    returns (query': string, values': seq<Value>)
    requires Render(q.pieces) == query && q.values == values
    ensures var t := Trailing(Trailing(q, " LIMIT ", limit), " OFFSET ", offset);
            Render(t.pieces) == query' && t.values == values'
  {
    query', values' := PushTrailing(query, values, q, " LIMIT ", limit);
    query', values' := PushTrailing(query', values', Trailing(q, " LIMIT ", limit), " OFFSET ", offset);
  }

  /** The query text grows by `+=` and the values by `push`, in the order of the source. */
  method BuildSelectQueryWithJoins(table: string, columns: seq<string>, joins: seq<Join>, filters: Filter,
                                   limit: Value, offset: Value, orderBy: Option<OrderBy>)
    returns (r: Result<SelectText>)
    ensures r == RenderSelect(SelectQuery(table, columns, joins, filters, limit, offset, orderBy))
  {
    var query := SelectHeadText(table, columns, joins);
    var values: seq<Value> := [];
    ghost var pieces := [Text(SelectHead(table, columns, joins))];
    ghost var w := WhereOut([], [], 1);
    assert Render(pieces) == query;
    if |filters| > 0 {
      var clause := BuildWhereClause(filters, 1);
      if clause.Err? {
        r := Err(clause.error);
        return;
      }
      w := Where(filters, 1).value;
      RenderAppend(pieces, [Text(" ")] + w.pieces);
      RenderAppend([Text(" ")], w.pieces);
      query := query + " " + clause.value.whereClause;
      values := values + clause.value.values;
      pieces := pieces + ([Text(" ")] + w.pieces);
      assert Render(pieces) == query;
    }
    if orderBy.Some? {
      RenderSnoc(pieces, OrderText(orderBy.value));
      query := query + OrderText(orderBy.value);
      pieces := pieces + [Text(OrderText(orderBy.value))];
    }
    ghost var q := SelectBody(table, columns, joins, |filters| > 0, w, orderBy);
    assert q.pieces == pieces && q.values == values;
    query, values := PushLimitOffset(query, values, q, limit, offset);
    SelectQueryIs(table, columns, joins, filters, limit, offset, orderBy, w);
    r := Ok(SelectText(query, values));
  }
}
