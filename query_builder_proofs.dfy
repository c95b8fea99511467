/**
 * Properties of the statement builder: how each operator consumes placeholders
 * and values, the shape of the where clause, the `or` group's counter and its
 * dropped values, snake-casing, and the placeholder layout of insert, update
 * and select statements.
 */
module QueryBuilderProofs {
  import opened Js
  import opened Sql
  import opened QueryBuilder

  /* ------------------------------------------------------------------ */
  /* processCondition                                                    */
  /* ------------------------------------------------------------------ */

  /** The operators of an object filter, in the order the code tries them. */
  const Operators: seq<string> := ["like", "ilike", "range", "in", "notIn", "gte", "lte", "neq"]

  /** The position of the first operator from `k` on whose property is truthy. */
  function FirstOperatorFrom(filter: Value, k: nat): (r: Option<nat>)
    requires k <= |Operators|
    ensures r.Some? ==> k <= r.value < |Operators| && Truthy(Prop(filter, Operators[r.value]))
    ensures r.Some? ==> forall j :: k <= j < r.value ==> !Truthy(Prop(filter, Operators[j]))
    ensures r.None? ==> forall j :: k <= j < |Operators| ==> !Truthy(Prop(filter, Operators[j]))
    decreases |Operators| - k
  {
    if k == |Operators| then None
    else if Truthy(Prop(filter, Operators[k])) then Some(k)
    else FirstOperatorFrom(filter, k + 1)
  }

  function FirstOperator(filter: Value): Option<nat> {
    FirstOperatorFrom(filter, 0)
  }

  /** The SQL operator text each filter operator renders after the column name. */
  function OperatorText(op: string): string {
    match op
    case "like" => " LIKE "
    case "ilike" => " ILIKE "
    case "range" => " BETWEEN "
    case "in" => " IN ("
    case "notIn" => " NOT IN ("
    case "gte" => " >= "
    case "lte" => " <= "
    case _ => " != "
  }

  /** The values an operator binds for its operand `v`; `None` when `.map` would throw. */
  function Bound(op: string, v: Value): Option<seq<Value>> {
    match op
    case "like" => Some([Pattern(v)])
    case "ilike" => Some([Pattern(v)])
    case "range" => Some([At(v, 0), At(v, 1)])
    case "in" => if v.Arr? then Some(v.items) else None
    case "notIn" => if v.Arr? then Some(v.items) else None
    case _ => Some([v])
  }

  /**
   * An object filter is decided by the first truthy operator: it binds that
   * operator's values, opens with that operator's text, and fails only when a
   * chosen `in` / `notIn` operand is not an array. With no truthy operator the
   * condition is empty and binds nothing; anything else is plain equality.
   */
  lemma ConditionByOperator(column: string, filter: Value, i: int)
    ensures !IsObject(filter) ==>
              Condition(column, filter, i) == Ok(Cond([Text(column + " = "), Param(i)], [filter], i + 1))
    ensures IsObject(filter) && FirstOperator(filter).None? ==> Condition(column, filter, i) == Ok(Cond([], [], i))
    ensures IsObject(filter) && FirstOperator(filter).Some? ==>
              var op := Operators[FirstOperator(filter).value];
              var bound := Bound(op, Prop(filter, op));
              (Condition(column, filter, i).Ok? <==> bound.Some?) &&
              (bound.Some? ==> var c := Condition(column, filter, i).value;
                               c.pushed == bound.value && c.pieces[0] == Text(column + OperatorText(op)))
  {
    if IsObject(filter) && FirstOperator(filter).Some? {
      var j := FirstOperator(filter).value;
      assert Operators[0] == "like" && Operators[1] == "ilike" && Operators[2] == "range" && Operators[3] == "in";
      assert Operators[4] == "notIn" && Operators[5] == "gte" && Operators[6] == "lte" && Operators[7] == "neq";
      assert !Truthy(Prop(filter, Operators[0])) ==> j != 0;
    }
  }

  /** The condition's placeholders are `i, i + 1, ...`, one per bound value, and the counter ends past them. */
  predicate Numbered(c: Cond, i: int, column: string) {
    Params(c.pieces) == Range(i, |c.pushed|) && c.next == i + |c.pushed| &&
    ('$' !in column ==> DollarFree(c.pieces))
  }

  lemma SinglePlaceholders(column: string, op: string, i: int, v: Value)
    requires '$' !in op
    ensures Numbered(Single(column, op, i, v), i, column)
  {
    var ps := Single(column, op, i, v).pieces;
    assert ps[1..][1..] == [];
    assert Params(ps[1..]) == [i] + Params([]);
    assert Range(i, 1) == [i];
  }

  lemma BetweenPlaceholders(column: string, i: int, range: Value)
    ensures Numbered(Cond([Text(column + " BETWEEN "), Param(i), Text(" AND "), Param(i + 1)],
                          [At(range, 0), At(range, 1)], i + 2), i, column)
  {
    var ps := [Text(column + " BETWEEN "), Param(i), Text(" AND "), Param(i + 1)];
    assert ps[1..][1..][1..][1..] == [];
    assert Params(ps[1..][1..][1..]) == [i + 1] + Params([]);
    assert Params(ps[1..]) == [i] + Params(ps[1..][1..][1..]);
    assert Range(i, 2) == [i, i + 1];
  }

  lemma InListPlaceholders(column: string, op: string, list: Value, i: int)
    requires list.Arr? && '$' !in op
    ensures Numbered(InList(column, op, list, i).value, i, column)
  {
    var n := |list.items|;
    var head, tail := [Text(column + op)], [Text(")")];
    ParamsList(i, n);
    ParamsAppend(head + ListPieces(i, n), tail);
    ParamsAppend(head, ListPieces(i, n));
    assert Params(head) == [] && Params(tail) == [];
    var ps := head + ListPieces(i, n) + tail;
    assert forall k :: 1 <= k < |ps| - 1 ==> ps[k] == ListPieces(i, n)[k - 1];
  }

  /**
   * Every condition numbers its placeholders `i, i + 1, ...`, one per bound
   * value, and leaves the counter just past them; its text holds no '$' other
   * than the placeholders when the column name has none.
   */
  lemma ConditionPlaceholders(column: string, filter: Value, i: int)
    ensures Condition(column, filter, i).Ok? ==> Numbered(Condition(column, filter, i).value, i, column)
  {
    if !IsObject(filter) {
      SinglePlaceholders(column, " = ", i, filter);
    } else if Truthy(Prop(filter, "like")) {
      SinglePlaceholders(column, " LIKE ", i, Pattern(Prop(filter, "like")));
    } else if Truthy(Prop(filter, "ilike")) {
      SinglePlaceholders(column, " ILIKE ", i, Pattern(Prop(filter, "ilike")));
    } else if Truthy(Prop(filter, "range")) {
      BetweenPlaceholders(column, i, Prop(filter, "range"));
    } else if Truthy(Prop(filter, "in")) {
      if Prop(filter, "in").Arr? {
        InListPlaceholders(column, " IN (", Prop(filter, "in"), i);
      }
    } else if Truthy(Prop(filter, "notIn")) {
      if Prop(filter, "notIn").Arr? {
        InListPlaceholders(column, " NOT IN (", Prop(filter, "notIn"), i);
      }
    } else if Truthy(Prop(filter, "gte")) {
      SinglePlaceholders(column, " >= ", i, Prop(filter, "gte"));
    } else if Truthy(Prop(filter, "lte")) {
      SinglePlaceholders(column, " <= ", i, Prop(filter, "lte"));
    } else if Truthy(Prop(filter, "neq")) {
      SinglePlaceholders(column, " != ", i, Prop(filter, "neq"));
    }
  }

  /* ------------------------------------------------------------------ */
  /* buildWhereClause                                                    */
  /* ------------------------------------------------------------------ */

  /** No entry is an `or` group (an `or` key whose value is not an array is an ordinary column). */
  predicate NoOr(es: Filter) {
    forall k :: 0 <= k < |es| ==> !(es[k].0 == "or" && es[k].1.Arr?)
  }

  /** No column name contains '$'. */
  predicate PlainColumns(es: Filter) {
    forall k :: 0 <= k < |es| ==> '$' !in es[k].0
  }

  /** The loop's state numbers its placeholders from `start`, one per value so far. */
  predicate AccNumbered(acc: Acc, start: int) {
    ParamsAll(acc.conds) == Range(start, |acc.values|) && acc.index == start + |acc.values|
  }

  /** All conditions so far hold no '$' other than their placeholders. */
  predicate AllDollarFree(conds: seq<seq<Piece>>) {
    forall k :: 0 <= k < |conds| ==> DollarFree(conds[k])
  }

  /**
   * One entry other than an `or` group keeps the numbering and adds one
   * condition, which holds no '$' of its own when the column name has none.
   */
  lemma StepNumbered(acc: Acc, column: string, filter: Value, start: int)
    requires !(column == "or" && filter.Arr?) && AccNumbered(acc, start)
    ensures Step(acc, column, filter).Ok? ==>
              var a := Step(acc, column, filter).value;
              AccNumbered(a, start) && |a.conds| == |acc.conds| + 1 &&
              ('$' !in column && AllDollarFree(acc.conds) ==> AllDollarFree(a.conds))
  {
    match Condition(column, filter, acc.index)
    case Err(_) =>
    case Ok(c) =>
      ConditionPlaceholders(column, filter, acc.index);
      ParamsAllAppend(acc.conds, [c.pieces]);
      assert ParamsAll([c.pieces]) == Params(c.pieces) + ParamsAll([]);
      RangeAppend(start, |acc.values|, |c.pushed|);
      var acc' := Acc(acc.conds + [c.pieces], acc.values + c.pushed, c.next);
      assert Step(acc, column, filter) == Ok(acc');
  }

  /**
   * Without `or` groups the loop numbers every placeholder consecutively from
   * `start`, one per value, one condition per entry, whatever the column names.
   */
  lemma {:induction false} FoldNumbered(es: Filter, acc: Acc, start: int)
    requires NoOr(es) && AccNumbered(acc, start)
    ensures Fold(es, acc).Ok? ==>
              var a := Fold(es, acc).value;
              AccNumbered(a, start) && |a.conds| == |acc.conds| + |es| &&
              (PlainColumns(es) && AllDollarFree(acc.conds) ==> AllDollarFree(a.conds))
    decreases |es|
  {
    if es != [] {
      StepNumbered(acc, es[0].0, es[0].1, start);
      var step := Step(acc, es[0].0, es[0].1);
      if step.Ok? {
        assert NoOr(es[1..]) && (PlainColumns(es) ==> PlainColumns(es[1..])) by {
          assert forall k :: 0 <= k < |es[1..]| ==> es[1..][k] == es[k + 1];
        }
        FoldNumbered(es[1..], step.value, start);
      }
    }
  }

  /** The fixed texts of the clause hold no '$'. */
  lemma WhereKeywordDollarFree()
    ensures DollarFree([Text("WHERE ")]) && '$' !in " AND "
  {
    var ps := [Text("WHERE ")];
    assert '$' !in ps[0].s;
  }

  /** The clause pieces `WHERE c1 AND c2 ...` keep the placeholders of the conditions and add no '$'. */
  lemma WhereClausePieces(conds: seq<seq<Piece>>)
    ensures var ps := if |conds| > 0 then [Text("WHERE ")] + JoinPieces(conds, " AND ") else [];
            Params(ps) == ParamsAll(conds) && (AllDollarFree(conds) ==> DollarFree(ps))
  {
    ParamsJoin(conds, " AND ");
    if |conds| > 0 {
      var js := JoinPieces(conds, " AND ");
      ParamsAppend([Text("WHERE ")], js);
      assert Params([Text("WHERE ")]) == [];
      if AllDollarFree(conds) {
        WhereKeywordDollarFree();
        DollarFreeJoin(conds, " AND ");
        DollarFreeAppend([Text("WHERE ")], js);
      }
    }
  }

  /**
   * Without `or` groups, the clause numbers its placeholders `start, start + 1, ...`
   * in text order, one per bound value, so `$k` binds `values[k - start]`,
   * whatever the column names; when no column name holds a '$', the text holds
   * exactly one '$' per value.
   */
  lemma WherePlaceholders(filters: Filter, start: int)
    requires NoOr(filters)
    ensures Where(filters, start).Ok? ==>
              var w := Where(filters, start).value;
              Params(w.pieces) == Range(start, |w.values|) && w.next == start + |w.values|
    ensures Where(filters, start).Ok? && PlainColumns(filters) ==>
              CountChar(Render(Where(filters, start).value.pieces), '$') == |Where(filters, start).value.values|
  {
    var acc := Acc([], [], start);
    FoldNumbered(filters, acc, start);
    var f := Fold(filters, acc);
    if f.Ok? {
      var a := f.value;
      assert AccNumbered(a, start);
      var ps := if |a.conds| > 0 then [Text("WHERE ")] + JoinPieces(a.conds, " AND ") else [];
      WhereClausePieces(a.conds);
      assert Where(filters, start) == Ok(WhereOut(ps, a.values, a.index));
      if PlainColumns(filters) {
        CountDollars(ps);
      }
    }
  }

  /** The loop visits the entries in order: the entries of `a + b` are those of `a`, then those of `b`. */
  lemma {:induction false} FoldAppend(a: Filter, b: Filter, acc: Acc)
    ensures Fold(a + b, acc) == match Fold(a, acc)
                                case Err(e) => Err(e)
                                case Ok(acc') => Fold(b, acc')
    decreases |a|
  {
    if a == [] {
      assert a + b == b;
    } else {
      assert (a + b)[0] == a[0] && (a + b)[1..] == a[1..] + b;
      match Step(acc, a[0].0, a[0].1)
      case Err(_) =>
      case Ok(acc') => FoldAppend(a[1..], b, acc');
    }
  }

  /** One condition per entry, each appended after the earlier ones. */
  lemma {:induction false} FoldConds(es: Filter, acc: Acc)
    ensures Fold(es, acc).Ok? ==>
              |Fold(es, acc).value.conds| == |acc.conds| + |es| &&
              Fold(es, acc).value.conds[..|acc.conds|] == acc.conds &&
              |acc.values| <= |Fold(es, acc).value.values| &&
              Fold(es, acc).value.values[..|acc.values|] == acc.values
    decreases |es|
  {
    if es != [] {
      match Step(acc, es[0].0, es[0].1)
      case Err(_) =>
      case Ok(acc') =>
        FoldConds(es[1..], acc');
        var r := Fold(es[1..], acc');
        if r.Ok? {
          assert r.value.conds[..|acc.conds|] == r.value.conds[..|acc'.conds|][..|acc.conds|];
          assert r.value.values[..|acc.values|] == r.value.values[..|acc'.values|][..|acc.values|];
        }
    }
  }

  /**
   * An empty filter gives the empty clause and no values; any other clause is
   * "WHERE " followed by one condition per entry joined with " AND ".
   */
  lemma WhereShape(filters: Filter, start: int)
    ensures Where([], start) == Ok(WhereOut([], [], start))
    ensures |filters| > 0 && Where(filters, start).Ok? ==>
              exists conds :: |conds| == |filters| &&
                Where(filters, start).value.pieces == [Text("WHERE ")] + JoinPieces(conds, " AND ")
  {
    FoldConds(filters, Acc([], [], start));
  }

  /** A single scalar entry is the clause `WHERE column = $i` binding that scalar. */
  lemma WhereEquality(column: string, v: Value, i: int)
    requires !IsObject(v)
    ensures Where([(column, v)], i) == Ok(WhereOut([Text("WHERE "), Text(column + " = "), Param(i)], [v], i + 1))
  {
    var es := [(column, v)];
    var acc := Acc([[Text(column + " = "), Param(i)]], [v], i + 1);
    assert Condition(column, v, i) == Ok(Single(column, " = ", i, v));
    assert [] + [[Text(column + " = "), Param(i)]] == [[Text(column + " = "), Param(i)]];
    assert [] + [v] == [v];
    assert Step(Acc([], [], i), column, v) == Ok(acc);
    assert es[1..] == [];
    assert Fold(es, Acc([], [], i)) == Ok(acc);
    assert JoinPieces(acc.conds, " AND ") == [Text(column + " = "), Param(i)];
    var ps := [Text("WHERE "), Text(column + " = "), Param(i)];
    assert [Text("WHERE ")] + JoinPieces(acc.conds, " AND ") == ps;
  }

  /** Two ordinary entries: their conditions joined with " AND ", the second numbered after the first. */
  lemma WhereTwo(col1: string, f1: Value, col2: string, f2: Value, i: int)
    requires !(col1 == "or" && f1.Arr?) && !(col2 == "or" && f2.Arr?)
    requires Condition(col1, f1, i).Ok? && Condition(col2, f2, Condition(col1, f1, i).value.next).Ok?
    ensures var c1 := Condition(col1, f1, i).value;
            var c2 := Condition(col2, f2, c1.next).value;
            Where([(col1, f1), (col2, f2)], i)
            == Ok(WhereOut([Text("WHERE ")] + (c1.pieces + [Text(" AND ")] + c2.pieces), c1.pushed + c2.pushed, c2.next))
  {
    var filters := [(col1, f1), (col2, f2)];
    var c1 := Condition(col1, f1, i).value;
    var c2 := Condition(col2, f2, c1.next).value;
    var a1 := Acc([c1.pieces], c1.pushed, c1.next);
    var a2 := Acc([c1.pieces, c2.pieces], c1.pushed + c2.pushed, c2.next);
    assert [] + [c1.pieces] == [c1.pieces] && [c1.pieces] + [c2.pieces] == [c1.pieces, c2.pieces];
    assert [] + c1.pushed == c1.pushed;
    assert Step(Acc([], [], i), col1, f1) == Ok(a1);
    assert Step(a1, col2, f2) == Ok(a2);
    assert filters[1..][1..] == [];
    assert Fold(filters[1..], a1) == Ok(a2);
    assert JoinPieces([c1.pieces, c2.pieces], " AND ") == c1.pieces + [Text(" AND ")] + c2.pieces;
  }

  lemma PropSingle(key: string, v: Value, name: string)
    ensures Prop(Obj([(key, v)]), name) == if key == name then v else Undefined
  {
    var fields := [(key, v)];
    assert fields[1..] == [];
    assert Lookup(fields[1..], name) == Undefined;
    assert fields[0].0 == key && fields[0].1 == v;
    assert Lookup(fields, name) == if key == name then v else Undefined;
  }

  lemma GteCondition(column: string, v: Value, i: int)
    requires Truthy(v)
    ensures Condition(column, Obj([("gte", v)]), i) == Ok(Single(column, " >= ", i, v))
  {
    PropSingle("gte", v, "like");
    PropSingle("gte", v, "ilike");
    PropSingle("gte", v, "range");
    PropSingle("gte", v, "in");
    PropSingle("gte", v, "notIn");
    PropSingle("gte", v, "gte");
  }

  lemma IlikeCondition(column: string, v: Value, i: int)
    requires Truthy(v)
    ensures Condition(column, Obj([("ilike", v)]), i) == Ok(Single(column, " ILIKE ", i, Pattern(v)))
  {
    PropSingle("ilike", v, "like");
    PropSingle("ilike", v, "ilike");
  }

  lemma RenderAndOf2(p1: seq<Piece>, p2: seq<Piece>)
    ensures Render([Text("WHERE ")] + (p1 + [Text(" AND ")] + p2)) == "WHERE " + Render(p1) + " AND " + Render(p2)
  {
    RenderAppend([Text("WHERE ")], p1 + [Text(" AND ")] + p2);
    RenderAppend(p1 + [Text(" AND ")], p2);
    RenderAppend(p1, [Text(" AND ")]);
  }

  /** The literal concatenations of the example, kept apart from the rendering proof. */
  lemma OperatorsExampleLiteral()
    ensures "age" + " >= " + "$" + "1" == "age >= $1" && "name" + " ILIKE " + "$" + "2" == "name ILIKE $2"
    ensures "WHERE " + "age >= $1" + " AND " + "name ILIKE $2" == "WHERE age >= $1 AND name ILIKE $2"
  {
  }

  /** The text of the two conditions of the example, joined. */
  lemma OperatorsExampleText()
    ensures Render([Text("WHERE ")] + (Single("age", " >= ", 1, Num(18)).pieces + [Text(" AND ")]
                                        + Single("name", " ILIKE ", 2, Str("%jo%")).pieces))
            == "WHERE age >= $1 AND name ILIKE $2"
  {
    var c1 := Single("age", " >= ", 1, Num(18));
    var c2 := Single("name", " ILIKE ", 2, Str("%jo%"));
    RenderAndOf2(c1.pieces, c2.pieces);
    RenderSingle("age", " >= ", 1, Num(18));
    RenderSingle("name", " ILIKE ", 2, Str("%jo%"));
    SmallNumerals();
    OperatorsExampleLiteral();
    assert Render(c1.pieces) == "age >= $1";
    assert Render(c2.pieces) == "name ILIKE $2";
  }

  /** The two-operator example: `{age: {gte: 18}, name: {ilike: "jo"}}`. */
  lemma OperatorsExample()
    ensures var filters := [("age", Obj([("gte", Num(18))])), ("name", Obj([("ilike", Str("jo"))]))];
            var w := Where(filters, 1);
            w.Ok? && Render(w.value.pieces) == "WHERE age >= $1 AND name ILIKE $2" &&
            w.value.values == [Num(18), Str("%jo%")] && w.value.next == 3
  {
    GteCondition("age", Num(18), 1);
    IlikeCondition("name", Str("jo"), 2);
    assert Pattern(Str("jo")) == Str("%jo%");
    WhereTwo("age", Obj([("gte", Num(18))]), "name", Obj([("ilike", Str("jo"))]), 1);
    OperatorsExampleText();
  }

  /** `(` + pieces + `)` */
  function Wrap(ps: seq<Piece>): seq<Piece> {
    [Text("(")] + ps + [Text(")")]
  }

  /** An `or` group of two filters: the second is built from the counter the first's '$' count leaves. */
  lemma OrPartsOfTwo(g: Value, i: int, wx: WhereOut, wy: WhereOut)
    requires g.Arr? && |g.items| == 2 && Entries(g.items[0]).Ok? && Entries(g.items[1]).Ok?
    requires Where(Entries(g.items[0]).value, i) == Ok(wx)
    requires Where(Entries(g.items[1]).value, i + CountChar(Render(wx.pieces), '$')) == Ok(wy)
    ensures OrParts(g, 0, i)
            == Ok(([Wrap(wx.pieces), Wrap(wy.pieces)], i + CountChar(Render(wx.pieces), '$') + CountChar(Render(wy.pieces), '$')))
  {
    var nx, ny := CountChar(Render(wx.pieces), '$'), CountChar(Render(wy.pieces), '$');
    var d1 := [Wrap(wx.pieces)];
    var d2 := d1 + [Wrap(wy.pieces)];
    assert [] + [Wrap(wx.pieces)] == d1;
    OrFromStep(g, 0, i, [], wx, i + nx, d1);
    OrFromStep(g, 1, i + nx, d1, wy, i + nx + ny, d2);
    assert OrFrom(g, 2, i + nx + ny, d2) == Ok((d2, i + nx + ny));
    OrFromParts(g, 0, i, []);
    var r := OrParts(g, 0, i);
    assert r.Ok?;
    assert [] + r.value.0 == r.value.0;
    assert d2 == [Wrap(wx.pieces), Wrap(wy.pieces)];
  }

  /** `WHERE column = $i` holds one '$'. */
  lemma EqualityDollars(column: string, v: Value, i: int)
    requires '$' !in column && !IsObject(v)
    ensures Where([(column, v)], i).Ok? && CountChar(Render(Where([(column, v)], i).value.pieces), '$') == 1
  {
    WhereEquality(column, v, i);
    WherePlaceholders([(column, v)], i);
  }

  lemma OrExampleText(a: string, b: string, c: string)
    ensures "(" + ("WHERE " + "a" + " = $" + "1") + ")" == "(WHERE a = $1)"
    ensures "(" + ("WHERE " + "b" + " = $" + "2") + ")" == "(WHERE b = $2)"
    ensures "c" + " = " + "$" + "3" == "c = $3"
    ensures "WHERE " + ("(" + (a + " OR " + b) + ")") + " AND " + c == "WHERE (" + a + " OR " + b + ") AND " + c
  {
  }

  /** The pieces `WHERE column = $i`. */
  function EqualityPieces(column: string, i: int): seq<Piece> {
    [Text("WHERE "), Text(column + " = "), Param(i)]
  }

  /** The group `((WHERE a = $1) OR (WHERE b = $2))` and the clause around it. */
  function OrExampleGroup(): seq<Piece> {
    [Text("(")] + JoinPieces([Wrap(EqualityPieces("a", 1)), Wrap(EqualityPieces("b", 2))], " OR ") + [Text(")")]
  }

  function OrExamplePieces(): seq<Piece> {
    [Text("WHERE ")] + (OrExampleGroup() + [Text(" AND ")] + [Text("c" + " = "), Param(3)])
  }

  /** An `or` entry appends its group's clause and takes the counter past it, without values. */
  lemma StepOrGroup(acc: Acc, group: Value, g: (seq<seq<Piece>>, int))
    requires group.Arr? && OrParts(group, 0, acc.index) == Ok(g)
    ensures Step(acc, "or", group) == Ok(Acc(acc.conds + [GroupPieces(g.0)], acc.values, g.1))
  {
  }

  /** A plain value under a column other than `or` is an equality. */
  lemma StepPlain(acc: Acc, column: string, v: Value)
    requires column != "or" && !IsObject(v)
    ensures Step(acc, column, v)
            == Ok(Acc(acc.conds + [[Text(column + " = "), Param(acc.index)]], acc.values + [v], acc.index + 1))
  {
  }

  /** The example's group: `(WHERE a = $1)` then `(WHERE b = $2)`, the counter left at 3. */
  lemma OrExampleParts()
    ensures OrParts(Arr([Obj([("a", Num(1))]), Obj([("b", Num(2))])]), 0, 1)
            == Ok(([Wrap(EqualityPieces("a", 1)), Wrap(EqualityPieces("b", 2))], 3))
  {
    var x, y := [("a", Num(1))], [("b", Num(2))];
    var group := Arr([Obj(x), Obj(y)]);
    WhereEquality("a", Num(1), 1);
    EqualityDollars("a", Num(1), 1);
    WhereEquality("b", Num(2), 2);
    EqualityDollars("b", Num(2), 2);
    assert group.items[0] == Obj(x) && group.items[1] == Obj(y);
    assert Entries(Obj(x)) == Ok(x) && Entries(Obj(y)) == Ok(y);
    OrPartsOfTwo(group, 1, WhereOut(EqualityPieces("a", 1), [Num(1)], 2), WhereOut(EqualityPieces("b", 2), [Num(2)], 3));
  }

  /** The example's `or` entry: a group of two equalities numbered $1 and $2, no values. */
  lemma OrExampleFirstStep()
    ensures Step(Acc([], [], 1), "or", Arr([Obj([("a", Num(1))]), Obj([("b", Num(2))])]))
            == Ok(Acc([OrExampleGroup()], [], 3))
  {
    OrExampleParts();
    StepOrGroup(Acc([], [], 1), Arr([Obj([("a", Num(1))]), Obj([("b", Num(2))])]),
                ([Wrap(EqualityPieces("a", 1)), Wrap(EqualityPieces("b", 2))], 3));
    assert [] + [OrExampleGroup()] == [OrExampleGroup()];
  }

  /** Two entries, each of which builds. */
  lemma FoldOfTwo(acc: Acc, e1: (string, Value), e2: (string, Value), a1: Acc, a2: Acc)
    requires Step(acc, e1.0, e1.1) == Ok(a1) && Step(a1, e2.0, e2.1) == Ok(a2)
    ensures Fold([e1, e2], acc) == Ok(a2)
  {
    assert [e2][1..] == [];
    assert Fold([e2], a1) == Fold([], a2) == Ok(a2);
    assert [e1, e2][1..] == [e2];
  }

  lemma OrExampleWhere()
    ensures Where([("or", Arr([Obj([("a", Num(1))]), Obj([("b", Num(2))])])), ("c", Num(3))], 1)
            == Ok(WhereOut(OrExamplePieces(), [Num(3)], 4))
  {
    var group := Arr([Obj([("a", Num(1))]), Obj([("b", Num(2))])]);
    OrExampleFirstStep();
    var gp := OrExampleGroup();
    var a1 := Acc([gp], [], 3);
    var c := Single("c", " = ", 3, Num(3));
    var a2 := Acc([gp, c.pieces], [Num(3)], 4);
    StepPlain(a1, "c", Num(3));
    assert [gp] + [c.pieces] == [gp, c.pieces] && [] + [Num(3)] == [Num(3)];
    assert Step(a1, "c", Num(3)) == Ok(a2);
    FoldOfTwo(Acc([], [], 1), ("or", group), ("c", Num(3)), a1, a2);
    assert JoinPieces([gp, c.pieces], " AND ") == gp + [Text(" AND ")] + c.pieces;
  }

  lemma RenderEquality(column: string, i: int)
    ensures Render(EqualityPieces(column, i)) == "WHERE " + column + " = $" + IntToString(i)
  {
    var ps := EqualityPieces(column, i);
    assert ps[1..][1..][1..] == [];
    assert Render(ps[1..][1..]) == "$" + IntToString(i);
    assert Render(ps[1..]) == column + " = " + ("$" + IntToString(i));
  }

  /** The text of a group of two nested clauses. */
  lemma RenderGroupOfTwo(p1: seq<Piece>, p2: seq<Piece>)
    ensures Render([Text("(")] + JoinPieces([Wrap(p1), Wrap(p2)], " OR ") + [Text(")")])
         == "(" + (("(" + Render(p1) + ")") + " OR " + ("(" + Render(p2) + ")")) + ")"
  {
    var parts := [Wrap(p1), Wrap(p2)];
    RenderWrapped("(", JoinPieces(parts, " OR "), ")");
    RenderJoin(parts, " OR ");
    RenderWrapped("(", p1, ")");
    RenderWrapped("(", p2, ")");
    assert RenderAll(parts) == [Render(parts[0]), Render(parts[1])];
    assert [Render(parts[0]), Render(parts[1])][1..] == [Render(parts[1])];
  }

  lemma OrExampleRender()
    ensures Render(OrExamplePieces()) == "WHERE (" + "(WHERE a = $1)" + " OR " + "(WHERE b = $2)" + ") AND " + "c = $3"
  {
    var p1, p2 := EqualityPieces("a", 1), EqualityPieces("b", 2);
    RenderAndOf2(OrExampleGroup(), [Text("c" + " = "), Param(3)]);
    RenderGroupOfTwo(p1, p2);
    RenderEquality("a", 1);
    RenderEquality("b", 2);
    RenderSingle("c", " = ", 3, Num(3));
    SmallNumerals();
    OrExampleText("(WHERE a = $1)", "(WHERE b = $2)", "c = $3");
  }

  /** Parentheses add no placeholder. */
  lemma WrappedParams(ps: seq<Piece>)
    ensures Params(Wrap(ps)) == Params(ps)
  {
    ParamsAppend([Text("(")] + ps, [Text(")")]);
    ParamsAppend([Text("(")], ps);
    assert Params([Text("(")]) == [] && Params([Text(")")]) == [];
  }

  lemma EqualityParams(column: string, i: int)
    ensures Params(EqualityPieces(column, i)) == [i]
  {
    var ps := EqualityPieces(column, i);
    assert ps[1..][1..][1..] == [];
    assert Params(ps[1..][1..]) == [i];
  }

  lemma OrExampleGroupParams()
    ensures Params(OrExampleGroup()) == [1, 2]
  {
    var parts := [Wrap(EqualityPieces("a", 1)), Wrap(EqualityPieces("b", 2))];
    WrappedParams(EqualityPieces("a", 1));
    WrappedParams(EqualityPieces("b", 2));
    EqualityParams("a", 1);
    EqualityParams("b", 2);
    ParamsJoin(parts, " OR ");
    assert ParamsAll(parts) == Params(parts[0]) + (Params(parts[1]) + ParamsAll([]));
    assert OrExampleGroup() == Wrap(JoinPieces(parts, " OR "));
    WrappedParams(JoinPieces(parts, " OR "));
  }

  lemma OrExampleParams()
    ensures Params(OrExamplePieces()) == [1, 2, 3]
  {
    var gp := OrExampleGroup();
    var c := [Text("c" + " = "), Param(3)];
    ParamsAppend([Text("WHERE ")], gp + [Text(" AND ")] + c);
    ParamsAppend(gp + [Text(" AND ")], c);
    ParamsAppend(gp, [Text(" AND ")]);
    OrExampleGroupParams();
    assert c[1..][1..] == [];
    assert Params(c) == [3];
    assert Params([Text("WHERE ")]) == [] && Params([Text(" AND ")]) == [];
  }

  /**
   * `{or: [{a: 1}, {b: 2}], c: 3}`: each nested clause keeps its "WHERE "
   * prefix, the counter passes over the nested placeholders, and only the
   * sibling's value is bound, so three placeholders face one value.
   */
  lemma OrGroupExample()
    ensures var filters := [("or", Arr([Obj([("a", Num(1))]), Obj([("b", Num(2))])])), ("c", Num(3))];
            var w := Where(filters, 1);
            w.Ok? && Render(w.value.pieces) == "WHERE (" + "(WHERE a = $1)" + " OR " + "(WHERE b = $2)" + ") AND " + "c = $3" &&
            w.value.values == [Num(3)] && w.value.next == 4 && Params(w.value.pieces) == [1, 2, 3]
  {
    OrExampleWhere();
    OrExampleRender();
    OrExampleParams();
  }

  /* ------------------------------------------------------------------ */
  /* toSnakeCase, buildInsertClause, buildUpdateClause                   */
  /* ------------------------------------------------------------------ */

  /** Character by character: an uppercase letter becomes `_` and its lowercase form. */
  function SnakeRef(s: string): string {
    if s == [] then []
    else (if IsUpper(s[0]) then ['_', Lower(s[0])] else [s[0]]) + SnakeRef(s[1..])
  }

  function CountUpper(s: string): nat {
    if s == [] then 0 else (if IsUpper(s[0]) then 1 else 0) + CountUpper(s[1..])
  }

  lemma ToLowerCaseAppend(a: string, b: string)
    ensures ToLowerCase(a + b) == ToLowerCase(a) + ToLowerCase(b)
  {
  }

  /** Lowercasing after marking equals marking and lowercasing each character. */
  lemma {:induction false} ToSnakeCaseRef(s: string)
    ensures ToSnakeCase(s) == SnakeRef(s)
  {
    if s != [] {
      ToSnakeCaseRef(s[1..]);
      var head := if IsUpper(s[0]) then ['_', s[0]] else [s[0]];
      ToLowerCaseAppend(head, MarkUpper(s[1..]));
      assert ToLowerCase(head) == if IsUpper(s[0]) then ['_', Lower(s[0])] else [s[0]];
    }
  }

  lemma {:induction false} SnakeRefFacts(s: string)
    ensures |SnakeRef(s)| == |s| + CountUpper(s)
    ensures forall k :: 0 <= k < |SnakeRef(s)| ==> !IsUpper(SnakeRef(s)[k])
    ensures (forall k :: 0 <= k < |s| ==> !IsUpper(s[k])) ==> SnakeRef(s) == s
  {
    if s != [] {
      SnakeRefFacts(s[1..]);
      var head := if IsUpper(s[0]) then ['_', Lower(s[0])] else [s[0]];
      assert SnakeRef(s) == head + SnakeRef(s[1..]);
      if (forall k :: 0 <= k < |s| ==> !IsUpper(s[k])) {
        assert forall k :: 0 <= k < |s[1..]| ==> !IsUpper(s[1..][k]) by {
          assert forall k :: 0 <= k < |s[1..]| ==> s[1..][k] == s[k + 1];
        }
        assert [s[0]] + s[1..] == s;
      }
    }
  }

  /**
   * `toSnakeCase` puts `_` before each uppercase letter and lowercases it: the
   * result has no uppercase letter, is one character longer per uppercase
   * letter, and snake-casing it again changes nothing.
   */
  lemma ToSnakeCaseProperties(s: string)
    ensures forall k :: 0 <= k < |ToSnakeCase(s)| ==> !IsUpper(ToSnakeCase(s)[k])
    ensures |ToSnakeCase(s)| == |s| + CountUpper(s)
    ensures ToSnakeCase(ToSnakeCase(s)) == ToSnakeCase(s)
  {
    ToSnakeCaseRef(s);
    SnakeRefFacts(s);
    var t := ToSnakeCase(s);
    ToSnakeCaseRef(t);
    SnakeRefFacts(t);
  }

  /**
   * `buildInsertClause`: the k-th column is the k-th key snake-cased, the
   * placeholders are `$1, ..., $n`, and `$(k + 1)` binds the k-th value.
   */
  lemma InsertClauseLayout(entity: Filter)
    ensures var ic := BuildInsertClause(entity);
            var n := |entity|;
            ic.columns == JoinStr(seq(n, k requires 0 <= k < n => ToSnakeCase(entity[k].0)), ", ") &&
            (forall k :: 0 <= k < n ==> forall j :: 0 <= j < |ToSnakeCase(entity[k].0)| ==> !IsUpper(ToSnakeCase(entity[k].0)[j])) &&
            ic.placeholders == Render(ListPieces(1, n)) && Params(ListPieces(1, n)) == Range(1, n) &&
            CountChar(ic.placeholders, '$') == n &&
            |ic.values| == n && forall k :: 0 <= k < n ==> ic.values[k] == entity[k].1
  {
    ParamsList(1, |entity|);
    CountDollars(ListPieces(1, |entity|));
    forall k | 0 <= k < |entity|
      ensures forall j :: 0 <= j < |ToSnakeCase(entity[k].0)| ==> !IsUpper(ToSnakeCase(entity[k].0)[j])
    {
      ToSnakeCaseProperties(entity[k].0);
    }
  }

  /** The texts `key = $(k + 2)`, one per key. */
  function AssignmentTexts(updates: Filter): (r: seq<string>)
    ensures |r| == |updates|
    ensures forall k :: 0 <= k < |updates| ==> r[k] == updates[k].0 + " = $" + IntToString(k + 2)
  {
    seq(|updates|, k requires 0 <= k < |updates| => updates[k].0 + " = $" + IntToString(k + 2))
  }

  /** The k-th assignment reads `key = $(k + 2)` and binds placeholder k + 2. */
  lemma AssignmentPieces(updates: Filter, k: nat)
    requires k < |updates|
    ensures Render(Assignment(updates, k)) == updates[k].0 + " = $" + IntToString(k + 2)
    ensures Params(Assignment(updates, k)) == [k + 2]
  {
    RenderSingle(updates[k].0, " = ", k + 2, Null);
    SinglePlaceholders(updates[k].0, " = ", k + 2, Null);
  }

  /** `buildUpdateClause` renders the k-th key verbatim (not snake-cased) as `key = $(k + 2)`. */
  lemma UpdateClauseText(updates: Filter)
    ensures BuildUpdateClause(updates).setClause == JoinStr(AssignmentTexts(updates), ", ")
  {
    var parts := Assignments(updates);
    RenderJoin(parts, ", ");
    forall k | 0 <= k < |updates|
      ensures RenderAll(parts)[k] == AssignmentTexts(updates)[k]
    {
      RenderAllAt(parts, k);
      AssignmentPieces(updates, k);
    }
    assert RenderAll(parts) == AssignmentTexts(updates);
  }

  /** The SET list numbers its placeholders `$2, ..., $(n + 1)` in text order. */
  lemma SetPiecesParams(updates: Filter)
    ensures Params(SetPieces(updates)) == Range(2, |updates|)
  {
    var parts := Assignments(updates);
    forall k | 0 <= k < |updates|
      ensures Params(parts[k]) == [k + 2]
    {
      AssignmentPieces(updates, k);
    }
    ParamsJoin(parts, ", ");
    ParamsAllEach(parts, 2);
  }

  /**
   * With the caller's parameters `[id, ...values]`, the id binds `$1` and the
   * SET placeholders `$2, ..., $(n + 1)` each bind their own key's value.
   */
  lemma UpdateClausePlaceholders(id: Value, updates: Filter)
    ensures var n := |updates|;
            var params := [id] + BuildUpdateClause(updates).values;
            Params(SetPieces(updates)) == Range(2, n) && |params| == n + 1 && params[0] == id &&
            forall k :: 0 <= k < n ==> params[Params(SetPieces(updates))[k] - 1] == updates[k].1
  {
    SetPiecesParams(updates);
    var ps := Params(SetPieces(updates));
    var params := [id] + ValuesOf(updates);
    assert BuildUpdateClause(updates).values == ValuesOf(updates);
    forall k | 0 <= k < |updates|
      ensures params[ps[k] - 1] == updates[k].1
    {
      assert ps[k] - 1 == k + 1;
    }
  }

  /* ------------------------------------------------------------------ */
  /* buildSelectQueryWithJoins                                           */
  /* ------------------------------------------------------------------ */

  /** What the ORDER BY and the head add to the text: no placeholder. */
  lemma BodyParams(table: string, columns: seq<string>, joins: seq<Join>, hasWhere: bool, w: WhereOut,
                   orderBy: Option<OrderBy>)
    ensures Params(SelectBody(table, columns, joins, hasWhere, w, orderBy).pieces) == if hasWhere then Params(w.pieces) else []
  {
    var head := [Text(SelectHead(table, columns, joins))];
    var mid := if hasWhere then [Text(" ")] + w.pieces else [];
    var tail := if orderBy.Some? then [Text(OrderText(orderBy.value))] else [];
    ParamsAppend(head + mid, tail);
    ParamsAppend(head, mid);
    ParamsAppend([Text(" ")], w.pieces);
    assert Params(head) == [] && Params([Text(" ")]) == [];
    assert tail != [] ==> Params(tail) == [];
  }

  /** A truthy value adds one placeholder, numbered by the length of the values after the push. */
  lemma TrailingParams(q: Select, keyword: string, value: Value)
    ensures Params(Trailing(q, keyword, value).pieces)
            == Params(q.pieces) + (if Truthy(value) then [|q.values| + 1] else [])
    ensures Trailing(q, keyword, value).values == q.values + (if Truthy(value) then [value] else [])
  {
    if Truthy(value) {
      var tail := [Text(keyword), Param(|q.values| + 1)];
      ParamsAppend(q.pieces, tail);
      assert tail[1..][1..] == [];
      assert Params(tail[1..]) == [|q.values| + 1] + Params([]);
      assert Params(tail) == [] + Params(tail[1..]);
    } else {
      assert q.values + [] == q.values;
      assert Params(q.pieces) + [] == Params(q.pieces);
    }
  }

  /** LIMIT then OFFSET: each truthy one adds a value and the placeholder numbered by the values so far. */
  lemma TrailingLayout(body: Select, limit: Value, offset: Value)
    ensures var q := Trailing(Trailing(body, " LIMIT ", limit), " OFFSET ", offset);
            var l := if Truthy(limit) then [limit] else [];
            q.values == body.values + l + (if Truthy(offset) then [offset] else []) &&
            Params(q.pieces) == Params(body.pieces) + (if Truthy(limit) then [|body.values| + 1] else [])
                                + (if Truthy(offset) then [|body.values| + |l| + 1] else [])
  {
    TrailingParams(body, " LIMIT ", limit);
    TrailingParams(Trailing(body, " LIMIT ", limit), " OFFSET ", offset);
  }

  /** The statement's where clause: built from `$1` for a non-empty filter, absent otherwise. */
  function SelectWhere(filters: Filter): Result<WhereOut> {
    if |filters| > 0 then Where(filters, 1) else Ok(WhereOut([], [], 1))
  }

  /**
   * `buildSelectQueryWithJoins` fails exactly when the where clause does; its
   * values are the filter values, then a truthy limit, then a truthy offset,
   * and LIMIT and OFFSET are numbered by the values' length after each push.
   */
  lemma SelectLayout(table: string, columns: seq<string>, joins: seq<Join>, filters: Filter,
                     limit: Value, offset: Value, orderBy: Option<OrderBy>)
    ensures SelectQuery(table, columns, joins, filters, limit, offset, orderBy).Ok? <==> SelectWhere(filters).Ok?
    ensures SelectWhere(filters).Ok? ==>
              var w := SelectWhere(filters).value;
              var q := SelectQuery(table, columns, joins, filters, limit, offset, orderBy).value;
              var l := if Truthy(limit) then [limit] else [];
              q.values == w.values + l + (if Truthy(offset) then [offset] else []) &&
              Params(q.pieces) == Params(w.pieces) + (if Truthy(limit) then [|w.values| + 1] else [])
                                  + (if Truthy(offset) then [|w.values| + |l| + 1] else [])
  {
    if SelectWhere(filters).Ok? {
      var w := SelectWhere(filters).value;
      var body := SelectBody(table, columns, joins, |filters| > 0, w, orderBy);
      BodyParams(table, columns, joins, |filters| > 0, w, orderBy);
      assert |filters| == 0 ==> w.pieces == [];
      TrailingLayout(body, limit, offset);
      assert SelectQuery(table, columns, joins, filters, limit, offset, orderBy)
             == Ok(Trailing(Trailing(body, " LIMIT ", limit), " OFFSET ", offset));
    }
  }

  /** `$1, ..., $n` followed by the LIMIT and OFFSET placeholders is again `$1, $2, ...`. */
  lemma NumberedTail(n: nat, hasLimit: bool, hasOffset: bool)
    ensures var l := if hasLimit then 1 else 0;
            Range(1, n) + (if hasLimit then [n + 1] else []) + (if hasOffset then [n + l + 1] else [])
            == Range(1, n + l + (if hasOffset then 1 else 0))
  {
    var l := if hasLimit then 1 else 0;
    RangeAppend(1, n, l);
    RangeAppend(1, n + l, if hasOffset then 1 else 0);
    assert (if hasLimit then [n + 1] else []) == Range(1 + n, l);
    assert (if hasOffset then [n + l + 1] else []) == Range(1 + n + l, if hasOffset then 1 else 0);
  }

  /**
   * Without `or` groups, the whole statement numbers its placeholders
   * `$1, ..., $n` in text order, one per value, and `$k` binds the k-th value.
   */
  lemma SelectPlaceholders(table: string, columns: seq<string>, joins: seq<Join>, filters: Filter,
                           limit: Value, offset: Value, orderBy: Option<OrderBy>)
    requires NoOr(filters)
    ensures SelectQuery(table, columns, joins, filters, limit, offset, orderBy).Ok? ==>
              var q := SelectQuery(table, columns, joins, filters, limit, offset, orderBy).value;
              Params(q.pieces) == Range(1, |q.values|)
  {
    SelectLayout(table, columns, joins, filters, limit, offset, orderBy);
    if SelectWhere(filters).Ok? {
      var w := SelectWhere(filters).value;
      if |filters| > 0 {
        WherePlaceholders(filters, 1);
      }
      NumberedTail(|w.values|, Truthy(limit), Truthy(offset));
    }
  }
}
