/**
 * Parameterised SQL text. A statement is kept as a sequence of pieces, each
 * either literal text or a positional placeholder `$n`; `Render` gives the
 * string the server sends and `Params` the placeholder numbers in the order
 * they appear. Keeping the pieces apart lets the builder's properties speak of
 * "the k-th placeholder" without parsing the text back.
 */
module Sql {
  import opened Js

  datatype Piece = Text(s: string) | Param(n: int)

  function RenderPiece(p: Piece): string {
    match p
    case Text(s) => s
    case Param(n) => "$" + IntToString(n)
  }

  function Render(ps: seq<Piece>): string {
    if ps == [] then "" else RenderPiece(ps[0]) + Render(ps[1..])
  }

  /** The placeholder numbers, in the order they occur in the text. */
  function Params(ps: seq<Piece>): seq<int> {
    if ps == [] then [] else (if ps[0].Param? then [ps[0].n] else []) + Params(ps[1..])
  }

  /** `lo, lo + 1, ..., lo + n - 1` */
  function Range(lo: int, n: nat): (r: seq<int>)
    ensures |r| == n && forall k :: 0 <= k < n ==> r[k] == lo + k
  {
    seq(n, k => lo + k)
  }

  /** `parts.join(sep)` on piece sequences. */
  function JoinPieces(parts: seq<seq<Piece>>, sep: string): seq<Piece> {
    if |parts| == 0 then []
    else if |parts| == 1 then parts[0]
    else parts[0] + [Text(sep)] + JoinPieces(parts[1..], sep)
  }

  function RenderAll(parts: seq<seq<Piece>>): (r: seq<string>)
    ensures |r| == |parts|
  {
    if parts == [] then [] else [Render(parts[0])] + RenderAll(parts[1..])
  }

  function ParamsAll(parts: seq<seq<Piece>>): seq<int> {
    if parts == [] then [] else Params(parts[0]) + ParamsAll(parts[1..])
  }

  /** `n` placeholders numbered from `i`, separated by ", ". */
  function ListPieces(i: int, n: nat): seq<Piece> {
    JoinPieces(seq(n, k => [Param(i + k)]), ", ")
  }

  lemma RenderPair(a: Piece, b: Piece)
    ensures Render([a, b]) == RenderPiece(a) + RenderPiece(b)
  {
    assert [a, b][1..] == [b] && [b][1..] == [];
    assert Render([b]) == RenderPiece(b) + "";
    assert RenderPiece(b) + "" == RenderPiece(b);
  }

  lemma AppendAssoc(x: string, y: string, z: string)
    ensures x + (y + z) == x + y + z
  {
  }

  /** Text, placeholder, text, placeholder. */
  lemma RenderTwoParams(a: string, i: int, b: string, j: int)
    ensures Render([Text(a), Param(i), Text(b), Param(j)]) == a + "$" + IntToString(i) + b + "$" + IntToString(j)
  {
    var ps := [Text(a), Param(i), Text(b), Param(j)];
    assert ps == [Text(a), Param(i)] + [Text(b), Param(j)];
    RenderAppend([Text(a), Param(i)], [Text(b), Param(j)]);
    RenderPair(Text(a), Param(i));
    RenderPair(Text(b), Param(j));
    var head := a + "$" + IntToString(i);
    AppendAssoc(a, "$", IntToString(i));
    AppendAssoc(b, "$", IntToString(j));
    AppendAssoc(head, b + "$", IntToString(j));
    AppendAssoc(head, b, "$");
  }

  /** Appending a text piece appends its text. */
  lemma RenderSnoc(ps: seq<Piece>, t: string)
    ensures Render(ps + [Text(t)]) == Render(ps) + t
  {
    RenderAppend(ps, [Text(t)]);
    assert [Text(t)][1..] == [];
    assert Render([Text(t)]) == t + "";
    assert t + "" == t;
  }

  /** No literal text piece contains the character '$'. */
  predicate DollarFree(ps: seq<Piece>) {
    forall k :: 0 <= k < |ps| && ps[k].Text? ==> '$' !in ps[k].s
  }

  lemma DollarFreeAppend(a: seq<Piece>, b: seq<Piece>)
    requires DollarFree(a) && DollarFree(b)
    ensures DollarFree(a + b)
  {
    forall k | 0 <= k < |a + b| && (a + b)[k].Text?
      ensures '$' !in (a + b)[k].s
    {
      if k < |a| {
        assert (a + b)[k] == a[k];
      } else {
        assert (a + b)[k] == b[k - |a|];
      }
    }
  }

  lemma {:induction false} RenderAppend(a: seq<Piece>, b: seq<Piece>)
    ensures Render(a + b) == Render(a) + Render(b)
  {
    if a == [] {
      assert a + b == b;
    } else {
      assert (a + b)[1..] == a[1..] + b;
      RenderAppend(a[1..], b);
    }
  }

  lemma {:induction false} ParamsAppend(a: seq<Piece>, b: seq<Piece>)
    ensures Params(a + b) == Params(a) + Params(b)
  {
    if a == [] {
      assert a + b == b;
    } else {
      var head := if a[0].Param? then [a[0].n] else [];
      assert (a + b)[0] == a[0] && (a + b)[1..] == a[1..] + b;
      ParamsAppend(a[1..], b);
      assert Params(a + b) == head + (Params(a[1..]) + Params(b));
      assert Params(a) == head + Params(a[1..]);
    }
  }

  lemma {:induction false} RenderAllAppend(a: seq<seq<Piece>>, b: seq<seq<Piece>>)
    ensures RenderAll(a + b) == RenderAll(a) + RenderAll(b)
  {
    if a == [] {
      assert a + b == b;
    } else {
      assert (a + b)[1..] == a[1..] + b;
      RenderAllAppend(a[1..], b);
    }
  }

  lemma {:induction false} ParamsAllAppend(a: seq<seq<Piece>>, b: seq<seq<Piece>>)
    ensures ParamsAll(a + b) == ParamsAll(a) + ParamsAll(b)
  {
    if a == [] {
      assert a + b == b;
    } else {
      assert (a + b)[1..] == a[1..] + b;
      ParamsAllAppend(a[1..], b);
    }
  }

  lemma {:induction false} RenderAllAt(parts: seq<seq<Piece>>, k: nat)
    requires k < |parts|
    ensures RenderAll(parts)[k] == Render(parts[k])
  {
    if k > 0 {
      RenderAllAt(parts[1..], k - 1);
    }
  }

  /** Rendering commutes with joining. */
  lemma {:induction false} RenderJoin(parts: seq<seq<Piece>>, sep: string)
    ensures Render(JoinPieces(parts, sep)) == JoinStr(RenderAll(parts), sep)
  {
    if |parts| > 1 {
      RenderJoin(parts[1..], sep);
      RenderAppend(parts[0] + [Text(sep)], JoinPieces(parts[1..], sep));
      RenderAppend(parts[0], [Text(sep)]);
    } else if |parts| == 1 {
      assert RenderAll(parts) == [Render(parts[0])];
    }
  }

  /** The parts `[$i], [$(i + 1)], ..., [$(i + n - 1)]`, grown at the end. */
  function ListParts(i: int, n: nat): seq<seq<Piece>> {
    if n == 0 then [] else ListParts(i, n - 1) + [[Param(i + n - 1)]]
  }

  lemma {:induction false} ListPartsAre(i: int, n: nat)
    ensures ListParts(i, n) == seq(n, k => [Param(i + k)])
  {
    if n > 0 {
      ListPartsAre(i, n - 1);
    }
  }

  lemma RenderParam(n: int)
    ensures Render([Param(n)]) == "$" + IntToString(n)
  {
    assert [Param(n)][1..] == [];
  }

  /** The separators of a join hold no placeholder. */
  lemma {:induction false} ParamsJoin(parts: seq<seq<Piece>>, sep: string)
    ensures Params(JoinPieces(parts, sep)) == ParamsAll(parts)
  {
    if |parts| > 1 {
      ParamsJoin(parts[1..], sep);
      ParamsAppend(parts[0] + [Text(sep)], JoinPieces(parts[1..], sep));
      ParamsAppend(parts[0], [Text(sep)]);
    } else if |parts| == 1 {
      assert ParamsAll(parts) == Params(parts[0]) + ParamsAll([]);
    }
  }

  lemma {:induction false} DollarFreeJoin(parts: seq<seq<Piece>>, sep: string)
    requires '$' !in sep
    requires forall k :: 0 <= k < |parts| ==> DollarFree(parts[k])
    ensures DollarFree(JoinPieces(parts, sep))
  {
    if |parts| > 1 {
      DollarFreeJoin(parts[1..], sep);
    }
  }

  /** A sequence of one-placeholder parts numbered from `i` yields the numbers `i, i + 1, ...`. */
  lemma ParamsOfParam(n: int)
    ensures Params([Param(n)]) == [n]
  {
    assert [Param(n)][1..] == [];
    assert Params([Param(n)]) == [n] + [];
  }

  /** Parts whose k-th holds exactly placeholder i + k number their placeholders from i. */
  lemma {:induction false} ParamsAllEach(parts: seq<seq<Piece>>, i: int)
    requires forall k :: 0 <= k < |parts| ==> Params(parts[k]) == [i + k]
    ensures ParamsAll(parts) == Range(i, |parts|)
  {
    if parts != [] {
      forall k | 0 <= k < |parts[1..]|
        ensures Params(parts[1..][k]) == [i + 1 + k]
      {
        assert parts[1..][k] == parts[k + 1];
      }
      ParamsAllEach(parts[1..], i + 1);
      assert Params(parts[0]) == [i];
      assert Range(i, |parts|) == [i] + Range(i + 1, |parts| - 1);
    }
  }

  lemma ParamsAllNumbered(parts: seq<seq<Piece>>, i: int)
    requires forall k :: 0 <= k < |parts| ==> parts[k] == [Param(i + k)]
    ensures ParamsAll(parts) == Range(i, |parts|)
  {
    forall k | 0 <= k < |parts|
      ensures Params(parts[k]) == [i + k]
    {
      ParamsOfParam(i + k);
    }
    ParamsAllEach(parts, i);
  }

  lemma ParamsList(i: int, n: nat)
    ensures Params(ListPieces(i, n)) == Range(i, n)
    ensures DollarFree(ListPieces(i, n))
  {
    var parts := seq(n, k => [Param(i + k)]);
    ParamsJoin(parts, ", ");
    ParamsAllNumbered(parts, i);
    DollarFreeJoin(parts, ", ");
  }

  lemma RangeAppend(lo: int, n: nat, m: nat)
    ensures Range(lo, n) + Range(lo + n, m) == Range(lo, n + m)
  {
  }

  /** In a '$'-free text, the '$' characters are exactly the placeholders. */
  lemma {:induction false} CountDollars(ps: seq<Piece>)
    requires DollarFree(ps)
    ensures CountChar(Render(ps), '$') == |Params(ps)|
  {
    if ps != [] {
      CountDollars(ps[1..]);
      CountCharAppend(RenderPiece(ps[0]), Render(ps[1..]), '$');
      match ps[0]
      case Text(s) =>
        assert forall k :: 0 <= k < |s| ==> s[k] != '$';
        CountCharAbsent(s, '$');
      case Param(n) =>
        var digits := IntToString(n);
        CountCharAbsent(digits, '$');
        CountCharAppend("$", digits, '$');
    }
  }
}
