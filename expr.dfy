/**
 * The expression language of src/expr.rs and its lowering `convert`. This copy
 * has no `sort` node and lowers `cast` to DataFusion's `try_cast`; its per-tag
 * lowering is otherwise the one of src/plans.rs, whose tag functions it uses.
 */
module Expr {
  import opened Base
  import E = Engine
  import P = Plans

  datatype Expression =
    | Col(name: string)
    | F32(f32Bits: bv32)
    | F64(f64Bits: bv64)
    | I32(i32: E.int32)
    | I64(i64: E.int64)
    | Str(text: string)
    | Unary(unary: P.UnaryTag, e: Expression)
    | Binary(binary: P.BinaryTag, l: Expression, r: Expression)
    | List(list: P.ListTag, es: seq<Expression>)
    | Cast(e: Expression, dtype: P.SchemaDataType)

  /** Every `and`, `or` and `prod` list, at any depth, has an operand. */
  predicate WellFormed(x: Expression) {
    match x
    case Unary(_, e) => WellFormed(e)
    case Binary(_, l, r) => WellFormed(l) && WellFormed(r)
    case List(t, es) => (P.Reduces(t) ==> es != []) && forall i :: 0 <= i < |es| ==> WellFormed(es[i])
    case Cast(e, _) => WellFormed(e)
    case _ => true
  }

  /** `convert` of src/expr.rs. */
  function Convert(x: Expression): E.Expr
    requires WellFormed(x)
  {
    match x
    case F32(v) => E.Literal(E.Float32Value(v))
    case F64(v) => E.Literal(E.Float64Value(v))
    case I32(v) => E.Literal(E.Int32Value(v))
    case I64(v) => E.Literal(E.Int64Value(v))
    case Str(v) => E.Literal(E.Utf8Value(v))
    case Col(v) => E.Column(Quote(v))
    case Unary(t, e) => P.LowerUnary(t, Convert(e))
    case Binary(t, l, r) => E.BinaryExpr(Convert(l), P.BinaryOperator(t), Convert(r))
    case List(t, es) => P.LowerList(t, seq(|es|, i requires 0 <= i < |es| => Convert(es[i])))
    case Cast(e, t) => E.TryCast(Convert(e), P.ToDataType(t))
  }

  /**
   * A one-operand node applies its tag's own engine function (`atan` for `asin`)
   * to exactly its lowered operand.
   */
  lemma UnaryLowering(t: P.UnaryTag, e: Expression)
    requires WellFormed(e)
    ensures var c := Convert(Unary(t, e));
      (c.Call? || c.Not? || c.IsTrue? || c.IsFalse?) && c.arg == Convert(e) &&
      P.UnaryTagOf(c) == Some(if t == P.Asin then P.Atan else t)
  {
  }

  /** A literal becomes an engine literal carrying the same value. */
  lemma LiteralLowering(x: Expression)
    requires x.F32? || x.F64? || x.I32? || x.I64? || x.Str?
    ensures Convert(x).Literal? && P.LiteralOf(Convert(x).value) == ToPlans(x)
  {
  }

  /** `cast` becomes `try_cast` of the lowered operand, targeting the engine type its schema type reads back from. */
  lemma CastLowering(e: Expression, t: P.SchemaDataType)
    requires WellFormed(e)
    ensures var c := Convert(Cast(e, t));
      c.TryCast? && c.arg == Convert(e) && P.FromDataType(c.dataType) == Some(t)
  {
  }

  /** One lowered expression per operand, in order. */
  function ConvertAll(es: seq<Expression>): (r: seq<E.Expr>)
    requires forall i :: 0 <= i < |es| ==> WellFormed(es[i])
    ensures |r| == |es|
    ensures forall i :: 0 <= i < |es| ==> r[i] == Convert(es[i])
  {
    seq(|es|, i requires 0 <= i < |es| => Convert(es[i]))
  }

  /** The same expression written in src/plans.rs's language (which has every tag of this one). */
  function ToPlans(x: Expression): (r: P.Expression)
    ensures WellFormed(x) ==> P.WellFormed(r)
  {
    match x
    case Col(v) => P.Col(v)
    case F32(v) => P.Expression.F32(v)
    case F64(v) => P.Expression.F64(v)
    case I32(v) => P.Expression.I32(v)
    case I64(v) => P.Expression.I64(v)
    case Str(v) => P.Str(v)
    case Unary(t, e) => P.Unary(t, ToPlans(e))
    case Binary(t, l, r) => P.Binary(t, ToPlans(l), ToPlans(r))
    case List(t, es) => P.List(t, seq(|es|, i requires 0 <= i < |es| => ToPlans(es[i])))
    case Cast(e, t) => P.Cast(ToPlans(e), t)
  }

  /** Rewrites every `try_cast` into a `cast`, leaving the rest of the expression as it is. */
  function TryCastsAsCasts(e: E.Expr): E.Expr {
    match e
    case Literal(_) => e
    case Column(_) => e
    case Call(f, a) => E.Call(f, TryCastsAsCasts(a))
    case Not(a) => E.Not(TryCastsAsCasts(a))
    case IsTrue(a) => E.IsTrue(TryCastsAsCasts(a))
    case IsFalse(a) => E.IsFalse(TryCastsAsCasts(a))
    case BinaryExpr(l, op, r) => E.BinaryExpr(TryCastsAsCasts(l), op, TryCastsAsCasts(r))
    case Aggregate(f, a) => E.Aggregate(f, TryCastsAsCasts(a))
    case MakeArray(items) => E.MakeArray(TryCastsAsCastsAll(items))
    case Cast(a, t) => E.Cast(TryCastsAsCasts(a), t)
    case TryCast(a, t) => E.Cast(TryCastsAsCasts(a), t)
    case Sort(a, asc, nf) => E.Sort(TryCastsAsCasts(a), asc, nf)
    case Alias(a, n) => E.Alias(TryCastsAsCasts(a), n)
  }

  function TryCastsAsCastsAll(items: seq<E.Expr>): (r: seq<E.Expr>)
    ensures |r| == |items|
  {
    seq(|items|, i requires 0 <= i < |items| => TryCastsAsCasts(items[i]))
  }

  lemma {:induction false} FoldTryCastsAsCasts(op: E.Operator, acc: E.Expr, xs: seq<E.Expr>)
    ensures TryCastsAsCasts(E.Fold(op, acc, xs)) == E.Fold(op, TryCastsAsCasts(acc), TryCastsAsCastsAll(xs))
    decreases xs
  {
    if xs != [] {
      FoldTryCastsAsCasts(op, E.BinaryExpr(acc, op, xs[0]), xs[1..]);
      assert TryCastsAsCastsAll(xs)[1..] == TryCastsAsCastsAll(xs[1..]);
    }
  }

  /** Rewriting casts commutes with the per-tag lowering of a list node. */
  lemma LowerListTryCastsAsCasts(t: P.ListTag, args: seq<E.Expr>)
    requires P.Reduces(t) ==> args != []
    ensures TryCastsAsCasts(P.LowerList(t, args)) == P.LowerList(t, TryCastsAsCastsAll(args))
  {
    if P.Reduces(t) {
      var op := if t == P.And then E.And else if t == P.Or then E.Or else E.Multiply;
      assert P.LowerList(t, args) == E.Reduce(op, args);
      FoldTryCastsAsCasts(op, args[0], args[1..]);
      assert TryCastsAsCastsAll(args)[1..] == TryCastsAsCastsAll(args[1..]);
    }
  }

  lemma LowerUnaryTryCastsAsCasts(t: P.UnaryTag, a: E.Expr)
    ensures TryCastsAsCasts(P.LowerUnary(t, a)) == P.LowerUnary(t, TryCastsAsCasts(a))
  {
  }

  /** The one-operand step of `ConvertMatchesPlans`, given that the operand agrees. */
  lemma UnaryMatchesPlans(t: P.UnaryTag, e: Expression)
    requires WellFormed(e)
    requires P.Convert(ToPlans(e)) == TryCastsAsCasts(Convert(e))
    ensures P.Convert(ToPlans(Unary(t, e))) == TryCastsAsCasts(Convert(Unary(t, e)))
  {
    LowerUnaryTryCastsAsCasts(t, Convert(e));
  }

  /** The two-operand step of `ConvertMatchesPlans`, given that both operands agree. */
  lemma BinaryMatchesPlans(t: P.BinaryTag, l: Expression, r: Expression)
    requires WellFormed(l) && WellFormed(r)
    requires P.Convert(ToPlans(l)) == TryCastsAsCasts(Convert(l))
    requires P.Convert(ToPlans(r)) == TryCastsAsCasts(Convert(r))
    ensures P.Convert(ToPlans(Binary(t, l, r))) == TryCastsAsCasts(Convert(Binary(t, l, r)))
  {
    PlansBinaryStep(t, ToPlans(l), ToPlans(r));
    BinaryStep(t, l, r);
  }

  /** src/plans.rs lowers a two-operand node by lowering both operands. */
  lemma PlansBinaryStep(t: P.BinaryTag, pl: P.Expression, pr: P.Expression)
    requires P.WellFormed(pl) && P.WellFormed(pr)
    ensures P.Convert(P.Binary(t, pl, pr)) == E.BinaryExpr(P.Convert(pl), P.BinaryOperator(t), P.Convert(pr))
  {
  }

  /** This file lowers a two-operand node by lowering both operands, and rewriting casts goes through it. */
  lemma BinaryStep(t: P.BinaryTag, l: Expression, r: Expression)
    requires WellFormed(l) && WellFormed(r)
    ensures TryCastsAsCasts(Convert(Binary(t, l, r)))
         == E.BinaryExpr(TryCastsAsCasts(Convert(l)), P.BinaryOperator(t), TryCastsAsCasts(Convert(r)))
  {
  }

  /** The cast step of `ConvertMatchesPlans`: `try_cast` here, `cast` there. */
  lemma CastMatchesPlans(e: Expression, t: P.SchemaDataType)
    requires WellFormed(e)
    requires P.Convert(ToPlans(e)) == TryCastsAsCasts(Convert(e))
    ensures P.Convert(ToPlans(Cast(e, t))) == TryCastsAsCasts(Convert(Cast(e, t)))
  {
    var pe := ToPlans(e);
    calc {
      P.Convert(ToPlans(Cast(e, t)));
      P.Convert(P.Cast(pe, t));
      E.Cast(P.Convert(pe), P.ToDataType(t));
      E.Cast(TryCastsAsCasts(Convert(e)), P.ToDataType(t));
      TryCastsAsCasts(E.TryCast(Convert(e), P.ToDataType(t)));
      TryCastsAsCasts(Convert(Cast(e, t)));
    }
  }

  /** The list step of `ConvertMatchesPlans`, given that every operand agrees. */
  lemma ListMatchesPlans(t: P.ListTag, es: seq<Expression>)
    requires WellFormed(List(t, es))
    requires forall i :: 0 <= i < |es| ==> P.Convert(ToPlans(es[i])) == TryCastsAsCasts(Convert(es[i]))
    ensures P.Convert(ToPlans(List(t, es))) == TryCastsAsCasts(Convert(List(t, es)))
  {
    var ps := seq(|es|, i requires 0 <= i < |es| => ToPlans(es[i]));
    assert ToPlans(List(t, es)) == P.List(t, ps);
    assert P.Convert(P.List(t, ps)) == P.LowerList(t, P.ConvertAll(ps));
    assert Convert(List(t, es)) == P.LowerList(t, ConvertAll(es));
    assert P.ConvertAll(ps) == TryCastsAsCastsAll(ConvertAll(es));
    LowerListTryCastsAsCasts(t, ConvertAll(es));
  }

  /** No expression lowered here holds a `cast`: every `cast` of the plan becomes `try_cast`. */
  lemma {:induction false} ConvertTryCasts(x: Expression)
    requires WellFormed(x)
    ensures E.Casts(Convert(x)) <= {E.TryCasting}
    decreases x, 1
  {
    match x
    case Unary(t, e) =>
      ConvertTryCasts(e);
      P.LowerUnaryCasts(t, Convert(e));
    case Binary(t, l, r) =>
      ConvertTryCasts(l);
      ConvertTryCasts(r);
    case List(t, es) =>
      ConvertAllTryCasts(es);
      assert Convert(List(t, es)) == P.LowerList(t, ConvertAll(es));
      P.LowerListCasts(t, ConvertAll(es));
    case Cast(e, _) =>
      ConvertTryCasts(e);
    case _ =>
  }

  lemma {:induction false} ConvertAllTryCasts(es: seq<Expression>)
    requires forall i :: 0 <= i < |es| ==> WellFormed(es[i])
    ensures E.CastsOfAll(ConvertAll(es)) <= {E.TryCasting}
    decreases es, 0
  {
    if es != [] {
      assert es[0] < List(P.Avg, es);
      ConvertTryCasts(es[0]);
      ConvertAllTryCasts(es[1..]);
      assert ConvertAll(es)[1..] == ConvertAll(es[1..]);
    }
  }

  /**
   * The two lowerings differ in their cast nodes only: the src/plans.rs one
   * emits `cast` and never `try_cast`, this one `try_cast` and never `cast`,
   * and once `try_cast` is read as `cast` they build the same expression.
   */
  lemma CastsAreTheOnlyDifference(x: Expression)
    requires WellFormed(x)
    ensures P.Convert(ToPlans(x)) == TryCastsAsCasts(Convert(x))
    ensures E.TryCasting !in E.Casts(P.Convert(ToPlans(x)))
    ensures E.Casting !in E.Casts(Convert(x))
  {
    ConvertMatchesPlans(x);
    P.ConvertCasts(ToPlans(x));
    ConvertTryCasts(x);
  }

  /**
   * The two copies of `convert` agree: src/expr.rs builds exactly what src/plans.rs
   * builds for the same expression, except that it emits `try_cast` where
   * src/plans.rs emits `cast`.
   */
  lemma {:induction false} ConvertMatchesPlans(x: Expression)
    requires WellFormed(x)
    ensures P.Convert(ToPlans(x)) == TryCastsAsCasts(Convert(x))
  {
    match x
    case Unary(t, e) =>
      ConvertMatchesPlans(e);
      UnaryMatchesPlans(t, e);
    case Binary(t, l, r) =>
      ConvertMatchesPlans(l);
      ConvertMatchesPlans(r);
      BinaryMatchesPlans(t, l, r);
    case List(t, es) =>
      forall i | 0 <= i < |es|
        ensures P.Convert(ToPlans(es[i])) == TryCastsAsCasts(Convert(es[i]))
      {
        ConvertMatchesPlans(es[i]);
      }
      ListMatchesPlans(t, es);
    case Cast(e, t) =>
      ConvertMatchesPlans(e);
      CastMatchesPlans(e, t);
    case _ =>
  }
}
