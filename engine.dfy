/**
 * The parts of DataFusion and Arrow that the pipeline engine names, mirrored as
 * plain data: data types, Parquet codecs, join types, logical expressions and
 * data frames. Nothing here evaluates anything; an `Expr` or a `DataFrame` is the
 * logical plan the engine would hand to DataFusion, so contracts elsewhere can say
 * exactly which plan each operation builds.
 */
module Engine {
  import opened Base

  newtype int32 = x: int | -0x8000_0000 <= x < 0x8000_0000
  newtype int64 = x: int | -0x8000_0000_0000_0000 <= x < 0x8000_0000_0000_0000
  /** An unsigned byte (Rust `u8`). */
  newtype uint8 = x: int | 0 <= x < 0x100

  /** Arrow's `TimeUnit`. */
  datatype TimeUnit = Second | Millisecond | Microsecond | Nanosecond

  /** The Arrow `DataType` variants the plan schemas can name. */
  datatype DataType =
    | Null
    | Boolean
    | Int8 | Int16 | Int32 | Int64
    | UInt8 | UInt16 | UInt32 | UInt64
    | Float16 | Float32 | Float64
    | Utf8
    | Date32
    | Timestamp(unit: TimeUnit, timezone: Option<string>)

  /** An Arrow schema field: name, type and nullability. */
  datatype Field = Field(name: string, dataType: DataType, nullable: bool)

  /** The Parquet crate's `Compression`; the level is the one its level type was built with. */
  datatype Compression =
    | Uncompressed
    | Snappy
    | Gzip(gzipLevel: nat)
    | Lzo
    | Brotli(brotliLevel: nat)
    | Lz4
    | Zstd(zstdLevel: nat)
    | Lz4Raw

  /** The level the Parquet crate's `GzipLevel::default()` stands for. */
  const DefaultGzipLevel: nat := 6

  /**
   * The levels the Parquet crate's level constructors accept (`GzipLevel` 0..=10,
   * `BrotliLevel` 0..=11, `ZstdLevel` 1..=22); `try_new` fails outside them.
   */
  predicate ValidLevel(c: Compression) {
    match c
    case Gzip(l) => l <= 10
    case Brotli(l) => l <= 11
    case Zstd(l) => 1 <= l <= 22
    case _ => true
  }

  /** DataFusion's `JoinType` (the variants the plans can name). */
  datatype JoinType = Inner | Left | Right | Full | LeftSemi | RightSemi | LeftAnti | RightAnti

  /** DataFusion's binary `Operator` (the ones the engine builds). */
  datatype Operator =
    | Eq | NotEq | Lt | LtEq | Gt | GtEq
    | Plus | Minus | Multiply | Divide | Modulo
    | And | Or

  /**
   * A literal value. Floating-point payloads are carried as their bit patterns:
   * the engine only passes them through.
   */
  datatype ScalarValue =
    | Float32Value(f32Bits: bv32)
    | Float64Value(f64Bits: bv64)
    | Int32Value(i32: int32)
    | Int64Value(i64: int64)
    | Utf8Value(text: string)

  datatype ScalarFunction = Abs | Acos | Atan

  datatype AggregateFunction = Avg | Min | Max | Sum | Stddev

  /** A DataFusion logical expression, as built by `lit`, `col`, `binary_expr` and friends. */
  datatype Expr =
    | Literal(value: ScalarValue)
    | Column(name: string)
    | Call(fun: ScalarFunction, arg: Expr)
    | Not(arg: Expr)
    | IsTrue(arg: Expr)
    | IsFalse(arg: Expr)
    | BinaryExpr(left: Expr, op: Operator, right: Expr)
    | Aggregate(agg: AggregateFunction, arg: Expr)
    | MakeArray(items: seq<Expr>)
    | Cast(arg: Expr, dataType: DataType)
    | TryCast(arg: Expr, dataType: DataType)
    | Sort(arg: Expr, asc: bool, nullsFirst: bool)
    | Alias(arg: Expr, alias: string)

  /** The names of all columns an expression refers to. */
  function Columns(e: Expr): set<string>
    decreases e, 1
  {
    match e
    case Literal(_) => {}
    case Column(name) => {name}
    case Call(_, a) => Columns(a)
    case Not(a) => Columns(a)
    case IsTrue(a) => Columns(a)
    case IsFalse(a) => Columns(a)
    case BinaryExpr(l, _, r) => Columns(l) + Columns(r)
    case Aggregate(_, a) => Columns(a)
    case MakeArray(items) => ColumnsOfAll(items)
    case Cast(a, _) => Columns(a)
    case TryCast(a, _) => Columns(a)
    case Sort(a, _, _) => Columns(a)
    case Alias(a, _) => Columns(a)
  }

  /** The union of `Columns` over a list of expressions. */
  function ColumnsOfAll(items: seq<Expr>): set<string>
    decreases items, 0
  {
    if items == [] then {} else Columns(items[0]) + ColumnsOfAll(items[1..])
  }

  /**
   * Rust's `Iterator::reduce` with `binary_expr(_, op, _)` as the combining
   * closure: the first item seeds the accumulator, every later item is combined
   * on the right. `reduce` on an empty iterator gives `None`, which the engine
   * unwraps, so the list must not be empty.
   */
  function Reduce(op: Operator, xs: seq<Expr>): Expr
    requires xs != []
  {
    Fold(op, xs[0], xs[1..])
  }

  /** `Iterator::fold` with `binary_expr(_, op, _)`. */
  function Fold(op: Operator, acc: Expr, xs: seq<Expr>): Expr
    decreases xs
  {
    if xs == [] then acc else Fold(op, BinaryExpr(acc, op, xs[0]), xs[1..])
  }

  /** Folding one more item combines it on the right of everything folded so far. */
  lemma {:induction false} FoldSnoc(op: Operator, acc: Expr, xs: seq<Expr>, y: Expr)
    ensures Fold(op, acc, xs + [y]) == BinaryExpr(Fold(op, acc, xs), op, y)
    decreases xs
  {
    if xs == [] {
      assert xs + [y] == [y];
      assert [y][1..] == [];
    } else {
      assert (xs + [y])[0] == xs[0];
      assert (xs + [y])[1..] == xs[1..] + [y];
      FoldSnoc(op, BinaryExpr(acc, op, xs[0]), xs[1..], y);
    }
  }

  /** `reduce` is left-associative: the last operand is combined at the root. */
  lemma ReduceLeftAssociative(op: Operator, xs: seq<Expr>, y: Expr)
    requires xs != []
    ensures Reduce(op, xs + [y]) == BinaryExpr(Reduce(op, xs), op, y)
  {
    assert (xs + [y])[0] == xs[0];
    assert (xs + [y])[1..] == xs[1..] + [y];
    FoldSnoc(op, xs[0], xs[1..], y);
  }

  /** Reducing three operands nests the first two under the third. */
  lemma ReduceThree(op: Operator, a: Expr, b: Expr, c: Expr)
    ensures Reduce(op, [a, b, c]) == BinaryExpr(BinaryExpr(a, op, b), op, c)
  {
    ReduceLeftAssociative(op, [a, b], c);
    assert [a, b] + [c] == [a, b, c];
    ReduceLeftAssociative(op, [a], b);
    assert [a] + [b] == [a, b];
  }

  /** A reduction mentions exactly the columns of its operands. */
  lemma {:induction false} FoldColumns(op: Operator, acc: Expr, xs: seq<Expr>)
    ensures Columns(Fold(op, acc, xs)) == Columns(acc) + ColumnsOfAll(xs)
    decreases xs
  {
    if xs != [] {
      FoldColumns(op, BinaryExpr(acc, op, xs[0]), xs[1..]);
    }
  }

  lemma ReduceColumns(op: Operator, xs: seq<Expr>)
    requires xs != []
    ensures Columns(Reduce(op, xs)) == ColumnsOfAll(xs)
  {
    FoldColumns(op, xs[0], xs[1..]);
  }

  /** DataFusion's two cast nodes: `cast`, which fails on a value it cannot convert, and `try_cast`, which gives null. */
  datatype CastKind = Casting | TryCasting

  /** The kinds of cast node that occur anywhere in an expression. */
  function Casts(e: Expr): set<CastKind>
    decreases e, 1
  {
    match e
    case Literal(_) => {}
    case Column(_) => {}
    case Call(_, a) => Casts(a)
    case Not(a) => Casts(a)
    case IsTrue(a) => Casts(a)
    case IsFalse(a) => Casts(a)
    case BinaryExpr(l, _, r) => Casts(l) + Casts(r)
    case Aggregate(_, a) => Casts(a)
    case MakeArray(items) => CastsOfAll(items)
    case Cast(a, _) => {Casting} + Casts(a)
    case TryCast(a, _) => {TryCasting} + Casts(a)
    case Sort(a, _, _) => Casts(a)
    case Alias(a, _) => Casts(a)
  }

  /** The union of `Casts` over a list of expressions. */
  function CastsOfAll(items: seq<Expr>): set<CastKind>
    decreases items, 0
  {
    if items == [] then {} else Casts(items[0]) + CastsOfAll(items[1..])
  }

  /** A reduction holds exactly the cast nodes of its operands. */
  lemma {:induction false} FoldCasts(op: Operator, acc: Expr, xs: seq<Expr>)
    ensures Casts(Fold(op, acc, xs)) == Casts(acc) + CastsOfAll(xs)
    decreases xs
  {
    if xs != [] {
      FoldCasts(op, BinaryExpr(acc, op, xs[0]), xs[1..]);
    }
  }

  lemma ReduceCasts(op: Operator, xs: seq<Expr>)
    requires xs != []
    ensures Casts(Reduce(op, xs)) == CastsOfAll(xs)
  {
    FoldCasts(op, xs[0], xs[1..]);
  }

  /** The file formats read and written by the pipeline's sources and sinks. */
  datatype FileFormat = Csv | Avro | Parquet | Json

  /**
   * A DataFusion `DataFrame`: a lazy logical plan. Cloning one is cheap and every
   * clone denotes the same plan, which is what value semantics gives here.
   */
  datatype DataFrame =
    | Scan(format: FileFormat, path: string)
    | Except(left: DataFrame, right: DataFrame)
    | Intersect(left: DataFrame, right: DataFrame)
    | Distinct(input: DataFrame)
    | Filtered(input: DataFrame, condition: Expr)
    | JoinedOn(left: DataFrame, right: DataFrame, joinType: JoinType, on: seq<Expr>)
    | Joined(left: DataFrame, right: DataFrame, joinType: JoinType, leftCols: seq<string>, rightCols: seq<string>)
    | Projected(input: DataFrame, exprs: seq<Expr>)
    | Sorted(input: DataFrame, exprs: seq<Expr>)
    | Aggregated(input: DataFrame, group: seq<Expr>, aggr: seq<Expr>)
    | Unioned(left: DataFrame, right: DataFrame)
    | UnionedDistinct(left: DataFrame, right: DataFrame)
}
