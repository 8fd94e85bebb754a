/**
 * The pipeline document (src/plans.rs): tools and links as decoded from JSON,
 * the enum conversions into Arrow and Parquet types, and the lowering of the
 * plan's expression language into DataFusion expressions.
 */
module Plans {
  import opened Base
  import E = Engine

  // ---------------------------------------------------------------- Parquet codecs

  datatype ParquetCompression = Brotli | Gzip | Lzo | Lz4 | Lz4Raw | Snappy | Zstd

  /** `Into<Compression> for ParquetCompression`. */
  function ToCompression(c: ParquetCompression): (r: E.Compression)
    // the `try_new(..).unwrap()` calls never panic: both levels are in range
    ensures E.ValidLevel(r)
    // one codec per tag, so no two tags collide
    ensures FromCompression(r) == Some(c)
    ensures r.Brotli? ==> r.brotliLevel == 4
    ensures r.Zstd? ==> r.zstdLevel == 11
    ensures r.Gzip? ==> r.gzipLevel == E.DefaultGzipLevel
  {
    match c
    case Brotli => E.Brotli(4)
    case Gzip => E.Gzip(E.DefaultGzipLevel)
    case Lzo => E.Lzo
    case Lz4 => E.Lz4
    case Lz4Raw => E.Lz4Raw
    case Zstd => E.Zstd(11)
    case Snappy => E.Snappy
  }

  /** Which plan codec a Parquet codec comes from, whatever its level. */
  function FromCompression(c: E.Compression): Option<ParquetCompression> {
    match c
    case Brotli(_) => Some(Brotli)
    case Gzip(_) => Some(Gzip)
    case Lzo => Some(Lzo)
    case Lz4 => Some(Lz4)
    case Lz4Raw => Some(Lz4Raw)
    case Zstd(_) => Some(Zstd)
    case Snappy => Some(Snappy)
    case Uncompressed => None
  }

  // ---------------------------------------------------------------- links

  /** Which input slot of the destination tool a link feeds. */
  datatype InputSide = Left | Right

  /** `#[derive(Default)]` with `#[default] left`. */
  const DefaultInputSide: InputSide := InputSide.Left

  datatype Link = Link(src: string, dst: string, input: InputSide)

  /** A link as decoded: `#[serde(default)]` fills a missing `input` with the default side. */
  function DecodeLink(src: string, dst: string, input: Option<InputSide>): (l: Link)
    ensures l.src == src && l.dst == dst
    ensures input.None? ==> l.input == InputSide.Left
    ensures input.Some? ==> l.input == input.value
  {
    Link(src, dst, input.UnwrapOr(DefaultInputSide))
  }

  // ---------------------------------------------------------------- schemas

  datatype SchemaDataType =
    | Utf8 | Bool | Null | Ts | Ms | Ns
    | I8 | I16 | I32 | I64
    | U8 | U16 | U32 | U64
    | F16 | F32 | F64 | Date

  /** `Into<DataType> for SchemaDataType`. */
  function ToDataType(t: SchemaDataType): (r: E.DataType)
    // each tag has its own Arrow type: the mapping is injective
    ensures FromDataType(r) == Some(t)
    ensures r.Timestamp? ==> r.timezone.None?
  {
    match t
    case Ts => E.Timestamp(E.Second, None)
    case Ms => E.Timestamp(E.Millisecond, None)
    case Ns => E.Timestamp(E.Nanosecond, None)
    case Utf8 => E.Utf8
    case Bool => E.Boolean
    case Null => E.Null
    case I8 => E.Int8
    case I16 => E.Int16
    case I32 => E.Int32
    case I64 => E.Int64
    case U8 => E.UInt8
    case U16 => E.UInt16
    case U32 => E.UInt32
    case U64 => E.UInt64
    case F16 => E.Float16
    case F32 => E.Float32
    case F64 => E.Float64
    case Date => E.Date32
  }

  /** The schema tag an Arrow type comes from, if any. */
  function FromDataType(d: E.DataType): Option<SchemaDataType> {
    match d
    case Timestamp(unit, tz) =>
      if tz.Some? then None
      else if unit == E.Second then Some(Ts)
      else if unit == E.Millisecond then Some(Ms)
      else if unit == E.Nanosecond then Some(Ns)
      else None
    case Utf8 => Some(Utf8)
    case Boolean => Some(Bool)
    case Null => Some(Null)
    case Int8 => Some(I8)
    case Int16 => Some(I16)
    case Int32 => Some(SchemaDataType.I32)
    case Int64 => Some(SchemaDataType.I64)
    case UInt8 => Some(U8)
    case UInt16 => Some(U16)
    case UInt32 => Some(U32)
    case UInt64 => Some(U64)
    case Float16 => Some(F16)
    case Float32 => Some(SchemaDataType.F32)
    case Float64 => Some(SchemaDataType.F64)
    case Date32 => Some(Date)
  }

  datatype SchemaField = SchemaField(column: string, nullable: Option<bool>, variant: SchemaDataType)

  datatype Sql = Sql(stmt: string, table: string)

  // ---------------------------------------------------------------- tools

  datatype ImportCsv = ImportCsv(
    id: string, path: string, limit: Option<nat>, header: Option<bool>,
    delimiter: Option<E.uint8>, schema: Option<seq<SchemaField>>, sql: Option<Sql>)

  datatype ImportAvro = ImportAvro(id: string, path: string, limit: Option<nat>, sql: Option<Sql>)

  datatype ImportParquet = ImportParquet(id: string, path: string, limit: Option<nat>, sql: Option<Sql>)

  datatype Import = CsvImport(csv: ImportCsv) | AvroImport(avro: ImportAvro) | ParquetImport(parquet: ImportParquet) {
    /** `Import::id`. */
    function Id(): string {
      match this
      case CsvImport(t) => t.id
      case AvroImport(t) => t.id
      case ParquetImport(t) => t.id
    }
  }

  datatype ExportCsv = ExportCsv(id: string, path: string, overwrite: Option<bool>)

  datatype ExportJson = ExportJson(id: string, path: string, overwrite: Option<bool>)

  datatype ExportParquet = ExportParquet(
    id: string, path: string, compress: Option<ParquetCompression>, overwrite: Option<bool>)

  datatype Export = CsvExport(csv: ExportCsv) | JsonExport(json: ExportJson) | ParquetExport(parquet: ExportParquet) {
    /** `Export::id`. */
    function Id(): string {
      match this
      case CsvExport(t) => t.id
      case JsonExport(t) => t.id
      case ParquetExport(t) => t.id
    }
  }

  datatype JoinType = Inner | Left | Right | Full | LeftSemi | RightSemi | LeftAnti | RightAnti

  datatype Generic = Generic(id: string)
  datatype Filter = Filter(id: string, expr: Expression)
  datatype Join = Join(id: string, lt: seq<string>, rt: seq<string>, variant: JoinType)
  datatype Select = Select(id: string, columns: seq<string>, aliases: map<string, string>)
  datatype Map = Map(id: string, exprs: seq<Expression>)
  datatype Sort = Sort(id: string, exprs: seq<Expression>)
  datatype Summarize = Summarize(id: string, aggr: seq<Expression>, group: seq<Expression>)
  datatype Union = Union(id: string, distinct: Option<bool>)

  /** A plan node, tagged by `tool` in the document. */
  datatype Tool =
    | ImportTool(imp: Import)
    | ExportTool(exp: Export)
    | DistinctTool(distinct: Generic)
    | DifferenceTool(difference: Generic)
    | FilterTool(filter: Filter)
    | IntersectTool(intersect: Generic)
    | JoinTool(join: Join)
    | MapTool(mapping: Map)
    | SelectTool(select: Select)
    | SortTool(sort: Sort)
    | SummarizeTool(summarize: Summarize)
    | UnionTool(union: Union)
  {
    /** `Tool::id`: the id of the tool's own configuration. */
    function Id(): (r: string)
      ensures ImportTool? ==> r == imp.Id()
      ensures ExportTool? ==> r == exp.Id()
    {
      match this
      case ImportTool(t) => t.Id()
      case ExportTool(t) => t.Id()
      case DistinctTool(t) => t.id
      case DifferenceTool(t) => t.id
      case FilterTool(t) => t.id
      case IntersectTool(t) => t.id
      case JoinTool(t) => t.id
      case MapTool(t) => t.id
      case SelectTool(t) => t.id
      case SortTool(t) => t.id
      case SummarizeTool(t) => t.id
      case UnionTool(t) => t.id
    }
  }

  datatype Plan = Plan(id: string, name: string, links: seq<Link>, tools: seq<Tool>)

  // ---------------------------------------------------------------- expressions

  /** The one-operand tags of the expression language. */
  datatype UnaryTag = Abs | Acos | Asin | Atan | Not | IsTrue | IsFalse

  /** The two-operand tags; each carries exactly two operands (`Box<[Expression; 2]>`). */
  datatype BinaryTag = Eq | Ne | Gt | Gte | Lt | Lte | Add | Sub | Mul | Div | Modulus

  /** The tags that carry a list of operands. */
  datatype ListTag = Avg | And | Or | Min | Max | Sum | Stddev | Product

  /**
   * The plan's expression language (this file's copy, which has `sort`). The
   * source's flat enum is grouped by operand shape: `Unary(Abs, e)` is `abs(e)`,
   * `Binary(Sub, l, r)` is `sub([l, r])`, `List(And, es)` is `and(es)`.
   */
  datatype Expression =
    | Col(name: string)
    | F32(f32Bits: bv32)
    | F64(f64Bits: bv64)
    | I32(i32: E.int32)
    | I64(i64: E.int64)
    | Str(text: string)
    | Unary(unary: UnaryTag, e: Expression)
    | Binary(binary: BinaryTag, l: Expression, r: Expression)
    | List(list: ListTag, es: seq<Expression>)
    | Cast(e: Expression, dtype: SchemaDataType)
    | Sort(e: Expression, asc: bool, nullsFirst: bool)

  /** `and`, `or` and `prod` fold their operands with `reduce`; the others build an array. */
  predicate Reduces(t: ListTag) {
    t == And || t == Or || t == Product
  }

  /** Every `and`, `or` and `prod` list, at any depth, has an operand: `convert` unwraps their `reduce`. */
  predicate WellFormed(x: Expression) {
    match x
    case Unary(_, e) => WellFormed(e)
    case Binary(_, l, r) => WellFormed(l) && WellFormed(r)
    case List(t, es) => (Reduces(t) ==> es != []) && forall i :: 0 <= i < |es| ==> WellFormed(es[i])
    case Cast(e, _) => WellFormed(e)
    case Sort(e, _, _) => WellFormed(e)
    case _ => true
  }

  /** The fixed DataFusion operator of each two-operand tag. */
  function BinaryOperator(t: BinaryTag): E.Operator {
    match t
    case Eq => E.Eq
    case Ne => E.NotEq
    case Gt => E.Gt
    case Gte => E.GtEq
    case Lt => E.Lt
    case Lte => E.LtEq
    case Add => E.Plus
    case Sub => E.Minus
    case Mul => E.Multiply
    case Div => E.Divide
    case Modulus => E.Modulo
  }

  /** The two-operand tag an operator comes from, if any. */
  function OperatorTag(op: E.Operator): Option<BinaryTag> {
    match op
    case Eq => Some(BinaryTag.Eq)
    case NotEq => Some(Ne)
    case Gt => Some(Gt)
    case GtEq => Some(Gte)
    case Lt => Some(Lt)
    case LtEq => Some(Lte)
    case Plus => Some(Add)
    case Minus => Some(Sub)
    case Multiply => Some(Mul)
    case Divide => Some(Div)
    case Modulo => Some(Modulus)
    case And => None
    case Or => None
  }

  /**
   * Each two-operand tag can be read back from its operator, so different tags
   * never share an operator, and none lowers to `and`/`or`.
   */
  lemma OperatorTagInverts(t: BinaryTag)
    ensures OperatorTag(BinaryOperator(t)) == Some(t)
  {
  }

  /** The engine function a one-operand tag applies to its lowered operand. */
  function LowerUnary(t: UnaryTag, arg: E.Expr): E.Expr {
    match t
    case Abs => E.Call(E.Abs, arg)
    case Acos => E.Call(E.Acos, arg)
    case Asin => E.Call(E.Atan, arg)
    case Atan => E.Call(E.Atan, arg)
    case Not => E.Not(arg)
    case IsTrue => E.IsTrue(arg)
    case IsFalse => E.IsFalse(arg)
  }

  /**
   * The one-operand tag an engine expression reads back to: the scalar function
   * called, or the boolean test applied. `asin` is not among them, since it is
   * lowered as `atan` (see `AsinLowersAsAtan`).
   */
  function UnaryTagOf(e: E.Expr): Option<UnaryTag> {
    match e
    case Call(f, _) => Some(if f == E.Abs then Abs else if f == E.Acos then Acos else Atan)
    case Not(_) => Some(Not)
    case IsTrue(_) => Some(IsTrue)
    case IsFalse(_) => Some(IsFalse)
    case _ => None
  }

  /** The plan literal an engine literal value reads back to. */
  function LiteralOf(v: E.ScalarValue): Expression {
    match v
    case Float32Value(b) => Expression.F32(b)
    case Float64Value(b) => Expression.F64(b)
    case Int32Value(i) => Expression.I32(i)
    case Int64Value(i) => Expression.I64(i)
    case Utf8Value(text) => Str(text)
  }

  predicate IsLiteral(x: Expression) {
    x.F32? || x.F64? || x.I32? || x.I64? || x.Str?
  }

  /** The list tag an aggregate function comes from. */
  function AggregateTag(f: E.AggregateFunction): ListTag {
    match f
    case Avg => Avg
    case Min => Min
    case Max => Max
    case Sum => Sum
    case Stddev => Stddev
  }

  /** What a list tag builds from its lowered operands. */
  function LowerList(t: ListTag, args: seq<E.Expr>): E.Expr
    requires Reduces(t) ==> args != []
  {
    match t
    case And => E.Reduce(E.And, args)
    case Or => E.Reduce(E.Or, args)
    case Product => E.Reduce(E.Multiply, args)
    case Avg => E.Aggregate(E.Avg, E.MakeArray(args))
    case Min => E.Aggregate(E.Min, E.MakeArray(args))
    case Max => E.Aggregate(E.Max, E.MakeArray(args))
    case Sum => E.Aggregate(E.Sum, E.MakeArray(args))
    case Stddev => E.Aggregate(E.Stddev, E.MakeArray(args))
  }

  /** `convert`: lower a plan expression to a DataFusion expression. */
  function Convert(x: Expression): E.Expr
    requires WellFormed(x)
  {
    match x
    case F32(v) => E.Literal(E.Float32Value(v))
    case F64(v) => E.Literal(E.Float64Value(v))
    case I32(v) => E.Literal(E.Int32Value(v))
    case I64(v) => E.Literal(E.Int64Value(v))
    case Str(v) => E.Literal(E.Utf8Value(v))
    case Col(v) => E.Column(Quote(v))
    case Unary(t, e) => LowerUnary(t, Convert(e))
    case Binary(t, l, r) => E.BinaryExpr(Convert(l), BinaryOperator(t), Convert(r))
    case List(t, es) => LowerList(t, seq(|es|, i requires 0 <= i < |es| => Convert(es[i])))
    case Cast(e, t) => E.Cast(Convert(e), ToDataType(t))
    case Sort(e, asc, nullsFirst) => E.Sort(Convert(e), asc, nullsFirst)
  }

  /** `exprs.iter().map(convert).collect()`: one lowered expression per operand, in order. */
  function ConvertAll(es: seq<Expression>): (r: seq<E.Expr>)
    requires forall i :: 0 <= i < |es| ==> WellFormed(es[i])
    ensures |r| == |es|
    ensures forall i :: 0 <= i < |es| ==> r[i] == Convert(es[i])
  {
    seq(|es|, i requires 0 <= i < |es| => Convert(es[i]))
  }

  /** The raw names of the columns an expression refers to. */
  function ColumnNames(x: Expression): set<string>
    decreases x, 1
  {
    match x
    case Col(v) => {v}
    case Unary(_, e) => ColumnNames(e)
    case Binary(_, l, r) => ColumnNames(l) + ColumnNames(r)
    case List(_, es) => ColumnNamesOfAll(es)
    case Cast(e, _) => ColumnNames(e)
    case Sort(e, _, _) => ColumnNames(e)
    case _ => {}
  }

  function ColumnNamesOfAll(es: seq<Expression>): set<string>
    decreases es, 0
  {
    if es == [] then {} else ColumnNames(es[0]) + ColumnNamesOfAll(es[1..])
  }

  /** Each name in the set, wrapped in double quotes. */
  function QuoteAll(names: set<string>): set<string> {
    set n | n in names :: Quote(n)
  }

  /**
   * Lowering quotes every column reference and introduces no other column: the
   * DataFusion expression refers to exactly the quoted names of the plan's columns.
   */
  lemma {:induction false} ConvertColumns(x: Expression)
    requires WellFormed(x)
    ensures E.Columns(Convert(x)) == QuoteAll(ColumnNames(x))
    decreases x, 1
  {
    match x
    case Col(v) =>
      assert QuoteAll({v}) == {Quote(v)};
    case Unary(t, e) =>
      ConvertColumns(e);
      UnaryColumns(t, e);
    case Binary(t, l, r) =>
      ConvertColumns(l);
      ConvertColumns(r);
      BinaryColumns(t, l, r);
    case List(t, es) =>
      ConvertAllColumns(es);
      ListColumns(t, es);
    case Cast(e, _) =>
      ConvertColumns(e);
    case Sort(e, _, _) =>
      ConvertColumns(e);
    case _ =>
  }

  /** Quoting distributes over the union of two name sets. */
  lemma QuoteAllUnion(a: set<string>, b: set<string>)
    ensures QuoteAll(a + b) == QuoteAll(a) + QuoteAll(b)
  {
  }

  /** The one-operand step of `ConvertColumns`. */
  lemma UnaryColumns(t: UnaryTag, e: Expression)
    requires WellFormed(e) && E.Columns(Convert(e)) == QuoteAll(ColumnNames(e))
    ensures E.Columns(Convert(Unary(t, e))) == QuoteAll(ColumnNames(Unary(t, e)))
  {
    assert Convert(Unary(t, e)) == LowerUnary(t, Convert(e));
  }

  /** One unfolding of `Convert` at a two-operand node. */
  lemma BinaryStep(t: BinaryTag, l: Expression, r: Expression)
    requires WellFormed(l) && WellFormed(r)
    ensures Convert(Binary(t, l, r)) == E.BinaryExpr(Convert(l), BinaryOperator(t), Convert(r))
  {
  }

  /** The two-operand step of `ConvertColumns`. */
  lemma BinaryColumns(t: BinaryTag, l: Expression, r: Expression)
    requires WellFormed(l) && E.Columns(Convert(l)) == QuoteAll(ColumnNames(l))
    requires WellFormed(r) && E.Columns(Convert(r)) == QuoteAll(ColumnNames(r))
    ensures E.Columns(Convert(Binary(t, l, r))) == QuoteAll(ColumnNames(Binary(t, l, r)))
  {
    BinaryStep(t, l, r);
    assert ColumnNames(Binary(t, l, r)) == ColumnNames(l) + ColumnNames(r);
    BinaryExprColumns(Convert(l), BinaryOperator(t), Convert(r), ColumnNames(l), ColumnNames(r));
  }

  /** The set step of `BinaryColumns`, kept apart from the unfolding of `Convert`. */
  lemma BinaryExprColumns(cl: E.Expr, op: E.Operator, cr: E.Expr, a: set<string>, b: set<string>)
    requires E.Columns(cl) == QuoteAll(a) && E.Columns(cr) == QuoteAll(b)
    ensures E.Columns(E.BinaryExpr(cl, op, cr)) == QuoteAll(a + b)
  {
    QuoteAllUnion(a, b);
  }


  /** The list step of `ConvertColumns`. */
  lemma ListColumns(t: ListTag, es: seq<Expression>)
    requires WellFormed(List(t, es))
    requires E.ColumnsOfAll(ConvertAll(es)) == QuoteAll(ColumnNamesOfAll(es))
    ensures E.Columns(Convert(List(t, es))) == QuoteAll(ColumnNames(List(t, es)))
  {
    ListLowering(t, es);
    LowerListColumns(t, ConvertAll(es));
  }

  /** A list node mentions exactly the columns of its lowered operands. */
  lemma LowerListColumns(t: ListTag, args: seq<E.Expr>)
    requires Reduces(t) ==> args != []
    ensures E.Columns(LowerList(t, args)) == E.ColumnsOfAll(args)
  {
    match t
    case And => E.ReduceColumns(E.And, args);
    case Or => E.ReduceColumns(E.Or, args);
    case Product => E.ReduceColumns(E.Multiply, args);
    case _ =>
  }

  lemma {:induction false} ConvertAllColumns(es: seq<Expression>)
    requires forall i :: 0 <= i < |es| ==> WellFormed(es[i])
    ensures E.ColumnsOfAll(ConvertAll(es)) == QuoteAll(ColumnNamesOfAll(es))
    decreases es, 0
  {
    if es != [] {
      assert es[0] < List(Avg, es);
      ConvertColumns(es[0]);
      ConvertAllColumns(es[1..]);
      assert ConvertAll(es)[1..] == ConvertAll(es[1..]);
      QuoteAllUnion(ColumnNames(es[0]), ColumnNamesOfAll(es[1..]));
    }
  }

  /**
   * `and`/`or`/`prod` of three operands lowers to the left-nested chain
   * `(a OP b) OP c` with `OP` the engine's `and`, `or` or `*`.
   */
  lemma ConvertReducesLeft(t: ListTag, a: Expression, b: Expression, c: Expression)
    requires Reduces(t)
    requires WellFormed(a) && WellFormed(b) && WellFormed(c)
    ensures var op := if t == And then E.And else if t == Or then E.Or else E.Multiply;
            Convert(List(t, [a, b, c]))
            == E.BinaryExpr(E.BinaryExpr(Convert(a), op, Convert(b)), op, Convert(c))
  {
    var xs := [a, b, c];
    assert WellFormed(List(t, xs));
    ListLowering(t, xs);
    ConvertAllThree(a, b, c);
    LowerListThree(t, Convert(a), Convert(b), Convert(c));
  }

  lemma ConvertAllThree(a: Expression, b: Expression, c: Expression)
    requires WellFormed(a) && WellFormed(b) && WellFormed(c)
    ensures ConvertAll([a, b, c]) == [Convert(a), Convert(b), Convert(c)]
  {
    var r := ConvertAll([a, b, c]);
    assert r[0] == Convert(a) && r[1] == Convert(b) && r[2] == Convert(c);
  }

  /** A folding tag over three lowered operands builds `(x OP y) OP z`. */
  lemma LowerListThree(t: ListTag, x: E.Expr, y: E.Expr, z: E.Expr)
    requires Reduces(t)
    ensures var op := if t == And then E.And else if t == Or then E.Or else E.Multiply;
            LowerList(t, [x, y, z]) == E.BinaryExpr(E.BinaryExpr(x, op, y), op, z)
  {
    var op := if t == And then E.And else if t == Or then E.Or else E.Multiply;
    assert LowerList(t, [x, y, z]) == E.Reduce(op, [x, y, z]);
    E.ReduceThree(op, x, y, z);
  }

  /** A two-operand node keeps its operands in order, under the one operator its tag names. */
  lemma BinaryLowering(t: BinaryTag, l: Expression, r: Expression)
    requires WellFormed(l) && WellFormed(r)
    ensures var c := Convert(Binary(t, l, r));
      c.BinaryExpr? && c.left == Convert(l) && c.right == Convert(r) && OperatorTag(c.op) == Some(t)
  {
    OperatorTagInverts(t);
  }

  /** An aggregate tag applies its function to the array of its lowered operands, same count, same order. */
  lemma AggregateLowering(t: ListTag, es: seq<Expression>)
    requires !Reduces(t) && forall i :: 0 <= i < |es| ==> WellFormed(es[i])
    ensures var c := Convert(List(t, es));
      c.Aggregate? && AggregateTag(c.agg) == t && c.arg == E.MakeArray(ConvertAll(es))
  {
    ListLowering(t, es);
  }

  /**
   * No lowered plan expression holds a `try_cast`: every `cast` of the plan
   * becomes DataFusion's `cast`, and nothing else introduces a cast node.
   */
  lemma {:induction false} ConvertCasts(x: Expression)
    requires WellFormed(x)
    ensures E.Casts(Convert(x)) <= {E.Casting}
    decreases x, 1
  {
    match x
    case Unary(t, e) =>
      ConvertCasts(e);
      LowerUnaryCasts(t, Convert(e));
    case Binary(t, l, r) =>
      ConvertCasts(l);
      ConvertCasts(r);
    case List(t, es) =>
      ConvertAllCasts(es);
      ListLowering(t, es);
      LowerListCasts(t, ConvertAll(es));
    case Cast(e, _) =>
      ConvertCasts(e);
    case Sort(e, _, _) =>
      ConvertCasts(e);
    case _ =>
  }

  lemma {:induction false} ConvertAllCasts(es: seq<Expression>)
    requires forall i :: 0 <= i < |es| ==> WellFormed(es[i])
    ensures E.CastsOfAll(ConvertAll(es)) <= {E.Casting}
    decreases es, 0
  {
    if es != [] {
      assert es[0] < List(Avg, es);
      ConvertCasts(es[0]);
      ConvertAllCasts(es[1..]);
      assert ConvertAll(es)[1..] == ConvertAll(es[1..]);
    }
  }

  /** A one-operand lowering wraps its operand and adds no cast node. */
  lemma LowerUnaryCasts(t: UnaryTag, arg: E.Expr)
    ensures E.Casts(LowerUnary(t, arg)) == E.Casts(arg)
  {
  }

  /** A list node holds exactly the cast nodes of its lowered operands. */
  lemma LowerListCasts(t: ListTag, args: seq<E.Expr>)
    requires Reduces(t) ==> args != []
    ensures E.Casts(LowerList(t, args)) == E.CastsOfAll(args)
  {
    match t
    case And => E.ReduceCasts(E.And, args);
    case Or => E.ReduceCasts(E.Or, args);
    case Product => E.ReduceCasts(E.Multiply, args);
    case _ =>
  }

  /** A list node lowers its operands one by one and hands them to its tag. */
  lemma ListLowering(t: ListTag, es: seq<Expression>)
    requires WellFormed(List(t, es))
    ensures Convert(List(t, es)) == LowerList(t, ConvertAll(es))
  {
  }

  /**
   * A one-operand node applies its tag's own engine function (`atan` for `asin`)
   * to exactly its lowered operand.
   */
  lemma UnaryLowering(t: UnaryTag, e: Expression)
    requires WellFormed(e)
    ensures var c := Convert(Unary(t, e));
      (c.Call? || c.Not? || c.IsTrue? || c.IsFalse?) && c.arg == Convert(e) &&
      UnaryTagOf(c) == Some(if t == Asin then Atan else t)
  {
  }

  /** A literal becomes an engine literal carrying the same value. */
  lemma LiteralLowering(x: Expression)
    requires IsLiteral(x)
    ensures Convert(x).Literal? && LiteralOf(Convert(x).value) == x
  {
  }

  /** `cast` lowers its operand and targets the engine type its schema type reads back from. */
  lemma CastLowering(e: Expression, t: SchemaDataType)
    requires WellFormed(e)
    ensures var c := Convert(Cast(e, t));
      c.Cast? && c.arg == Convert(e) && FromDataType(c.dataType) == Some(t)
  {
  }

  /** `sort` lowers its operand and passes the direction and the null placement through. */
  lemma SortLowering(e: Expression, asc: bool, nullsFirst: bool)
    requires WellFormed(e)
    ensures var c := Convert(Expression.Sort(e, asc, nullsFirst));
      c.Sort? && c.arg == Convert(e) && c.asc == asc && c.nullsFirst == nullsFirst
  {
  }

  /** `asin` is lowered to `atan`: the two tags give the same DataFusion expression. */
  lemma AsinLowersAsAtan(e: Expression)
    requires WellFormed(e)
    ensures Unary(Asin, e) != Unary(Atan, e)
    ensures Convert(Unary(Asin, e)) == Convert(Unary(Atan, e)) == E.Call(E.Atan, Convert(e))
  {
  }
}
