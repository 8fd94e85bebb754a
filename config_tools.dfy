/**
 * src/config/tools.rs: the configurations of the transforming tools, built from
 * src/plans.rs tool records. Expressions are lowered with `Plans.Convert`.
 */
module ConfigTools {
  import opened Base
  import E = Engine
  import P = Plans

  datatype JoinConfig = JoinConfig(joinType: E.JoinType, leftCols: seq<string>, rightCols: seq<string>)
  datatype SelectConfig = SelectConfig(columns: seq<string>, aliases: map<string, string>)
  datatype UnionConfig = UnionConfig(distinct: bool)
  datatype FilterConfig = FilterConfig(expr: E.Expr)
  datatype MapConfig = MapConfig(exprs: seq<E.Expr>)
  datatype SortConfig = SortConfig(exprs: seq<E.Expr>)
  datatype SummarizeConfig = SummarizeConfig(aggr: seq<E.Expr>, group: seq<E.Expr>)

  /** The `match` of `From<&plans::Join>`: each plan join type to the DataFusion one of the same name. */
  function ToJoinType(t: P.JoinType): (r: E.JoinType)
    ensures FromJoinType(r) == t
  {
    match t
    case Full => E.Full
    case Left => E.Left
    case Right => E.Right
    case Inner => E.Inner
    case LeftSemi => E.LeftSemi
    case RightSemi => E.RightSemi
    case LeftAnti => E.LeftAnti
    case RightAnti => E.RightAnti
  }

  /** The plan join type of the same name as a DataFusion one. */
  function FromJoinType(j: E.JoinType): P.JoinType {
    match j
    case Full => P.Full
    case Left => P.JoinType.Left
    case Right => P.JoinType.Right
    case Inner => P.Inner
    case LeftSemi => P.LeftSemi
    case RightSemi => P.RightSemi
    case LeftAnti => P.LeftAnti
    case RightAnti => P.RightAnti
  }

  /** `From<&plans::Join>`: the key columns are copied unquoted, in order. */
  function FromJoin(c: P.Join): (r: JoinConfig)
    ensures FromJoinType(r.joinType) == c.variant
    ensures r.leftCols == c.lt && r.rightCols == c.rt
  {
    JoinConfig(ToJoinType(c.variant), c.lt, c.rt)
  }

  /** Each name wrapped in double quotes, in order. */
  function QuoteEach(names: seq<string>): (r: seq<string>)
    ensures |r| == |names|
    ensures forall i :: 0 <= i < |names| ==> r[i] == Quote(names[i])
  {
    seq(|names|, i requires 0 <= i < |names| => Quote(names[i]))
  }

  /** The alias map re-keyed by the quoted column names; no two keys collide. */
  function QuoteKeys(aliases: map<string, string>): (r: map<string, string>)
    ensures r.Keys == P.QuoteAll(aliases.Keys)
    ensures forall k :: k in aliases ==> Quote(k) in r && r[Quote(k)] == aliases[k]
  {
    forall a, b | a in aliases && b in aliases && Quote(a) == Quote(b)
      ensures a == b
    {
      QuoteInjective(a, b);
    }
    map k | k in aliases :: Quote(k) := aliases[k]
  }

  /**
   * `From<&plans::Select>`: the selected columns and the alias keys are quoted,
   * so a selected column finds its alias exactly when its raw name has one.
   */
  function FromSelect(c: P.Select): (r: SelectConfig)
    ensures |r.columns| == |c.columns|
    ensures forall i :: 0 <= i < |c.columns| ==> r.columns[i] == Quote(c.columns[i])
    ensures r.aliases.Keys == P.QuoteAll(c.aliases.Keys)
    ensures forall k :: k in c.aliases ==> r.aliases[Quote(k)] == c.aliases[k]
    ensures forall i :: 0 <= i < |c.columns| ==>
      (r.columns[i] in r.aliases <==> c.columns[i] in c.aliases)
  {
    var r := SelectConfig(QuoteEach(c.columns), QuoteKeys(c.aliases));
    forall i | 0 <= i < |c.columns| && r.columns[i] in r.aliases
      ensures c.columns[i] in c.aliases
    {
      var k :| k in c.aliases && Quote(k) == r.columns[i];
      QuoteInjective(k, c.columns[i]);
    }
    r
  }

  /** `From<&plans::Union>`: a distinct union only when the plan asks for one. */
  function FromUnion(c: P.Union): (r: UnionConfig)
    ensures r.distinct <==> c.distinct == Some(true)
  {
    UnionConfig(c.distinct.UnwrapOr(false))
  }

  /** `From<&plans::Filter>`: the predicate lowered; it tests exactly the quoted plan columns. */
  function FromFilter(c: P.Filter): (r: FilterConfig)
    requires P.WellFormed(c.expr)
    ensures r.expr == P.Convert(c.expr)
    ensures E.Columns(r.expr) == P.QuoteAll(P.ColumnNames(c.expr))
  {
    P.ConvertColumns(c.expr);
    FilterConfig(P.Convert(c.expr))
  }

  /** `From<&plans::Map>`: one lowered expression per plan expression, in order. */
  function FromMap(c: P.Map): (r: MapConfig)
    requires forall i :: 0 <= i < |c.exprs| ==> P.WellFormed(c.exprs[i])
    ensures |r.exprs| == |c.exprs|
    ensures forall i :: 0 <= i < |c.exprs| ==> r.exprs[i] == P.Convert(c.exprs[i])
    ensures E.ColumnsOfAll(r.exprs) == P.QuoteAll(P.ColumnNamesOfAll(c.exprs))
  {
    P.ConvertAllColumns(c.exprs);
    MapConfig(P.ConvertAll(c.exprs))
  }

  /** `From<&plans::Sort>`: one lowered sort key per plan expression, in order. */
  function FromSort(c: P.Sort): (r: SortConfig)
    requires forall i :: 0 <= i < |c.exprs| ==> P.WellFormed(c.exprs[i])
    ensures |r.exprs| == |c.exprs|
    ensures forall i :: 0 <= i < |c.exprs| ==> r.exprs[i] == P.Convert(c.exprs[i])
    ensures E.ColumnsOfAll(r.exprs) == P.QuoteAll(P.ColumnNamesOfAll(c.exprs))
  {
    P.ConvertAllColumns(c.exprs);
    SortConfig(P.ConvertAll(c.exprs))
  }

  /** `From<&plans::Summarize>`: aggregates and grouping keys lowered separately, in order. */
  function FromSummarize(c: P.Summarize): (r: SummarizeConfig)
    requires forall i :: 0 <= i < |c.aggr| ==> P.WellFormed(c.aggr[i])
    requires forall i :: 0 <= i < |c.group| ==> P.WellFormed(c.group[i])
    ensures |r.aggr| == |c.aggr| && |r.group| == |c.group|
    ensures forall i :: 0 <= i < |c.aggr| ==> r.aggr[i] == P.Convert(c.aggr[i])
    ensures forall i :: 0 <= i < |c.group| ==> r.group[i] == P.Convert(c.group[i])
    ensures E.ColumnsOfAll(r.aggr) == P.QuoteAll(P.ColumnNamesOfAll(c.aggr))
    ensures E.ColumnsOfAll(r.group) == P.QuoteAll(P.ColumnNamesOfAll(c.group))
  {
    P.ConvertAllColumns(c.aggr);
    P.ConvertAllColumns(c.group);
    SummarizeConfig(P.ConvertAll(c.aggr), P.ConvertAll(c.group))
  }
}
