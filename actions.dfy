/**
 * src/actions.rs: the transforms and sinks that run on a node's `Data` buffer.
 * Each takes the frames it needs out of the buffer (`take().unwrap()`) and
 * returns the new frame, or none for a sink. The engine's own failure is the
 * `failure` parameter; a missing frame is a panic and so a precondition.
 */
module Actions {
  import opened Base
  import E = Engine
  import P = Plans
  import T = Tools
  import C = ConfigTools
  import X = ConfigExport

  /** `Data`: the buffer, set through src/plans.rs input sides. */
  class Data {
    var left: Option<E.DataFrame>
    var right: Option<E.DataFrame>

    function Contents(): T.Slots
      reads this
    {
      T.Slots(left, right)
    }

    /** `Data::default()`. */
    constructor ()
      ensures Contents() == T.Empty
    {
      left := None;
      right := None;
    }

    /** `Data::set`: only the named slot changes. */
    method Set(side: P.InputSide, df: E.DataFrame)
      modifies this
      ensures Contents() == T.SetSlot(old(Contents()), T.PlanSide(side), df)
    {
      match side
      case Left => left := Some(df);
      case Right => right := Some(df);
    }
  }

  // ---------------------------------------------------------------- pure parts

  /**
   * The join condition of `join`: the key lists zipped, each pair becoming
   * `col(l) == col("\"r\"")`. The shorter list decides the count.
   */
  function JoinPredicates(leftCols: seq<string>, rightCols: seq<string>): (r: seq<E.Expr>)
    ensures |r| == if |leftCols| <= |rightCols| then |leftCols| else |rightCols|
    ensures forall i :: 0 <= i < |r| ==>
      r[i] == E.BinaryExpr(E.Column(leftCols[i]), E.Eq, E.Column(Quote(rightCols[i])))
  {
    if leftCols == [] || rightCols == [] then []
    else [E.BinaryExpr(E.Column(leftCols[0]), E.Eq, E.Column(Quote(rightCols[0])))]
         + JoinPredicates(leftCols[1..], rightCols[1..])
  }

  /** Keys beyond the shorter list are dropped without notice. */
  lemma {:induction false} SurplusKeysDropped(leftCols: seq<string>, rightCols: seq<string>, extra: seq<string>)
    requires |leftCols| == |rightCols|
    ensures JoinPredicates(leftCols + extra, rightCols) == JoinPredicates(leftCols, rightCols)
    ensures JoinPredicates(leftCols, rightCols + extra) == JoinPredicates(leftCols, rightCols)
  {
    if leftCols != [] {
      assert (leftCols + extra)[1..] == leftCols[1..] + extra;
      assert (rightCols + extra)[1..] == rightCols[1..] + extra;
      SurplusKeysDropped(leftCols[1..], rightCols[1..], extra);
    }
  }

  /** The projection of `select`: each configured column, aliased when `aliases` has it. */
  function SelectExprs(columns: seq<string>, aliases: map<string, string>): (r: seq<E.Expr>)
    ensures |r| == |columns|
    ensures forall i :: 0 <= i < |columns| ==>
      r[i] == if columns[i] in aliases then E.Alias(E.Column(columns[i]), aliases[columns[i]])
              else E.Column(columns[i])
  {
    if columns == [] then []
    else
      var c := columns[0];
      [if c in aliases then E.Alias(E.Column(c), aliases[c]) else E.Column(c)]
      + SelectExprs(columns[1..], aliases)
  }

  /**
   * For a configuration built from a plan `select`, every selected column is
   * found under its quoted name: it is aliased exactly when the plan gives its
   * raw name an alias, and then to that alias.
   */
  lemma SelectFromPlan(c: P.Select)
    ensures var r := SelectExprs(C.FromSelect(c).columns, C.FromSelect(c).aliases);
      |r| == |c.columns| &&
      forall i :: 0 <= i < |c.columns| ==>
        r[i] == if c.columns[i] in c.aliases then E.Alias(E.Column(Quote(c.columns[i])), c.aliases[c.columns[i]])
                else E.Column(Quote(c.columns[i]))
  {
    var conf := C.FromSelect(c);
    var r := SelectExprs(conf.columns, conf.aliases);
    forall i | 0 <= i < |c.columns|
      ensures r[i] == if c.columns[i] in c.aliases then E.Alias(E.Column(Quote(c.columns[i])), c.aliases[c.columns[i]])
                      else E.Column(Quote(c.columns[i]))
    {
      assert conf.columns[i] == Quote(c.columns[i]);
      assert conf.columns[i] in conf.aliases <==> c.columns[i] in c.aliases;
    }
  }

  /** The frame `union` builds: `union_distinct` exactly when the configuration asks for it. */
  function UnionOf(left: E.DataFrame, right: E.DataFrame, conf: C.UnionConfig): (r: E.DataFrame)
    ensures r.UnionedDistinct? <==> conf.distinct
    ensures r.Unioned? <==> !conf.distinct
    ensures r.left == left && r.right == right
  {
    if conf.distinct then E.UnionedDistinct(left, right) else E.Unioned(left, right)
  }

  // ---------------------------------------------------------------- transforms on both frames

  /** `difference`: `left.except(right)`. */
  method Difference(data: Data, failure: Option<string>) returns (r: Result<Option<E.DataFrame>>)
    requires data.left.Some? && data.right.Some?
    modifies data
    ensures data.Contents() == T.Empty
    ensures r == T.Attempt(failure, Some(E.Except(old(data.left.value), old(data.right.value))))
  {
    var left := data.left.value;
    var right := data.right.value;
    data.left, data.right := None, None;
    r := T.Attempt(failure, Some(E.Except(left, right)));
  }

  /** `intersect`: `left.intersect(right)`. */
  method Intersect(data: Data, failure: Option<string>) returns (r: Result<Option<E.DataFrame>>)
    requires data.left.Some? && data.right.Some?
    modifies data
    ensures data.Contents() == T.Empty
    ensures r == T.Attempt(failure, Some(E.Intersect(old(data.left.value), old(data.right.value))))
  {
    var left := data.left.value;
    var right := data.right.value;
    data.left, data.right := None, None;
    r := T.Attempt(failure, Some(E.Intersect(left, right)));
  }

  /** `join`: `left.join_on(right, type, keys zipped into equalities)`. */
  method Join(data: Data, conf: C.JoinConfig, failure: Option<string>) returns (r: Result<Option<E.DataFrame>>)
    requires data.left.Some? && data.right.Some?
    modifies data
    ensures data.Contents() == T.Empty
    ensures r == T.Attempt(failure, Some(E.JoinedOn(old(data.left.value), old(data.right.value),
                                                    conf.joinType, JoinPredicates(conf.leftCols, conf.rightCols))))
  {
    var left := data.left.value;
    var right := data.right.value;
    data.left, data.right := None, None;
    r := T.Attempt(failure, Some(E.JoinedOn(left, right, conf.joinType, JoinPredicates(conf.leftCols, conf.rightCols))));
  }

  /** `union`: plain or distinct as configured. */
  method Union(data: Data, conf: C.UnionConfig, failure: Option<string>) returns (r: Result<Option<E.DataFrame>>)
    requires data.left.Some? && data.right.Some?
    modifies data
    ensures data.Contents() == T.Empty
    ensures r == T.Attempt(failure, Some(UnionOf(old(data.left.value), old(data.right.value), conf)))
  {
    var left := data.left.value;
    var right := data.right.value;
    data.left, data.right := None, None;
    r := T.Attempt(failure, Some(UnionOf(left, right, conf)));
  }

  // ---------------------------------------------------------------- transforms on the left frame

  /** `distinct`: `left.distinct()`; the right slot is left alone. */
  method Distinct(data: Data, failure: Option<string>) returns (r: Result<Option<E.DataFrame>>)
    requires data.left.Some?
    modifies data
    ensures data.left.None? && data.right == old(data.right)
    ensures r == T.Attempt(failure, Some(E.Distinct(old(data.left.value))))
  {
    var df := data.left.value;
    data.left := None;
    r := T.Attempt(failure, Some(E.Distinct(df)));
  }

  /** `filter`: `left.filter(expr)`. */
  method Filter(data: Data, conf: C.FilterConfig, failure: Option<string>) returns (r: Result<Option<E.DataFrame>>)
    requires data.left.Some?
    modifies data
    ensures data.left.None? && data.right == old(data.right)
    ensures r == T.Attempt(failure, Some(E.Filtered(old(data.left.value), conf.expr)))
  {
    var df := data.left.value;
    data.left := None;
    r := T.Attempt(failure, Some(E.Filtered(df, conf.expr)));
  }

  /** `project`: `left.select(exprs)` with the lowered map expressions. */
  method Project(data: Data, conf: C.MapConfig, failure: Option<string>) returns (r: Result<Option<E.DataFrame>>)
    requires data.left.Some?
    modifies data
    ensures data.left.None? && data.right == old(data.right)
    ensures r == T.Attempt(failure, Some(E.Projected(old(data.left.value), conf.exprs)))
  {
    var df := data.left.value;
    data.left := None;
    r := T.Attempt(failure, Some(E.Projected(df, conf.exprs)));
  }

  /** `select`: `left.select(..)` of the configured columns with their aliases. */
  method Select(data: Data, conf: C.SelectConfig, failure: Option<string>) returns (r: Result<Option<E.DataFrame>>)
    requires data.left.Some?
    modifies data
    ensures data.left.None? && data.right == old(data.right)
    ensures r == T.Attempt(failure, Some(E.Projected(old(data.left.value), SelectExprs(conf.columns, conf.aliases))))
  {
    var df := data.left.value;
    data.left := None;
    r := T.Attempt(failure, Some(E.Projected(df, SelectExprs(conf.columns, conf.aliases))));
  }

  /** `sort`: `left.sort(exprs)`. */
  method Sort(data: Data, conf: C.SortConfig, failure: Option<string>) returns (r: Result<Option<E.DataFrame>>)
    requires data.left.Some?
    modifies data
    ensures data.left.None? && data.right == old(data.right)
    ensures r == T.Attempt(failure, Some(E.Sorted(old(data.left.value), conf.exprs)))
  {
    var df := data.left.value;
    data.left := None;
    r := T.Attempt(failure, Some(E.Sorted(df, conf.exprs)));
  }

  /** `summarize`: `left.aggregate(group, aggr)`. */
  method Summarize(data: Data, conf: C.SummarizeConfig, failure: Option<string>) returns (r: Result<Option<E.DataFrame>>)
    requires data.left.Some?
    modifies data
    ensures data.left.None? && data.right == old(data.right)
    ensures r == T.Attempt(failure, Some(E.Aggregated(old(data.left.value), conf.group, conf.aggr)))
  {
    var df := data.left.value;
    data.left := None;
    r := T.Attempt(failure, Some(E.Aggregated(df, conf.group, conf.aggr)));
  }

  // ---------------------------------------------------------------- sinks

  /** `write_csv`: takes the left frame and writes it; no frame comes out. */
  method WriteCsv(data: Data, conf: X.CsvExportConfig, failure: Option<string>) returns (r: Result<Option<E.DataFrame>>)
    requires data.left.Some?
    modifies data
    ensures data.left.None? && data.right == old(data.right)
    ensures r == T.Attempt(failure, None)
  {
    data.left := None;
    r := T.Attempt(failure, None);
  }

  /** `write_json`: takes the left frame and writes it; no frame comes out. */
  method WriteJson(data: Data, conf: X.JsonExportConfig, failure: Option<string>) returns (r: Result<Option<E.DataFrame>>)
    requires data.left.Some?
    modifies data
    ensures data.left.None? && data.right == old(data.right)
    ensures r == T.Attempt(failure, None)
  {
    data.left := None;
    r := T.Attempt(failure, None);
  }

  /** `write_parquet`: takes the left frame and writes it; no frame comes out. */
  method WriteParquet(data: Data, conf: X.ParquetExportConfig, failure: Option<string>) returns (r: Result<Option<E.DataFrame>>)
    requires data.left.Some?
    modifies data
    ensures data.left.None? && data.right == old(data.right)
    ensures r == T.Attempt(failure, None)
  {
    data.left := None;
    r := T.Attempt(failure, None);
  }
}
