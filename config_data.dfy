/** src/config/data.rs: the join configuration built from a src/plan.rs join tool. */
module ConfigData {
  import E = Engine
  import Plan

  datatype JoinConfig = JoinConfig(joinType: E.JoinType, leftCols: seq<string>, rightCols: seq<string>)

  /** The `match` of `JoinConfig::new`: each plan join type to the DataFusion one of the same name. */
  function ToJoinType(t: Plan.JoinType): (r: E.JoinType)
    // one-to-one: the plan's join type can be read back from the engine's
    ensures FromJoinType(r) == t
  {
    match t
    case Full => E.Full
    case Left => E.Left
    case Right => E.Right
    case Inner => E.Inner
    case LeftSemi => E.LeftSemi
    case RightSemi => E.RightSemi
    case LeftAnti => E.LeftAnti
    case RightAnti => E.RightAnti
  }

  /** The plan join type of the same name as a DataFusion one. */
  function FromJoinType(j: E.JoinType): Plan.JoinType {
    match j
    case Full => Plan.Full
    case Left => Plan.JoinType.Left
    case Right => Plan.JoinType.Right
    case Inner => Plan.Inner
    case LeftSemi => Plan.LeftSemi
    case RightSemi => Plan.RightSemi
    case LeftAnti => Plan.LeftAnti
    case RightAnti => Plan.RightAnti
  }

  /**
   * `JoinConfig::new`: always succeeds; the key lists are copied as they are, with
   * no check that they have the same length.
   */
  function NewJoinConfig(c: Plan.Join): (r: JoinConfig)
    ensures FromJoinType(r.joinType) == c.variant
    ensures r.leftCols == c.lt
    ensures r.rightCols == c.rt
  {
    JoinConfig(ToJoinType(c.variant), c.lt, c.rt)
  }
}
