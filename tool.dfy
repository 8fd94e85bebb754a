/**
 * src/tool.rs: a node of the workflow graph. A tool has an id and an action;
 * the action's arity says how many input frames it waits for, and a `ToolData`
 * buffer collects those frames in a left and a right slot.
 */
module Tools {
  import opened Base
  import E = Engine
  import Plan
  import Plans
  import ConfigData

  // ---------------------------------------------------------------- plan view

  /**
   * The plan records `Tool::new` dispatches on. src/tool.rs names `plan::Input`
   * and `plan::Output` and a `plan::Tool` with `join`, `input` and `output`
   * variants; src/plan.rs does not declare the last two, so they are declared
   * here with the fields the dispatch reads.
   */
  datatype Input =
    | CsvInput(id: string, path: string)
    | AvroInput(id: string, path: string)
    | ParquetInput(id: string, path: string)
  {
    function Format(): E.FileFormat {
      match this
      case CsvInput(_, _) => E.Csv
      case AvroInput(_, _) => E.Avro
      case ParquetInput(_, _) => E.Parquet
    }
  }

  datatype Output =
    | CsvOutput(id: string, path: string)
    | ParquetOutput(id: string, path: string)
  {
    function Format(): E.FileFormat {
      match this
      case CsvOutput(_, _) => E.Csv
      case ParquetOutput(_, _) => E.Parquet
    }
  }

  datatype PlanTool =
    | JoinTool(join: Plan.Join)
    | InputTool(input: Input)
    | OutputTool(output: Output)
  {
    /** `plan.id()`: the id of the inner record. */
    function Id(): string {
      match this
      case JoinTool(j) => j.id
      case InputTool(i) => i.id
      case OutputTool(o) => o.id
    }
  }

  // ---------------------------------------------------------------- actions

  /** `Action`: what a node does. Sources read a file, sinks write one. */
  datatype Action =
    | Join(conf: ConfigData.JoinConfig)
    | InputCsv(path: string)
    | InputAvro(path: string)
    | InputParquet(path: string)
    | OutputCsv(path: string)
    | OutputParquet(path: string)
  {
    predicate IsSource() {
      InputCsv? || InputAvro? || InputParquet?
    }

    predicate IsSink() {
      OutputCsv? || OutputParquet?
    }

    /** The file format a source reads or a sink writes. */
    function Format(): E.FileFormat
      requires !Join?
    {
      match this
      case InputCsv(_) => E.Csv
      case InputAvro(_) => E.Avro
      case InputParquet(_) => E.Parquet
      case OutputCsv(_) => E.Csv
      case OutputParquet(_) => E.Parquet
    }
  }

  /** `Action::frames`: how many input frames the action consumes. */
  function Frames(a: Action): (n: nat)
    ensures n <= 2
    ensures n == 0 <==> a.IsSource()
    ensures n == 2 <==> a.Join?
    ensures n == 1 <==> a.IsSink()
  {
    match a
    case InputCsv(_) => 0
    case InputAvro(_) => 0
    case InputParquet(_) => 0
    case Join(_) => 2
    case _ => 1
  }

  datatype Tool = Tool(id: string, action: Action)

  /** `Tool::new`: the action is chosen by the plan variant and format alone; the id is kept. */
  function New(p: PlanTool): (t: Tool)
    ensures t.id == p.Id()
    ensures t.action.Join? <==> p.JoinTool?
    ensures t.action.IsSource() <==> p.InputTool?
    ensures t.action.IsSink() <==> p.OutputTool?
    ensures p.JoinTool? ==> t.action.conf == ConfigData.NewJoinConfig(p.join)
    ensures p.InputTool? ==> t.action.Format() == p.input.Format() && t.action.path == p.input.path
    ensures p.OutputTool? ==> t.action.Format() == p.output.Format() && t.action.path == p.output.path
  {
    var action := match p
      case JoinTool(conf) => Join(ConfigData.NewJoinConfig(conf))
      case InputTool(CsvInput(_, path)) => InputCsv(path)
      case InputTool(AvroInput(_, path)) => InputAvro(path)
      case InputTool(ParquetInput(_, path)) => InputParquet(path)
      case OutputTool(CsvOutput(_, path)) => OutputCsv(path)
      case OutputTool(ParquetOutput(_, path)) => OutputParquet(path);
    Tool(p.Id(), action)
  }

  // ---------------------------------------------------------------- input slots

  /** The contents of a `ToolData` buffer; `Empty` is its `Default`. */
  datatype Slots = Slots(left: Option<E.DataFrame>, right: Option<E.DataFrame>)

  const Empty: Slots := Slots(None, None)

  /** The frame a buffer holds in the named slot. */
  function Slot(s: Slots, side: Plan.InputSide): Option<E.DataFrame> {
    match side
    case Left => s.left
    case Right => s.right
  }

  /** `ToolData::set`: the named slot now holds the frame; the other one is untouched. */
  function SetSlot(s: Slots, side: Plan.InputSide, df: E.DataFrame): (r: Slots)
    ensures side == Plan.InputSide.Left ==> r.left == Some(df) && r.right == s.right
    ensures side == Plan.InputSide.Right ==> r.right == Some(df) && r.left == s.left
  {
    match side
    case Left => s.(left := Some(df))
    case Right => s.(right := Some(df))
  }

  /**
   * `Tool::is_ready`: a source is always ready, a sink once its left frame has
   * arrived, a join once both have.
   */
  function IsReady(t: Tool, s: Slots): (ready: bool)
    ensures ready <==>
      t.action.IsSource() ||
      (t.action.IsSink() && s.left.Some?) ||
      (t.action.Join? && s.left.Some? && s.right.Some?)
  {
    var needed := Frames(t.action);
    needed == 0 || (needed == 1 && s.left.Some?) || (needed == 2 && s.left.Some? && s.right.Some?)
  }

  /** A frame arriving on the right never readies a one-input node that has no left frame. */
  lemma RightNeverReadiesUnary(t: Tool, s: Slots, df: E.DataFrame)
    requires Frames(t.action) == 1 && s.left.None?
    ensures !IsReady(t, SetSlot(s, Plan.InputSide.Right, df))
  {
  }

  /** Filling a slot never makes a ready node unready. */
  lemma ReadyMonotone(t: Tool, s: Slots, side: Plan.InputSide, df: E.DataFrame)
    requires IsReady(t, s)
    ensures IsReady(t, SetSlot(s, side, df))
  {
  }

  /** The src/plans.rs input side as the src/plan.rs one of the same name, which `ToolData::set` takes. */
  function PlanSide(side: Plans.InputSide): (r: Plan.InputSide)
    ensures (r == Plan.InputSide.Left) <==> (side == Plans.InputSide.Left)
  {
    match side
    case Left => Plan.InputSide.Left
    case Right => Plan.InputSide.Right
  }

  /** `ToolData`: the per-node buffer of arrived frames, updated in place. */
  class ToolData {
    var left: Option<E.DataFrame>
    var right: Option<E.DataFrame>

    function Contents(): Slots
      reads this
    {
      Slots(left, right)
    }

    /** `ToolData::default()`. */
    constructor ()
      ensures Contents() == Empty
    {
      left := None;
      right := None;
    }

    /** `ToolData::set`. */
    method Set(side: Plan.InputSide, df: E.DataFrame)
      modifies this
      ensures Contents() == SetSlot(old(Contents()), side, df)
    {
      match side
      case Left => left := Some(df);
      case Right => right := Some(df);
    }
  }

  // ---------------------------------------------------------------- running an action

  /** The outcome of an engine call that either fails with `failure` or yields `df`. */
  function Attempt<T>(failure: Option<string>, df: T): (r: Result<T>)
    ensures r.Err? <==> failure.Some?
    ensures r.Err? ==> r.error == failure.value
    ensures r.Ok? ==> r.value == df
  {
    match failure
    case Some(e) => Err(e)
    case None => Ok(df)
  }

  /**
   * What `Action::run` returns. The engine's own failure (reading, joining or
   * writing) is the `failure` parameter; the panics of `unwrap` are the requires.
   */
  function RunResult(a: Action, data: Option<Slots>, failure: Option<string>): (r: Result<Option<E.DataFrame>>)
    requires !a.IsSource() ==> data.Some?
    requires a.Join? ==> data.value.left.Some? && data.value.right.Some?
    requires a.IsSink() ==> data.value.left.Some?
    ensures r.Err? <==> failure.Some?
    // a source ignores its data and yields a scan of its file
    ensures a.IsSource() && r.Ok? ==> r.value == Some(E.Scan(a.Format(), a.path))
    // a join yields the join of both frames on the configured keys
    ensures a.Join? && r.Ok? ==>
      r.value == Some(E.Joined(data.value.left.value, data.value.right.value,
                               a.conf.joinType, a.conf.leftCols, a.conf.rightCols))
    // a sink yields no frame
    ensures a.IsSink() && r.Ok? ==> r.value.None?
  {
    if a.IsSource() then Attempt(failure, Some(E.Scan(a.Format(), a.path)))
    else if a.Join? then
      Attempt(failure, Some(E.Joined(data.value.left.value, data.value.right.value,
                                     a.conf.joinType, a.conf.leftCols, a.conf.rightCols)))
    else Attempt(failure, None)
  }

  /** The slots left behind by `Action::run`'s `take`s: a join empties both, a sink its left one. */
  function Consumed(a: Action, s: Slots): (r: Slots)
    ensures a.IsSource() ==> r == s
    ensures a.Join? ==> r == Empty
    ensures a.IsSink() ==> r.left.None? && r.right == s.right
  {
    if a.IsSource() then s
    else if a.Join? then Empty
    else s.(left := None)
  }

  /** A source's result does not depend on the data it is given. */
  lemma SourceIgnoresData(a: Action, d1: Option<Slots>, d2: Option<Slots>, failure: Option<string>)
    requires a.IsSource()
    ensures RunResult(a, d1, failure) == RunResult(a, d2, failure)
  {
  }

  /** `Action::run` on a buffer it takes slots out of. */
  method RunAction(a: Action, data: ToolData?, failure: Option<string>) returns (r: Result<Option<E.DataFrame>>)
    requires !a.IsSource() ==> data != null
    requires a.Join? ==> data.left.Some? && data.right.Some?
    requires a.IsSink() ==> data.left.Some?
    modifies data
    ensures r == RunResult(a, if data == null then None else Some(old(data.Contents())), failure)
    ensures data != null ==> data.Contents() == Consumed(a, old(data.Contents()))
  {
    if a.IsSource() {
      return Attempt(failure, Some(E.Scan(a.Format(), a.path)));
    }
    var left := data.left;
    data.left := None;
    if a.Join? {
      var right := data.right;
      data.right := None;
      r := Attempt(failure, Some(E.Joined(left.value, right.value, a.conf.joinType, a.conf.leftCols, a.conf.rightCols)));
    } else {
      r := Attempt(failure, None);
    }
  }
}
