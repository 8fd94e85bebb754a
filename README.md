# abacus pipeline engine — a Dafny model

abacus runs data pipelines described by a JSON plan: a list of tools (import,
export, filter, join, select, sort, summarize, union, set operations) and a list
of links that wire one tool's output frame into the left or right input of
another. This project models the core of that engine and proves properties of
the model:

- **Expression lowering** (`src/expr.rs`, `src/plans.rs`). The plan's expression
  tree becomes a DataFusion expression. Column names are quoted. `and`/`or`/`prod`
  fold to the left. Aggregates wrap an array of their operands. `asin` becomes
  `atan`. The two copies differ in one place: `try_cast` in `src/expr.rs`,
  `cast` in `src/plans.rs`. Only the `src/plans.rs` copy has `sort`. Modules
  `Plans` and `Expr`. DataFusion's `Expr` and `DataFrame` are mirrored as plain
  datatypes in module `Engine`. A frame is a symbolic logical plan; nothing is
  evaluated.
- **Plan and configuration lowering** (`src/plans.rs`, `src/plan.rs`,
  `src/config/*.rs`). This covers tool ids, the schema-type, join-type and
  compression mappings, and the configuration constructors with their defaults
  and quoting. Modules `Plans`, `Plan`, `ConfigData`, `ConfigTools`,
  `ConfigImport` and `ConfigExport`.
- **Nodes and their input buffers** (`src/tool.rs`, `src/actions.rs`). This
  covers arity, readiness and slot writes, and which slots each action takes.
  Modules `Tools` and `Actions`. Each buffer (`ToolData`, `Data`) is a class
  whose methods update it in place.
- **The scheduler** (`src/workflow.rs`), module `Workflow`. `Workflow::new`
  builds the graph in a constructor with loops. `Workflow::run` is a method with
  one loop per level: waves, drain, join and fan-out. Each loop is proved equal to
  a recursive specification (`RunFrom`, `Drain`, `JoinTasks`, `FanOut`,
  `Deliver`), and the lemmas are about those specifications.

Where the project's design documentation and the code disagree, the model follows
the code:

- A repeated tool id is not rejected. The later tool wins the id map.
- A link to an unknown id panics (`unwrap`). Here that is a precondition, not an
  error value.
- Join key lists of different lengths are zipped silently.
- When a synchronous tool fails, `run` returns at once. Async tasks still in
  flight are dropped with the `JoinSet`, not awaited.
- A failing async tool makes `unwrap` panic (outcome `Panicked`). It is not
  reported as an error.

The snapshot has inconsistencies of its own, and each file is modelled by its own
text:

- `src/workflow.rs` calls `Tool::new` on a `plans::Tool`. It also calls
  `is_async`, `run_sync` and `run_async`, which `src/tool.rs` does not define.
  These become parameters: `lower`, and the `Runtime` fields `isAsync` and
  `execute`.
- `src/tool.rs` dispatches on `plan::Tool::{join, input, output}` and
  `plan::Input`/`plan::Output`, which `src/plan.rs` lacks. Module `Tools`
  declares that view (`PlanTool`).
- `src/config/tools.rs` applies `expr::convert` to `plans::Expression`. The
  model uses `Plans.Convert`, whose types match.
  `Expr.CastsAreTheOnlyDifference` proves that the two lowerings agree apart
  from `try_cast`/`cast`.
- `src/workflow.rs` passes a `plans::InputSide` to `ToolData::set`, which takes a
  `plan::InputSide`. `Tools.PlanSide` maps one to the other by name.

## Model

| member | source | states |
|---|---|---|
| `Base.Quote` | src/expr.rs:63 | the quoted name is the name with one `"` before and one after, so the name can be read back from it |
| `Base.QuoteInjective` | src/config/tools.rs:49-51 | two different names never quote to the same text, so quoted alias keys do not collide |
| `Engine.ReduceLeftAssociative` | src/expr.rs:69-70 | `reduce` builds a left-nested chain: adding an operand at the end wraps the previous result |
| `Engine.ReduceThree` | src/plans.rs:372-373 | three operands reduce to `(a OP b) OP c` |
| `Engine.ReduceColumns` | src/plans.rs:393 | a reduced chain refers to exactly the columns of its operands |
| `Plans.ToCompression` | src/plans.rs:21-37 | each Parquet compression has its own codec (the mapping can be inverted); brotli uses level 4, zstd level 11, gzip the default level; every level is within its codec's range |
| `Plans.DecodeLink` | src/plans.rs:56-63 | a link without `input` feeds the left slot; a given side is kept; both ends are copied |
| `Plans.ToDataType` | src/plans.rs:133-158 | the schema-type mapping is injective (the tag can be read back from the Arrow type); timestamps carry no timezone |
| `Plans.Tool.Id` | src/plans.rs:83-102 | an import or export tool's id is the id of its inner format record (`Import::id`, `Export::id`) |
| `Plans.OperatorTagInverts` | src/plans.rs:378-392 | each two-operand tag has its own engine operator; the tag can be read back from it |
| `Plans.ConvertAll` | src/plans.rs:374-377 | the operands are lowered one for one, in order |
| `Plans.ConvertColumns` | src/plans.rs:358-397 | a lowered expression refers to exactly the quoted names of the plan expression's columns, no more and no fewer |
| `Plans.LowerListColumns` | src/plans.rs:372-377 | a list node refers to exactly the columns of its lowered operands, whether it folds them or wraps them in an array |
| `Plans.ConvertAllColumns` | src/plans.rs:374-377 | a list of lowered expressions refers to exactly the quoted names of the plan expressions' columns |
| `Plans.ConvertReducesLeft` | src/plans.rs:372-373 | `and`, `or` and `prod` of three operands become the left-nested chain of the engine's `and`, `or` or `*` |
| `Plans.BinaryLowering` | src/plans.rs:378-392 | a two-operand node keeps its operands in order, under the operator its tag names |
| `Plans.AggregateLowering` | src/plans.rs:374-391 | `avg`, `min`, `max`, `sum` and `stddev` each apply their own aggregate function (the tag is read back from it by `AggregateTag`, so no two share one) to an array of the lowered operands, same count and order |
| `Plans.Convert` | src/plans.rs:358-397 | `convert` itself, stated by the lemmas beside it: exactly the quoted columns (`ConvertColumns`), `cast` and never `try_cast` (`ConvertCasts`), two-operand nodes under their own operator (`BinaryLowering`), aggregates (`AggregateLowering`), left folds (`ConvertReducesLeft`), each one-operand tag's own function (`UnaryLowering`), literal values kept (`LiteralLowering`), the cast target read back (`CastLowering`), `sort` flags passed through (`SortLowering`), `asin` as `atan` (`AsinLowersAsAtan`) |
| `Plans.LowerUnary` | src/plans.rs:367-390 | the one-operand table, stated by `UnaryLowering` (the tag's own engine function, read back by `UnaryTagOf`, applied to exactly the lowered operand), `UnaryColumns` and `LowerUnaryCasts` (no column and no cast added) and `AsinLowersAsAtan` |
| `Plans.UnaryLowering` | src/plans.rs:367-390 | `abs`, `acos`, `atan`, `not`, `is_true`, `is_false` each lower to their own engine function or test, read back to the same tag, `asin` to `atan`; the argument is exactly the lowered operand |
| `Plans.LiteralLowering` | src/plans.rs:361-365 | every literal becomes an engine literal that reads back (`LiteralOf`) to the same plan literal, so the value is kept |
| `Plans.CastLowering` | src/plans.rs:394 | `cast` of the lowered operand, whose engine type reads back (`FromDataType`) to the plan's schema type |
| `Plans.SortLowering` | src/plans.rs:395 | `sort` of the lowered operand with `asc` and `nulls_first` passed through unchanged |
| `Plans.LowerList` | src/plans.rs:372-393 | the list table, stated by `ListLowering`, `LowerListColumns`, `LowerListCasts`, `LowerListThree` and `AggregateLowering` |
| `Plans.BinaryOperator` | src/plans.rs:378-392 | the operator table, stated by `OperatorTagInverts`: injective, and never `and`/`or` |
| `Plans.ConvertCasts` | src/plans.rs:394 | no expression lowered by src/plans.rs holds a `try_cast`: each plan `cast` becomes `cast` and nothing else adds a cast node |
| `Plans.AsinLowersAsAtan` | src/plans.rs:369-370 | `asin` and `atan` are different tags that lower to the same `atan` call |
| `Expr.ConvertAll` | src/expr.rs:71-74 | the operands are lowered one for one, in order |
| `Expr.ToPlans` | src/expr.rs:9-53 | every `src/expr.rs` expression is also a `src/plans.rs` expression, and a well-formed one stays well-formed |
| `Expr.LowerUnaryTryCastsAsCasts` | src/expr.rs:64-68 | the unary lowering is unaffected by reading `try_cast` as `cast` |
| `Expr.ListMatchesPlans` | src/expr.rs:69-74 | for list nodes, this lowering agrees with the `src/plans.rs` one once `try_cast` is read as `cast` |
| `Expr.ConvertMatchesPlans` | src/expr.rs:55-93 | the two copies of `convert` build the same expression once `try_cast` is read as `cast` |
| `Expr.ConvertTryCasts` | src/expr.rs:91 | no expression lowered by src/expr.rs holds a `cast`: each plan `cast` becomes `try_cast` |
| `Expr.CastsAreTheOnlyDifference` | src/expr.rs:55-93 | the two lowerings differ only in their cast nodes: the same expression up to reading `try_cast` as `cast`, with only `cast` on the src/plans.rs side and only `try_cast` on this side |
| `Expr.Convert` | src/expr.rs:55-93 | this file's `convert`, stated by `UnaryLowering`, `LiteralLowering` and `CastLowering` on their own, and by `ConvertMatchesPlans`, `ConvertTryCasts` and `CastsAreTheOnlyDifference` against the src/plans.rs lowering |
| `Expr.UnaryLowering` | src/expr.rs:64-68 | each one-operand tag lowers to its own engine function or test (read back by `UnaryTagOf`), `asin` to `atan`, applied to exactly the lowered operand |
| `Expr.LiteralLowering` | src/expr.rs:58-62 | every literal becomes an engine literal carrying the same value |
| `Expr.CastLowering` | src/expr.rs:91 | `cast` becomes `try_cast` of the lowered operand, whose engine type reads back to the schema type |
| `Plan.DecodeLink` | src/plan.rs:23-30 | a link without `input` feeds the left slot (`InputSide::default`); a given side is kept |
| `Plan.ToDataType` | src/plan.rs:92-116 | the 17-tag schema mapping is injective, never yields `Date32`, and gives timestamps no timezone |
| `Plan.Tool.Id` | src/plan.rs:45-60 | an import or export tool's id is the id of its inner format record |
| `ConfigData.ToJoinType` | src/config/data.rs:16-25 | each plan join type maps to the DataFusion join type of the same name, one to one |
| `ConfigData.NewJoinConfig` | src/config/data.rs:12-28 | the join type maps back to the plan's; the key lists are exactly `lt` and `rt`, with no length check |
| `ConfigTools.ToJoinType` | src/config/tools.rs:19-28 | each plan join type maps to the DataFusion join type of the same name, one to one |
| `ConfigTools.FromJoin` | src/config/tools.rs:14-39 | the join type maps back to the plan's; the key lists equal `lt`/`rt` element for element |
| `ConfigTools.QuoteEach` | src/config/tools.rs:52-54 | every column name is quoted, order and count kept |
| `ConfigTools.QuoteKeys` | src/config/tools.rs:49-51 | the alias keys are exactly the quoted plan keys, each with its plan value |
| `ConfigTools.FromSelect` | src/config/tools.rs:46-58 | columns are quoted in order; a quoted column has an alias exactly when its raw name has one |
| `ConfigTools.FromUnion` | src/config/tools.rs:64-69 | the union is distinct only when the plan says `true`; absent means `false` |
| `ConfigTools.FromFilter` | src/config/tools.rs:75-80 | the predicate is the lowered plan expression and refers to exactly its quoted columns |
| `ConfigTools.FromMap` | src/config/tools.rs:87-92 | one lowered expression per plan expression, in order, with exactly the quoted columns |
| `ConfigTools.FromSort` | src/config/tools.rs:98-103 | one lowered sort key per plan expression, in order, with exactly the quoted columns |
| `ConfigTools.FromSummarize` | src/config/tools.rs:110-118 | aggregates and groups are lowered separately, each one for one and in order |
| `ConfigImport.ToField` | src/config/import.rs:18-23 | a field keeps the column name, takes its type from the schema tag (which can be read back), and is nullable unless the entry says `false` |
| `ConfigImport.ToFields` | src/config/import.rs:17-24 | one field per schema entry, in order |
| `ConfigImport.NewCsvImportConfig` | src/config/import.rs:14-35 | there are fields exactly when there is a schema, one per entry; no header unless asked for; `,` unless a delimiter is given; path, sql and limit are copied |
| `ConfigImport.NewAvroImportConfig` | src/config/import.rs:43-52 | path, sql and limit are copied |
| `ConfigImport.NewParquetImportConfig` | src/config/import.rs:60-69 | path, sql and limit are copied |
| `ConfigExport.NewCsvExportConfig` | src/config/export.rs:8-16 | overwrite only when the plan says `true`; the path is copied |
| `ConfigExport.NewJsonExportConfig` | src/config/export.rs:23-31 | overwrite only when the plan says `true`; the path is copied |
| `ConfigExport.NewParquetExportConfig` | src/config/export.rs:38-46 | overwrite only when the plan says `true`; the path is copied |
| `Tools.Frames` | src/tool.rs:84-93 | the arity is 0 exactly for the sources, 2 exactly for a join, 1 exactly for the sinks |
| `Tools.New` | src/tool.rs:16-35 | the id is kept; the action is chosen only by the plan variant and format: a join keeps its configuration, a source or sink keeps its path and format |
| `Tools.SetSlot` | src/tool.rs:59-65 | the named slot holds the frame; the other slot is unchanged |
| `Tools.IsReady` | src/tool.rs:37-44 | a source is always ready, a sink once its left frame is there, a join once both are |
| `Tools.RightNeverReadiesUnary` | src/tool.rs:37-44 | a frame arriving on the right never readies a one-input node that lacks a left frame |
| `Tools.ReadyMonotone` | src/tool.rs:37-44 | writing a slot never makes a ready node unready |
| `Tools.PlanSide` | src/workflow.rs:89 | the `src/plans.rs` input side maps to the `src/plan.rs` side of the same name |
| `Tools.ToolData.constructor` | src/tool.rs:53-57 | a new buffer is empty (`Default`) |
| `Tools.ToolData.Set` | src/tool.rs:59-65 | the buffer afterwards is the old one with the named slot set |
| `Tools.Attempt` | src/tool.rs:101 | an engine call fails exactly when a failure is supplied, with that error, and otherwise yields its value |
| `Tools.RunResult` | src/tool.rs:95-142 | a source ignores its data and yields a scan of its file; a join yields the join of both frames on the configured keys; a sink yields no frame; the call fails exactly when the engine does |
| `Tools.Consumed` | src/tool.rs:115-139 | a join empties both slots, a sink its left one, a source touches nothing |
| `Tools.SourceIgnoresData` | src/tool.rs:99-111 | a source's result is the same whatever data it is handed |
| `Tools.RunAction` | src/tool.rs:95-142 | `Action::run` returns `RunResult` and leaves the buffer as `Consumed` says; a missing buffer or slot is excluded because `unwrap` panics |
| `Actions.Data.constructor` | src/actions.rs:21-25 | a new buffer is empty (`Default`) |
| `Actions.Data.Set` | src/actions.rs:26-34 | only the named slot changes |
| `Actions.JoinPredicates` | src/actions.rs:217-218 | there are min(left, right) equalities; the i-th compares left key i with the quoted right key i |
| `Actions.SurplusKeysDropped` | src/actions.rs:217-218 | keys beyond the shorter list are dropped without notice |
| `Actions.SelectExprs` | src/actions.rs:233-240 | one expression per configured column, in order, aliased exactly when the column is an alias key |
| `Actions.SelectFromPlan` | src/actions.rs:233-240 | for a configuration built from a plan `select`, each quoted column is aliased exactly when its raw name has an alias in the plan, and to that alias |
| `Actions.UnionOf` | src/actions.rs:263-267 | `union_distinct` exactly when configured, otherwise plain `union`, with the two frames in order |
| `Actions.Difference` | src/actions.rs:183-189 | both slots are taken and emptied; the result is `left.except(right)` |
| `Actions.Intersect` | src/actions.rs:198-204 | both slots are taken and emptied; the result is `left.intersect(right)` |
| `Actions.Join` | src/actions.rs:213-221 | both slots are taken and emptied; the frames are joined on the zipped key equalities |
| `Actions.Union` | src/actions.rs:259-270 | both slots are taken and emptied; plain or distinct union as configured |
| `Actions.Distinct` | src/actions.rs:191-196 | the left slot is taken, the right one untouched; the result is `distinct` |
| `Actions.Filter` | src/actions.rs:206-211 | the left slot is taken, the right one untouched; the result filters by the configured predicate |
| `Actions.Project` | src/actions.rs:223-228 | the left slot is taken, the right one untouched; the result selects the configured expressions |
| `Actions.Select` | src/actions.rs:230-243 | the left slot is taken, the right one untouched; the result selects the aliased columns |
| `Actions.Sort` | src/actions.rs:245-250 | the left slot is taken, the right one untouched; the result sorts by the configured keys |
| `Actions.Summarize` | src/actions.rs:252-257 | the left slot is taken, the right one untouched; the result aggregates by group |
| `Actions.WriteCsv` | src/actions.rs:83-111 | the left slot is taken; no frame comes out |
| `Actions.WriteJson` | src/actions.rs:113-140 | the left slot is taken; no frame comes out |
| `Actions.WriteParquet` | src/actions.rs:142-181 | the left slot is taken; no frame comes out |
| `Workflow.IndexMap` | src/workflow.rs:31-37 | the id map has exactly the declared ids as keys, each mapped to a node that carries that id |
| `Workflow.IndexMapLastWins` | src/workflow.rs:31-37 | a repeated id maps to the last tool with that id |
| `Workflow.LinkEdges` | src/workflow.rs:39-44 | one edge per link, in link order, between the mapped nodes, weighted by the link's side |
| `Workflow.BuildNodes` | src/workflow.rs:31-37 | one node per tool, each the lowering of the tool at the same position, and the id map `IndexMap` built alongside |
| `Workflow.BuildEdges` | src/workflow.rs:39-44 | the edges of `LinkEdges`, every one between nodes that exist |
| `Workflow.Workflow.constructor` | src/workflow.rs:26-51 | one node per tool in plan order, the edges of `LinkEdges`, and every edge between existing nodes; id and name are copied |
| `Workflow.Externals` | src/workflow.rs:58 | the initial queue is exactly the nodes no edge enters, in increasing index order |
| `Workflow.OutEdges` | src/workflow.rs:85-86 | exactly the edges that leave the node |
| `Workflow.NewestEdgeFirst` | src/workflow.rs:85-86 | the most recently added edge is visited first |
| `Workflow.Drain` | src/workflow.rs:62-78 | the drain loop's specification, stated by `DrainRuns` and `DrainConsumes` |
| `Workflow.DrainRuns` | src/workflow.rs:62-78 | every queue entry runs in queue order on the buffer removed for it (the pending one on a node's first dequeue, none on a later one); the drain aborts exactly when a synchronous run fails, naming the first such failure; otherwise it yields the synchronous results and the async tasks, each in queue order |
| `Workflow.DrainConsumes` | src/workflow.rs:62-78 | draining removes the buffer of every queued node and no other; every queued node yields one result or one task |
| `Workflow.JoinTasks` | src/workflow.rs:79-81 | the join loop's specification: when it completes there is one result per finished task; `JoinTasksInOrder` states which |
| `Workflow.JoinTasksInOrder` | src/workflow.rs:79-81 | the join completes exactly when every task succeeds, and then appends each task's node and frame in completion order; otherwise it names the node of the first failed task in completion order, whose `unwrap` panics |
| `Workflow.DeliverOne` | src/workflow.rs:88-91 | one edge writes the frame into its target's buffer at the edge's side, changes no other buffer, and queues the target exactly when that buffer is now ready |
| `Workflow.Deliver` | src/workflow.rs:85-93 | the per-edge loop's specification, stated by `DeliverSpec` and `DeliverWrites` |
| `Workflow.DeliverWrites` | src/workflow.rs:88-91 | after delivery, every edge's target holds the frame in the slot its weight names |
| `Workflow.DeliverSpec` | src/workflow.rs:85-93 | a frame sent along a node's edges changes only the buffers of the edge targets, keeps the queue as a prefix, keeps ready buffers ready, queues only targets that are ready, and queues every target that ends up ready |
| `Workflow.ExtendsTrans` | src/workflow.rs:83-95 | two deliveries in a row touch the union of the nodes each touched and keep all of the guarantees above |
| `Workflow.FanOut` | src/workflow.rs:83-95 | the fan-out loop's specification, stated by `FanOutSpec` and `WaveQueuesReady` |
| `Workflow.FanOutSpec` | src/workflow.rs:83-95 | the fan-out of a wave's results changes only the buffers of nodes reached by a produced frame (a frameless result reaches nothing), queues only ready reached nodes, and queues every reached node that ends up ready |
| `Workflow.WaveQueuesReady` | src/workflow.rs:83-95 | after a wave, a reached node is queued exactly when its buffer is ready, and only reached nodes are queued |
| `Workflow.Wave` | src/workflow.rs:59-96 | a wave stops the run only with a synchronous failure or a failed task (which ones: `WaveOutcome`); otherwise every node it queues for the next wave is ready for its buffer |
| `Workflow.WaveOutcome` | src/workflow.rs:72-80 | the first synchronous run in queue order that fails stops the wave with `Failed` of its node and error (`result?`); with none, the wave goes on exactly when every task succeeds, and otherwise panics with the node of the first failed task in completion order |
| `Workflow.RunFrom` | src/workflow.rs:59-96 | the outer loop's specification, stated by `Wave`, `RunFromOutcome`, `AcyclicRunFinishes` and `Workflow.Run` |
| `Workflow.RunFromOutcome` | src/workflow.rs:72-80 | with a wave left, a run returns the first synchronous failure's node and error, or panics with the first failed task's node |
| `Workflow.RunFromEnds` | src/workflow.rs:59 | an unfolding of `RunFrom` for the `Run` loop proof: the run is done as soon as the queue is empty |
| `Workflow.RunFromStep` | src/workflow.rs:59-96 | an unfolding of `RunFrom` for the `Run` loop proof: with nodes queued, the run's outcome is the wave's failure, or the outcome of running on from the wave's next schedule, whose queued nodes all exist |
| `Workflow.WaveSuccessors` | src/workflow.rs:83-93 | every node a wave queues is entered by an edge from a node that ran in that wave |
| `Workflow.AcyclicRunFinishes` | src/workflow.rs:59-96 | on a graph with a topological numbering, when every queued node is numbered at least the wave count and the budget reaches the node count, the run never ends `OutOfBudget` |
| `Workflow.AcyclicPlanFinishes` | src/workflow.rs:53-99 | a run of an acyclic plan from its external nodes, given as many waves as nodes, ends `Done` or with a failure |
| `Workflow.DuplicateEnqueue` | src/workflow.rs:90-91 | a sink fed on the left by two sources is queued twice in one wave, holding the frame that arrived last |
| `Workflow.DuplicateDequeue` | src/workflow.rs:62-66 | the twice-queued sink runs twice: the first run takes the buffer, the second is handed none |
| `Workflow.DeliverOnceQueuesOnce` | src/workflow.rs:90-91 | the corrected delivery keeps every ready node queued exactly once and nothing else queued |
| `Workflow.TwoIntoOneQueuedOnce` | src/workflow.rs:90-91 | on the graph of `DuplicateEnqueue`, the corrected delivery queues the sink once |
| `Workflow.Workflow.Run` | src/workflow.rs:53-99 | the run's outcome is `RunFrom` from the initial queue of external nodes with no buffers pending |
| `Workflow.Workflow.RunWave` | src/workflow.rs:59-96 | one pass of the outer loop (drain, join, fan out) computes `Wave` |
| `Workflow.Workflow.DrainQueue` | src/workflow.rs:62-78 | the drain loop computes `Drain` |
| `Workflow.Workflow.JoinAll` | src/workflow.rs:79-81 | the `join_next` loop computes `JoinTasks` in completion order |
| `Workflow.Workflow.FanOutAll` | src/workflow.rs:83-95 | the fan-out loop computes `FanOut` |
| `Workflow.Workflow.DeliverAll` | src/workflow.rs:85-93 | the per-edge loop computes `Deliver` |

## Left out

- I/O is not modelled: the bodies of `read_csv`, `read_avro`, `read_parquet`, `write_csv`, `write_json` and `write_parquet` (files, extension sniffing, `remove_file`, record counts, `limit`). A read yields the symbolic frame `Scan`. A write only takes its slot. The engine's own failure is a `failure` parameter.
- DataFusion semantics (what a join, union, sort or aggregate computes) are not modelled: frames and expressions are symbolic trees.
- Float literals are kept as opaque bit patterns (`bv32`, `bv64`). The source does no arithmetic on them.
- JSON decoding (serde) is not modelled: plans arrive decoded. Only the `#[serde(default)]` of a link's side is modelled, in `DecodeLink`.
- src/main.rs (command line, file reading, timing, printing) and the debug `println!` in `run` are not part of this model.
- src/config/input.rs and src/config/output.rs are not modelled beyond the path that `Action::run` reads. The CSV header and delimiter there are never used. `CsvOutputConfig::new` takes an `overwrite` argument that src/tool.rs does not pass.
- Actions.WriteParquet: does not model the Parquet compression. src/actions.rs reads `config.compress`, but the `ParquetExportConfig` of src/config/export.rs has no such field.
- Async concurrency is not modelled. `is_async`, the tool's computation and the order in which a wave's tasks finish are the `Runtime` parameter. Tasks run on the buffer they were handed, as in the code. Their results are appended after the synchronous ones, in completion order.
- When `run` returns early on a synchronous failure, the model records only the outcome. Dropping the `JoinSet` aborts the tasks in flight, so their effects are not modelled.
- Workflow.Workflow.Run: the loop carries a wave budget and can end with `OutOfBudget`. On a plan with a cycle, the source can loop forever; the model's `RunFrom` is the source's loop cut off after `budget` waves. On an acyclic plan a budget of one wave per node is enough (`AcyclicPlanFinishes`).
- Workflow.AcyclicPlanFinishes: acyclicity is given as a topological numbering of the nodes. That every graph without a cycle has one is the standard result and is not proved here.
- ConfigTools.FromFilter, ConfigTools.FromMap, ConfigTools.FromSort, ConfigTools.FromSummarize: src/config/tools.rs applies `expr::convert` to `plans::Expression`. As written that would emit `try_cast` for a cast and has no case for `sort`. The model lowers with `Plans.Convert`, whose types match. `Expr.CastsAreTheOnlyDifference` proves that `try_cast` against `cast` is the only difference.
- Plans.Tool.Id: states only the delegation of import and export. For the ten one-record variants, the id is the record's own `id` field, which the body returns and no ensures repeats.
- Plan.Tool.Id: the same as `Plans.Tool.Id`, for its five one-record variants.
- Machine integers: `usize` limits are `nat`, and `u8` delimiters are a `uint8` newtype. The i32/i64 literal payloads are the `int32`/`int64` newtypes. Nothing in the core does arithmetic on them.

## Findings

| source | as written | input that shows it | evidently intended | confidence | as-written member | corrected member |
|---|---|---|---|---|---|---|
| src/workflow.rs:90-91 | a target is queued every time a frame arrives and its buffer is ready, even if it is already queued; the second dequeue is handed no buffer, and `data.unwrap()` at src/tool.rs:115 panics | two sources linked to the left input of one sink (`TwoIntoOne`) | the design forbids routing two edges into the same slot of one node, so such a plan is malformed and should be rejected; the code never rejects it, overwrites the first frame and later panics. The corrected member does not reject the plan: it queues a node once, when its buffer turns ready, so the run no longer panics | high, not executed | `Workflow.DuplicateEnqueue`, `Workflow.DuplicateDequeue` | `Workflow.DeliverOnceQueuesOnce`, `Workflow.TwoIntoOneQueuedOnce` |

`Wave` keeps the delivery as written, `Deliver`, because it models the
scheduler the code has. `DeliverOnce` is the corrected delivery, with its
property proved on its own.
