/**
 * src/workflow.rs: the plan as a graph of tools and the wave loop that runs it.
 *
 * The graph has one node per plan tool and one edge per link, weighted by the
 * input slot the link feeds. `Run` keeps a queue of ready nodes and a map of
 * pending input buffers. A wave drains the whole queue, running each node on
 * the buffer it removes from the map, then fans every produced frame out along
 * the node's outgoing edges; a target whose buffer becomes ready is queued for
 * the next wave.
 *
 * What a tool computes, whether it runs as an async task and the order in which
 * async tasks finish are not visible here: they are the `Runtime` parameter.
 */
module Workflow {
  import opened Base
  import E = Engine
  import P = Plans
  import T = Tools
  import Plan

  /** A graph edge: a link, from node index to node index, weighted by the input side. */
  datatype Edge = Edge(source: nat, target: nat, weight: P.InputSide)

  /** The arena graph: nodes are addressed by their index, edges are kept in insertion order. */
  datatype Graph = Graph(nodes: seq<T.Tool>, edges: seq<Edge>) {
    predicate Valid() {
      forall i :: 0 <= i < |edges| ==> edges[i].source < |nodes| && edges[i].target < |nodes|
    }
  }

  // ---------------------------------------------------------------- construction

  /** The ids of the plan's tools. */
  function Ids(tools: seq<P.Tool>): set<string> {
    set t | t in tools :: t.Id()
  }

  /** Every link names declared tools at both ends (otherwise `nodes.get(..).unwrap()` panics). */
  predicate LinksResolve(plan: P.Plan) {
    forall i :: 0 <= i < |plan.links| ==> plan.links[i].src in Ids(plan.tools) && plan.links[i].dst in Ids(plan.tools)
  }

  /** The id-to-node map, collected in tool order into a `HashMap`: a later tool overwrites an earlier one. */
  function IndexMap(tools: seq<P.Tool>): (m: map<string, nat>)
    ensures m.Keys == Ids(tools)
    ensures forall k :: k in m ==> m[k] < |tools| && tools[m[k]].Id() == k
  {
    if tools == [] then map[]
    else
      var n := |tools| - 1;
      assert Ids(tools) == Ids(tools[..n]) + {tools[n].Id()} by {
        assert tools == tools[..n] + [tools[n]];
      }
      IndexMap(tools[..n])[tools[n].Id() := n]
  }

  /**
   * A declared id maps to the LAST tool with that id: links to a repeated id
   * attach to the later tool.
   */
  lemma {:induction false} IndexMapLastWins(tools: seq<P.Tool>, k: string)
    requires k in Ids(tools)
    ensures forall j :: IndexMap(tools)[k] < j < |tools| ==> tools[j].Id() != k
  {
    var n := |tools| - 1;
    if tools[n].Id() != k {
      assert k in Ids(tools[..n]) by {
        var t :| t in tools && t.Id() == k;
        var i :| 0 <= i < |tools| && tools[i] == t;
        assert tools[..n][i] == t;
      }
      IndexMapLastWins(tools[..n], k);
    }
  }

  /** One edge per link, in link order, between the nodes the map gives for its ends. */
  function LinkEdges(links: seq<P.Link>, index: map<string, nat>): (r: seq<Edge>)
    requires forall i :: 0 <= i < |links| ==> links[i].src in index && links[i].dst in index
    ensures |r| == |links|
    ensures forall i :: 0 <= i < |links| ==> r[i] == Edge(index[links[i].src], index[links[i].dst], links[i].input)
  {
    seq(|links|, i requires 0 <= i < |links| => Edge(index[links[i].src], index[links[i].dst], links[i].input))
  }

  // ---------------------------------------------------------------- graph queries

  predicate HasIncoming(edges: seq<Edge>, n: nat) {
    exists i :: 0 <= i < |edges| && edges[i].target == n
  }

  /** `externals(Incoming)` over the first `n` nodes: those no edge enters, in index order. */
  function Externals(n: nat, edges: seq<Edge>): (r: seq<nat>)
    ensures forall i, j :: 0 <= i < j < |r| ==> r[i] < r[j]
    ensures forall i :: 0 <= i < |r| ==> r[i] < n
    ensures forall x: nat :: x in r <==> x < n && !HasIncoming(edges, x)
  {
    if n == 0 then []
    else Externals(n - 1, edges) + if HasIncoming(edges, n - 1) then [] else [n - 1]
  }

  /** `edges(ix)`: the edges leaving `ix`, the most recently added first. */
  function OutEdges(edges: seq<Edge>, ix: nat): (r: seq<Edge>)
    ensures forall e :: e in r <==> e in edges && e.source == ix
  {
    if edges == [] then []
    else
      var last := edges[|edges| - 1];
      (if last.source == ix then [last] else []) + OutEdges(edges[..|edges| - 1], ix)
  }

  /** An edge added after the others is visited before all of them. */
  lemma NewestEdgeFirst(edges: seq<Edge>, e: Edge)
    ensures OutEdges(edges + [e], e.source) == [e] + OutEdges(edges, e.source)
  {
    assert (edges + [e])[..|edges|] == edges;
  }

  // ---------------------------------------------------------------- run: the specification

  /**
   * What `Run` cannot see: `is_async`, what a tool computes from the buffer it
   * is handed (`run_sync`/`run_async`), and the order in which the async tasks
   * of a wave finish (`completion(wave, count)` lists their spawn positions).
   */
  datatype Runtime = Runtime(
    isAsync: T.Tool -> bool,
    execute: (T.Tool, Option<T.Slots>) -> Result<Option<E.DataFrame>>,
    completion: (nat, nat) -> seq<nat>)
  {
    ghost predicate Valid() {
      forall wave: nat, count: nat :: IsOrder(completion(wave, count), count)
    }
  }

  /** An order in which `count` tasks can finish: each position exactly once. */
  predicate IsOrder(order: seq<nat>, count: nat) {
    |order| == count &&
    (forall i :: 0 <= i < |order| ==> order[i] < count) &&
    (forall i, j :: 0 <= i < j < |order| ==> order[i] != order[j])
  }

  /** A finished node and the frame it produced, if any. */
  datatype Delivery = Delivery(node: nat, frame: Option<E.DataFrame>)

  /** A spawned async task and the result it will yield. */
  datatype Task = Task(node: nat, result: Result<Option<E.DataFrame>>)

  /** The queue and the pending input buffers between waves. */
  datatype Schedule = Schedule(pending: map<nat, T.Slots>, ready: seq<nat>)

  /** The result of draining the queue, or the first synchronous failure, which returns from `run`. */
  datatype Drained =
    | Drained(pending: map<nat, T.Slots>, results: seq<Delivery>, tasks: seq<Task>)
    | Aborted(node: nat, error: string)

  /** The async results in completion order, or the first failed task, whose `unwrap` panics. */
  datatype Joined = Completed(results: seq<Delivery>) | TaskFailed(node: nat)

  datatype Outcome =
    | Done                                // the queue ran empty: `Ok(())`
    | Failed(node: nat, error: string)    // a synchronous tool failed: `Err(..)`
    | Panicked(node: nat)                 // an async tool failed
    | OutOfBudget                         // the wave budget ran out first

  /** `dfs.remove(&ix)`: the buffer handed to a dequeued node. */
  function Pending(pending: map<nat, T.Slots>, ix: nat): Option<T.Slots> {
    if ix in pending then Some(pending[ix]) else None
  }

  /** The indices a queue refers to. */
  function QueueNodes(queue: seq<nat>): set<nat> {
    set i | 0 <= i < |queue| :: queue[i]
  }

  /**
   * The inner `while let Some(ix) = ready.pop_front()`: each node in queue order
   * removes its pending buffer and runs on it, synchronously (result recorded,
   * or `run` returns its error) or as a spawned task.
   */
  function Drain(g: Graph, rt: Runtime, queue: seq<nat>, pending: map<nat, T.Slots>,
                 results: seq<Delivery>, tasks: seq<Task>): (d: Drained)
    requires forall i :: 0 <= i < |queue| ==> queue[i] < |g.nodes|
    decreases |queue|
  {
    if queue == [] then Drained(pending, results, tasks)
    else
      var ix := queue[0];
      var data := Pending(pending, ix);
      var tool := g.nodes[ix];
      if rt.isAsync(tool) then
        Drain(g, rt, queue[1..], pending - {ix}, results, tasks + [Task(ix, rt.execute(tool, data))])
      else
        var result := rt.execute(tool, data);
        if result.Err? then Aborted(ix, result.error)
        else Drain(g, rt, queue[1..], pending - {ix}, results + [Delivery(ix, result.value)], tasks)
  }

  /**
   * Draining consumes the buffer of every queued node exactly once and runs every
   * queued node: the buffers left are those of the nodes not queued, and there is
   * one result or task per queue entry.
   */
  lemma {:induction false} DrainConsumes(g: Graph, rt: Runtime, queue: seq<nat>, pending: map<nat, T.Slots>,
                                         results: seq<Delivery>, tasks: seq<Task>)
    requires forall i :: 0 <= i < |queue| ==> queue[i] < |g.nodes|
    ensures var d := Drain(g, rt, queue, pending, results, tasks);
      d.Drained? ==>
        d.pending == pending - QueueNodes(queue) &&
        |d.results| + |d.tasks| == |results| + |tasks| + |queue|
    decreases |queue|
  {
    if queue != [] {
      DrainConsumes(g, rt, queue[1..], pending - {queue[0]}, results + [Delivery(queue[0], None)], tasks);
      DrainConsumes(g, rt, queue[1..], pending - {queue[0]}, results, tasks + [Task(queue[0], Ok(None))]);
      var ix := queue[0];
      var data := Pending(pending, ix);
      var tool := g.nodes[ix];
      var result := rt.execute(tool, data);
      if rt.isAsync(tool) {
        DrainConsumes(g, rt, queue[1..], pending - {ix}, results, tasks + [Task(ix, result)]);
      } else if result.Ok? {
        DrainConsumes(g, rt, queue[1..], pending - {ix}, results + [Delivery(ix, result.value)], tasks);
      }
      assert QueueNodes(queue) == {ix} + QueueNodes(queue[1..]);
    }
  }

  /**
   * The buffer `dfs.remove` hands to queue entry `i`: the pending one the first
   * time its node is dequeued in the wave, none on a later dequeue.
   */
  function Handed(queue: seq<nat>, pending: map<nat, T.Slots>, i: nat): Option<T.Slots>
    requires i < |queue|
  {
    if queue[i] in queue[..i] then None else Pending(pending, queue[i])
  }

  /** Each queue entry, in queue order, with what its node yields when run on the buffer handed to it. */
  function Runs(g: Graph, rt: Runtime, queue: seq<nat>, pending: map<nat, T.Slots>): (r: seq<Task>)
    requires forall i :: 0 <= i < |queue| ==> queue[i] < |g.nodes|
    ensures |r| == |queue|
  {
    seq(|queue|, i requires 0 <= i < |queue| => Task(queue[i], rt.execute(g.nodes[queue[i]], Handed(queue, pending, i))))
  }

  /** The synchronous runs that succeeded, as deliveries, in order. */
  function SyncDeliveries(g: Graph, rt: Runtime, runs: seq<Task>): seq<Delivery>
    requires forall i :: 0 <= i < |runs| ==> runs[i].node < |g.nodes|
  {
    if runs == [] then []
    else
      var t := runs[0];
      (if !rt.isAsync(g.nodes[t.node]) && t.result.Ok? then [Delivery(t.node, t.result.value)] else [])
      + SyncDeliveries(g, rt, runs[1..])
  }

  /** The runs of async nodes, in order. */
  function AsyncTasks(g: Graph, rt: Runtime, runs: seq<Task>): seq<Task>
    requires forall i :: 0 <= i < |runs| ==> runs[i].node < |g.nodes|
  {
    if runs == [] then []
    else (if rt.isAsync(g.nodes[runs[0].node]) then [runs[0]] else []) + AsyncTasks(g, rt, runs[1..])
  }

  /** The first synchronous run that failed, if any. */
  function FirstSyncFailure(g: Graph, rt: Runtime, runs: seq<Task>): (f: Option<Task>)
    requires forall i :: 0 <= i < |runs| ==> runs[i].node < |g.nodes|
    ensures f.Some? ==> f.value in runs && f.value.result.Err? && !rt.isAsync(g.nodes[f.value.node])
    ensures f.None? <==> forall i :: 0 <= i < |runs| && !rt.isAsync(g.nodes[runs[i].node]) ==> runs[i].result.Ok?
  {
    if runs == [] then None
    else if !rt.isAsync(g.nodes[runs[0].node]) && runs[0].result.Err? then Some(runs[0])
    else FirstSyncFailure(g, rt, runs[1..])
  }

  /** Dequeuing the first entry shifts every later entry's handed buffer by one place. */
  lemma RunsTail(g: Graph, rt: Runtime, queue: seq<nat>, pending: map<nat, T.Slots>)
    requires forall i :: 0 <= i < |queue| ==> queue[i] < |g.nodes|
    requires queue != []
    ensures Runs(g, rt, queue, pending)[0] == Task(queue[0], rt.execute(g.nodes[queue[0]], Pending(pending, queue[0])))
    ensures Runs(g, rt, queue[1..], pending - {queue[0]}) == Runs(g, rt, queue, pending)[1..]
  {
    var q0 := queue[0];
    assert queue[..0] == [];
    assert Handed(queue, pending, 0) == Pending(pending, q0);
    forall i | 0 <= i < |queue| - 1
      ensures Handed(queue[1..], pending - {q0}, i) == Handed(queue, pending, i + 1)
    {
      assert queue[..i + 1] == [q0] + queue[1..][..i];
    }
  }

  /**
   * Draining runs every queue entry in queue order on the buffer removed for it:
   * it aborts exactly when a synchronous run fails, with the first such failure;
   * otherwise it appends the synchronous results and the async tasks, each in
   * queue order.
   */
  lemma {:induction false} DrainRuns(g: Graph, rt: Runtime, queue: seq<nat>, pending: map<nat, T.Slots>,
                                     results: seq<Delivery>, tasks: seq<Task>)
    requires forall i :: 0 <= i < |queue| ==> queue[i] < |g.nodes|
    ensures var d := Drain(g, rt, queue, pending, results, tasks);
      var runs := Runs(g, rt, queue, pending);
      var f := FirstSyncFailure(g, rt, runs);
      (d.Aborted? <==> f.Some?) &&
      (d.Aborted? ==> d.node == f.value.node && d.error == f.value.result.error) &&
      (d.Drained? ==> d.results == results + SyncDeliveries(g, rt, runs) && d.tasks == tasks + AsyncTasks(g, rt, runs))
    decreases |queue|
  {
    if queue != [] {
      var ix := queue[0];
      var data := Pending(pending, ix);
      var tool := g.nodes[ix];
      var result := rt.execute(tool, data);
      RunsTail(g, rt, queue, pending);
      var runs := Runs(g, rt, queue, pending);
      assert runs == [runs[0]] + runs[1..];
      if rt.isAsync(tool) {
        DrainRuns(g, rt, queue[1..], pending - {ix}, results, tasks + [Task(ix, result)]);
      } else if result.Ok? {
        DrainRuns(g, rt, queue[1..], pending - {ix}, results + [Delivery(ix, result.value)], tasks);
      }
    }
  }

  /** `join_next` until empty: the tasks' results in completion order. */
  function JoinTasks(tasks: seq<Task>, order: seq<nat>, results: seq<Delivery>): (j: Joined)
    requires forall i :: 0 <= i < |order| ==> order[i] < |tasks|
    ensures j.Completed? ==> |j.results| == |results| + |order|
  {
    if order == [] then Completed(results)
    else
      var t := tasks[order[0]];
      if t.result.Err? then TaskFailed(t.node)
      else JoinTasks(tasks, order[1..], results + [Delivery(t.node, t.result.value)])
  }

  /**
   * The join loop completes exactly when every task succeeds, and then appends
   * one delivery per task in completion order, each carrying that task's node
   * and frame. Otherwise it names the node of the first task, in completion
   * order, that failed (the `unwrap` that panics).
   */
  lemma {:induction false} JoinTasksInOrder(tasks: seq<Task>, order: seq<nat>, results: seq<Delivery>)
    requires forall i :: 0 <= i < |order| ==> order[i] < |tasks|
    ensures var j := JoinTasks(tasks, order, results);
      (j.Completed? <==> forall k :: 0 <= k < |order| ==> tasks[order[k]].result.Ok?) &&
      (j.Completed? ==>
        j.results[..|results|] == results &&
        forall k :: 0 <= k < |order| ==>
          j.results[|results| + k] == Delivery(tasks[order[k]].node, tasks[order[k]].result.value)) &&
      (j.TaskFailed? ==>
        exists k :: 0 <= k < |order| && tasks[order[k]].result.Err? && j.node == tasks[order[k]].node &&
          forall m :: 0 <= m < k ==> tasks[order[m]].result.Ok?)
    decreases |order|
  {
    if order != [] {
      var t := tasks[order[0]];
      if t.result.Ok? {
        var results' := results + [Delivery(t.node, t.result.value)];
        JoinTasksInOrder(tasks, order[1..], results');
        var j := JoinTasks(tasks, order[1..], results');
        if j.Completed? {
          assert j.results[..|results|] == j.results[..|results'|][..|results|];
          forall k | 0 <= k < |order|
            ensures j.results[|results| + k] == Delivery(tasks[order[k]].node, tasks[order[k]].result.value)
          {
            if k == 0 {
              assert j.results[..|results'|][|results|] == j.results[|results|];
            } else {
              assert order[1..][k - 1] == order[k];
            }
          }
        } else {
          var k :| 0 <= k < |order[1..]| && tasks[order[1..][k]].result.Err? && j.node == tasks[order[1..][k]].node &&
            forall m :: 0 <= m < k ==> tasks[order[1..][m]].result.Ok?;
          assert order[k + 1] == order[1..][k];
          forall m | 0 <= m < k + 1 ensures tasks[order[m]].result.Ok? {
            if m > 0 { assert order[m] == order[1..][m - 1]; }
          }
        }
        forall k | 0 <= k < |order[1..]| ensures order[1..][k] == order[k + 1] { }
      } else {
        assert tasks[order[0]].result.Err?;
      }
    } else {
      assert results[..|results|] == results;
    }
  }

  /** `dfs.entry(node).or_default()`. */
  function Buffer(pending: map<nat, T.Slots>, n: nat): T.Slots {
    if n in pending then pending[n] else T.Empty
  }

  /** The nodes a list of edges enters. */
  function Targets(out: seq<Edge>): set<nat> {
    set i | 0 <= i < |out| :: out[i].target
  }

  /** Every buffer that is ready for its node. */
  predicate ReadyFor(g: Graph, n: nat, pending: map<nat, T.Slots>) {
    n < |g.nodes| && n in pending && T.IsReady(g.nodes[n], pending[n])
  }

  /**
   * `r` is `s` after frames were written into the buffers of the nodes in `here`:
   * the queue only grew; buffers outside `here` are untouched; ready buffers stay
   * ready; every node newly queued is in `here` and ready; and every node of
   * `here` that ends up ready was newly queued.
   */
  ghost predicate Extends(g: Graph, here: set<nat>, s: Schedule, r: Schedule) {
    |s.ready| <= |r.ready| && r.ready[..|s.ready|] == s.ready &&
    (forall n :: n !in here ==> Pending(r.pending, n) == Pending(s.pending, n)) &&
    (forall n :: ReadyFor(g, n, s.pending) ==> ReadyFor(g, n, r.pending)) &&
    (forall i :: |s.ready| <= i < |r.ready| ==> r.ready[i] in here && ReadyFor(g, r.ready[i], r.pending)) &&
    (forall n :: n in here && ReadyFor(g, n, r.pending) ==> n in r.ready[|s.ready|..])
  }

  /**
   * One frame along a list of edges: each edge writes it into its target's buffer
   * at its slot, and the target is queued if that buffer is now ready.
   */
  function Deliver(g: Graph, out: seq<Edge>, df: E.DataFrame, s: Schedule): Schedule
    requires forall i :: 0 <= i < |out| ==> out[i].target < |g.nodes|
    decreases |out|
  {
    if out == [] then s
    else
      var e := out[0];
      var data := T.SetSlot(Buffer(s.pending, e.target), T.PlanSide(e.weight), df);
      var ready := if T.IsReady(g.nodes[e.target], data) then s.ready + [e.target] else s.ready;
      Deliver(g, out[1..], df, Schedule(s.pending[e.target := data], ready))
  }

  /**
   * `Deliver` touches only the buffers of the edges' targets, keeps ready buffers
   * ready, and queues exactly the targets that end up ready.
   */
  lemma {:induction false} DeliverSpec(g: Graph, out: seq<Edge>, df: E.DataFrame, s: Schedule)
    requires forall i :: 0 <= i < |out| ==> out[i].target < |g.nodes|
    ensures Extends(g, Targets(out), s, Deliver(g, out, df, s))
    decreases |out|
  {
    if out == [] {
      assert s.ready[..|s.ready|] == s.ready;
    } else {
      var e := out[0];
      var data := T.SetSlot(Buffer(s.pending, e.target), T.PlanSide(e.weight), df);
      var ready := if T.IsReady(g.nodes[e.target], data) then s.ready + [e.target] else s.ready;
      var s1 := Schedule(s.pending[e.target := data], ready);
      DeliverOne(g, e, df, s);
      DeliverSpec(g, out[1..], df, s1);
      ExtendsTrans(g, {e.target}, Targets(out[1..]), s, s1, Deliver(g, out[1..], df, s1));
      TargetsCons(out);
    }
  }

  /**
   * After a frame went along a list of edges, each edge's target holds it in the
   * slot the edge's weight names, whatever other edges wrote.
   */
  lemma {:induction false} DeliverWrites(g: Graph, out: seq<Edge>, df: E.DataFrame, s: Schedule)
    requires forall i :: 0 <= i < |out| ==> out[i].target < |g.nodes|
    ensures forall i :: 0 <= i < |out| ==>
      T.Slot(Buffer(Deliver(g, out, df, s).pending, out[i].target), T.PlanSide(out[i].weight)) == Some(df)
    decreases |out|
  {
    if out != [] {
      var e := out[0];
      var data := T.SetSlot(Buffer(s.pending, e.target), T.PlanSide(e.weight), df);
      var ready := if T.IsReady(g.nodes[e.target], data) then s.ready + [e.target] else s.ready;
      var s1 := Schedule(s.pending[e.target := data], ready);
      assert Deliver(g, out, df, s) == Deliver(g, out[1..], df, s1);
      DeliverWrites(g, out[1..], df, s1);
      assert T.Slot(Buffer(s1.pending, e.target), T.PlanSide(e.weight)) == Some(df);
      DeliverKeeps(g, out[1..], df, s1, e.target, T.PlanSide(e.weight));
      forall i | 1 <= i < |out|
        ensures T.Slot(Buffer(Deliver(g, out, df, s).pending, out[i].target), T.PlanSide(out[i].weight)) == Some(df)
      {
        assert out[1..][i - 1] == out[i];
      }
    }
  }

  /** A slot that already holds the frame being delivered still holds it afterwards. */
  lemma {:induction false} DeliverKeeps(g: Graph, out: seq<Edge>, df: E.DataFrame, s: Schedule, n: nat, side: Plan.InputSide)
    requires forall i :: 0 <= i < |out| ==> out[i].target < |g.nodes|
    requires T.Slot(Buffer(s.pending, n), side) == Some(df)
    ensures T.Slot(Buffer(Deliver(g, out, df, s).pending, n), side) == Some(df)
    decreases |out|
  {
    if out != [] {
      var e := out[0];
      var data := T.SetSlot(Buffer(s.pending, e.target), T.PlanSide(e.weight), df);
      var ready := if T.IsReady(g.nodes[e.target], data) then s.ready + [e.target] else s.ready;
      var s1 := Schedule(s.pending[e.target := data], ready);
      assert T.Slot(Buffer(s1.pending, n), side) == Some(df);
      DeliverKeeps(g, out[1..], df, s1, n, side);
    }
  }

  lemma TargetsCons(out: seq<Edge>)
    requires out != []
    ensures Targets(out) == {out[0].target} + Targets(out[1..])
  {
    forall n | n in Targets(out) ensures n in {out[0].target} + Targets(out[1..]) {
      var i :| 0 <= i < |out| && out[i].target == n;
      if i > 0 { assert out[1..][i - 1] == out[i]; }
    }
    forall n | n in Targets(out[1..]) ensures n in Targets(out) {
      var i :| 0 <= i < |out[1..]| && out[1..][i].target == n;
      assert out[i + 1] == out[1..][i];
    }
  }

  /** The first edge of `Deliver`: it writes one buffer and queues its node if that buffer is ready. */
  lemma DeliverOne(g: Graph, e: Edge, df: E.DataFrame, s: Schedule)
    requires e.target < |g.nodes|
    ensures var data := T.SetSlot(Buffer(s.pending, e.target), T.PlanSide(e.weight), df);
      Extends(g, {e.target}, s,
              Schedule(s.pending[e.target := data],
                       if T.IsReady(g.nodes[e.target], data) then s.ready + [e.target] else s.ready))
  {
    var t := e.target;
    var data := T.SetSlot(Buffer(s.pending, t), T.PlanSide(e.weight), df);
    var s1 := Schedule(s.pending[t := data], if T.IsReady(g.nodes[t], data) then s.ready + [t] else s.ready);
    assert s1.ready[..|s.ready|] == s.ready;
    forall n: nat | ReadyFor(g, n, s.pending) ensures ReadyFor(g, n, s1.pending) {
      if n == t {
        T.ReadyMonotone(g.nodes[n], s.pending[n], T.PlanSide(e.weight), df);
      }
    }
    if T.IsReady(g.nodes[t], data) {
      assert s1.ready[|s.ready|..] == [t];
    }
  }

  /** Two deliveries in a row extend the schedule by the union of what each touched. */
  lemma ExtendsTrans(g: Graph, here: set<nat>, there: set<nat>, s: Schedule, s1: Schedule, r: Schedule)
    requires Extends(g, here, s, s1) && Extends(g, there, s1, r)
    ensures Extends(g, here + there, s, r)
  {
    assert r.ready[..|s.ready|] == s.ready by {
      assert r.ready[..|s.ready|] == r.ready[..|s1.ready|][..|s.ready|];
    }
    forall i | |s.ready| <= i < |r.ready|
      ensures r.ready[i] in here + there && ReadyFor(g, r.ready[i], r.pending)
    {
      if i < |s1.ready| {
        assert r.ready[i] == s1.ready[i] by { assert r.ready[..|s1.ready|][i] == r.ready[i]; }
      }
    }
    forall n | n in here + there && ReadyFor(g, n, r.pending) ensures n in r.ready[|s.ready|..] {
      if n in there {
        var k :| |s1.ready| <= k < |r.ready| && r.ready[k] == n by {
          assert n in r.ready[|s1.ready|..];
        }
        assert r.ready[|s.ready|..][k - |s.ready|] == n;
      } else {
        assert Pending(r.pending, n) == Pending(s1.pending, n);
        assert ReadyFor(g, n, s1.pending);
        var k :| |s.ready| <= k < |s1.ready| && s1.ready[k] == n by {
          assert n in s1.ready[|s.ready|..];
        }
        assert r.ready[k] == n by { assert r.ready[..|s1.ready|][k] == r.ready[k]; }
        assert r.ready[|s.ready|..][k - |s.ready|] == n;
      }
    }
  }

  /**
   * The targets that frames of a list of results reach: the ends of the outgoing
   * edges of every node that produced a frame.
   */
  function Reached(g: Graph, results: seq<Delivery>): set<nat> {
    if results == [] then {}
    else (if results[0].frame.Some? then Targets(OutEdges(g.edges, results[0].node)) else {}) + Reached(g, results[1..])
  }

  /** Every edge of a valid graph enters a node, so do the outgoing edges of any node. */
  lemma OutEdgesValid(g: Graph, ix: nat)
    requires g.Valid()
    ensures forall i :: 0 <= i < |OutEdges(g.edges, ix)| ==> OutEdges(g.edges, ix)[i].target < |g.nodes|
  {
    var out := OutEdges(g.edges, ix);
    forall i | 0 <= i < |out| ensures out[i].target < |g.nodes| {
      assert out[i] in out;
      var j :| 0 <= j < |g.edges| && g.edges[j] == out[i];
    }
  }

  /**
   * The fan-out loop: the results in order, each frame delivered along its node's
   * outgoing edges, newest edge first. A result without a frame changes nothing.
   */
  function FanOut(g: Graph, results: seq<Delivery>, s: Schedule): Schedule
    requires g.Valid()
    decreases |results|
  {
    if results == [] then s
    else
      var d := results[0];
      var s1 := if d.frame.Some? then (OutEdgesValid(g, d.node); Deliver(g, OutEdges(g.edges, d.node), d.frame.value, s)) else s;
      FanOut(g, results[1..], s1)
  }

  /**
   * `FanOut` touches only the buffers of the nodes its frames reach, keeps ready
   * buffers ready, and queues exactly the reached nodes that end up ready.
   */
  lemma {:induction false} FanOutSpec(g: Graph, results: seq<Delivery>, s: Schedule)
    requires g.Valid()
    ensures Extends(g, Reached(g, results), s, FanOut(g, results, s))
    decreases |results|
  {
    if results == [] {
      assert s.ready[..|s.ready|] == s.ready;
    } else {
      var d := results[0];
      var s1 := s;
      if d.frame.Some? {
        OutEdgesValid(g, d.node);
        s1 := Deliver(g, OutEdges(g.edges, d.node), d.frame.value, s);
        DeliverSpec(g, OutEdges(g.edges, d.node), d.frame.value, s);
      } else {
        assert s.ready[..|s.ready|] == s.ready;
      }
      FanOutSpec(g, results[1..], s1);
      ExtendsTrans(g, if d.frame.Some? then Targets(OutEdges(g.edges, d.node)) else {}, Reached(g, results[1..]),
                   s, s1, FanOut(g, results[1..], s1));
    }
  }

  /** How one wave ends: the run stops with an outcome, or the next wave starts from a schedule. */
  datatype Step = Stop(outcome: Outcome) | Continue(next: Schedule)

  /**
   * One pass of the outer loop: drain the whole queue, join the async tasks, then
   * fan out the synchronous results followed by the async ones in completion
   * order. The wave stops the run only by a failure; otherwise every node it
   * queues for the next wave is ready for its buffer.
   */
  function Wave(g: Graph, rt: Runtime, wave: nat, s: Schedule): (w: Step)
    requires g.Valid() && rt.Valid()
    requires forall i :: 0 <= i < |s.ready| ==> s.ready[i] < |g.nodes|
    ensures w.Stop? ==> w.outcome.Failed? || w.outcome.Panicked?
    ensures w.Continue? ==> forall i :: 0 <= i < |w.next.ready| ==> ReadyFor(g, w.next.ready[i], w.next.pending)
  {
    match Drain(g, rt, s.ready, s.pending, [], [])
    case Aborted(ix, error) => Stop(Failed(ix, error))
    case Drained(pending, results, tasks) =>
      var order := rt.completion(wave, |tasks|);
      assert IsOrder(order, |tasks|);
      match JoinTasks(tasks, order, [])
      case TaskFailed(ix) => Stop(Panicked(ix))
      case Completed(finished) =>
        var next := FanOut(g, results + finished, Schedule(pending, []));
        FanOutSpec(g, results + finished, Schedule(pending, []));
        assert forall i :: 0 <= i < |next.ready| ==> ReadyFor(g, next.ready[i], next.pending);
        Continue(next)
  }

  /**
   * The outer `while !ready.is_empty()`, for at most `budget` more waves. Nodes
   * readied by one wave run in the next.
   */
  function RunFrom(g: Graph, rt: Runtime, budget: nat, wave: nat, s: Schedule): Outcome
    requires g.Valid() && rt.Valid()
    requires forall i :: 0 <= i < |s.ready| ==> s.ready[i] < |g.nodes|
    decreases budget
  {
    if s.ready == [] then Done
    else if budget == 0 then OutOfBudget
    else
      match Wave(g, rt, wave, s)
      case Stop(outcome) => outcome
      case Continue(next) => RunFrom(g, rt, budget - 1, wave + 1, next)
  }

  /**
   * The two ways `RunFrom`'s body ends without a wave, unfolded for the `Run`
   * loop proof: an empty queue is done; no waves left is out of budget.
   */
  lemma RunFromEnds(g: Graph, rt: Runtime, budget: nat, wave: nat, s: Schedule)
    requires g.Valid() && rt.Valid()
    requires forall i :: 0 <= i < |s.ready| ==> s.ready[i] < |g.nodes|
    ensures s.ready == [] ==> RunFrom(g, rt, budget, wave, s) == Done
    ensures s.ready != [] && budget == 0 ==> RunFrom(g, rt, budget, wave, s) == OutOfBudget
  {
  }

  /**
   * `RunFrom`'s body with waves left to run, unfolded for the `Run` loop proof:
   * the wave's step decides the outcome, and the next queue is within the graph.
   */
  lemma RunFromStep(g: Graph, rt: Runtime, budget: nat, wave: nat, s: Schedule, w: Step)
    requires g.Valid() && rt.Valid()
    requires forall i :: 0 <= i < |s.ready| ==> s.ready[i] < |g.nodes|
    requires s.ready != [] && budget > 0
    requires w == Wave(g, rt, wave, s)
    ensures w.Stop? ==> RunFrom(g, rt, budget, wave, s) == w.outcome
    ensures w.Continue? ==> forall i :: 0 <= i < |w.next.ready| ==> w.next.ready[i] < |g.nodes|
    ensures w.Continue? ==> RunFrom(g, rt, budget, wave, s) == RunFrom(g, rt, budget - 1, wave + 1, w.next)
  {
    if w.Continue? {
      assert forall i :: 0 <= i < |w.next.ready| ==> ReadyFor(g, w.next.ready[i], w.next.pending);
    }
  }

  /**
   * How a wave stops the run. The first synchronous run, in queue order, that
   * fails returns its node and error from `run` (`result?`). Otherwise the first
   * async task, in completion order, that fails panics with its node. With no
   * failure at all the next wave starts.
   */
  lemma WaveOutcome(g: Graph, rt: Runtime, wave: nat, s: Schedule)
    requires g.Valid() && rt.Valid()
    requires forall i :: 0 <= i < |s.ready| ==> s.ready[i] < |g.nodes|
    ensures var runs := Runs(g, rt, s.ready, s.pending);
      var f := FirstSyncFailure(g, rt, runs);
      var tasks := AsyncTasks(g, rt, runs);
      var order := rt.completion(wave, |tasks|);
      var w := Wave(g, rt, wave, s);
      IsOrder(order, |tasks|) &&
      (f.Some? ==> w == Stop(Failed(f.value.node, f.value.result.error))) &&
      (f.None? ==> (w.Continue? <==> forall k :: 0 <= k < |order| ==> tasks[order[k]].result.Ok?)) &&
      (f.None? && w.Stop? ==>
        exists k :: 0 <= k < |order| && tasks[order[k]].result.Err? && w == Stop(Panicked(tasks[order[k]].node)) &&
          forall m :: 0 <= m < k ==> tasks[order[m]].result.Ok?)
  {
    var runs := Runs(g, rt, s.ready, s.pending);
    var tasks := AsyncTasks(g, rt, runs);
    var order := rt.completion(wave, |tasks|);
    assert IsOrder(order, |tasks|);
    DrainRuns(g, rt, s.ready, s.pending, [], []);
    var d := Drain(g, rt, s.ready, s.pending, [], []);
    if d.Drained? {
      assert d.tasks == tasks;
      JoinTasksInOrder(tasks, order, []);
    }
  }

  /**
   * With a wave left to run, a run stops exactly as its wave does: with the first
   * synchronous failure's node and error, or by the first failed task's panic.
   */
  lemma RunFromOutcome(g: Graph, rt: Runtime, budget: nat, wave: nat, s: Schedule)
    requires g.Valid() && rt.Valid()
    requires forall i :: 0 <= i < |s.ready| ==> s.ready[i] < |g.nodes|
    requires s.ready != [] && budget > 0
    ensures var runs := Runs(g, rt, s.ready, s.pending);
      var f := FirstSyncFailure(g, rt, runs);
      var tasks := AsyncTasks(g, rt, runs);
      var order := rt.completion(wave, |tasks|);
      var r := RunFrom(g, rt, budget, wave, s);
      IsOrder(order, |tasks|) &&
      (f.Some? ==> r == Failed(f.value.node, f.value.result.error)) &&
      (f.None? && (exists k :: 0 <= k < |order| && tasks[order[k]].result.Err?) ==>
        exists k :: 0 <= k < |order| && tasks[order[k]].result.Err? && r == Panicked(tasks[order[k]].node) &&
          forall m :: 0 <= m < k ==> tasks[order[m]].result.Ok?)
  {
    var w := Wave(g, rt, wave, s);
    WaveOutcome(g, rt, wave, s);
    RunFromStep(g, rt, budget, wave, s, w);
  }

  /**
   * After a wave, every queued node was queued by the fan-out and is ready for its
   * buffer, and every node the wave's frames reached that is ready is queued.
   */
  lemma WaveQueuesReady(g: Graph, results: seq<Delivery>, pending: map<nat, T.Slots>)
    requires g.Valid()
    ensures var next := FanOut(g, results, Schedule(pending, []));
      (forall i :: 0 <= i < |next.ready| ==> next.ready[i] in Reached(g, results) && ReadyFor(g, next.ready[i], next.pending)) &&
      (forall n :: n in Reached(g, results) ==> (n in next.ready <==> ReadyFor(g, n, next.pending)))
  {
    var next := FanOut(g, results, Schedule(pending, []));
    FanOutSpec(g, results, Schedule(pending, []));
    assert next.ready[0..] == next.ready;
  }

  /** Two sources both feeding the left input of one sink. */
  function TwoIntoOne(): (g: Graph)
    ensures g.Valid()
  {
    Graph([T.Tool("a", T.InputCsv("a.csv")), T.Tool("b", T.InputCsv("b.csv")), T.Tool("out", T.OutputCsv("out.csv"))],
          [Edge(0, 2, P.InputSide.Left), Edge(1, 2, P.InputSide.Left)])
  }

  /**
   * The queue is not de-duplicated: when both sources of `TwoIntoOne` produce a
   * frame, the sink is queued twice, and its buffer holds the frame that arrived last.
   */
  lemma DuplicateEnqueue(a: E.DataFrame, b: E.DataFrame)
    ensures FanOut(TwoIntoOne(), [Delivery(0, Some(a)), Delivery(1, Some(b))], Schedule(map[], []))
         == Schedule(map[2 := T.Slots(Some(b), None)], [2, 2])
  {
    var g := TwoIntoOne();
    var e0, e1 := Edge(0, 2, P.InputSide.Left), Edge(1, 2, P.InputSide.Left);
    TwoIntoOneOutEdges();
    var s1 := Schedule(map[2 := T.Slots(Some(a), None)], [2]);
    var s2 := Schedule(map[2 := T.Slots(Some(b), None)], [2, 2]);
    DeliverSingle(g, e0, a, Schedule(map[], []));
    assert T.SetSlot(Buffer(map[], 2), T.PlanSide(e0.weight), a) == T.Slots(Some(a), None);
    assert T.IsReady(g.nodes[2], T.Slots(Some(a), None));
    assert map[][2 := T.Slots(Some(a), None)] == s1.pending;
    assert Deliver(g, [e0], a, Schedule(map[], [])) == s1;
    DeliverSingle(g, e1, b, s1);
    assert T.SetSlot(Buffer(s1.pending, 2), T.PlanSide(e1.weight), b) == T.Slots(Some(b), None);
    assert s1.pending[2 := T.Slots(Some(b), None)] == s2.pending;
    assert Deliver(g, [e1], b, s1) == s2;
    var results := [Delivery(0, Some(a)), Delivery(1, Some(b))];
    assert FanOut(g, results, Schedule(map[], [])) == FanOut(g, results[1..], s1);
    assert FanOut(g, results[1..], s1) == FanOut(g, [], s2);
  }

  /** In `TwoIntoOne` each source has the one edge into the sink. */
  lemma TwoIntoOneOutEdges()
    ensures OutEdges(TwoIntoOne().edges, 0) == [Edge(0, 2, P.InputSide.Left)]
    ensures OutEdges(TwoIntoOne().edges, 1) == [Edge(1, 2, P.InputSide.Left)]
  {
    var g := TwoIntoOne();
    assert g.edges[..1] == [Edge(0, 2, P.InputSide.Left)];
  }

  /** `Deliver` along a single edge. */
  lemma DeliverSingle(g: Graph, e: Edge, df: E.DataFrame, s: Schedule)
    requires e.target < |g.nodes|
    ensures var data := T.SetSlot(Buffer(s.pending, e.target), T.PlanSide(e.weight), df);
      Deliver(g, [e], df, s)
      == Schedule(s.pending[e.target := data],
                  if T.IsReady(g.nodes[e.target], data) then s.ready + [e.target] else s.ready)
  {
    assert [e][1..] == [];
  }

  /** A tool that passes on the left frame it is handed, if any; nothing runs async. */
  function PassLeft(): Runtime {
    Runtime(t => false, (t: T.Tool, d: Option<T.Slots>) => Ok(if d.Some? then d.value.left else None),
            (w: nat, n: nat) => seq(n, i => i))
  }

  /** The twice-queued sink runs twice: the first run takes its buffer, the second is handed none. */
  lemma DuplicateDequeue(b: E.DataFrame)
    ensures Drain(TwoIntoOne(), PassLeft(), [2, 2], map[2 := T.Slots(Some(b), None)], [], [])
         == Drained(map[], [Delivery(2, Some(b)), Delivery(2, None)], [])
  {
    var g := TwoIntoOne();
    var rt := PassLeft();
    var p := map[2 := T.Slots(Some(b), None)];
    assert p - {2} == map[];
    assert Drain(g, rt, [2, 2], p, [], []) == Drain(g, rt, [2], map[], [Delivery(2, Some(b))], []);
  }

  // ---------------------------------------------------------------- queueing each node once

  /** Each queued node appears once. */
  predicate Distinct(queue: seq<nat>) {
    forall i, j :: 0 <= i < j < |queue| ==> queue[i] != queue[j]
  }

  /** The queue holds each node whose buffer is ready, once, and nothing else. */
  ghost predicate QueuedOnce(g: Graph, s: Schedule) {
    Distinct(s.ready) && forall n: nat :: n in s.ready <==> ReadyFor(g, n, s.pending)
  }

  /**
   * `Deliver` as evidently intended: a target is queued when its buffer turns
   * ready, not again when a frame arrives at a buffer that was ready already.
   */
  function DeliverOnce(g: Graph, out: seq<Edge>, df: E.DataFrame, s: Schedule): Schedule
    requires forall i :: 0 <= i < |out| ==> out[i].target < |g.nodes|
    decreases |out|
  {
    if out == [] then s
    else
      var e := out[0];
      var data := T.SetSlot(Buffer(s.pending, e.target), T.PlanSide(e.weight), df);
      var turned := T.IsReady(g.nodes[e.target], data) && !ReadyFor(g, e.target, s.pending);
      var ready := if turned then s.ready + [e.target] else s.ready;
      DeliverOnce(g, out[1..], df, Schedule(s.pending[e.target := data], ready))
  }

  /** The corrected delivery keeps every ready node queued exactly once. */
  lemma {:induction false} DeliverOnceQueuesOnce(g: Graph, out: seq<Edge>, df: E.DataFrame, s: Schedule)
    requires forall i :: 0 <= i < |out| ==> out[i].target < |g.nodes|
    requires QueuedOnce(g, s)
    ensures QueuedOnce(g, DeliverOnce(g, out, df, s))
    decreases |out|
  {
    if out != [] {
      var e := out[0];
      var t := e.target;
      var data := T.SetSlot(Buffer(s.pending, t), T.PlanSide(e.weight), df);
      var turned := T.IsReady(g.nodes[t], data) && !ReadyFor(g, t, s.pending);
      var s1 := Schedule(s.pending[t := data], if turned then s.ready + [t] else s.ready);
      if ReadyFor(g, t, s.pending) {
        T.ReadyMonotone(g.nodes[t], s.pending[t], T.PlanSide(e.weight), df);
      }
      forall n: nat ensures n in s1.ready <==> ReadyFor(g, n, s1.pending) {
        if n != t {
          assert ReadyFor(g, n, s1.pending) == ReadyFor(g, n, s.pending);
        }
      }
      assert Distinct(s1.ready);
      DeliverOnceQueuesOnce(g, out[1..], df, s1);
    }
  }

  /** On `TwoIntoOne`, the corrected delivery queues the sink once, where `Deliver` queues it twice. */
  lemma TwoIntoOneQueuedOnce(a: E.DataFrame, b: E.DataFrame)
    ensures var g := TwoIntoOne();
      var s1 := DeliverOnce(g, [Edge(0, 2, P.InputSide.Left)], a, Schedule(map[], []));
      DeliverOnce(g, [Edge(1, 2, P.InputSide.Left)], b, s1) == Schedule(map[2 := T.Slots(Some(b), None)], [2])
  {
    var g := TwoIntoOne();
    var e0, e1 := Edge(0, 2, P.InputSide.Left), Edge(1, 2, P.InputSide.Left);
    assert [e0][1..] == [] && [e1][1..] == [];
    var p1 := map[2 := T.Slots(Some(a), None)];
    assert T.SetSlot(Buffer(map[], 2), T.PlanSide(e0.weight), a) == T.Slots(Some(a), None);
    assert map[][2 := T.Slots(Some(a), None)] == p1;
    assert T.IsReady(g.nodes[2], T.Slots(Some(a), None));
    assert DeliverOnce(g, [e0], a, Schedule(map[], [])) == Schedule(p1, [2]);
    assert ReadyFor(g, 2, p1);
    assert T.SetSlot(Buffer(p1, 2), T.PlanSide(e1.weight), b) == T.Slots(Some(b), None);
    assert p1[2 := T.Slots(Some(b), None)] == map[2 := T.Slots(Some(b), None)];
  }

  // ---------------------------------------------------------------- acyclic plans finish

  /** The nodes a list of deliveries comes from. */
  function DeliveryNodes(rs: seq<Delivery>): set<nat> {
    set i | 0 <= i < |rs| :: rs[i].node
  }

  /** The nodes a list of runs or tasks belongs to. */
  function TaskNodes(ts: seq<Task>): set<nat> {
    set i | 0 <= i < |ts| :: ts[i].node
  }

  /** Some edge enters `n` from one of the nodes of `from`. */
  ghost predicate Fed(g: Graph, n: nat, from: set<nat>) {
    exists j :: 0 <= j < |g.edges| && g.edges[j].target == n && g.edges[j].source in from
  }

  /**
   * A topological numbering of the nodes: every edge goes from a lower number
   * to a higher one, and the numbers stay below the node count. A graph has one
   * exactly when it has no cycle.
   */
  ghost predicate TopologicalOrder(g: Graph, rank: nat -> nat) {
    (forall n: nat :: n < |g.nodes| ==> rank(n) < |g.nodes|) &&
    (forall j :: 0 <= j < |g.edges| ==> rank(g.edges[j].source) < rank(g.edges[j].target))
  }

  lemma {:induction false} SyncDeliveriesFromRuns(g: Graph, rt: Runtime, runs: seq<Task>)
    requires forall i :: 0 <= i < |runs| ==> runs[i].node < |g.nodes|
    ensures DeliveryNodes(SyncDeliveries(g, rt, runs)) <= TaskNodes(runs)
    decreases |runs|
  {
    if runs != [] {
      SyncDeliveriesFromRuns(g, rt, runs[1..]);
      var t := runs[0];
      var head: seq<Delivery> := if !rt.isAsync(g.nodes[t.node]) && t.result.Ok? then [Delivery(t.node, t.result.value)] else [];
      var rest := SyncDeliveries(g, rt, runs[1..]);
      forall n | n in DeliveryNodes(head + rest) ensures n in TaskNodes(runs) {
        var k :| 0 <= k < |head + rest| && (head + rest)[k].node == n;
        if k >= |head| {
          assert rest[k - |head|] == (head + rest)[k];
          assert n in DeliveryNodes(rest);
          var i :| 0 <= i < |runs[1..]| && runs[1..][i].node == n;
          assert runs[i + 1].node == n;
        }
      }
    }
  }

  lemma {:induction false} AsyncTasksFromRuns(g: Graph, rt: Runtime, runs: seq<Task>)
    requires forall i :: 0 <= i < |runs| ==> runs[i].node < |g.nodes|
    ensures TaskNodes(AsyncTasks(g, rt, runs)) <= TaskNodes(runs)
    decreases |runs|
  {
    if runs != [] {
      AsyncTasksFromRuns(g, rt, runs[1..]);
      var head: seq<Task> := if rt.isAsync(g.nodes[runs[0].node]) then [runs[0]] else [];
      var rest := AsyncTasks(g, rt, runs[1..]);
      forall n | n in TaskNodes(head + rest) ensures n in TaskNodes(runs) {
        var k :| 0 <= k < |head + rest| && (head + rest)[k].node == n;
        if k >= |head| {
          assert rest[k - |head|] == (head + rest)[k];
          assert n in TaskNodes(rest);
          var i :| 0 <= i < |runs[1..]| && runs[1..][i].node == n;
          assert runs[i + 1].node == n;
        }
      }
    }
  }

  /** Every node a frame of a list of deliveries reaches is fed by an edge from one of their nodes. */
  lemma {:induction false} ReachedFed(g: Graph, rs: seq<Delivery>, n: nat)
    requires n in Reached(g, rs)
    ensures Fed(g, n, DeliveryNodes(rs))
    decreases |rs|
  {
    var d := rs[0];
    if d.frame.Some? && n in Targets(OutEdges(g.edges, d.node)) {
      var out := OutEdges(g.edges, d.node);
      var i :| 0 <= i < |out| && out[i].target == n;
      assert out[i] in out;
      var j :| 0 <= j < |g.edges| && g.edges[j] == out[i];
      assert d.node in DeliveryNodes(rs);
    } else {
      ReachedFed(g, rs[1..], n);
      var j :| 0 <= j < |g.edges| && g.edges[j].target == n && g.edges[j].source in DeliveryNodes(rs[1..]);
      var k :| 0 <= k < |rs[1..]| && rs[1..][k].node == g.edges[j].source;
      assert rs[k + 1].node == g.edges[j].source;
    }
  }

  /** The results and tasks of a drain all belong to queued nodes. */
  lemma DrainedFromQueue(g: Graph, rt: Runtime, queue: seq<nat>, pending: map<nat, T.Slots>)
    requires forall i :: 0 <= i < |queue| ==> queue[i] < |g.nodes|
    ensures var d := Drain(g, rt, queue, pending, [], []);
      d.Drained? ==> DeliveryNodes(d.results) <= QueueNodes(queue) && TaskNodes(d.tasks) <= QueueNodes(queue)
  {
    DrainRuns(g, rt, queue, pending, [], []);
    var runs := Runs(g, rt, queue, pending);
    SyncDeliveriesFromRuns(g, rt, runs);
    AsyncTasksFromRuns(g, rt, runs);
    assert TaskNodes(runs) == QueueNodes(queue) by {
      assert forall i :: 0 <= i < |runs| ==> runs[i].node == queue[i];
    }
    assert [] + SyncDeliveries(g, rt, runs) == SyncDeliveries(g, rt, runs);
    assert [] + AsyncTasks(g, rt, runs) == AsyncTasks(g, rt, runs);
  }

  /** The deliveries of a completed join all belong to joined tasks. */
  lemma JoinedFromTasks(tasks: seq<Task>, order: seq<nat>)
    requires forall i :: 0 <= i < |order| ==> order[i] < |tasks|
    ensures var j := JoinTasks(tasks, order, []);
      j.Completed? ==> DeliveryNodes(j.results) <= TaskNodes(tasks)
  {
    var j := JoinTasks(tasks, order, []);
    if j.Completed? {
      JoinTasksInOrder(tasks, order, []);
      forall n | n in DeliveryNodes(j.results) ensures n in TaskNodes(tasks) {
        var k :| 0 <= k < |j.results| && j.results[k].node == n;
        assert j.results[0 + k].node == tasks[order[k]].node;
      }
    }
  }

  lemma DeliveryNodesAppend(a: seq<Delivery>, b: seq<Delivery>)
    ensures DeliveryNodes(a + b) == DeliveryNodes(a) + DeliveryNodes(b)
  {
    forall n | n in DeliveryNodes(a + b) ensures n in DeliveryNodes(a) + DeliveryNodes(b) {
      var k :| 0 <= k < |a + b| && (a + b)[k].node == n;
      if k < |a| { assert a[k] == (a + b)[k]; } else { assert b[k - |a|] == (a + b)[k]; }
    }
    forall n | n in DeliveryNodes(a) + DeliveryNodes(b) ensures n in DeliveryNodes(a + b) {
      if n in DeliveryNodes(a) {
        var k :| 0 <= k < |a| && a[k].node == n;
        assert (a + b)[k] == a[k];
      } else {
        var k :| 0 <= k < |b| && b[k].node == n;
        assert (a + b)[|a| + k] == b[k];
      }
    }
  }

  /**
   * Every node a wave queues for the next one is fed by an edge from a node
   * that ran in this wave.
   */
  lemma WaveSuccessors(g: Graph, rt: Runtime, wave: nat, s: Schedule)
    requires g.Valid() && rt.Valid()
    requires forall i :: 0 <= i < |s.ready| ==> s.ready[i] < |g.nodes|
    ensures var w := Wave(g, rt, wave, s);
      w.Continue? ==> forall i :: 0 <= i < |w.next.ready| ==> Fed(g, w.next.ready[i], QueueNodes(s.ready))
  {
    var d := Drain(g, rt, s.ready, s.pending, [], []);
    if d.Drained? {
      DrainedFromQueue(g, rt, s.ready, s.pending);
      var order := rt.completion(wave, |d.tasks|);
      assert IsOrder(order, |d.tasks|);
      var j := JoinTasks(d.tasks, order, []);
      if j.Completed? {
        JoinedFromTasks(d.tasks, order);
        var all := d.results + j.results;
        DeliveryNodesAppend(d.results, j.results);
        var next := FanOut(g, all, Schedule(d.pending, []));
        FanOutSpec(g, all, Schedule(d.pending, []));
        forall i | 0 <= i < |next.ready| ensures Fed(g, next.ready[i], QueueNodes(s.ready)) {
          ReachedFed(g, all, next.ready[i]);
        }
      }
    }
  }

  /** The nodes a wave queues sit higher in a topological numbering than the lowest node it ran. */
  lemma WaveRaisesRank(g: Graph, rt: Runtime, wave: nat, s: Schedule, rank: nat -> nat)
    requires g.Valid() && rt.Valid() && TopologicalOrder(g, rank)
    requires forall i :: 0 <= i < |s.ready| ==> s.ready[i] < |g.nodes| && rank(s.ready[i]) >= wave
    ensures var w := Wave(g, rt, wave, s);
      w.Continue? ==> forall i :: 0 <= i < |w.next.ready| ==> rank(w.next.ready[i]) >= wave + 1
  {
    WaveSuccessors(g, rt, wave, s);
    var w := Wave(g, rt, wave, s);
    if w.Continue? {
      forall i | 0 <= i < |w.next.ready| ensures rank(w.next.ready[i]) >= wave + 1 {
        var j :| 0 <= j < |g.edges| && g.edges[j].target == w.next.ready[i] && g.edges[j].source in QueueNodes(s.ready);
        var k :| 0 <= k < |s.ready| && s.ready[k] == g.edges[j].source;
      }
    }
  }

  /**
   * On an acyclic graph the wave budget is harmless: when every queued node is
   * at least `wave` deep in a topological numbering and the budget reaches the
   * node count, the run ends with `Done` or a failure, never `OutOfBudget`.
   */
  lemma {:induction false} AcyclicRunFinishes(g: Graph, rt: Runtime, budget: nat, wave: nat, s: Schedule, rank: nat -> nat)
    requires g.Valid() && rt.Valid() && TopologicalOrder(g, rank)
    requires forall i :: 0 <= i < |s.ready| ==> s.ready[i] < |g.nodes| && rank(s.ready[i]) >= wave
    requires wave + budget >= |g.nodes|
    ensures RunFrom(g, rt, budget, wave, s) != OutOfBudget
    decreases budget
  {
    RunFromEnds(g, rt, budget, wave, s);
    if s.ready != [] {
      // the first queued node's number lies in [wave, node count), so a wave is left
      assert wave <= rank(s.ready[0]) < |g.nodes|;
      var w := Wave(g, rt, wave, s);
      RunFromStep(g, rt, budget, wave, s, w);
      WaveRaisesRank(g, rt, wave, s, rank);
      if w.Continue? {
        AcyclicRunFinishes(g, rt, budget - 1, wave + 1, w.next, rank);
      }
    }
  }

  /** A run of an acyclic plan from its external nodes, given as many waves as nodes, never runs out of budget. */
  lemma AcyclicPlanFinishes(g: Graph, rt: Runtime, budget: nat, rank: nat -> nat)
    requires g.Valid() && rt.Valid() && TopologicalOrder(g, rank)
    requires budget >= |g.nodes|
    ensures RunFrom(g, rt, budget, 0, Schedule(map[], Externals(|g.nodes|, g.edges))) != OutOfBudget
  {
    AcyclicRunFinishes(g, rt, budget, 0, Schedule(map[], Externals(|g.nodes|, g.edges)), rank);
  }

  // ---------------------------------------------------------------- the workflow

  /** The node loop of `Workflow::new`: one node per tool, and the id map built alongside. */
  method BuildNodes(tools: seq<P.Tool>, lower: P.Tool -> T.Tool) returns (nodes: seq<T.Tool>, index: map<string, nat>)
    ensures |nodes| == |tools|
    ensures forall i :: 0 <= i < |tools| ==> nodes[i] == lower(tools[i])
    ensures index == IndexMap(tools)
  {
    nodes, index := [], map[];
    var i := 0;
    while i < |tools|
      invariant 0 <= i <= |tools|
      invariant |nodes| == i
      invariant forall j :: 0 <= j < i ==> nodes[j] == lower(tools[j])
      invariant index == IndexMap(tools[..i])
    {
      nodes := nodes + [lower(tools[i])];
      assert tools[..i + 1][..i] == tools[..i];
      index := index[tools[i].Id() := i];
      i := i + 1;
    }
    assert tools[..i] == tools;
  }

  /** The edge loop of `Workflow::new`: one edge per link, between the nodes the id map names. */
  method BuildEdges(links: seq<P.Link>, index: map<string, nat>, n: nat) returns (edges: seq<Edge>)
    requires forall i :: 0 <= i < |links| ==> links[i].src in index && links[i].dst in index
    requires forall k :: k in index ==> index[k] < n
    ensures edges == LinkEdges(links, index)
    ensures forall k :: 0 <= k < |edges| ==> edges[k].source < n && edges[k].target < n
  {
    edges := [];
    var j := 0;
    while j < |links|
      invariant 0 <= j <= |links|
      invariant |edges| == j
      invariant forall k :: 0 <= k < j ==>
        edges[k] == Edge(index[links[k].src], index[links[k].dst], links[k].input)
    {
      var link := links[j];
      edges := edges + [Edge(index[link.src], index[link.dst], link.input)];
      j := j + 1;
    }
  }

  class Workflow {
    const id: string
    const name: string
    const graph: Graph

    /**
     * `Workflow::new`: a node per tool in plan order, and an edge per link in link
     * order between the nodes the id map gives for its ends. `lower` is the
     * conversion of a plan tool into a graph tool (`Tool::new`).
     */
    constructor (plan: P.Plan, lower: P.Tool -> T.Tool)
      requires LinksResolve(plan)
      ensures id == plan.id && name == plan.name
      ensures |graph.nodes| == |plan.tools|
      ensures forall i :: 0 <= i < |plan.tools| ==> graph.nodes[i] == lower(plan.tools[i])
      ensures graph.edges == LinkEdges(plan.links, IndexMap(plan.tools))
      ensures graph.Valid()
    {
      var nodes, index := BuildNodes(plan.tools, lower);
      var edges := BuildEdges(plan.links, index, |nodes|);
      id := plan.id;
      name := plan.name;
      graph := Graph(nodes, edges);
    }

    /**
     * `Workflow::run`, for at most `budget` waves. The queue starts as the nodes
     * with no incoming edges, with no buffers pending.
     */
    method Run(budget: nat, rt: Runtime) returns (r: Outcome)
      requires graph.Valid() && rt.Valid()
      ensures r == RunFrom(graph, rt, budget, 0, Schedule(map[], Externals(|graph.nodes|, graph.edges)))
    {
      var s := Schedule(map[], Externals(|graph.nodes|, graph.edges));
      ghost var goal := RunFrom(graph, rt, budget, 0, s);
      var wave := 0;
      var fuel := budget;
      while s.ready != []
        invariant forall i :: 0 <= i < |s.ready| ==> s.ready[i] < |graph.nodes|
        invariant RunFrom(graph, rt, fuel, wave, s) == goal
        decreases fuel
      {
        if fuel == 0 {
          RunFromEnds(graph, rt, fuel, wave, s);
          return OutOfBudget;
        }
        var w := RunWave(rt, wave, s);
        RunFromStep(graph, rt, fuel, wave, s, w);
        if w.Stop? {
          return w.outcome;
        }
        s := w.next;
        wave, fuel := wave + 1, fuel - 1;
      }
      RunFromEnds(graph, rt, fuel, wave, s);
      return Done;
    }

    /** One pass of the outer loop: drain, join, fan out. */
    method RunWave(rt: Runtime, wave: nat, s: Schedule) returns (w: Step)
      requires graph.Valid() && rt.Valid()
      requires forall i :: 0 <= i < |s.ready| ==> s.ready[i] < |graph.nodes|
      ensures w == Wave(graph, rt, wave, s)
    {
      var drained := DrainQueue(rt, s.ready, s.pending);
      if drained.Aborted? {
        return Stop(Failed(drained.node, drained.error));
      }
      var joined := JoinAll(drained.tasks, rt.completion(wave, |drained.tasks|));
      if joined.TaskFailed? {
        return Stop(Panicked(joined.node));
      }
      var next := FanOutAll(drained.results + joined.results, drained.pending);
      return Continue(next);
    }

    /** The drain loop of one wave. */
    method DrainQueue(rt: Runtime, queue: seq<nat>, pending0: map<nat, T.Slots>) returns (d: Drained)
      requires forall i :: 0 <= i < |queue| ==> queue[i] < |graph.nodes|
      ensures d == Drain(graph, rt, queue, pending0, [], [])
    {
      var ready: seq<nat> := queue;
      var pending := pending0;
      var results: seq<Delivery> := [];
      var tasks: seq<Task> := [];
      while ready != []
        invariant forall i :: 0 <= i < |ready| ==> ready[i] < |graph.nodes|
        invariant Drain(graph, rt, ready, pending, results, tasks) == Drain(graph, rt, queue, pending0, [], [])
        decreases |ready|
      {
        var ix := ready[0];
        ready := ready[1..];
        var data := Pending(pending, ix);
        pending := pending - {ix};
        var tool := graph.nodes[ix];
        if rt.isAsync(tool) {
          tasks := tasks + [Task(ix, rt.execute(tool, data))];
        } else {
          var result := rt.execute(tool, data);
          if result.Err? {
            return Aborted(ix, result.error);
          }
          results := results + [Delivery(ix, result.value)];
        }
      }
      d := Drained(pending, results, tasks);
    }

    /** The `join_next` loop of one wave. */
    method JoinAll(tasks: seq<Task>, order: seq<nat>) returns (j: Joined)
      requires forall i :: 0 <= i < |order| ==> order[i] < |tasks|
      ensures j == JoinTasks(tasks, order, [])
    {
      var results: seq<Delivery> := [];
      var k := 0;
      while k < |order|
        invariant 0 <= k <= |order|
        invariant JoinTasks(tasks, order[k..], results) == JoinTasks(tasks, order, [])
      {
        var t := tasks[order[k]];
        if t.result.Err? {
          return TaskFailed(t.node);
        }
        results := results + [Delivery(t.node, t.result.value)];
        assert order[k..][1..] == order[k + 1..];
        k := k + 1;
      }
      j := Completed(results);
    }

    /** The fan-out loop of one wave, starting from an empty queue. */
    method FanOutAll(results: seq<Delivery>, pending0: map<nat, T.Slots>) returns (s: Schedule)
      requires graph.Valid()
      ensures s == FanOut(graph, results, Schedule(pending0, []))
    {
      s := Schedule(pending0, []);
      var k := 0;
      while k < |results|
        invariant 0 <= k <= |results|
        invariant FanOut(graph, results[k..], s) == FanOut(graph, results, Schedule(pending0, []))
      {
        var d := results[k];
        if d.frame.Some? {
          OutEdgesValid(graph, d.node);
          s := DeliverAll(OutEdges(graph.edges, d.node), d.frame.value, s);
        }
        assert results[k..][1..] == results[k + 1..];
        k := k + 1;
      }
    }

    /** The `for_each` over one node's outgoing edges. */
    method DeliverAll(out: seq<Edge>, df: E.DataFrame, s0: Schedule) returns (s: Schedule)
      requires forall i :: 0 <= i < |out| ==> out[i].target < |graph.nodes|
      ensures s == Deliver(graph, out, df, s0)
    {
      s := s0;
      var k := 0;
      while k < |out|
        invariant 0 <= k <= |out|
        invariant Deliver(graph, out[k..], df, s) == Deliver(graph, out, df, s0)
      {
        var e := out[k];
        var data := T.SetSlot(Buffer(s.pending, e.target), T.PlanSide(e.weight), df);
        var pending := s.pending[e.target := data];
        var ready := s.ready;
        if T.IsReady(graph.nodes[e.target], data) {
          ready := ready + [e.target];
        }
        s := Schedule(pending, ready);
        assert out[k..][1..] == out[k + 1..];
        k := k + 1;
      }
    }
  }
}
