/** Cutting task ranges into half-open chunks. */
module ChunkPlanner {
  import opened Wrappers
  import opened Graph
  import opened Planner

  datatype ChunkPlan = ChunkPlan(task: Task, chunkIndex: nat, from: int, to: int)

  datatype ChunkPlanResult = ChunkPlanResult(chunks: seq<ChunkPlan>, totalRangeUnits: int)

  datatype ChunkError =
    | ChunkSizeNotPositive(size: int)
    | InvalidRange(id: string, from: int, to: int)

  /** The chunks laid end to end from `from` to `to`, each of `size` units except perhaps the last. */
  ghost predicate Tiles(chunks: seq<ChunkPlan>, task: Task, size: int, from: int, to: int) {
    && (chunks == [] ==> from == to)
    && (chunks != [] ==> chunks[0].from == from && chunks[|chunks| - 1].to == to)
    && (forall i, j :: 0 <= i && j == i + 1 && j < |chunks| ==> chunks[i].to == chunks[j].from)
    && (forall i :: 0 <= i < |chunks| ==>
      && chunks[i].task == task && chunks[i].chunkIndex == i
      && chunks[i].from < chunks[i].to <= chunks[i].from + size
      && (i < |chunks| - 1 ==> chunks[i].to == chunks[i].from + size))
  }

  ghost predicate InChunk(x: int, c: ChunkPlan) {
    c.from <= x < c.to
  }

  lemma {:induction false} ChunkOfPoint(
    chunks: seq<ChunkPlan>, task: Task, size: int, from: int, to: int, x: int)
    returns (i: nat)
    requires Tiles(chunks, task, size, from, to) && from <= x < to
    ensures i < |chunks| && InChunk(x, chunks[i])
  {
    var last := chunks[|chunks| - 1];
    if last.from <= x {
      i := |chunks| - 1;
    } else {
      var front := chunks[..|chunks| - 1];
      assert |chunks| > 1;
      assert front[|front| - 1].to == last.from;
      i := ChunkOfPoint(front, task, size, from, last.from, x);
    }
  }

  lemma {:induction false} ChunksInOrder(
    chunks: seq<ChunkPlan>, task: Task, size: int, from: int, to: int, i: nat, j: nat)
    requires Tiles(chunks, task, size, from, to) && i < j < |chunks|
    ensures chunks[i].to <= chunks[j].from
    decreases j
  {
    assert chunks[j - 1].to == chunks[j].from;
    if i < j - 1 {
      ChunksInOrder(chunks, task, size, from, to, i, j - 1);
    }
  }

  lemma {:induction false} ChunkWithin(
    chunks: seq<ChunkPlan>, task: Task, size: int, from: int, to: int, i: nat)
    requires Tiles(chunks, task, size, from, to) && i < |chunks|
    ensures from <= chunks[i].from && chunks[i].to <= to
  {
    if i > 0 {
      ChunksInOrder(chunks, task, size, from, to, 0, i);
    }
    if i < |chunks| - 1 {
      ChunksInOrder(chunks, task, size, from, to, i, |chunks| - 1);
    }
  }

  /** A point is in some chunk exactly when it is in the range, and never in two chunks. */
  lemma EachPointInOneChunk(chunks: seq<ChunkPlan>, task: Task, size: int, from: int, to: int, x: int)
    requires Tiles(chunks, task, size, from, to)
    ensures from <= x < to <==> exists i :: 0 <= i < |chunks| && InChunk(x, chunks[i])
    ensures forall i, j ::
      0 <= i < |chunks| && 0 <= j < |chunks| && InChunk(x, chunks[i]) && InChunk(x, chunks[j]) ==> i == j
  {
    if from <= x < to {
      var i := ChunkOfPoint(chunks, task, size, from, to, x);
    }
    forall i | 0 <= i < |chunks| && InChunk(x, chunks[i])
      ensures from <= x < to
    {
      ChunkWithin(chunks, task, size, from, to, i);
    }
    forall i, j | 0 <= i < j < |chunks|
      ensures !(InChunk(x, chunks[i]) && InChunk(x, chunks[j]))
    {
      ChunksInOrder(chunks, task, size, from, to, i, j);
    }
  }

  method PlanTaskChunks(task: Task, chunkSize: int) returns (r: Result<ChunkPlanResult, ChunkError>)
    ensures r.Ok? <==> chunkSize > 0 && task.from < task.to
    ensures chunkSize <= 0 ==> r == Err(ChunkSizeNotPositive(chunkSize))
    ensures chunkSize > 0 && task.to <= task.from ==> r == Err(InvalidRange(task.id, task.from, task.to))
    ensures r.Ok? ==>
      && Tiles(r.value.chunks, task, chunkSize, task.from, task.to)
      && r.value.totalRangeUnits == task.to - task.from
  {
    if chunkSize <= 0 {
      return Err(ChunkSizeNotPositive(chunkSize));
    }
    if task.to <= task.from {
      return Err(InvalidRange(task.id, task.from, task.to));
    }
    var chunks: seq<ChunkPlan> := [];
    var index, from := 0, task.from;
    while from < task.to
      invariant index == |chunks|
      invariant Tiles(chunks, task, chunkSize, task.from, if from < task.to then from else task.to)
      invariant forall i :: 0 <= i < |chunks| && from < task.to ==> chunks[i].to == chunks[i].from + chunkSize
      decreases task.to - from
    {
      var to := if from + chunkSize < task.to then from + chunkSize else task.to;
      chunks := chunks + [ChunkPlan(task, index, from, to)];
      index := index + 1;
      from := from + chunkSize;
    }
    r := Ok(ChunkPlanResult(chunks, task.to - task.from));
  }

  // ---------------------------------------------------------------------------------------------
  // planAllTaskChunks
  // ---------------------------------------------------------------------------------------------

  /** `Math.ceil`. */
  function Ceil(x: real): (n: int)
    ensures (n - 1) as real < x <= n as real
  {
    -((-x).Floor)
  }

  /** The finality buffer added to the end of a task's range. */
  function Buffer(task: Task, multiplier: real): int {
    Ceil(task.finalityRequirement as real * multiplier)
  }

  function Buffered(task: Task, multiplier: real): Task {
    task.(to := task.to + Buffer(task, multiplier))
  }

  predicate Plannable(task: Task, chunkSize: int, multiplier: real) {
    chunkSize > 0 && task.from < task.to + Buffer(task, multiplier)
  }

  ghost predicate PlanOf(plan: ChunkPlanResult, task: Task, chunkSize: int, multiplier: real) {
    var b := Buffered(task, multiplier);
    Tiles(plan.chunks, b, chunkSize, b.from, b.to) && plan.totalRangeUnits == b.to - b.from
  }

  /** `n` is the least integer that reaches `x`. */
  predicate Reaches(n: int, x: real) {
    (n - 1) as real < x <= n as real
  }

  /** `m` times the finality requirement, before rounding up. */
  function ExactBuffer(task: Task, m: real): real {
    m * task.finalityRequirement as real
  }

  /** The plan reaches `buffer` beyond the task's range, rounded up. */
  ghost predicate CoversWithBuffer(plan: ChunkPlanResult, task: Task, chunkSize: int, buffer: real) {
    forall n: int | Reaches(n, buffer) ::
      && Tiles(plan.chunks, task.(to := task.to + n), chunkSize, task.from, task.to + n)
      && plan.totalRangeUnits == task.to + n - task.from
  }

  /** The task's range with that buffer is not empty, and chunks have a size. */
  ghost predicate CanTile(task: Task, chunkSize: int, buffer: real) {
    chunkSize > 0 && forall n: int | Reaches(n, buffer) :: task.from < task.to + n
  }

  lemma LeastIsUnique(x: real, n: int, k: int)
    requires Reaches(n, x) && Reaches(k, x)
    ensures n == k
  {
    assert (n as real) < (k as real) + 1.0 && (k as real) < (n as real) + 1.0;
  }

  lemma BufferIsLeast(task: Task, m: real)
    ensures var x := ExactBuffer(task, m);
      Reaches(Buffer(task, m), x) && forall n: int | Reaches(n, x) :: n == Buffer(task, m)
  {
    var x := ExactBuffer(task, m);
    forall n: int | Reaches(n, x)
      ensures n == Buffer(task, m)
    {
      LeastIsUnique(x, n, Buffer(task, m));
    }
  }

  /** A plan for the buffered task covers the task's range and the requirement times the multiplier beyond it. */
  lemma PlanCoversWithBuffer(plan: ChunkPlanResult, task: Task, chunkSize: int, m: real)
    ensures PlanOf(plan, task, chunkSize, m)
      <==> CoversWithBuffer(plan, task, chunkSize, ExactBuffer(task, m))
  {
    BufferIsLeast(task, m);
  }

  /** Which tasks can be planned. */
  lemma PlannableIff(task: Task, chunkSize: int, m: real)
    ensures Plannable(task, chunkSize, m) <==> CanTile(task, chunkSize, ExactBuffer(task, m))
  {
    BufferIsLeast(task, m);
  }

  /** The result map after the first `n` tasks, when no id is repeated. */
  ghost predicate PlannedUpTo(
    tasks: seq<Task>, n: nat, chunkSize: int, multiplier: real, order: seq<string>,
    results: map<string, ChunkPlanResult>)
    requires n <= |tasks|
  {
    && order == Ids(tasks)[..n]
    && forall k :: 0 <= k < n ==>
      tasks[k].id in results && PlanOf(results[tasks[k].id], tasks[k], chunkSize, multiplier)
  }

  lemma PlanNext(
    tasks: seq<Task>, n: nat, chunkSize: int, multiplier: real, order: seq<string>,
    results: map<string, ChunkPlanResult>, plan: ChunkPlanResult)
    requires n < |tasks| && NoDuplicates(Ids(tasks))
    requires PlannedUpTo(tasks, n, chunkSize, multiplier, order, results)
    requires PlanOf(plan, tasks[n], chunkSize, multiplier)
    ensures PlannedUpTo(
      tasks, n + 1, chunkSize, multiplier, Add(order, tasks[n].id), results[tasks[n].id := plan])
  {
    assert Ids(tasks)[n] == tasks[n].id;
    TakeNext(Ids(tasks), n);
    NextElement(Ids(tasks), n);
    assert tasks[n].id !in Elements(order);
    forall k | 0 <= k < n
      ensures tasks[k].id != tasks[n].id
    {
      assert Ids(tasks)[k] != Ids(tasks)[n];
    }
  }

  /** What went wrong with a task. */
  predicate ExplainsChunks(task: Task, chunkSize: int, multiplier: real, error: ChunkError) {
    if chunkSize <= 0 then error == ChunkSizeNotPositive(chunkSize)
    else
      && error.InvalidRange? && error.id == task.id && error.from == task.from >= error.to
      && Reaches(error.to - task.to, ExactBuffer(task, multiplier))
  }

  /** `order` is the insertion order of the result map; a repeated id keeps its place and its last plan. */
  method PlanAllTaskChunks(tasks: seq<Task>, chunkSize: int, multiplier: real)
    returns (r: Result<(seq<string>, map<string, ChunkPlanResult>), ChunkError>)
    ensures r.Ok? <==> forall k :: 0 <= k < |tasks| ==> Plannable(tasks[k], chunkSize, multiplier)
    ensures r.Ok? && NoDuplicates(Ids(tasks)) ==>
      && r.value.0 == Ids(tasks) && r.value.1.Keys == Elements(Ids(tasks))
      && forall k :: 0 <= k < |tasks| ==>
        tasks[k].id in r.value.1 && PlanOf(r.value.1[tasks[k].id], tasks[k], chunkSize, multiplier)
    ensures r.Ok? <==>
      forall k :: 0 <= k < |tasks| ==> CanTile(tasks[k], chunkSize, ExactBuffer(tasks[k], multiplier))
    ensures r.Ok? && NoDuplicates(Ids(tasks)) ==>
      forall k :: 0 <= k < |tasks| ==>
        CoversWithBuffer(r.value.1[tasks[k].id], tasks[k], chunkSize, ExactBuffer(tasks[k], multiplier))
    ensures r.Err? ==> exists k :: 0 <= k < |tasks| && ExplainsChunks(tasks[k], chunkSize, multiplier, r.error)
  {
    hide Tiles, CoversWithBuffer, CanTile;
    forall k | 0 <= k < |tasks| {
      PlannableIff(tasks[k], chunkSize, multiplier);
    }
    var order: seq<string>, results: map<string, ChunkPlanResult> := [], map[];
    for i := 0 to |tasks|
      invariant forall k :: 0 <= k < i ==> Plannable(tasks[k], chunkSize, multiplier)
      invariant results.Keys == Elements(order)
      invariant NoDuplicates(Ids(tasks)) ==> PlannedUpTo(tasks, i, chunkSize, multiplier, order, results)
    {
      var bufferedTask := Buffered(tasks[i], multiplier);
      var plan := PlanTaskChunks(bufferedTask, chunkSize);
      if plan.Err? {
        assert !Plannable(tasks[i], chunkSize, multiplier);
        assert ExplainsChunks(tasks[i], chunkSize, multiplier, plan.error);
        return Err(plan.error);
      }
      if NoDuplicates(Ids(tasks)) {
        PlanNext(tasks, i, chunkSize, multiplier, order, results, plan.value);
      }
      order := Add(order, tasks[i].id);
      results := results[tasks[i].id := plan.value];
    }
    assert Ids(tasks)[..|tasks|] == Ids(tasks);
    if NoDuplicates(Ids(tasks)) {
      forall k | 0 <= k < |tasks| {
        PlanCoversWithBuffer(results[tasks[k].id], tasks[k], chunkSize, multiplier);
      }
    }
    r := Ok((order, results));
  }
}
