/** Putting the pieces together: from a task list to a scheduler, and from its chunks to a report. */
module Orchestrator {
  import opened Wrappers
  import opened Sequences
  import opened Graph
  import opened Planner
  import opened TopologicalOrder
  import opened ChunkPlanner
  import opened Validation
  import opened SchedulerSteps
  import opened Scheduler
  import opened CapacityReservations
  import CapacitySteps
  import SchedulerRuns
  import Sorting
  import Text

  datatype Config = Config(
    chunkSize: int, totalRatePerSecond: int, reservedForLive: int, finalityBufferMultiplier: Option<real>)

  datatype Failure =
    | PlanFailed(plan: PlanError)
    | CycleInOrder
    | ChunksFailed(chunk: ChunkError)
    | CapacityExceeded(reserved: int, total: int)

  datatype Plan = Plan(
    tasks: seq<Task>, dag: Dag, executionOrder: seq<string>, edges: seq<(string, string)>,
    scheduledChunks: seq<ScheduledChunk>, scheduler: BackfillScheduler, capacity: CapacityReservation,
    taskChunkPlans: map<string, ChunkPlanResult>)

  function Multiplier(config: Config): real {
    match config.finalityBufferMultiplier case Some(m) => m case None => 1.0
  }

  // ---------------------------------------------------------------------------------------------
  // The chunk list of a plan
  // ---------------------------------------------------------------------------------------------

  const MAX_ATTEMPTS := 3

  function ChunksOf(taskId: string, plan: ChunkPlanResult): seq<Chunk> {
    seq(|plan.chunks|, i requires 0 <= i < |plan.chunks| =>
      NewChunk(taskId, plan.chunks[i].chunkIndex, plan.chunks[i].from, plan.chunks[i].to, MAX_ATTEMPTS))
  }

  function AllChunks(order: seq<string>, plans: map<string, ChunkPlanResult>): seq<Chunk>
    requires Elements(order) <= plans.Keys
  {
    if order == [] then
      []
    else
      var front, last := order[..|order| - 1], order[|order| - 1];
      assert last in Elements(order) && Elements(front) <= Elements(order);
      AllChunks(front, plans) + ChunksOf(last, plans[last])
  }

  /** `order` lists the tasks and `plans` tiles the buffered range of each. */
  ghost predicate PlansTasks(
    tasks: seq<Task>, chunkSize: int, multiplier: real, order: seq<string>, plans: map<string, ChunkPlanResult>)
  {
    && NoDuplicates(Ids(tasks)) && NoDuplicates(order)
    && Elements(order) == Elements(Ids(tasks)) == plans.Keys
    && forall k :: 0 <= k < |tasks| ==>
      tasks[k].id in plans && PlanOf(plans[tasks[k].id], tasks[k], chunkSize, multiplier)
  }

  lemma {:induction false} ChunkMembers(order: seq<string>, plans: map<string, ChunkPlanResult>, c: Chunk)
    requires Elements(order) <= plans.Keys
    ensures c in AllChunks(order, plans) <==>
      exists id :: id in order && id in plans && c in ChunksOf(id, plans[id])
  {
    if order != [] {
      var front, last := order[..|order| - 1], order[|order| - 1];
      assert last in Elements(order) && Elements(front) <= Elements(order);
      ChunkMembers(front, plans, c);
      assert order == front + [last];
    }
  }

  lemma {:induction false} KeysDistinct(order: seq<string>, plans: map<string, ChunkPlanResult>)
    requires NoDuplicates(order) && Elements(order) <= plans.Keys
    requires forall id, i :: id in order && 0 <= i < |plans[id].chunks| ==> plans[id].chunks[i].chunkIndex == i
    ensures var cs := AllChunks(order, plans);
      forall i, j :: 0 <= i < j < |cs| ==> cs[i].key != cs[j].key
  {
    if order != [] {
      var front, last := order[..|order| - 1], order[|order| - 1];
      assert last in Elements(order) && Elements(front) <= Elements(order);
      KeysDistinct(front, plans);
      var a: seq<Chunk>, b: seq<Chunk> := AllChunks(front, plans), ChunksOf(last, plans[last]);
      forall i, j | 0 <= i < j < |a + b|
        ensures (a + b)[i].key != (a + b)[j].key
      {
        if i < |a| {
          assert a[i] in a;
          ChunkMembers(front, plans, a[i]);
          var id :| id in front && id in plans && a[i] in ChunksOf(id, plans[id]);
          if j >= |a| {
            assert id != last;
            KeysInjective(a[i], b[j - |a|]);
          }
        } else {
          KeysInjective(b[i - |a|], b[j - |a|]);
        }
      }
    }
  }

  lemma KeysInjective(c: Chunk, d: Chunk)
    requires c.key == ChunkKey(c.taskId, c.chunkIndex) && d.key == ChunkKey(d.taskId, d.chunkIndex)
    ensures c.key == d.key ==> c.taskId == d.taskId && c.chunkIndex == d.chunkIndex
  {
    if c.key == d.key {
      Text.IntTextHasNoColon(c.chunkIndex);
      Text.IntTextHasNoColon(d.chunkIndex);
      Text.SplitAtLastColon(c.taskId, Text.IntText(c.chunkIndex), d.taskId, Text.IntText(d.chunkIndex));
      Text.IntTextInjective(c.chunkIndex, d.chunkIndex);
    }
  }

  /** The chunk that `createBackfillPlan` makes of the `n`-th chunk plan of a task: pending, with three attempts. */
  ghost predicate IsChunkOf(c: Chunk, id: string, plan: ChunkPlanResult, n: int) {
    && 0 <= n < |plan.chunks|
    && c == Chunk(
      id + ":" + Text.IntText(n), id, n, plan.chunks[n].from, plan.chunks[n].to, Pending, None, None, 0, 3, None)
  }

  ghost predicate HasChunkOf(cs: seq<Chunk>, id: string, plan: ChunkPlanResult, n: int) {
    exists c :: c in cs && IsChunkOf(c, id, plan, n)
  }

  /** Earlier by its task's place in the order, then by its index. */
  predicate ComesBefore(order: seq<string>, c: Chunk, d: Chunk) {
    IndexOf(order, c.taskId) < IndexOf(order, d.taskId) || (c.taskId == d.taskId && c.chunkIndex < d.chunkIndex)
  }

  /** Exactly the planned chunks, task by task in execution order and each task's from first to last. */
  ghost predicate Schedules(cs: seq<Chunk>, order: seq<string>, plans: map<string, ChunkPlanResult>) {
    && (forall c | c in cs ::
          c.taskId in order && c.taskId in plans && IsChunkOf(c, c.taskId, plans[c.taskId], c.chunkIndex))
    && (forall id, n | id in order && id in plans && 0 <= n < |plans[id].chunks| :: HasChunkOf(cs, id, plans[id], n))
    && (forall i, j | 0 <= i < j < |cs| :: ComesBefore(order, cs[i], cs[j]))
  }

  lemma AllChunksAre(order: seq<string>, plans: map<string, ChunkPlanResult>)
    requires Elements(order) <= plans.Keys
    requires forall id, i :: id in order && 0 <= i < |plans[id].chunks| ==> plans[id].chunks[i].chunkIndex == i
    ensures forall c | c in AllChunks(order, plans) ::
      c.taskId in order && c.taskId in plans && IsChunkOf(c, c.taskId, plans[c.taskId], c.chunkIndex)
    ensures forall id, n | id in order && id in plans && 0 <= n < |plans[id].chunks| ::
      HasChunkOf(AllChunks(order, plans), id, plans[id], n)
  {
    forall c | c in AllChunks(order, plans)
      ensures c.taskId in order && c.taskId in plans && IsChunkOf(c, c.taskId, plans[c.taskId], c.chunkIndex)
    {
      ChunkMembers(order, plans, c);
    }
    forall id, n | id in order && id in plans && 0 <= n < |plans[id].chunks|
      ensures HasChunkOf(AllChunks(order, plans), id, plans[id], n)
    {
      var c := ChunksOf(id, plans[id])[n];
      assert c in ChunksOf(id, plans[id]) && c.chunkIndex == n;
      ChunkMembers(order, plans, c);
    }
  }

  lemma {:induction false} ChunksFollowOrder(order: seq<string>, plans: map<string, ChunkPlanResult>, i: nat, j: nat)
    requires NoDuplicates(order) && Elements(order) <= plans.Keys
    requires forall id, k :: id in order && 0 <= k < |plans[id].chunks| ==> plans[id].chunks[k].chunkIndex == k
    requires i < j < |AllChunks(order, plans)|
    ensures ComesBefore(order, AllChunks(order, plans)[i], AllChunks(order, plans)[j])
  {
    var front, last := order[..|order| - 1], order[|order| - 1];
    assert last in Elements(order) && Elements(front) <= Elements(order);
    var a, b := AllChunks(front, plans), ChunksOf(last, plans[last]);
    assert AllChunks(order, plans) == a + b;
    assert order == front + [last];
    if i < |a| {
      assert a[i] in a;
      ChunkMembers(front, plans, a[i]);
      assert IndexOf(order, a[i].taskId) < |front|;
      if j < |a| {
        ChunksFollowOrder(front, plans, i, j);
        assert a[j] in a;
        ChunkMembers(front, plans, a[j]);
        assert IndexOf(order, a[j].taskId) == IndexOf(front, a[j].taskId);
        assert IndexOf(order, a[i].taskId) == IndexOf(front, a[i].taskId);
      } else {
        assert IndexOf(order, last) == |front|;
      }
    }
  }

  lemma ScheduledInOrder(
    tasks: seq<Task>, chunkSize: int, multiplier: real, order: seq<string>, plans: map<string, ChunkPlanResult>)
    requires PlansTasks(tasks, chunkSize, multiplier, order, plans)
    ensures Elements(order) == plans.Keys && Schedules(AllChunks(order, plans), order, plans)
  {
    hide AllChunks, IsChunkOf, HasChunkOf, ComesBefore, PlanOf;
    PlannedIndices(tasks, chunkSize, multiplier, order, plans);
    AllChunksAre(order, plans);
    forall i, j | 0 <= i < j < |AllChunks(order, plans)|
      ensures ComesBefore(order, AllChunks(order, plans)[i], AllChunks(order, plans)[j])
    {
      ChunksFollowOrder(order, plans, i, j);
    }
  }

  lemma PlannedIndices(
    tasks: seq<Task>, chunkSize: int, multiplier: real, order: seq<string>, plans: map<string, ChunkPlanResult>)
    requires PlansTasks(tasks, chunkSize, multiplier, order, plans)
    ensures forall id, i :: id in order && 0 <= i < |plans[id].chunks| ==> plans[id].chunks[i].chunkIndex == i
  {
    forall id, i | id in order && 0 <= i < |plans[id].chunks|
      ensures plans[id].chunks[i].chunkIndex == i
    {
      assert id in Elements(order);
      IdBelongsToTask(tasks, id);
    }
  }

  // ---------------------------------------------------------------------------------------------
  // checkCompleteness
  // ---------------------------------------------------------------------------------------------

  function TaskRanges(tasks: seq<Task>): seq<Range> {
    seq(|tasks|, i requires 0 <= i < |tasks| => Range(tasks[i].from, tasks[i].to))
  }

  function CompletedRanges(chunks: seq<Chunk>): seq<Range> {
    if chunks == [] then []
    else
      CompletedRanges(chunks[..|chunks| - 1])
      + (if chunks[|chunks| - 1].status == Completed
         then [Range(chunks[|chunks| - 1].from, chunks[|chunks| - 1].to)] else [])
  }

  /** Some task's own range, without its buffer, holds `x`. */
  ghost predicate IsExpected(tasks: seq<Task>, x: int) {
    exists k :: 0 <= k < |tasks| && tasks[k].from <= x < tasks[k].to
  }

  /** Some completed chunk holds `x`. */
  ghost predicate IsCompleted(chunks: seq<Chunk>, x: int) {
    exists i :: 0 <= i < |chunks| && chunks[i].status == Completed && chunks[i].from <= x < chunks[i].to
  }

  lemma ExpectedIsCovered(tasks: seq<Task>, x: int)
    ensures Covered(x, TaskRanges(tasks)) <==> IsExpected(tasks, x)
  {
    if k :| 0 <= k < |tasks| && tasks[k].from <= x < tasks[k].to {
      assert In(x, TaskRanges(tasks)[k]);
    }
  }

  ghost predicate Forward(chunks: seq<Chunk>) {
    forall i :: 0 <= i < |chunks| ==> chunks[i].from <= chunks[i].to
  }

  lemma ReportIsExact(tasks: seq<Task>, chunks: seq<Chunk>, r: CompletenessReport)
    requires AllWellFormed(CompletedRanges(chunks)) ==> Reports(TaskRanges(tasks), CompletedRanges(chunks), r)
    ensures Forward(chunks) ==>
      forall x :: Covered(x, r.missingRanges) <==> IsExpected(tasks, x) && !IsCompleted(chunks, x)
  {
    hide CompletedRanges, TaskRanges, IsExpected;
    if Forward(chunks) {
      CompletedWellFormed(chunks);
      forall x
        ensures Covered(x, r.missingRanges) <==> IsExpected(tasks, x) && !IsCompleted(chunks, x)
      {
        CompletedCovers(chunks, x);
        ExpectedIsCovered(tasks, x);
      }
    }
  }

  method CheckCompleteness(tasks: seq<Task>, completedChunks: seq<Chunk>) returns (r: CompletenessReport)
    ensures AllWellFormed(CompletedRanges(completedChunks)) ==>
      Reports(TaskRanges(tasks), CompletedRanges(completedChunks), r)
    ensures r.isComplete <==> r.missingRanges == []
    ensures Forward(completedChunks) ==>
      forall x :: Covered(x, r.missingRanges) <==> IsExpected(tasks, x) && !IsCompleted(completedChunks, x)
  {
    var completedRanges: seq<Range> := [];
    for i := 0 to |completedChunks|
      invariant completedRanges == CompletedRanges(completedChunks[..i])
    {
      assert completedChunks[..i + 1][..i] == completedChunks[..i];
      var c := completedChunks[i];
      if c.status == Completed {
        completedRanges := completedRanges + [Range(c.from, c.to)];
      }
    }
    assert completedChunks[..|completedChunks|] == completedChunks;
    r := ValidateCompleteness(TaskRanges(tasks), completedRanges);
    ReportIsExact(tasks, completedChunks, r);
  }

  ghost predicate Inside(x: int, c: Chunk) {
    c.from <= x < c.to
  }

  lemma {:induction false} CompletedCovers(chunks: seq<Chunk>, x: int)
    ensures Covered(x, CompletedRanges(chunks))
      <==> exists i :: 0 <= i < |chunks| && chunks[i].status == Completed && Inside(x, chunks[i])
  {
    if chunks != [] {
      var front, last := chunks[..|chunks| - 1], chunks[|chunks| - 1];
      CompletedCovers(front, x);
      var r := Range(last.from, last.to);
      if last.status == Completed {
        CoveredSplit(x, CompletedRanges(front), [r]);
        assert Covered(x, [r]) <==> In(x, r) by {
          assert [r][0] == r;
        }
      } else {
        assert CompletedRanges(front) + [] == CompletedRanges(front);
      }
      if i :| 0 <= i < |front| && front[i].status == Completed && Inside(x, front[i]) {
        assert chunks[i] == front[i];
      }
      if i :| 0 <= i < |chunks| && chunks[i].status == Completed && Inside(x, chunks[i]) && i < |front| {
        assert front[i] == chunks[i];
      }
      assert chunks[|front|] == last;
    }
  }

  lemma {:induction false} CompletedWellFormed(chunks: seq<Chunk>)
    requires forall i :: 0 <= i < |chunks| ==> chunks[i].from <= chunks[i].to
    ensures AllWellFormed(CompletedRanges(chunks))
  {
    if chunks != [] {
      CompletedWellFormed(chunks[..|chunks| - 1]);
    }
  }

  // ---------------------------------------------------------------------------------------------
  // End to end
  // ---------------------------------------------------------------------------------------------

  /** `chunks` are the planned chunks in some state of execution. */
  ghost predicate Executing(chunks: seq<Chunk>, planned: seq<Chunk>) {
    |chunks| == |planned|
    && forall i :: 0 <= i < |planned| ==> SchedulerRuns.SamePlan(chunks[i], planned[i])
  }

  lemma IdBelongsToTask(tasks: seq<Task>, id: string)
    requires id in Elements(Ids(tasks))
    ensures exists k :: 0 <= k < |tasks| && tasks[k].id == id
  {
    var k :| 0 <= k < |tasks| && Ids(tasks)[k] == id;
  }

  /** Each chunk lies in the buffered range of the task it names. */
  lemma ChunkInTask(
    tasks: seq<Task>, chunkSize: int, multiplier: real, order: seq<string>,
    plans: map<string, ChunkPlanResult>, c: Chunk)
    returns (k: nat, i: nat)
    requires PlansTasks(tasks, chunkSize, multiplier, order, plans) && c in AllChunks(order, plans)
    ensures k < |tasks| && tasks[k].id == c.taskId && tasks[k].id in plans
    ensures i < |plans[tasks[k].id].chunks| && i == c.chunkIndex
    ensures c.from == plans[tasks[k].id].chunks[i].from && c.to == plans[tasks[k].id].chunks[i].to
    ensures tasks[k].from <= c.from < c.to <= tasks[k].to + Buffer(tasks[k], multiplier)
  {
    ChunkMembers(order, plans, c);
    var id :| id in order && id in plans && c in ChunksOf(id, plans[id]);
    assert id in Elements(order);
    IdBelongsToTask(tasks, id);
    k :| 0 <= k < |tasks| && tasks[k].id == id;
    i := ChunkInPlan(plans[id], tasks[k], chunkSize, multiplier, c);
  }

  lemma ChunkInPlan(plan: ChunkPlanResult, task: Task, chunkSize: int, multiplier: real, c: Chunk)
    returns (i: nat)
    requires PlanOf(plan, task, chunkSize, multiplier) && c in ChunksOf(task.id, plan)
    ensures i < |plan.chunks| && i == c.chunkIndex && c.taskId == task.id
    ensures c.from == plan.chunks[i].from && c.to == plan.chunks[i].to
    ensures task.from <= c.from < c.to <= task.to + Buffer(task, multiplier)
  {
    i :| 0 <= i < |plan.chunks| && ChunksOf(task.id, plan)[i] == c;
    var b := Buffered(task, multiplier);
    ChunkWithin(plan.chunks, b, chunkSize, b.from, b.to, i);
  }

  /** Each point of a buffered task range is in one of the task's chunks. */
  lemma PointHasChunk(
    tasks: seq<Task>, chunkSize: int, multiplier: real, order: seq<string>,
    plans: map<string, ChunkPlanResult>, k: nat, x: int)
    returns (j: nat)
    requires PlansTasks(tasks, chunkSize, multiplier, order, plans) && k < |tasks|
    requires tasks[k].from <= x < tasks[k].to + Buffer(tasks[k], multiplier)
    ensures j < |AllChunks(order, plans)| && Inside(x, AllChunks(order, plans)[j])
  {
    var id, b := tasks[k].id, Buffered(tasks[k], multiplier);
    var i := ChunkOfPoint(plans[id].chunks, b, chunkSize, b.from, b.to, x);
    var c := ChunksOf(id, plans[id])[i];
    assert Ids(tasks)[k] == id;
    assert id in Elements(order);
    ChunkMembers(order, plans, c);
    j :| 0 <= j < |AllChunks(order, plans)| && AllChunks(order, plans)[j] == c;
  }

  ghost predicate AllCompleted(chunks: seq<Chunk>) {
    forall i :: 0 <= i < |chunks| ==> chunks[i].status == Completed
  }

  lemma ExecutingWellFormed(
    tasks: seq<Task>, chunkSize: int, multiplier: real, order: seq<string>,
    plans: map<string, ChunkPlanResult>, chunks: seq<Chunk>)
    requires PlansTasks(tasks, chunkSize, multiplier, order, plans)
    requires Executing(chunks, AllChunks(order, plans))
    ensures forall i :: 0 <= i < |chunks| ==> chunks[i].from < chunks[i].to
    ensures AllWellFormed(CompletedRanges(chunks))
  {
    forall i | 0 <= i < |chunks|
      ensures chunks[i].from < chunks[i].to
    {
      assert AllChunks(order, plans)[i] in AllChunks(order, plans);
      var k, n := ChunkInTask(tasks, chunkSize, multiplier, order, plans, AllChunks(order, plans)[i]);
    }
    CompletedWellFormed(chunks);
  }

  /** Every point of a task lies in the buffered range of some task; a negative buffer can break this. */
  ghost predicate BuffersCover(tasks: seq<Task>, multiplier: real) {
    forall x | Covered(x, TaskRanges(tasks)) :: InBuffered(tasks, multiplier, x)
  }

  ghost predicate InBuffered(tasks: seq<Task>, multiplier: real, x: int) {
    exists k :: 0 <= k < |tasks| && tasks[k].from <= x < tasks[k].to + Buffer(tasks[k], multiplier)
  }

  lemma AllCompletedCovers(
    tasks: seq<Task>, chunkSize: int, multiplier: real, order: seq<string>,
    plans: map<string, ChunkPlanResult>, chunks: seq<Chunk>, x: int)
    requires PlansTasks(tasks, chunkSize, multiplier, order, plans)
    requires Executing(chunks, AllChunks(order, plans)) && AllCompleted(chunks)
    ensures Covered(x, CompletedRanges(chunks)) <==> InBuffered(tasks, multiplier, x)
  {
    var all := AllChunks(order, plans);
    CompletedCovers(chunks, x);
    if i :| 0 <= i < |chunks| && Inside(x, chunks[i]) {
      assert SchedulerRuns.SamePlan(chunks[i], all[i]) && all[i] in all;
      var k, n := ChunkInTask(tasks, chunkSize, multiplier, order, plans, all[i]);
    }
    if InBuffered(tasks, multiplier, x) {
      var k :| 0 <= k < |tasks| && tasks[k].from <= x < tasks[k].to + Buffer(tasks[k], multiplier);
      var j := PointHasChunk(tasks, chunkSize, multiplier, order, plans, k, x);
      assert SchedulerRuns.SamePlan(chunks[j], all[j]);
      assert Inside(x, chunks[j]);
    }
  }

  /** For any buffers: all chunks completed means complete exactly when the buffered ranges cover the tasks. */
  lemma AllCompletedIsCompleteIff(
    tasks: seq<Task>, chunkSize: int, multiplier: real, order: seq<string>,
    plans: map<string, ChunkPlanResult>, chunks: seq<Chunk>, r: CompletenessReport)
    requires PlansTasks(tasks, chunkSize, multiplier, order, plans)
    requires Executing(chunks, AllChunks(order, plans)) && AllCompleted(chunks)
    requires Reports(TaskRanges(tasks), CompletedRanges(chunks), r)
    ensures r.isComplete <==> BuffersCover(tasks, multiplier)
  {
    forall x
      ensures Covered(x, CompletedRanges(chunks)) <==> InBuffered(tasks, multiplier, x)
    {
      AllCompletedCovers(tasks, chunkSize, multiplier, order, plans, chunks, x);
    }
  }

  /** With buffers that do not shorten a range: all chunks completed means the report is complete. */
  lemma AllCompletedIsComplete(
    tasks: seq<Task>, chunkSize: int, multiplier: real, order: seq<string>,
    plans: map<string, ChunkPlanResult>, chunks: seq<Chunk>, r: CompletenessReport)
    requires PlansTasks(tasks, chunkSize, multiplier, order, plans)
    requires Executing(chunks, AllChunks(order, plans)) && AllCompleted(chunks)
    requires forall k :: 0 <= k < |tasks| ==> Buffer(tasks[k], multiplier) >= 0
    requires Reports(TaskRanges(tasks), CompletedRanges(chunks), r)
    ensures r.isComplete
  {
    AllCompletedIsCompleteIff(tasks, chunkSize, multiplier, order, plans, chunks, r);
    forall x | Covered(x, TaskRanges(tasks))
      ensures InBuffered(tasks, multiplier, x)
    {
      var k :| 0 <= k < |tasks| && In(x, TaskRanges(tasks)[k]);
    }
  }

  ghost predicate NoBuffers(tasks: seq<Task>, multiplier: real) {
    forall k :: 0 <= k < |tasks| ==> Buffer(tasks[k], multiplier) == 0
  }

  /** With zero buffers and disjoint tasks no point is in two chunks. */
  lemma PointInOneChunk(
    tasks: seq<Task>, chunkSize: int, multiplier: real, order: seq<string>,
    plans: map<string, ChunkPlanResult>, i: nat, j: nat, x: int)
    requires PlansTasks(tasks, chunkSize, multiplier, order, plans)
    requires NoBuffers(tasks, multiplier) && Disjoint(TaskRanges(tasks))
    requires i < |AllChunks(order, plans)| && j < |AllChunks(order, plans)|
    requires Inside(x, AllChunks(order, plans)[i]) && Inside(x, AllChunks(order, plans)[j])
    ensures i == j
  {
    var all := AllChunks(order, plans);
    assert all[i] in all && all[j] in all;
    var k, m := ChunkInTask(tasks, chunkSize, multiplier, order, plans, all[i]);
    var k', m' := ChunkInTask(tasks, chunkSize, multiplier, order, plans, all[j]);
    var ranges := TaskRanges(tasks);
    assert x in PointsOf(ranges[k]) && x in PointsOf(ranges[k']) by {
      assert In(x, ranges[k]) && In(x, ranges[k']);
    }
    assert k == k';
    var b := Buffered(tasks[k], multiplier);
    EachPointInOneChunk(plans[tasks[k].id].chunks, b, chunkSize, b.from, b.to, x);
    assert InChunk(x, plans[tasks[k].id].chunks[m]) && InChunk(x, plans[tasks[k].id].chunks[m']);
    assert m == m';
    PlannedKeysDistinct(tasks, chunkSize, multiplier, order, plans);
    SameOrigin(order, plans, i, j);
  }

  lemma PlannedKeysDistinct(
    tasks: seq<Task>, chunkSize: int, multiplier: real, order: seq<string>, plans: map<string, ChunkPlanResult>)
    requires PlansTasks(tasks, chunkSize, multiplier, order, plans)
    ensures var cs := AllChunks(order, plans);
      forall i, j :: 0 <= i < j < |cs| ==> cs[i].key != cs[j].key
  {
    PlannedIndices(tasks, chunkSize, multiplier, order, plans);
    KeysDistinct(order, plans);
  }

  lemma SameOrigin(order: seq<string>, plans: map<string, ChunkPlanResult>, i: nat, j: nat)
    requires Elements(order) <= plans.Keys
    requires var cs := AllChunks(order, plans);
      && (forall a, b :: 0 <= a < b < |cs| ==> cs[a].key != cs[b].key)
      && i < |cs| && j < |cs| && cs[i].taskId == cs[j].taskId && cs[i].chunkIndex == cs[j].chunkIndex
    ensures i == j
  {
    var cs := AllChunks(order, plans);
    ChunkMembers(order, plans, cs[i]);
    ChunkMembers(order, plans, cs[j]);
    assert cs[i].key == ChunkKey(cs[i].taskId, cs[i].chunkIndex);
    assert cs[j].key == ChunkKey(cs[j].taskId, cs[j].chunkIndex);
  }

  /** The missing ranges cover exactly the unfinished chunks. */
  lemma MissingIsUnfinished(
    tasks: seq<Task>, chunkSize: int, multiplier: real, order: seq<string>,
    plans: map<string, ChunkPlanResult>, chunks: seq<Chunk>, r: CompletenessReport, x: int)
    requires PlansTasks(tasks, chunkSize, multiplier, order, plans)
    requires Executing(chunks, AllChunks(order, plans))
    requires NoBuffers(tasks, multiplier) && Disjoint(TaskRanges(tasks))
    requires Reports(TaskRanges(tasks), CompletedRanges(chunks), r)
    ensures Covered(x, r.missingRanges)
      <==> exists i :: 0 <= i < |chunks| && chunks[i].status != Completed && Inside(x, chunks[i])
  {
    hide AllChunks, CompletedRanges, PlanOf;
    var all := AllChunks(order, plans);
    CompletedCovers(chunks, x);
    if Covered(x, r.missingRanges) {
      var k :| 0 <= k < |tasks| && In(x, TaskRanges(tasks)[k]);
      var j := PointHasChunk(tasks, chunkSize, multiplier, order, plans, k, x);
      assert SchedulerRuns.SamePlan(chunks[j], all[j]);
      assert Inside(x, chunks[j]);
    }
    if i :| 0 <= i < |chunks| && chunks[i].status != Completed && Inside(x, chunks[i]) {
      UnfinishedIsMissing(tasks, chunkSize, multiplier, order, plans, chunks, i, x);
    }
  }

  lemma UnfinishedIsMissing(
    tasks: seq<Task>, chunkSize: int, multiplier: real, order: seq<string>,
    plans: map<string, ChunkPlanResult>, chunks: seq<Chunk>, i: nat, x: int)
    requires PlansTasks(tasks, chunkSize, multiplier, order, plans)
    requires Executing(chunks, AllChunks(order, plans))
    requires NoBuffers(tasks, multiplier) && Disjoint(TaskRanges(tasks))
    requires i < |chunks| && chunks[i].status != Completed && Inside(x, chunks[i])
    ensures Covered(x, TaskRanges(tasks)) && !Covered(x, CompletedRanges(chunks))
  {
    var all := AllChunks(order, plans);
    assert SchedulerRuns.SamePlan(chunks[i], all[i]) && all[i] in all;
    var k, m := ChunkInTask(tasks, chunkSize, multiplier, order, plans, all[i]);
    assert In(x, TaskRanges(tasks)[k]);
    CompletedCovers(chunks, x);
    forall j | 0 <= j < |chunks| && Inside(x, chunks[j])
      ensures i == j
    {
      assert SchedulerRuns.SamePlan(chunks[j], all[j]);
      PointInOneChunk(tasks, chunkSize, multiplier, order, plans, i, j, x);
    }
  }

  /** With zero buffers and disjoint tasks the report is complete exactly when every chunk is. */
  lemma CompleteIffAllCompleted(
    tasks: seq<Task>, chunkSize: int, multiplier: real, order: seq<string>,
    plans: map<string, ChunkPlanResult>, chunks: seq<Chunk>, r: CompletenessReport)
    requires PlansTasks(tasks, chunkSize, multiplier, order, plans)
    requires Executing(chunks, AllChunks(order, plans))
    requires NoBuffers(tasks, multiplier) && Disjoint(TaskRanges(tasks))
    requires Reports(TaskRanges(tasks), CompletedRanges(chunks), r)
    ensures r.isComplete <==> AllCompleted(chunks)
  {
    ExecutingWellFormed(tasks, chunkSize, multiplier, order, plans, chunks);
    if AllCompleted(chunks) {
      AllCompletedIsComplete(tasks, chunkSize, multiplier, order, plans, chunks, r);
    }
    if r.isComplete {
      forall i | 0 <= i < |chunks|
        ensures chunks[i].status == Completed
      {
        var x := chunks[i].from;
        assert Inside(x, chunks[i]);
        MissingIsUnfinished(tasks, chunkSize, multiplier, order, plans, chunks, r, x);
      }
    }
  }

  /** The scheduler of a plan before anything has run. */
  ghost function StartOf(chunks: seq<Chunk>): SchedulerRuns.World {
    SchedulerRuns.World(
      State(chunks, map[], BackfillScheduler.InitialStatus(chunks)),
      seq(|chunks|, _ => 0), seq(|chunks|, _ => 0))
  }

  lemma {:induction false} InitialStatusPending(chunks: seq<Chunk>, i: nat)
    requires i < |chunks| && forall j :: 0 <= j < |chunks| ==> chunks[j].status == Pending
    ensures chunks[i].key in BackfillScheduler.InitialStatus(chunks)
    ensures BackfillScheduler.InitialStatus(chunks)[chunks[i].key] == Pending
  {
    if i < |chunks| - 1 {
      InitialStatusPending(chunks[..|chunks| - 1], i);
    }
  }

  lemma PlanStartsFresh(
    tasks: seq<Task>, chunkSize: int, multiplier: real, order: seq<string>, plans: map<string, ChunkPlanResult>)
    requires PlansTasks(tasks, chunkSize, multiplier, order, plans)
    ensures SchedulerRuns.Fresh(StartOf(AllChunks(order, plans)))
  {
    var cs := AllChunks(order, plans);
    PlannedKeysDistinct(tasks, chunkSize, multiplier, order, plans);
    forall i | 0 <= i < |cs|
      ensures cs[i].status == Pending && cs[i].attempts == 0 && cs[i].maxAttempts == MAX_ATTEMPTS
    {
      assert cs[i] in cs;
      ChunkMembers(order, plans, cs[i]);
    }
    forall i | 0 <= i < |cs|
      ensures cs[i].key in BackfillScheduler.InitialStatus(cs)
      ensures BackfillScheduler.InitialStatus(cs)[cs[i].key] == Pending
    {
      InitialStatusPending(cs, i);
    }
  }

  /**
   From task list to report, over every disciplined run: when the status map says that every chunk
   is completed, the completeness check on the chunk objects reports complete.
   */
  lemma FinishedRunIsComplete(
    tasks: seq<Task>, chunkSize: int, multiplier: real, order: seq<string>,
    plans: map<string, ChunkPlanResult>, acts: seq<SchedulerRuns.Action>, r: CompletenessReport)
    requires PlansTasks(tasks, chunkSize, multiplier, order, plans)
    requires forall k :: 0 <= k < |tasks| ==> Buffer(tasks[k], multiplier) >= 0
    requires SchedulerRuns.DisciplinedRun(StartOf(AllChunks(order, plans)), acts)
    requires var s := SchedulerRuns.After(StartOf(AllChunks(order, plans)), acts).s;
      && (forall i :: 0 <= i < |s.chunks| ==> SchedulerRuns.StatusOf(s, i) == Some(Completed))
      && Reports(TaskRanges(tasks), CompletedRanges(s.chunks), r)
    ensures r.isComplete
  {
    var w := StartOf(AllChunks(order, plans));
    var s := SchedulerRuns.After(w, acts).s;
    PlanStartsFresh(tasks, chunkSize, multiplier, order, plans);
    SchedulerRuns.FreshIsOk(w);
    SchedulerRuns.RunKeepsCount(w, acts);
    forall i | 0 <= i < |s.chunks|
      ensures SchedulerRuns.SamePlan(s.chunks[i], AllChunks(order, plans)[i]) && s.chunks[i].status == Completed
    {
      SchedulerRuns.RunKeepsPlan(w, acts, i);
      SchedulerRuns.RunsAreSafe(w, acts, i);
    }
    AllCompletedIsComplete(tasks, chunkSize, multiplier, order, plans, s.chunks, r);
  }

  // ---------------------------------------------------------------------------------------------
  // createBackfillPlan
  // ---------------------------------------------------------------------------------------------

  /** The sort by position in the execution order finds the tasks already in that order. */
  lemma OrderedAlready(order: seq<string>, tasks: seq<Task>)
    requires NoDuplicates(order) && Ids(tasks) == order
    ensures Sorting.SortBy((t: Task) => IndexOf(order, t.id), tasks) == tasks
  {
    var key := (t: Task) => IndexOf(order, t.id);
    forall i | 0 <= i < |tasks|
      ensures key(tasks[i]) == i
    {
      assert order[i] == tasks[i].id;
    }
    Sorting.SortByFixesSorted(key, tasks);
  }

  /** `tasks.flatMap((t) => t.dependencies.map(...))`. */
  method ListEdges(tasks: seq<Task>) returns (edges: seq<(string, string)>)
    ensures forall d, x :: (d, x) in edges <==> Depends(tasks, d, x)
  {
    edges := [];
    for i := 0 to |tasks|
      invariant forall d, x :: (d, x) in edges <==>
        exists k :: 0 <= k < i && tasks[k].id == x && d in tasks[k].dependencies
    {
      var t := tasks[i];
      ghost var before := edges;
      for j := 0 to |t.dependencies|
        invariant forall e :: e in edges <==> e in before || (e.1 == t.id && e.0 in t.dependencies[..j])
      {
        edges := edges + [(t.dependencies[j], t.id)];
      }
      assert t.dependencies[..|t.dependencies|] == t.dependencies;
    }
  }

  ghost predicate Hold(objects: seq<ScheduledChunk>, values: seq<Chunk>)
    reads objects
  {
    && |objects| == |values|
    && (forall i :: 0 <= i < |values| ==> objects[i].Value() == values[i])
    && (forall i, j :: 0 <= i < j < |objects| ==> objects[i] != objects[j])
  }

  lemma NextOfSuffix<T>(a: seq<T>, b: seq<T>, j: nat)
    requires j < |b|
    ensures a + b[..j + 1] == a + b[..j] + [b[j]]
  {
  }

  lemma HoldNext(objects: seq<ScheduledChunk>, values: seq<Chunk>, chunk: ScheduledChunk)
    requires Hold(objects, values) && chunk !in objects
    ensures Hold(objects + [chunk], values + [chunk.Value()])
  {
  }

  /** The inner loop of `CreateChunks`: one new object per chunk of a task. */
  method AppendChunks(objects0: seq<ScheduledChunk>, ghost values: seq<Chunk>, taskId: string, plan: ChunkPlanResult)
    returns (objects: seq<ScheduledChunk>)
    requires Hold(objects0, values)
    ensures Hold(objects, values + ChunksOf(taskId, plan))
    ensures forall o :: o in objects ==> o in objects0 || fresh(o)
  {
    objects := objects0;
    for j := 0 to |plan.chunks|
      invariant Hold(objects, values + ChunksOf(taskId, plan)[..j])
      invariant forall o :: o in objects ==> o in objects0 || fresh(o)
    {
      var cp := plan.chunks[j];
      var chunk := new ScheduledChunk(taskId, cp.chunkIndex, cp.from, cp.to, MAX_ATTEMPTS);
      HoldNext(objects, values + ChunksOf(taskId, plan)[..j], chunk);
      NextOfSuffix(values, ChunksOf(taskId, plan), j);
      objects := objects + [chunk];
    }
    assert ChunksOf(taskId, plan)[..|plan.chunks|] == ChunksOf(taskId, plan);
  }

  /** The loops that turn the chunk plans into chunk objects. */
  method CreateChunks(order: seq<string>, plans: map<string, ChunkPlanResult>)
    returns (objects: seq<ScheduledChunk>)
    requires Elements(order) <= plans.Keys
    ensures Hold(objects, AllChunks(order, plans))
    ensures forall o :: o in objects ==> fresh(o)
  {
    objects := [];
    for i := 0 to |order|
      invariant Hold(objects, AllChunks(order[..i], plans))
      invariant forall o :: o in objects ==> fresh(o)
    {
      assert order[i] in Elements(order);
      objects := AppendChunks(objects, AllChunks(order[..i], plans), order[i], plans[order[i]]);
      assert order[..i + 1][..i] == order[..i];
    }
    assert order[..|order|] == order;
  }

  /** The chunk objects and the scheduler over them. */
  method CreateScheduler(order: seq<string>, plans: map<string, ChunkPlanResult>)
    returns (scheduler: BackfillScheduler)
    requires Elements(order) <= plans.Keys
    ensures fresh(scheduler) && fresh(scheduler.leaseManager)
    ensures forall o :: o in scheduler.chunks ==> fresh(o)
    ensures scheduler.Valid() && scheduler.View() == StartOf(AllChunks(order, plans)).s
  {
    var chunks := CreateChunks(order, plans);
    scheduler := new BackfillScheduler(chunks);
    assert scheduler.Values() == AllChunks(order, plans);
  }

  ghost predicate AllPlannable(tasks: seq<Task>, chunkSize: int, multiplier: real) {
    forall k :: 0 <= k < |tasks| ==> Plannable(tasks[k], chunkSize, multiplier)
  }

  lemma SameTasks(dag: Dag, tasks: seq<Task>, order: seq<string>, ordered: seq<Task>)
    requires Represents(dag, tasks) && Elements(order) == dag.tasks.Keys
    requires |ordered| == |order|
    requires forall i :: 0 <= i < |order| ==> order[i] in dag.tasks && ordered[i] == dag.tasks[order[i]]
    ensures Ids(ordered) == order
    ensures forall t :: t in tasks <==> t in ordered
  {
    forall i | 0 <= i < |order|
      ensures ordered[i].id == order[i] && ordered[i] in tasks
    {
      assert order[i] in Elements(Ids(tasks));
      IdBelongsToTask(tasks, order[i]);
    }
    forall t | t in tasks
      ensures t in ordered
    {
      var k :| 0 <= k < |tasks| && tasks[k] == t;
      assert t.id in Elements(order);
      var i :| 0 <= i < |order| && order[i] == t.id;
      assert ordered[i] == t;
    }
  }

  /** What an accepted plan is: its graph, its order, its tiling and a scheduler that starts on it. */
  twostate predicate IsPlanFor(tasks: seq<Task>, config: Config, new p: Plan)
    reads p.scheduler, p.scheduler.leaseManager, p.scheduler.chunks, p.capacity
  {
    && p.tasks == tasks
    && Represents(p.dag, tasks) && IsTopologicalOrder(p.dag, p.executionOrder)
    && PlansTasks(tasks, config.chunkSize, Multiplier(config), p.executionOrder, p.taskChunkPlans)
    && (forall d, x :: (d, x) in p.edges <==> Depends(tasks, d, x))
    && p.scheduler.Valid() && p.scheduler.chunks == p.scheduledChunks
    && p.scheduler.View() == StartOf(AllChunks(p.executionOrder, p.taskChunkPlans)).s
    && CapacitySteps.Sound(p.capacity.View())
    && fresh(p.scheduler) && fresh(p.capacity)
  }

  lemma PlansCarryOver(
    tasks: seq<Task>, ordered: seq<Task>, chunkSize: int, multiplier: real, order: seq<string>,
    plans: map<string, ChunkPlanResult>)
    requires NoDuplicates(Ids(tasks)) && NoDuplicates(order) && Ids(ordered) == order
    requires Elements(order) == Elements(Ids(tasks)) == plans.Keys
    requires forall t :: t in tasks <==> t in ordered
    requires forall k :: 0 <= k < |ordered| ==>
      ordered[k].id in plans && PlanOf(plans[ordered[k].id], ordered[k], chunkSize, multiplier)
    ensures PlansTasks(tasks, chunkSize, multiplier, order, plans)
  {
    forall k | 0 <= k < |tasks|
      ensures tasks[k].id in plans && PlanOf(plans[tasks[k].id], tasks[k], chunkSize, multiplier)
    {
      assert tasks[k] in ordered;
      var j :| 0 <= j < |ordered| && ordered[j] == tasks[k];
    }
  }

  lemma PlannableCarriesOver(tasks: seq<Task>, ordered: seq<Task>, chunkSize: int, multiplier: real)
    requires forall t :: t in tasks <==> t in ordered
    ensures AllPlannable(tasks, chunkSize, multiplier) <==> AllPlannable(ordered, chunkSize, multiplier)
  {
    if AllPlannable(tasks, chunkSize, multiplier) {
      forall k | 0 <= k < |ordered|
        ensures Plannable(ordered[k], chunkSize, multiplier)
      {
        assert ordered[k] in tasks;
      }
    }
    if AllPlannable(ordered, chunkSize, multiplier) {
      forall k | 0 <= k < |tasks|
        ensures Plannable(tasks[k], chunkSize, multiplier)
      {
        assert tasks[k] in ordered;
      }
    }
  }

  /** `buildDAG`, `topologicalSort` and the ordered task list. */
  method OrderTasks(tasks: seq<Task>) returns (r: Result<(Dag, seq<string>, seq<Task>), Failure>)
    ensures r.Ok? <==> Accepted(tasks)
    ensures r.Ok? ==>
      && Represents(r.value.0, tasks) && IsTopologicalOrder(r.value.0, r.value.1)
      && Ids(r.value.2) == r.value.1 && forall t :: t in tasks <==> t in r.value.2
    ensures r.Err? ==> r.error.PlanFailed? && ExplainsPlan(tasks, r.error.plan)
  {
    var built := BuildDAG(tasks);
    if built.Err? {
      return Err(PlanFailed(built.error));
    }
    var dag := built.value;
    var sorted := TopologicalSort(dag);
    if sorted.None? {
      return Err(CycleInOrder);
    }
    var order := sorted.value;
    assert forall i :: 0 <= i < |order| ==> order[i] in Elements(order);
    var listed := seq(|order|, i requires 0 <= i < |order| => dag.tasks[order[i]]);
    SameTasks(dag, tasks, order, listed);
    OrderedAlready(order, listed);
    r := Ok((dag, order, Sorting.SortBy((t: Task) => IndexOf(order, t.id), listed)));
  }

  /** The configured multiplier, 1 when there is none. */
  predicate IsMultiplier(config: Config, m: real) {
    if config.finalityBufferMultiplier.Some? then m == config.finalityBufferMultiplier.value else m == 1.0
  }

  /** Every task keeps a range when `m` times its finality requirement, rounded up, is added to its end. */
  ghost predicate CanCover(tasks: seq<Task>, chunkSize: int, m: real) {
    forall k :: 0 <= k < |tasks| ==>
      CanTile(tasks[k], chunkSize, ExactBuffer(tasks[k], m))
  }

  /** Every task's plan tiles exactly that range. */
  ghost predicate CoversTasks(tasks: seq<Task>, chunkSize: int, m: real, plans: map<string, ChunkPlanResult>) {
    forall k :: 0 <= k < |tasks| ==>
      && tasks[k].id in plans
      && CoversWithBuffer(plans[tasks[k].id], tasks[k], chunkSize, ExactBuffer(tasks[k], m))
  }

  lemma CanCoverIff(tasks: seq<Task>, chunkSize: int, m: real)
    ensures AllPlannable(tasks, chunkSize, m) <==> CanCover(tasks, chunkSize, m)
  {
    hide Plannable, CanTile;
    forall k | 0 <= k < |tasks|
      ensures Plannable(tasks[k], chunkSize, m) <==> CanTile(tasks[k], chunkSize, ExactBuffer(tasks[k], m))
    {
      PlannableIff(tasks[k], chunkSize, m);
    }
  }

  lemma PlansCover(
    tasks: seq<Task>, chunkSize: int, m: real, order: seq<string>, plans: map<string, ChunkPlanResult>)
    requires PlansTasks(tasks, chunkSize, m, order, plans)
    ensures CoversTasks(tasks, chunkSize, m, plans)
  {
    forall k | 0 <= k < |tasks|
      ensures CoversWithBuffer(plans[tasks[k].id], tasks[k], chunkSize, ExactBuffer(tasks[k], m))
    {
      PlanCoversWithBuffer(plans[tasks[k].id], tasks[k], chunkSize, m);
    }
  }

  /** The first check that fails names the failure. */
  ghost predicate Explains(tasks: seq<Task>, config: Config, f: Failure) {
    match f
    case PlanFailed(error) => !Accepted(tasks) && ExplainsPlan(tasks, error)
    case CycleInOrder => false
    case ChunksFailed(error) =>
      && Accepted(tasks) && !AllPlannable(tasks, config.chunkSize, Multiplier(config))
      && exists t :: t in tasks && ExplainsChunks(t, config.chunkSize, Multiplier(config), error)
    case CapacityExceeded(reserved, total) =>
      && Accepted(tasks) && AllPlannable(tasks, config.chunkSize, Multiplier(config))
      && reserved == config.reservedForLive > config.totalRatePerSecond == total
  }

  /** Everything up to the chunk plans. */
  method PlanTasks(tasks: seq<Task>, config: Config)
    returns (r: Result<(Dag, seq<string>, map<string, ChunkPlanResult>), Failure>)
    ensures r.Ok? <==> Accepted(tasks) && AllPlannable(tasks, config.chunkSize, Multiplier(config))
    ensures r.Ok? ==>
      && Represents(r.value.0, tasks) && IsTopologicalOrder(r.value.0, r.value.1)
      && PlansTasks(tasks, config.chunkSize, Multiplier(config), r.value.1, r.value.2)
    ensures r.Err? ==> !r.error.CapacityExceeded? && Explains(tasks, config, r.error)
    ensures forall m: real | IsMultiplier(config, m) ::
      && (r.Ok? <==> Accepted(tasks) && CanCover(tasks, config.chunkSize, m))
      && (r.Ok? ==> CoversTasks(tasks, config.chunkSize, m, r.value.2))
  {
    hide CanCover, CoversTasks;
    CanCoverIff(tasks, config.chunkSize, Multiplier(config));
    var ordering := OrderTasks(tasks);
    if ordering.Err? {
      return Err(ordering.error);
    }
    var (dag, order, orderedTasks) := ordering.value;
    PlannableCarriesOver(tasks, orderedTasks, config.chunkSize, Multiplier(config));
    var planned := PlanAllTaskChunks(orderedTasks, config.chunkSize, Multiplier(config));
    if planned.Err? {
      assert exists t :: t in orderedTasks && ExplainsChunks(t, config.chunkSize, Multiplier(config), planned.error);
      return Err(ChunksFailed(planned.error));
    }
    var (planOrder, plans) := planned.value;
    PlansCarryOver(tasks, orderedTasks, config.chunkSize, Multiplier(config), order, plans);
    PlansCover(tasks, config.chunkSize, Multiplier(config), order, plans);
    r := Ok((dag, planOrder, plans));
  }

  method CreateBackfillPlan(tasks: seq<Task>, config: Config, now: int) returns (r: Result<Plan, Failure>)
    ensures r.Ok? <==>
      && Accepted(tasks)
      && AllPlannable(tasks, config.chunkSize, Multiplier(config))
      && config.reservedForLive <= config.totalRatePerSecond
    ensures r.Ok? ==> IsPlanFor(tasks, config, r.value)
    ensures r.Err? ==> Explains(tasks, config, r.error)
    ensures forall m: real | IsMultiplier(config, m) ::
      && (r.Ok? <==>
            Accepted(tasks) && CanCover(tasks, config.chunkSize, m)
            && config.reservedForLive <= config.totalRatePerSecond)
      && (r.Ok? ==> CoversTasks(tasks, config.chunkSize, m, r.value.taskChunkPlans))
    ensures r.Ok? ==>
      Schedules(r.value.scheduler.Values(), r.value.executionOrder, r.value.taskChunkPlans)
  {
    hide CanCover, CoversTasks, Schedules, AllPlannable, PlansTasks;
    hide Represents, IsTopologicalOrder, Accepted, Multiplier;
    var planned := PlanTasks(tasks, config);
    if planned.Err? {
      return Err(planned.error);
    }
    var (dag, order, plans) := planned.value;
    ScheduledInOrder(tasks, config.chunkSize, Multiplier(config), order, plans);
    var scheduler := CreateScheduler(order, plans);
    var capacity := CapacityReservation.Create(config.totalRatePerSecond, config.reservedForLive, now);
    if capacity.None? {
      return Err(CapacityExceeded(config.reservedForLive, config.totalRatePerSecond));
    }
    var edges := ListEdges(tasks);
    r := Ok(Plan(tasks, dag, order, edges, scheduler.chunks, scheduler, capacity.value, plans));
  }
}
