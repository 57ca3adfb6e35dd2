/**
 The dependency planner: graph construction with its three-colour cycle check, Kahn's topological
 sort, ready-task selection and the memoised longest chain.
 */
module Planner {
  import opened Wrappers
  import opened Graph
  import Sorting

  datatype Task = Task(
    id: string, from: int, to: int, dependencies: seq<string>, finalityRequirement: int, priority: int)

  /** `order` is the insertion order of the `tasks` map, which every loop of the source follows. */
  datatype Dag = Dag(
    order: seq<string>, tasks: map<string, Task>,
    adjacency: EdgeMap<string>, reverseAdjacency: EdgeMap<string>)

  datatype PlanError =
    | DuplicateTask(id: string)
    | UnknownDependency(task: string, dependency: string)
    | CycleDetected(node: string, neighbor: string)

  // ---------------------------------------------------------------------------------------------
  // What the task list says, independently of any graph built from it
  // ---------------------------------------------------------------------------------------------

  function Ids(tasks: seq<Task>): seq<string> {
    seq(|tasks|, i requires 0 <= i < |tasks| => tasks[i].id)
  }

  /** Some task named `x` lists `d` as a dependency. */
  ghost predicate Depends(tasks: seq<Task>, d: string, x: string) {
    exists k :: 0 <= k < |tasks| && tasks[k].id == x && d in tasks[k].dependencies
  }

  ghost predicate DependenciesKnown(tasks: seq<Task>) {
    forall d, x :: Depends(tasks, d, x) ==> d in Ids(tasks)
  }

  /** A closed walk along dependencies; a task depending on itself is one. */
  ghost predicate DependencyCycle(tasks: seq<Task>, p: seq<string>) {
    && |p| >= 2 && p[0] == p[|p| - 1]
    && forall i, j :: 0 <= i && j == i + 1 && j < |p| ==> Depends(tasks, p[i], p[j])
  }

  ghost predicate Accepted(tasks: seq<Task>) {
    && NoDuplicates(Ids(tasks))
    && DependenciesKnown(tasks)
    && forall p :: !DependencyCycle(tasks, p)
  }

  // ---------------------------------------------------------------------------------------------
  // Graph records
  // ---------------------------------------------------------------------------------------------

  /** Both ends of every edge are among `nodes`. */
  ghost predicate Within(g: EdgeMap<string>, nodes: set<string>) {
    forall x, y {:trigger Edge(g, x, y)} :: Edge(g, x, y) ==> x in nodes && y in nodes
  }

  /** The edge maps are mutually inverse and join tasks; a task missing from one has no edges there. */
  ghost predicate Linked(dag: Dag) {
    && Within(dag.adjacency, dag.tasks.Keys)
    && (forall x, y {:trigger Edge(dag.adjacency, x, y)} {:trigger Edge(dag.reverseAdjacency, y, x)} ::
      Edge(dag.adjacency, x, y) <==> Edge(dag.reverseAdjacency, y, x))
  }

  /** A record as the maps and sets of the source can hold it: no id and no neighbour twice. */
  ghost predicate WellFormed(dag: Dag) {
    && Linked(dag)
    && NoDuplicates(dag.order) && dag.tasks.Keys == Elements(dag.order)
    && ListsAreSets(dag.adjacency) && ListsAreSets(dag.reverseAdjacency)
  }

  ghost predicate ListsAreSets(g: EdgeMap<string>) {
    forall x :: x in g ==> NoDuplicates(g[x])
  }

  lemma SuccessorsAreSets(g: EdgeMap<string>, x: string)
    requires ListsAreSets(g)
    ensures NoDuplicates(Successors(g, x))
  {
  }

  lemma EdgesAreInverse(dag: Dag, d: string, x: string)
    requires Linked(dag)
    ensures Edge(dag.adjacency, d, x) <==> d in Successors(dag.reverseAdjacency, x)
    ensures Edge(dag.adjacency, d, x) ==> d in dag.tasks && x in dag.tasks
  {
    assert Edge(dag.adjacency, d, x) <==> Edge(dag.reverseAdjacency, x, d);
  }

  /** `dag` is the graph of `tasks`: same ids in the same order, an edge for each dependency. */
  ghost predicate Represents(dag: Dag, tasks: seq<Task>) {
    && WellFormed(dag)
    && dag.adjacency.Keys == dag.tasks.Keys && dag.reverseAdjacency.Keys == dag.tasks.Keys
    && dag.order == Ids(tasks)
    && (forall i :: 0 <= i < |tasks| ==> tasks[i].id in dag.tasks && dag.tasks[tasks[i].id] == tasks[i])
    && (forall d, x :: Edge(dag.adjacency, d, x) <==> Depends(tasks, d, x))
  }

  // ---------------------------------------------------------------------------------------------
  // Three-colour depth-first search
  // ---------------------------------------------------------------------------------------------

  datatype Color = White | Gray | Black

  /**
   The colouring while `stack` is being explored: gray nodes are exactly the stack, and every edge
   out of a black node leads to a black node that finished earlier.
   */
  ghost predicate Coloring(
    g: EdgeMap<string>, color: map<string, Color>, stack: seq<string>, finish: map<string, int>, clock: int)
  {
    && color.Keys == g.Keys && Closed(g)
    && (forall x :: x in color && color[x] == Gray <==> x in stack)
    && (forall x :: x in finish <==> x in color && color[x] == Black)
    && (forall x :: x in finish ==> finish[x] < clock)
    && (forall x, y {:trigger Edge(g, x, y)} :: x in finish && Edge(g, x, y) ==> y in finish && finish[y] < finish[x])
  }

  ghost function Whites(color: map<string, Color>): set<string> {
    set x | x in color && color[x] == White
  }

  /** A cycle that starts with the edge from `a` to `b`. */
  ghost predicate CycleThrough(g: EdgeMap<string>, a: string, b: string) {
    exists p :: IsCycle(g, p) && p[0] == a && p[1] == b
  }

  lemma GrayHitIsCycle(g: EdgeMap<string>, stack: seq<string>, b: string)
    requires |stack| > 0 && IsChain(g, stack) && b in stack && Edge(g, stack[|stack| - 1], b)
    ensures CycleThrough(g, stack[|stack| - 1], b)
  {
    var i :| 0 <= i < |stack| && stack[i] == b;
    var a := stack[|stack| - 1];
    ChainSlice(g, stack, i, |stack|);
    ChainPrepend(g, a, stack[i..]);
    assert IsCycle(g, [a] + stack[i..]);
  }

  lemma StartNode(
    g: EdgeMap<string>, color: map<string, Color>, stack: seq<string>, finish: map<string, int>, clock: int,
    node: string)
    requires Coloring(g, color, stack, finish, clock) && node in color && color[node] == White
    ensures Coloring(g, color[node := Gray], stack + [node], finish, clock)
    ensures Whites(color[node := Gray]) <= Whites(color) - {node} && node in Whites(color)
  {
  }

  lemma FinishNode(
    g: EdgeMap<string>, color: map<string, Color>, stack: seq<string>, finish: map<string, int>, clock: int,
    node: string)
    requires Coloring(g, color, stack + [node], finish, clock) && node !in stack
    requires forall y :: Edge(g, node, y) ==> y in finish
    ensures Coloring(g, color[node := Black], stack, finish[node := clock], clock + 1)
    ensures Whites(color[node := Black]) <= Whites(color)
  {
    assert node in stack + [node];
    assert node !in finish;
    var color', finish' := color[node := Black], finish[node := clock];
    forall x, y | x in finish' && Edge(g, x, y)
      ensures y in finish' && finish'[y] < finish'[x]
    {
    }
    forall x
      ensures x in color' && color'[x] == Gray <==> x in stack
    {
      assert x in stack + [node] <==> x in stack || x == node;
    }
  }

  /** `dfs`: returns the new colours, or the edge on which a gray neighbour was met. */
  method Visit(
    g: EdgeMap<string>, node: string, color0: map<string, Color>,
    ghost stack: seq<string>, ghost finish0: map<string, int>, ghost clock0: int)
    returns (
      r: Result<map<string, Color>, (string, string)>,
      ghost finish: map<string, int>, ghost clock: int)
    requires node in color0 && color0[node] == White
    requires Coloring(g, color0, stack, finish0, clock0) && IsChain(g, stack + [node])
    ensures r.Ok? ==>
      && Coloring(g, r.value, stack, finish, clock)
      && r.value[node] == Black && Whites(r.value) <= Whites(color0)
      && finish0.Keys <= finish.Keys
    ensures r.Err? ==> CycleThrough(g, r.error.0, r.error.1)
    decreases Whites(color0)
  {
    StartNode(g, color0, stack, finish0, clock0, node);
    var color := color0[node := Gray];
    finish, clock := finish0, clock0;
    ghost var path := stack + [node];
    var neighbors := Successors(g, node);
    for i := 0 to |neighbors|
      invariant Coloring(g, color, path, finish, clock)
      invariant Whites(color) <= Whites(color0) - {node}
      invariant finish0.Keys <= finish.Keys
      invariant forall k :: 0 <= k < i ==> neighbors[k] in finish
    {
      var neighbor := neighbors[i];
      assert Edge(g, node, neighbor);
      if color[neighbor] == Gray {
        GrayHitIsCycle(g, path, neighbor);
        return Err((node, neighbor)), finish, clock;
      }
      if color[neighbor] == White {
        ChainAppend(g, path, neighbor);
        var sub, finish', clock' := Visit(g, neighbor, color, path, finish, clock);
        if sub.Err? {
          return Err(sub.error), finish', clock';
        }
        color, finish, clock := sub.value, finish', clock';
      }
      assert neighbor in finish;
    }
    assert node !in stack;
    FinishNode(g, color, stack, finish, clock, node);
    color := color[node := Black];
    finish, clock := finish[node := clock], clock + 1;
    r := Ok(color);
  }

  method ValidateAcyclic(g: EdgeMap<string>, order: seq<string>)
    returns (r: Option<(string, string)>)
    requires Closed(g) && Elements(order) == g.Keys
    ensures r.None? <==> Acyclic(g)
    ensures r.Some? ==> CycleThrough(g, r.value.0, r.value.1)
  {
    var color := map x | x in g :: White;
    ghost var finish: map<string, int>, clock := map[], 0;
    for i := 0 to |order|
      invariant Coloring(g, color, [], finish, clock)
      invariant forall k :: 0 <= k < i ==> order[k] in finish
    {
      if color[order[i]] == White {
        assert IsChain(g, [] + [order[i]]);
        var sub, finish', clock' := Visit(g, order[i], color, [], finish, clock);
        if sub.Err? {
          return Some(sub.error);
        }
        color, finish, clock := sub.value, finish', clock';
      }
      assert order[i] in finish;
    }
    assert Ranks(g, finish) by {
      forall x, y | Edge(g, x, y)
        ensures x in finish && y in finish && finish[y] < finish[x]
      {
        assert x in Elements(order);
      }
    }
    RankedIsAcyclic(g, finish);
    r := None;
  }

  // ---------------------------------------------------------------------------------------------
  // buildDAG
  // ---------------------------------------------------------------------------------------------

  function AddEdge(g: EdgeMap<string>, x: string, y: string): (r: EdgeMap<string>)
    requires x in g
    ensures r.Keys == g.Keys
    ensures forall a, b :: Edge(r, a, b) <==> Edge(g, a, b) || (a == x && b == y)
    ensures ListsAreSets(g) ==> ListsAreSets(r)
  {
    g[x := Add(g[x], y)]
  }

  /** The dependencies read after `i` whole tasks and the first `j` entries of the next one. */
  ghost predicate DependsUpTo(tasks: seq<Task>, i: nat, j: nat, d: string, x: string) {
    exists k, m :: 0 <= k < |tasks| && 0 <= m < |tasks[k].dependencies| && (k < i || (k == i && m < j))
      && tasks[k].id == x && tasks[k].dependencies[m] == d
  }

  ghost predicate EdgesRead(
    tasks: seq<Task>, i: nat, j: nat, adjacency: EdgeMap<string>, reverse: EdgeMap<string>)
  {
    && adjacency.Keys == Elements(Ids(tasks)) && reverse.Keys == Elements(Ids(tasks))
    && ListsAreSets(adjacency) && ListsAreSets(reverse)
    && (forall d, x :: Edge(adjacency, d, x) <==> DependsUpTo(tasks, i, j, d, x))
    && (forall d, x :: Edge(reverse, x, d) <==> DependsUpTo(tasks, i, j, d, x))
  }

  ghost predicate KnownUpTo(tasks: seq<Task>, i: nat, j: nat) {
    forall d, x :: DependsUpTo(tasks, i, j, d, x) ==> d in Ids(tasks)
  }

  lemma ReadNext(tasks: seq<Task>, i: nat, j: nat)
    requires i < |tasks| && j < |tasks[i].dependencies|
    ensures forall d, x ::
      DependsUpTo(tasks, i, j + 1, d, x)
      <==> (DependsUpTo(tasks, i, j, d, x) || (d == tasks[i].dependencies[j] && x == tasks[i].id))
  {
    assert DependsUpTo(tasks, i, j + 1, tasks[i].dependencies[j], tasks[i].id) by {
      assert i < |tasks| && j < |tasks[i].dependencies|;
    }
  }

  lemma LinkNext(
    tasks: seq<Task>, i: nat, j: nat, adjacency: EdgeMap<string>, reverse: EdgeMap<string>)
    requires i < |tasks| && j < |tasks[i].dependencies| && tasks[i].dependencies[j] in adjacency
    requires EdgesRead(tasks, i, j, adjacency, reverse) && KnownUpTo(tasks, i, j)
    ensures tasks[i].id in reverse && KnownUpTo(tasks, i, j + 1)
    ensures EdgesRead(tasks, i, j + 1,
      AddEdge(adjacency, tasks[i].dependencies[j], tasks[i].id),
      AddEdge(reverse, tasks[i].id, tasks[i].dependencies[j]))
  {
    assert Ids(tasks)[i] == tasks[i].id;
    assert tasks[i].dependencies[j] in Elements(Ids(tasks));
    ReadNext(tasks, i, j);
    var next := j + 1;
    forall d, x | DependsUpTo(tasks, i, next, d, x)
      ensures d in Ids(tasks)
    {
      assert DependsUpTo(tasks, i, j, d, x) || d == tasks[i].dependencies[j];
    }
  }

  lemma ReadTask(tasks: seq<Task>, i: nat)
    requires i < |tasks|
    ensures forall d, x ::
      DependsUpTo(tasks, i + 1, 0, d, x) <==> DependsUpTo(tasks, i, |tasks[i].dependencies|, d, x)
  {
  }

  lemma ReadAll(tasks: seq<Task>, d: string, x: string)
    ensures DependsUpTo(tasks, |tasks|, 0, d, x) <==> Depends(tasks, d, x)
  {
    if Depends(tasks, d, x) {
      var k :| 0 <= k < |tasks| && tasks[k].id == x && d in tasks[k].dependencies;
      var m :| 0 <= m < |tasks[k].dependencies| && tasks[k].dependencies[m] == d;
    }
  }

  /** Cycles of the edge map are cycles of the dependency relation and conversely. */
  lemma CyclesAgree(g: EdgeMap<string>, tasks: seq<Task>)
    requires forall d, x :: Edge(g, d, x) <==> Depends(tasks, d, x)
    ensures forall p :: IsCycle(g, p) <==> DependencyCycle(tasks, p)
  {
  }

  lemma EdgesReadRepresents(tasks: seq<Task>, dag: Dag)
    requires dag.order == Ids(tasks) && NoDuplicates(dag.order) && dag.tasks.Keys == Elements(dag.order)
    requires forall k :: 0 <= k < |tasks| ==> tasks[k].id in dag.tasks && dag.tasks[tasks[k].id] == tasks[k]
    requires EdgesRead(tasks, |tasks|, 0, dag.adjacency, dag.reverseAdjacency)
    requires KnownUpTo(tasks, |tasks|, 0)
    ensures Represents(dag, tasks)
  {
    forall d, x
      ensures DependsUpTo(tasks, |tasks|, 0, d, x) <==> Depends(tasks, d, x)
      ensures Depends(tasks, d, x) ==> x in Ids(tasks)
    {
      ReadAll(tasks, d, x);
      if Depends(tasks, d, x) {
        var k :| 0 <= k < |tasks| && tasks[k].id == x && d in tasks[k].dependencies;
        assert Ids(tasks)[k] == x;
      }
    }
  }

  lemma RepeatedId(tasks: seq<Task>, i: nat, j: nat)
    requires i < j < |tasks| && tasks[i].id == tasks[j].id
    ensures !NoDuplicates(Ids(tasks))
  {
    assert Ids(tasks)[i] == Ids(tasks)[j];
  }

  /** The task map after the first `n` tasks. */
  ghost predicate IndexedUpTo(tasks: seq<Task>, n: nat, order: seq<string>, taskMap: map<string, Task>)
    requires n <= |tasks|
  {
    && order == Ids(tasks)[..n] && NoDuplicates(order) && taskMap.Keys == Elements(order)
    && forall k :: 0 <= k < n ==> tasks[k].id in taskMap && taskMap[tasks[k].id] == tasks[k]
  }

  lemma IndexNext(tasks: seq<Task>, n: nat, order: seq<string>, taskMap: map<string, Task>)
    requires n < |tasks| && IndexedUpTo(tasks, n, order, taskMap) && tasks[n].id !in taskMap
    ensures IndexedUpTo(tasks, n + 1, order + [tasks[n].id], taskMap[tasks[n].id := tasks[n]])
  {
    TakeNext(Ids(tasks), n);
    assert tasks[n].id !in order;
    assert Elements(order + [tasks[n].id]) == Elements(order) + {tasks[n].id};
  }

  /** The first loop: registers every task under its id and rejects a repeated id. */
  method IndexTasks(tasks: seq<Task>)
    returns (r: Option<string>, order: seq<string>, taskMap: map<string, Task>)
    ensures r.None? <==> NoDuplicates(Ids(tasks))
    ensures r.None? ==>
      && order == Ids(tasks) && taskMap.Keys == Elements(order)
      && forall k :: 0 <= k < |tasks| ==> tasks[k].id in taskMap && taskMap[tasks[k].id] == tasks[k]
    ensures r.Some? ==> exists i, j :: 0 <= i < j < |tasks| && tasks[i].id == r.value == tasks[j].id
  {
    taskMap, order := map[], [];
    for i := 0 to |tasks|
      invariant IndexedUpTo(tasks, i, order, taskMap)
    {
      var task := tasks[i];
      if task.id in taskMap {
        var k :| 0 <= k < i && order[k] == task.id;
        RepeatedId(tasks, k, i);
        return Some(task.id), order, taskMap;
      }
      IndexNext(tasks, i, order, taskMap);
      taskMap := taskMap[task.id := task];
      order := order + [task.id];
    }
    assert order == Ids(tasks);
    r := None;
  }

  /** The second loop: one edge per dependency, in both maps, rejecting an unknown name. */
  method LinkTasks(tasks: seq<Task>, taskMap: map<string, Task>)
    returns (r: Option<(string, string)>, adjacency: EdgeMap<string>, reverse: EdgeMap<string>)
    requires taskMap.Keys == Elements(Ids(tasks))
    ensures r.None? ==>
      EdgesRead(tasks, |tasks|, 0, adjacency, reverse) && KnownUpTo(tasks, |tasks|, 0)
    ensures r.Some? ==> Depends(tasks, r.value.1, r.value.0) && r.value.1 !in Ids(tasks)
  {
    adjacency := map x | x in taskMap :: [];
    reverse := map x | x in taskMap :: [];
    for i := 0 to |tasks|
      invariant EdgesRead(tasks, i, 0, adjacency, reverse) && KnownUpTo(tasks, i, 0)
    {
      var task := tasks[i];
      for j := 0 to |task.dependencies|
        invariant EdgesRead(tasks, i, j, adjacency, reverse) && KnownUpTo(tasks, i, j)
      {
        var depId := task.dependencies[j];
        if depId !in taskMap {
          return Some((task.id, depId)), adjacency, reverse;
        }
        LinkNext(tasks, i, j, adjacency, reverse);
        adjacency := AddEdge(adjacency, depId, task.id);
        reverse := AddEdge(reverse, task.id, depId);
      }
      ReadTask(tasks, i);
    }
    r := None;
  }

  /** What is wrong with a rejected task list: the first check that fails names a task, an edge or a cycle. */
  ghost predicate ExplainsPlan(tasks: seq<Task>, error: PlanError) {
    match error
    case DuplicateTask(id) => exists i, j :: 0 <= i < j < |tasks| && tasks[i].id == id == tasks[j].id
    case UnknownDependency(x, d) =>
      NoDuplicates(Ids(tasks)) && Depends(tasks, d, x) && d !in Ids(tasks)
    case CycleDetected(a, b) =>
      && NoDuplicates(Ids(tasks)) && DependenciesKnown(tasks)
      && exists p :: DependencyCycle(tasks, p) && p[0] == a && p[1] == b
  }

  method BuildDAG(tasks: seq<Task>) returns (r: Result<Dag, PlanError>)
    ensures r.Ok? <==> Accepted(tasks)
    ensures r.Ok? ==> Represents(r.value, tasks) && Acyclic(r.value.adjacency)
    ensures r.Err? ==> ExplainsPlan(tasks, r.error)
  {
    var duplicate, order, taskMap := IndexTasks(tasks);
    if duplicate.Some? {
      return Err(DuplicateTask(duplicate.value));
    }
    var unknown, adjacency, reverse := LinkTasks(tasks, taskMap);
    if unknown.Some? {
      return Err(UnknownDependency(unknown.value.0, unknown.value.1));
    }
    var dag := Dag(order, taskMap, adjacency, reverse);
    EdgesReadRepresents(tasks, dag);
    CyclesAgree(adjacency, tasks);
    var cycle := ValidateAcyclic(adjacency, order);
    if cycle.Some? {
      return Err(CycleDetected(cycle.value.0, cycle.value.1));
    }
    r := Ok(dag);
  }
}
