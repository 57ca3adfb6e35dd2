/**
 Ready-task selection and the memoised longest chain, and the theorem that joins them: completing
 everything that is ready, round after round, takes exactly `criticalPathLength` rounds.
 */
module CriticalPath {
  import opened Graph
  import opened Planner
  import Sorting

  // ---------------------------------------------------------------------------------------------
  // getReadyTasks
  // ---------------------------------------------------------------------------------------------

  predicate IsReady(dag: Dag, completed: set<string>, id: string) {
    && id in dag.tasks && id !in completed
    && forall d | d in Successors(dag.reverseAdjacency, id) :: d in completed
  }

  function ReadyInOrder(dag: Dag, completed: set<string>, order: seq<string>): seq<Task> {
    if order == [] then []
    else
      (if IsReady(dag, completed, order[0]) then [dag.tasks[order[0]]] else [])
      + ReadyInOrder(dag, completed, order[1..])
  }

  function ByPriority(): Task -> int {
    (t: Task) => -t.priority
  }

  lemma {:induction false} ReadyInOrderAppend(dag: Dag, completed: set<string>, order: seq<string>, id: string)
    ensures ReadyInOrder(dag, completed, order + [id])
      == ReadyInOrder(dag, completed, order)
        + (if IsReady(dag, completed, id) then [dag.tasks[id]] else [])
  {
    if order == [] {
    } else {
      assert (order + [id])[1..] == order[1..] + [id];
      ReadyInOrderAppend(dag, completed, order[1..], id);
    }
  }

  lemma {:induction false} ReadyInOrderMembers(dag: Dag, completed: set<string>, order: seq<string>, t: Task)
    ensures t in ReadyInOrder(dag, completed, order)
      <==> exists id :: id in order && IsReady(dag, completed, id) && dag.tasks[id] == t
  {
    if order != [] {
      ReadyInOrderMembers(dag, completed, order[1..], t);
      assert order == [order[0]] + order[1..];
    }
  }

  ghost function ReadySet(dag: Dag, completed: set<string>): set<string> {
    set id | id in dag.tasks && IsReady(dag, completed, id)
  }

  lemma {:induction false} ReadyInOrderCount(dag: Dag, completed: set<string>, order: seq<string>)
    requires NoDuplicates(order) && Elements(order) <= dag.tasks.Keys
    ensures |ReadyInOrder(dag, completed, order)| == |set id | id in order && IsReady(dag, completed, id)|
  {
    if order != [] {
      var rest := set id | id in order[1..] && IsReady(dag, completed, id);
      ReadyInOrderCount(dag, completed, order[1..]);
      assert (set id | id in order && IsReady(dag, completed, id))
        == rest + (if IsReady(dag, completed, order[0]) then {order[0]} else {});
      assert order[0] !in order[1..];
    }
  }

  lemma ReadyListed(dag: Dag, completed: set<string>)
    requires WellFormed(dag)
    ensures var listed := ReadyInOrder(dag, completed, dag.order);
      && (forall t :: t in listed <==> exists id :: IsReady(dag, completed, id) && dag.tasks[id] == t)
      && |listed| == |ReadySet(dag, completed)|
  {
    var listed := ReadyInOrder(dag, completed, dag.order);
    assert forall id :: id in dag.order <==> id in Elements(dag.order);
    ReadyInOrderCount(dag, completed, dag.order);
    assert ReadySet(dag, completed) == set id | id in dag.order && IsReady(dag, completed, id);
    forall t
      ensures t in listed <==> exists id :: IsReady(dag, completed, id) && dag.tasks[id] == t
    {
      ReadyInOrderMembers(dag, completed, dag.order, t);
    }
  }

  /** Sorting keeps the tasks, orders them by falling priority, and is stable. */
  lemma ReadySorted(listed: seq<Task>)
    ensures var ready := Sorting.SortBy(ByPriority(), listed);
      && (forall t :: t in ready <==> t in listed) && |ready| == |listed|
      && (forall i, j :: 0 <= i < j < |ready| ==> ready[i].priority >= ready[j].priority)
      && (forall k :: Sorting.OfKey(ByPriority(), k, ready) == Sorting.OfKey(ByPriority(), k, listed))
  {
    var ready := Sorting.SortBy(ByPriority(), listed);
    Sorting.SortByMembers(ByPriority(), listed);
    Sorting.SortBySorts(ByPriority(), listed);
    forall i, j | 0 <= i < j < |ready|
      ensures ready[i].priority >= ready[j].priority
    {
      assert ByPriority()(ready[i]) <= ByPriority()(ready[j]);
    }
    forall k
      ensures Sorting.OfKey(ByPriority(), k, ready) == Sorting.OfKey(ByPriority(), k, listed)
    {
      Sorting.SortByIsStable(ByPriority(), k, listed);
    }
  }

  ghost predicate DependenciesIn(dag: Dag, done: set<string>, x: string) {
    forall d {:trigger Edge(dag.adjacency, d, x)} :: Edge(dag.adjacency, d, x) ==> d in done
  }

  /** A task is ready exactly when it is open and every edge into it comes from a completed task. */
  lemma ReadyIff(dag: Dag, completed: set<string>, id: string)
    requires Linked(dag)
    ensures IsReady(dag, completed, id)
      <==> id in dag.tasks && id !in completed && DependenciesIn(dag, completed, id)
  {
    forall d
      ensures Edge(dag.adjacency, d, id) <==> d in Successors(dag.reverseAdjacency, id)
    {
      EdgesAreInverse(dag, d, id);
    }
  }

  /** Exactly the ready tasks, as many as there are, by falling priority and in map order among equals. */
  method GetReadyTasks(dag: Dag, completed: set<string>) returns (ready: seq<Task>)
    requires WellFormed(dag)
    ensures forall t ::
      t in ready <==> exists id :: IsReady(dag, completed, id) && dag.tasks[id] == t
    ensures |ready| == |ReadySet(dag, completed)|
    ensures forall i, j :: 0 <= i < j < |ready| ==> ready[i].priority >= ready[j].priority
    ensures forall k ::
      Sorting.OfKey(ByPriority(), k, ready)
      == Sorting.OfKey(ByPriority(), k, ReadyInOrder(dag, completed, dag.order))
    ensures forall t :: t in ready <==>
      exists id :: id in dag.tasks && id !in completed && DependenciesIn(dag, completed, id) && dag.tasks[id] == t
  {
    ready := [];
    for i := 0 to |dag.order|
      invariant ready == ReadyInOrder(dag, completed, dag.order[..i])
    {
      var id := dag.order[i];
      assert id in Elements(dag.order);
      ReadyInOrderAppend(dag, completed, dag.order[..i], id);
      TakeNext(dag.order, i);
      if id !in completed {
        var deps := Successors(dag.reverseAdjacency, id);
        if forall d | d in deps :: d in completed {
          ready := ready + [dag.tasks[id]];
        }
      }
    }
    assert dag.order[..|dag.order|] == dag.order;
    ReadyListed(dag, completed);
    ReadySorted(ready);
    forall id {
      ReadyIff(dag, completed, id);
    }
    ready := Sorting.SortBy(ByPriority(), ready);
  }

  // ---------------------------------------------------------------------------------------------
  // criticalPathLength
  // ---------------------------------------------------------------------------------------------

  ghost predicate ChainFrom(g: EdgeMap<string>, x: string, p: seq<string>) {
    |p| > 0 && p[0] == x && IsChain(g, p)
  }

  /** `n` nodes is the length of a longest chain starting at `x`. */
  ghost predicate IsDepth(g: EdgeMap<string>, x: string, n: int) {
    && (exists p :: ChainFrom(g, x, p) && |p| == n)
    && (forall p :: ChainFrom(g, x, p) ==> |p| <= n)
  }

  ghost predicate ChainOfTasks(dag: Dag, p: seq<string>) {
    IsChain(dag.adjacency, p) && Elements(p) <= dag.tasks.Keys
  }

  /** No dependency chain has more than `n` tasks and one has exactly `n`. */
  ghost predicate IsCriticalLength(dag: Dag, n: int) {
    && (exists p :: ChainOfTasks(dag, p) && |p| == n)
    && (forall p :: ChainOfTasks(dag, p) ==> |p| <= n)
  }

  ghost predicate MemoCorrect(g: EdgeMap<string>, memo: map<string, int>) {
    forall x :: x in memo ==> IsDepth(g, x, memo[x])
  }

  /** The longest chain among the first `j` children, 0 when there is none. */
  ghost predicate IsChildDepth(g: EdgeMap<string>, children: seq<string>, n: int) {
    && (n == 0 || exists q :: |q| == n && IsChain(g, q) && n > 0 && q[0] in children)
    && n >= 0
    && (forall q :: |q| > 0 && q[0] in children && IsChain(g, q) ==> |q| <= n)
  }

  lemma WiderChildDepth(g: EdgeMap<string>, children: seq<string>, best: int, next: string, depth: int)
    requires IsChildDepth(g, children, best) && IsDepth(g, next, depth)
    ensures IsChildDepth(g, children + [next], if depth > best then depth else best)
  {
    var p :| ChainFrom(g, next, p) && |p| == depth;
    assert next in children + [next];
    forall q | |q| > 0 && q[0] in children + [next] && IsChain(g, q)
      ensures |q| <= if depth > best then depth else best
    {
      if q[0] == next {
        assert ChainFrom(g, next, q);
      }
    }
  }

  lemma DepthFromChildren(g: EdgeMap<string>, x: string, best: int)
    requires IsChildDepth(g, Successors(g, x), best)
    ensures IsDepth(g, x, 1 + best)
  {
    if best == 0 {
      assert ChainFrom(g, x, [x]);
    } else {
      var q :| |q| == best && IsChain(g, q) && q[0] in Successors(g, x);
      ChainPrepend(g, x, q);
      assert ChainFrom(g, x, [x] + q);
    }
    forall p | ChainFrom(g, x, p)
      ensures |p| <= 1 + best
    {
      if |p| > 1 {
        ChainSlice(g, p, 1, |p|);
        assert Edge(g, p[0], p[1]);
        assert p[1..][0] in Successors(g, x);
      }
    }
  }

  /** `dfs`: the memo is shared across calls; `path` is the chain of calls on the stack. */
  method Depth(
    g: EdgeMap<string>, id: string, memo0: map<string, int>, ghost nodes: set<string>, ghost path: seq<string>)
    returns (n: int, memo: map<string, int>)
    requires Acyclic(g) && Within(g, nodes) && id in nodes && MemoCorrect(g, memo0)
    requires IsChain(g, path + [id]) && Elements(path) <= nodes
    ensures IsDepth(g, id, n) && MemoCorrect(g, memo)
    decreases nodes - Elements(path)
  {
    memo := memo0;
    if id in memo {
      return memo[id], memo;
    }
    ghost var longer := path + [id];
    AcyclicChainHasNoDuplicates(g, longer);
    NextElement(longer, |path|);
    assert longer[..|path|] == path && longer[..|path| + 1] == longer;
    var neighbors := Successors(g, id);
    if |neighbors| == 0 {
      DepthFromChildren(g, id, 0);
      return 1, memo[id := 1];
    }
    var maxChild := 0;
    for i := 0 to |neighbors|
      invariant MemoCorrect(g, memo) && IsChildDepth(g, neighbors[..i], maxChild)
    {
      assert Edge(g, id, neighbors[i]);
      ChainAppend(g, longer, neighbors[i]);
      var child, memo' := Depth(g, neighbors[i], memo, nodes, longer);
      WiderChildDepth(g, neighbors[..i], maxChild, neighbors[i], child);
      TakeNext(neighbors, i);
      memo := memo';
      maxChild := if child > maxChild then child else maxChild;
    }
    assert neighbors[..|neighbors|] == neighbors;
    DepthFromChildren(g, id, maxChild);
    n := 1 + maxChild;
    memo := memo[id := n];
  }

  method CriticalPathLength(dag: Dag) returns (n: int)
    requires WellFormed(dag) && Acyclic(dag.adjacency)
    ensures IsCriticalLength(dag, n)
  {
    var g, memo := dag.adjacency, map[];
    n := 0;
    for i := 0 to |dag.order|
      invariant MemoCorrect(g, memo) && IsChildDepth(g, dag.order[..i], n)
    {
      assert dag.order[i] in Elements(dag.order);
      assert IsChain(g, [] + [dag.order[i]]);
      var depth, memo' := Depth(g, dag.order[i], memo, dag.tasks.Keys, []);
      WiderChildDepth(g, dag.order[..i], n, dag.order[i], depth);
      TakeNext(dag.order, i);
      memo := memo';
      n := if depth > n then depth else n;
    }
    assert dag.order[..|dag.order|] == dag.order;
    LongestOfTasks(dag, n);
  }

  lemma {:induction false} ChainStaysInside(g: EdgeMap<string>, nodes: set<string>, p: seq<string>)
    requires Within(g, nodes) && IsChain(g, p) && |p| > 0 && p[0] in nodes
    ensures Elements(p) <= nodes
  {
    if |p| > 1 {
      assert Edge(g, p[0], p[1]);
      ChainSlice(g, p, 1, |p|);
      ChainStaysInside(g, nodes, p[1..]);
      assert p == [p[0]] + p[1..];
    }
  }

  lemma LongestOfTasks(dag: Dag, n: int)
    requires WellFormed(dag) && IsChildDepth(dag.adjacency, dag.order, n)
    ensures IsCriticalLength(dag, n)
  {
    if n == 0 {
      assert ChainOfTasks(dag, []);
    } else {
      var q :| |q| == n && IsChain(dag.adjacency, q) && q[0] in dag.order;
      assert q[0] in Elements(dag.order);
      ChainStaysInside(dag.adjacency, dag.tasks.Keys, q);
      assert ChainOfTasks(dag, q);
    }
    forall p | ChainOfTasks(dag, p)
      ensures |p| <= n
    {
      if |p| > 0 {
        assert p[0] in Elements(p);
        assert p[0] in Elements(dag.order);
      }
    }
  }

  /** The number of tasks is the critical path length exactly when one chain runs through all of them. */
  lemma TaskCountIsLengthIff(dag: Dag, n: int)
    requires Acyclic(dag.adjacency) && IsCriticalLength(dag, n)
    ensures n == |dag.tasks| <==> exists p :: IsChain(dag.adjacency, p) && Elements(p) == dag.tasks.Keys
  {
    var q :| ChainOfTasks(dag, q) && |q| == n;
    AcyclicChainHasNoDuplicates(dag.adjacency, q);
    NoDuplicatesCount(q);
    SubsetCardinality(Elements(q), dag.tasks.Keys);
    if p :| IsChain(dag.adjacency, p) && Elements(p) == dag.tasks.Keys {
      AcyclicChainHasNoDuplicates(dag.adjacency, p);
      NoDuplicatesCount(p);
      assert ChainOfTasks(dag, p);
    }
  }

  // ---------------------------------------------------------------------------------------------
  // Completing everything that is ready, round by round
  // ---------------------------------------------------------------------------------------------

  ghost function CompletedAfter(dag: Dag, rounds: nat): set<string> {
    if rounds == 0 then {}
    else CompletedAfter(dag, rounds - 1) + ReadySet(dag, CompletedAfter(dag, rounds - 1))
  }

  lemma NextRound(dag: Dag, k: nat, x: string)
    requires Linked(dag)
    ensures x in CompletedAfter(dag, k + 1) <==>
      || x in CompletedAfter(dag, k)
      || (x in dag.tasks && DependenciesIn(dag, CompletedAfter(dag, k), x))
  {
    ReadyIff(dag, CompletedAfter(dag, k), x);
  }

  ghost predicate EndsChainOf(dag: Dag, x: string, n: nat) {
    exists p :: ChainOfTasks(dag, p) && |p| == n && n > 0 && p[n - 1] == x
  }

  /** A task still open after `k` rounds ends a dependency chain of `k + 1` tasks. */
  lemma {:induction false} OpenEndsLongChain(dag: Dag, k: nat, x: string)
    requires Linked(dag) && x in dag.tasks
    ensures x in CompletedAfter(dag, k) || EndsChainOf(dag, x, k + 1)
  {
    if k == 0 {
      assert ChainOfTasks(dag, [x]);
    } else {
      NextRound(dag, k - 1, x);
      if x !in CompletedAfter(dag, k) {
        var d :| Edge(dag.adjacency, d, x) && d !in CompletedAfter(dag, k - 1);
        EdgesAreInverse(dag, d, x);
        OpenEndsLongChain(dag, k - 1, d);
        ExtendChainOf(dag, d, k, x);
      }
    }
  }

  lemma ExtendChainOf(dag: Dag, d: string, n: nat, x: string)
    requires EndsChainOf(dag, d, n) && Edge(dag.adjacency, d, x) && x in dag.tasks
    ensures EndsChainOf(dag, x, n + 1)
  {
    var q :| ChainOfTasks(dag, q) && |q| == n && n > 0 && q[n - 1] == d;
    ChainAppend(dag.adjacency, q, x);
    var p := q + [x];
    assert Elements(p) == Elements(q) + {x};
    assert ChainOfTasks(dag, p);
  }

  /** A chain ending in a task finished after `k` rounds has at most `k` tasks. */
  lemma {:induction false} FinishedEndsShortChain(dag: Dag, k: nat, p: seq<string>)
    requires Linked(dag) && ChainOfTasks(dag, p) && |p| > 0
    ensures p[|p| - 1] in CompletedAfter(dag, k) ==> |p| <= k
  {
    if k > 0 && |p| > 1 {
      var front, d, x := p[..|p| - 1], p[|p| - 2], p[|p| - 1];
      NextRound(dag, k - 1, x);
      FinishedEndsShortChain(dag, k - 1, p);
      ChainSlice(dag.adjacency, p, 0, |p| - 1);
      assert front == p[0..|p| - 1];
      assert Edge(dag.adjacency, d, x);
      assert Elements(front) <= Elements(p);
      FinishedEndsShortChain(dag, k - 1, front);
    }
  }

  lemma {:induction false} CompletedAreTasks(dag: Dag, k: nat)
    ensures CompletedAfter(dag, k) <= dag.tasks.Keys
  {
    if k > 0 {
      CompletedAreTasks(dag, k - 1);
    }
  }

  /** After `k` rounds everything is finished if and only if `k` reaches the critical path length. */
  lemma RoundsNeeded(dag: Dag, n: nat, k: nat)
    requires Linked(dag) && IsCriticalLength(dag, n)
    ensures CompletedAfter(dag, k) == dag.tasks.Keys <==> k >= n
  {
    CompletedAreTasks(dag, k);
    if k >= n {
      forall x | x in dag.tasks
        ensures x in CompletedAfter(dag, k)
      {
        OpenEndsLongChain(dag, k, x);
      }
    } else {
      var p :| ChainOfTasks(dag, p) && |p| == n;
      assert p[n - 1] in Elements(p);
      FinishedEndsShortChain(dag, k, p);
    }
  }

  /** Round by round, no task is finished before the tasks it depends on. */
  lemma {:induction false} DependenciesFinishFirst(dag: Dag, k: nat, d: string, x: string)
    requires Linked(dag) && Edge(dag.adjacency, d, x)
    requires x in CompletedAfter(dag, k)
    ensures k > 0 && d in CompletedAfter(dag, k - 1)
  {
    NextRound(dag, k - 1, x);
    if x in CompletedAfter(dag, k - 1) {
      DependenciesFinishFirst(dag, k - 1, d, x);
    }
  }

  /** Whatever has been completed, in any order, something is ready until everything is done. */
  lemma SomethingIsReady(dag: Dag, completed: set<string>)
    requires Linked(dag) && Acyclic(dag.adjacency)
    requires !(dag.tasks.Keys <= completed)
    ensures ReadySet(dag, completed) != {}
  {
    var left := dag.tasks.Keys - completed;
    if ReadySet(dag, completed) == {} {
      forall x {:trigger HasPredecessorIn(dag.adjacency, left, x)}
        ensures x in left ==> HasPredecessorIn(dag.adjacency, left, x)
      {
        if x in left {
          BlockedHasPredecessor(dag, completed, x);
        }
      }
      var x :| x in dag.tasks.Keys && x !in completed;
      assert x in left;
      SourcelessIsCyclic(dag.adjacency, left);
    }
  }

  lemma BlockedHasPredecessor(dag: Dag, completed: set<string>, x: string)
    requires Linked(dag) && x in dag.tasks && x !in completed && x !in ReadySet(dag, completed)
    ensures HasPredecessorIn(dag.adjacency, dag.tasks.Keys - completed, x)
  {
    assert !IsReady(dag, completed, x);
    var d :| d in Successors(dag.reverseAdjacency, x) && d !in completed;
    EdgesAreInverse(dag, d, x);
  }

  // ---------------------------------------------------------------------------------------------
  // Playing the rounds
  // ---------------------------------------------------------------------------------------------

  /** Every task is filed under its own id. */
  predicate Keyed(dag: Dag) {
    forall id | id in dag.tasks :: dag.tasks[id].id == id
  }

  /** The planner files them so. */
  lemma PlannedIsKeyed(dag: Dag, tasks: seq<Task>)
    requires Represents(dag, tasks)
    ensures Keyed(dag)
  {
    forall id | id in dag.tasks
      ensures dag.tasks[id].id == id
    {
      assert id in Elements(dag.order);
      var i :| 0 <= i < |tasks| && Ids(tasks)[i] == id;
      assert tasks[i].id == id;
    }
  }

  function IdsOf(tasks: seq<Task>): set<string> {
    set t | t in tasks :: t.id
  }

  /** `GetReadyTasks`, told by the ids of its tasks. */
  method ReadyRound(dag: Dag, completed: set<string>) returns (ready: seq<Task>)
    requires WellFormed(dag) && Keyed(dag)
    ensures IdsOf(ready) == ReadySet(dag, completed) && |ready| == |ReadySet(dag, completed)|
  {
    ready := GetReadyTasks(dag, completed);
    forall id
      ensures id in IdsOf(ready) <==> id in ReadySet(dag, completed)
    {
      if id in ReadySet(dag, completed) {
        assert dag.tasks[id] in ready;
      }
    }
  }

  lemma RoundProgress(dag: Dag, completed: set<string>)
    requires |ReadySet(dag, completed)| > 0
    ensures dag.tasks.Keys - (completed + ReadySet(dag, completed)) < dag.tasks.Keys - completed
  {
    var id :| id in ReadySet(dag, completed);
    assert id in dag.tasks.Keys - completed;
  }

  lemma NothingReadyIsDone(dag: Dag, rounds: nat, length: nat)
    requires WellFormed(dag) && Acyclic(dag.adjacency) && IsCriticalLength(dag, length)
    requires ReadySet(dag, CompletedAfter(dag, rounds)) == {}
    ensures rounds >= length
  {
    RoundsNeeded(dag, length, rounds);
    CompletedAreTasks(dag, rounds);
    if !(dag.tasks.Keys <= CompletedAfter(dag, rounds)) {
      SomethingIsReady(dag, CompletedAfter(dag, rounds));
    }
  }

  lemma SomethingReadyIsEarly(dag: Dag, rounds: nat, length: nat)
    requires WellFormed(dag) && IsCriticalLength(dag, length)
    requires |ReadySet(dag, CompletedAfter(dag, rounds))| > 0
    ensures rounds < length
  {
    RoundsNeeded(dag, length, rounds);
    var id :| id in ReadySet(dag, CompletedAfter(dag, rounds));
    assert id in dag.tasks.Keys;
  }

  /** Round `k` holds the tasks that the `k` rounds before it make ready, each once. */
  ghost predicate Played(dag: Dag, rounds: seq<seq<Task>>) {
    forall k | 0 <= k < |rounds| ::
      IdsOf(rounds[k]) == ReadySet(dag, CompletedAfter(dag, k)) && |rounds[k]| == |IdsOf(rounds[k])|
  }

  /**
   Asking for the ready tasks and completing all of them, until none is ready: as many rounds as the critical path
   is long, each task in the round in which it first is ready.
   */
  method PlayRounds(dag: Dag, ghost length: nat) returns (rounds: seq<seq<Task>>)
    requires WellFormed(dag) && Acyclic(dag.adjacency) && Keyed(dag) && IsCriticalLength(dag, length)
    ensures |rounds| == length && Played(dag, rounds)
  {
    hide WellFormed, Acyclic, Keyed, IsCriticalLength, ReadySet, IdsOf;
    var completed: set<string> := {};
    rounds := [];
    var ready := ReadyRound(dag, completed);
    while |ready| > 0
      invariant completed == CompletedAfter(dag, |rounds|) && |rounds| <= length && Played(dag, rounds)
      invariant IdsOf(ready) == ReadySet(dag, completed) && |ready| == |ReadySet(dag, completed)|
      decreases dag.tasks.Keys - completed
    {
      SomethingReadyIsEarly(dag, |rounds|, length);
      RoundProgress(dag, completed);
      rounds := rounds + [ready];
      completed := completed + IdsOf(ready);
      ready := ReadyRound(dag, completed);
    }
    NothingReadyIsDone(dag, |rounds|, length);
  }
}
