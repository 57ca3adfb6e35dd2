/** Kahn's algorithm as `topologicalSort` runs it, proved to agree with the depth-first cycle check. */
module TopologicalOrder {
  import opened Wrappers
  import opened Graph
  import opened Planner
  import opened Sequences

  /** Every task once, each one after all of its dependencies. */
  ghost predicate IsTopologicalOrder(dag: Dag, s: seq<string>) {
    && NoDuplicates(s) && Elements(s) == dag.tasks.Keys
    && DependenciesFirst(dag, s)
  }

  ghost predicate DependenciesFirst(dag: Dag, s: seq<string>) {
    forall j, d :: 0 <= j < |s| && Edge(dag.adjacency, d, s[j]) ==> d in s[..j]
  }

  /** The dependencies of `x` that are not yet placed. */
  ghost function Pending(dag: Dag, done: set<string>, x: string): set<string> {
    set d | d in Successors(dag.reverseAdjacency, x) && d !in done
  }

  ghost predicate Counts(dag: Dag, done: set<string>, inDegree: map<string, int>) {
    inDegree.Keys == dag.tasks.Keys
    && forall x :: x in inDegree ==> inDegree[x] == |Pending(dag, done, x)|
  }

  /** Halfway through the neighbours of `current`: those in `seen` are already decremented. */
  ghost predicate CountsMidway(
    dag: Dag, done: set<string>, current: string, seen: set<string>, inDegree: map<string, int>)
  {
    inDegree.Keys == dag.tasks.Keys
    && forall x :: x in inDegree ==>
      inDegree[x] == |Pending(dag, if x in seen then done + {current} else done, x)|
  }

  /** The tasks placed or queued are exactly those with no dependency left to place. */
  ghost predicate Frontier(listed: seq<string>, inDegree: map<string, int>) {
    && NoDuplicates(listed)
    && (forall x :: x in listed ==> x in inDegree)
    && (forall x :: x in inDegree ==> (x in listed <==> inDegree[x] == 0))
  }

  lemma PlaceOne(dag: Dag, done: set<string>, current: string, x: string)
    requires WellFormed(dag) && current !in done
    ensures Edge(dag.adjacency, current, x) ==>
      |Pending(dag, done + {current}, x)| == |Pending(dag, done, x)| - 1
    ensures !Edge(dag.adjacency, current, x) ==>
      Pending(dag, done + {current}, x) == Pending(dag, done, x)
  {
    assert Edge(dag.reverseAdjacency, x, current) <==> Edge(dag.adjacency, current, x);
    if Edge(dag.adjacency, current, x) {
      assert Pending(dag, done, x) == Pending(dag, done + {current}, x) + {current};
    }
  }

  lemma NothingPending(dag: Dag, x: string)
    requires WellFormed(dag) && x in dag.tasks
    ensures |Pending(dag, {}, x)| == |Successors(dag.reverseAdjacency, x)|
  {
    var dependencies := Successors(dag.reverseAdjacency, x);
    assert Pending(dag, {}, x) == Elements(dependencies);
    SuccessorsAreSets(dag.reverseAdjacency, x);
    NoDuplicatesCount(dependencies);
  }

  lemma StartCounts(dag: Dag, inDegree: map<string, int>)
    requires WellFormed(dag)
    requires inDegree == map id | id in dag.tasks :: |Successors(dag.reverseAdjacency, id)|
    ensures Counts(dag, Elements([]), inDegree)
  {
    assert Elements<string>([]) == {};
    forall x | x in dag.tasks { NothingPending(dag, x); }
  }

  lemma AllSeen(dag: Dag, done: set<string>, current: string, inDegree: map<string, int>)
    requires WellFormed(dag) && current !in done && current in dag.tasks
    requires CountsMidway(dag, done, current, Elements(Successors(dag.adjacency, current)), inDegree)
    ensures Counts(dag, done + {current}, inDegree)
  {
    forall x | x in inDegree
      ensures inDegree[x] == |Pending(dag, done + {current}, x)|
    {
      PlaceOne(dag, done, current, x);
    }
  }

  function ListZeros(order: seq<string>, inDegree: map<string, int>): (r: seq<string>)
    requires forall x :: x in order ==> x in inDegree
    ensures forall x :: x in r <==> x in order && inDegree[x] == 0
    ensures NoDuplicates(order) ==> NoDuplicates(r)
  {
    if order == [] then
      []
    else
      var rest := ListZeros(order[1..], inDegree);
      if inDegree[order[0]] == 0 then [order[0]] + rest else rest
  }

  lemma EdgeGoesForward(dag: Dag, s: seq<string>, x: string, y: string)
    requires Linked(dag) && IsTopologicalOrder(dag, s) && Edge(dag.adjacency, x, y)
    ensures x in dag.tasks && y in dag.tasks && IndexOf(s, x) < IndexOf(s, y)
  {
    EdgesAreInverse(dag, x, y);
    assert y in Elements(s) && x in Elements(s);
    assert x in s[..IndexOf(s, y)];
  }

  lemma PlacedIsAcyclic(dag: Dag, s: seq<string>)
    requires Linked(dag) && IsTopologicalOrder(dag, s)
    ensures Acyclic(dag.adjacency)
  {
    var rank := map x | x in dag.tasks :: -IndexOf(s, x);
    forall x, y | Edge(dag.adjacency, x, y)
      ensures x in rank && y in rank && rank[y] < rank[x]
    {
      EdgeGoesForward(dag, s, x, y);
    }
    RankedIsAcyclic(dag.adjacency, rank);
  }

  lemma PendingHasPredecessor(dag: Dag, done: set<string>, x: string)
    requires WellFormed(dag) && Pending(dag, done, x) != {}
    ensures HasPredecessorIn(dag.adjacency, dag.tasks.Keys - done, x)
  {
    var d :| d in Pending(dag, done, x);
    assert Edge(dag.reverseAdjacency, x, d);
    assert Edge(dag.adjacency, d, x);
  }

  lemma UnplacedHasPredecessor(dag: Dag, sorted: seq<string>, inDegree: map<string, int>, x: string)
    requires WellFormed(dag) && Counts(dag, Elements(sorted), inDegree) && Frontier(sorted, inDegree)
    ensures x in dag.tasks.Keys - Elements(sorted) ==>
      HasPredecessorIn(dag.adjacency, dag.tasks.Keys - Elements(sorted), x)
  {
    if x in dag.tasks.Keys - Elements(sorted) {
      assert x !in sorted && inDegree[x] != 0;
      PendingHasPredecessor(dag, Elements(sorted), x);
    }
  }

  lemma UnplacedIsCyclic(dag: Dag, sorted: seq<string>, inDegree: map<string, int>)
    requires WellFormed(dag) && Counts(dag, Elements(sorted), inDegree) && Frontier(sorted, inDegree)
    requires Elements(sorted) != dag.tasks.Keys
    ensures !Acyclic(dag.adjacency)
  {
    var left := dag.tasks.Keys - Elements(sorted);
    ProperSubsetLeavesRest(Elements(sorted), dag.tasks.Keys);
    forall x {:trigger HasPredecessorIn(dag.adjacency, left, x)}
      ensures x in left ==> HasPredecessorIn(dag.adjacency, left, x)
    {
      UnplacedHasPredecessor(dag, sorted, inDegree, x);
    }
    SourcelessIsCyclic(dag.adjacency, left);
  }

  lemma SeeNext(
    dag: Dag, done: set<string>, current: string, seen: set<string>, inDegree: map<string, int>, next: string)
    requires WellFormed(dag) && current !in done && next !in seen && next in inDegree
    requires CountsMidway(dag, done, current, seen, inDegree) && Edge(dag.adjacency, current, next)
    ensures inDegree[next] > 0
    ensures CountsMidway(dag, done, current, seen + {next}, inDegree[next := inDegree[next] - 1])
  {
    PlaceOne(dag, done, current, next);
  }

  lemma QueueNext(placed: seq<string>, queue: seq<string>, inDegree: map<string, int>, next: string)
    requires next in inDegree && inDegree[next] > 0
    requires Frontier(placed + queue, inDegree)
    ensures Frontier(
      placed + (if inDegree[next] == 1 then queue + [next] else queue), inDegree[next := inDegree[next] - 1])
  {
    assert next !in placed + queue;
    assert placed + (queue + [next]) == (placed + queue) + [next];
  }

  /** The list is complete exactly when the graph has no cycle. */
  lemma FinishSort(dag: Dag, sorted: seq<string>, inDegree: map<string, int>)
    requires WellFormed(dag) && Counts(dag, Elements(sorted), inDegree)
    requires Frontier(sorted, inDegree) && DependenciesFirst(dag, sorted)
    ensures |sorted| == |dag.tasks| <==> Acyclic(dag.adjacency)
    ensures |sorted| == |dag.tasks| ==> IsTopologicalOrder(dag, sorted)
  {
    NoDuplicatesCount(sorted);
    SubsetCardinality(Elements(sorted), dag.tasks.Keys);
    if |sorted| == |dag.tasks| {
      PlacedIsAcyclic(dag, sorted);
    } else {
      UnplacedIsCyclic(dag, sorted, inDegree);
    }
  }

  /** The inner loop: decrements the neighbours of `current` and queues those that reach zero. */
  method Relax(
    dag: Dag, current: string, inDegree0: map<string, int>, queue0: seq<string>,
    ghost placed: seq<string>, ghost done: set<string>)
    returns (inDegree: map<string, int>, queue: seq<string>)
    requires WellFormed(dag) && current in dag.tasks && current !in done
    requires Counts(dag, done, inDegree0) && Frontier(placed + queue0, inDegree0)
    ensures Counts(dag, done + {current}, inDegree)
    ensures Frontier(placed + queue, inDegree) && queue0 <= queue
  {
    inDegree, queue := inDegree0, queue0;
    var neighbors := Successors(dag.adjacency, current);
    SuccessorsAreSets(dag.adjacency, current);
    for j := 0 to |neighbors|
      invariant CountsMidway(dag, done, current, Elements(neighbors[..j]), inDegree)
      invariant Frontier(placed + queue, inDegree) && queue0 <= queue
    {
      var neighbor := neighbors[j];
      assert Edge(dag.adjacency, current, neighbor);
      NextElement(neighbors, j);
      SeeNext(dag, done, current, Elements(neighbors[..j]), inDegree, neighbor);
      QueueNext(placed, queue, inDegree, neighbor);
      var newDegree := inDegree[neighbor] - 1;
      inDegree := inDegree[neighbor := newDegree];
      if newDegree == 0 {
        queue := queue + [neighbor];
      }
    }
    assert neighbors[..|neighbors|] == neighbors;
    AllSeen(dag, done, current, inDegree);
  }

  lemma OrderListsTasks(dag: Dag)
    requires WellFormed(dag)
    ensures NoDuplicates(dag.order) && forall x :: x in dag.order <==> x in dag.tasks
  {
    assert forall x :: x in dag.order <==> x in Elements(dag.order);
  }

  lemma StartFrontier(dag: Dag, inDegree: map<string, int>, queue: seq<string>)
    requires Counts(dag, Elements([]), inDegree) && NoDuplicates(queue)
    requires forall x :: x in queue <==> x in dag.tasks && inDegree[x] == 0
    ensures Frontier(queue, inDegree) && DependenciesFirst(dag, [])
  {
  }

  /** A task with nothing pending can follow `sorted`. */
  lemma PlaceKeepsOrder(dag: Dag, sorted: seq<string>, current: string)
    requires Linked(dag) && DependenciesFirst(dag, sorted) && Pending(dag, Elements(sorted), current) == {}
    ensures DependenciesFirst(dag, sorted + [current])
  {
    var s := sorted + [current];
    forall j, d | 0 <= j < |s| && Edge(dag.adjacency, d, s[j])
      ensures d in s[..j]
    {
      if j == |sorted| {
        EdgesAreInverse(dag, d, current);
        assert d !in Pending(dag, Elements(sorted), current);
        assert s[..j] == sorted;
      } else {
        assert s[j] == sorted[j] && s[..j] == sorted[..j];
      }
    }
  }

  lemma PlaceNext(dag: Dag, sorted: seq<string>, queue: seq<string>, inDegree: map<string, int>)
    requires WellFormed(dag) && queue != []
    requires Counts(dag, Elements(sorted), inDegree) && Frontier(sorted + queue, inDegree)
    requires DependenciesFirst(dag, sorted)
    ensures queue[0] in dag.tasks && queue[0] !in sorted
    ensures sorted + [queue[0]] + queue[1..] == sorted + queue
    ensures DependenciesFirst(dag, sorted + [queue[0]])
  {
    var current := queue[0];
    QueueHead(sorted, queue);
    assert Pending(dag, Elements(sorted), current) == {};
    PlaceKeepsOrder(dag, sorted, current);
  }

  lemma QueueHead(sorted: seq<string>, queue: seq<string>)
    requires NoDuplicates(sorted + queue) && queue != []
    ensures queue[0] in sorted + queue && queue[0] !in sorted
    ensures sorted + [queue[0]] + queue[1..] == sorted + queue
  {
    assert (sorted + queue)[|sorted|] == queue[0];
    forall i | 0 <= i < |sorted|
      ensures sorted[i] != queue[0]
    {
      assert (sorted + queue)[i] == sorted[i];
    }
  }

  method TopologicalSort(dag: Dag) returns (r: Option<seq<string>>)
    requires WellFormed(dag)
    ensures r.Some? <==> Acyclic(dag.adjacency)
    ensures r.Some? ==> IsTopologicalOrder(dag, r.value)
  {
    hide Counts, Frontier, DependenciesFirst, WellFormed, Linked, Pending;
    OrderListsTasks(dag);
    var inDegree: map<string, int> := map id | id in dag.tasks :: |Successors(dag.reverseAdjacency, id)|;
    StartCounts(dag, inDegree);
    var queue := ListZeros(dag.order, inDegree);
    StartFrontier(dag, inDegree, queue);
    var sorted: seq<string> := [];
    assert sorted + queue == queue;
    while |queue| > 0
      invariant Counts(dag, Elements(sorted), inDegree)
      invariant Frontier(sorted + queue, inDegree)
      invariant DependenciesFirst(dag, sorted)
      decreases dag.tasks.Keys - Elements(sorted)
    {
      var current := queue[0];
      PlaceNext(dag, sorted, queue, inDegree);
      ElementsAppend(sorted, current);
      inDegree, queue := Relax(dag, current, inDegree, queue[1..], sorted + [current], Elements(sorted));
      sorted := sorted + [current];
    }
    assert sorted + queue == sorted;
    FinishSort(dag, sorted, inDegree);
    if |sorted| != |dag.tasks| {
      return None;
    }
    r := Some(sorted);
  }
}
