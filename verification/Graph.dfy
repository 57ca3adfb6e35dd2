/**
 Directed graphs kept as ordered adjacency lists, chains of edges, cycles, and the two facts about
 finite graphs that the planner rests on: a ranking excludes cycles, and a chain that is longer than
 the set of nodes it visits closes one.
 */
module Graph {
  /** A `Map<string, Set<string>>`: each set is a duplicate-free list in insertion order. */
  type EdgeMap<T> = map<T, seq<T>>

  /** `m.get(x) ?? []`. */
  function Successors<T(==)>(g: EdgeMap<T>, x: T): seq<T> {
    if x in g then g[x] else []
  }

  predicate Edge<T(==)>(g: EdgeMap<T>, x: T, y: T) {
    y in Successors(g, x)
  }

  /** Consecutive nodes of `p` are joined by edges; any single node is a chain. */
  ghost predicate IsChain<T(!new)>(g: EdgeMap<T>, p: seq<T>) {
    forall i, j :: 0 <= i && j == i + 1 && j < |p| ==> Edge(g, p[i], p[j])
  }

  /** A closed walk of at least one edge; a self-loop is the cycle `[x, x]`. */
  ghost predicate IsCycle<T(!new)>(g: EdgeMap<T>, p: seq<T>) {
    |p| >= 2 && p[0] == p[|p| - 1] && IsChain(g, p)
  }

  ghost predicate Acyclic<T(!new)>(g: EdgeMap<T>) {
    forall p :: !IsCycle(g, p)
  }

  /** Every edge starts and ends at a key of the map. */
  ghost predicate Closed<T(!new)>(g: EdgeMap<T>) {
    forall x, y {:trigger Edge(g, x, y)} :: Edge(g, x, y) ==> y in g
  }

  ghost predicate NoDuplicates<T>(s: seq<T>) {
    forall i, j :: 0 <= i < j < |s| ==> s[i] != s[j]
  }

  ghost function Elements<T>(s: seq<T>): set<T> {
    set x | x in s
  }

  /** JavaScript `Set.add` on an ordered set. */
  function Add<T(==,!new)>(s: seq<T>, x: T): (r: seq<T>)
    ensures forall y :: y in r <==> y in s || y == x
    ensures NoDuplicates(s) ==> NoDuplicates(r)
  {
    if x in s then s else s + [x]
  }

  lemma {:induction false} NoDuplicatesCount<T(!new)>(s: seq<T>)
    requires NoDuplicates(s)
    ensures |Elements(s)| == |s|
  {
    if s == [] {
      assert Elements(s) == {};
    } else {
      var front, last := s[..|s| - 1], s[|s| - 1];
      NoDuplicatesCount(front);
      assert Elements(s) == Elements(front) + {last};
      assert last !in front;
    }
  }

  lemma ElementsAppend<T>(s: seq<T>, x: T)
    ensures Elements(s + [x]) == Elements(s) + {x}
  {
  }

  lemma TakeNext<T>(s: seq<T>, i: nat)
    requires i < |s|
    ensures s[..i + 1] == s[..i] + [s[i]]
  {
  }

  lemma NextElement<T>(s: seq<T>, j: nat)
    requires NoDuplicates(s) && j < |s|
    ensures s[j] !in Elements(s[..j])
    ensures Elements(s[..j + 1]) == Elements(s[..j]) + {s[j]}
  {
    assert s[..j + 1] == s[..j] + [s[j]];
  }

  lemma SubsetCardinality<T(!new)>(a: set<T>, b: set<T>)
    requires a <= b
    ensures |a| <= |b|
    ensures |a| == |b| ==> a == b
  {
    assert b == a + (b - a);
    assert |b| == |a| + |b - a|;
  }

  lemma ProperSubsetLeavesRest<T>(a: set<T>, b: set<T>)
    requires a <= b && a != b
    ensures b - a != {}
  {
    var x :| x in b && x !in a;
    assert x in b - a;
  }

  lemma ChainSlice<T(!new)>(g: EdgeMap<T>, p: seq<T>, lo: nat, hi: nat)
    requires IsChain(g, p) && lo <= hi <= |p|
    ensures IsChain(g, p[lo..hi])
  {
    var q := p[lo..hi];
    forall i, j | 0 <= i && j == i + 1 && j < |q|
      ensures Edge(g, q[i], q[j])
    {
      assert q[i] == p[lo + i] && q[j] == p[lo + j];
    }
  }

  lemma ChainAppend<T(!new)>(g: EdgeMap<T>, p: seq<T>, x: T)
    requires IsChain(g, p) && |p| > 0 && Edge(g, p[|p| - 1], x)
    ensures IsChain(g, p + [x])
  {
    var q := p + [x];
    forall i, j | 0 <= i && j == i + 1 && j < |q|
      ensures Edge(g, q[i], q[j])
    {
      if j < |p| {
        assert q[i] == p[i] && q[j] == p[j];
      }
    }
  }

  lemma ChainPrepend<T(!new)>(g: EdgeMap<T>, x: T, p: seq<T>)
    requires IsChain(g, p) && |p| > 0 && Edge(g, x, p[0])
    ensures IsChain(g, [x] + p)
  {
    var q := [x] + p;
    forall i, j | 0 <= i && j == i + 1 && j < |q|
      ensures Edge(g, q[i], q[j])
    {
      if i > 0 {
        assert q[i] == p[i - 1] && q[j] == p[j - 1];
      }
    }
  }

  /** Every edge strictly lowers the rank. */
  ghost predicate Ranks<T(!new)>(g: EdgeMap<T>, rank: map<T, int>) {
    forall x, y :: Edge(g, x, y) ==> x in rank && y in rank && rank[y] < rank[x]
  }

  lemma {:induction false} RankFalls<T(!new)>(g: EdgeMap<T>, rank: map<T, int>, p: seq<T>)
    requires Ranks(g, rank) && IsChain(g, p) && |p| >= 2
    ensures p[0] in rank && p[|p| - 1] in rank && rank[p[|p| - 1]] < rank[p[0]]
  {
    assert Edge(g, p[0], p[1]);
    if |p| > 2 {
      ChainSlice(g, p, 1, |p|);
      var tail := p[1..];
      assert tail[0] == p[1] && tail[|tail| - 1] == p[|p| - 1];
      RankFalls(g, rank, tail);
    }
  }

  lemma RankedIsAcyclic<T(!new)>(g: EdgeMap<T>, rank: map<T, int>)
    requires Ranks(g, rank)
    ensures Acyclic(g)
  {
    forall p
      ensures !IsCycle(g, p)
    {
      if IsCycle(g, p) {
        RankFalls(g, rank, p);
      }
    }
  }

  /** A repetition on a chain is a cycle. */
  lemma RepetitionIsCycle<T(!new)>(g: EdgeMap<T>, p: seq<T>, i: nat, j: nat)
    requires IsChain(g, p) && i < j < |p| && p[i] == p[j]
    ensures !Acyclic(g)
  {
    ChainSlice(g, p, i, j + 1);
    assert IsCycle(g, p[i..j + 1]);
  }

  lemma AcyclicChainHasNoDuplicates<T(!new)>(g: EdgeMap<T>, p: seq<T>)
    requires Acyclic(g) && IsChain(g, p)
    ensures NoDuplicates(p)
  {
    forall i, j | 0 <= i < j < |p|
      ensures p[i] != p[j]
    {
      if p[i] == p[j] {
        RepetitionIsCycle(g, p, i, j);
      }
    }
  }

  /** The pigeonhole bound: in an acyclic graph a chain inside `nodes` is no longer than `nodes`. */
  lemma ChainBound<T(!new)>(g: EdgeMap<T>, p: seq<T>, nodes: set<T>)
    requires Acyclic(g) && IsChain(g, p) && Elements(p) <= nodes
    ensures |p| <= |nodes|
  {
    AcyclicChainHasNoDuplicates(g, p);
    NoDuplicatesCount(p);
    SubsetCardinality(Elements(p), nodes);
  }

  ghost predicate HasPredecessorIn<T(!new)>(g: EdgeMap<T>, s: set<T>, x: T) {
    exists d :: d in s && Edge(g, d, x)
  }

  /** Walking backwards inside a set where every node has a predecessor: chains of any length exist. */
  lemma {:induction false} LongChain<T(!new)>(g: EdgeMap<T>, s: set<T>, n: nat) returns (p: seq<T>)
    requires s != {} && n > 0
    requires forall x {:trigger HasPredecessorIn(g, s, x)} :: x in s ==> HasPredecessorIn(g, s, x)
    ensures |p| == n && IsChain(g, p)
    ensures forall i :: 0 <= i < n ==> p[i] in s
  {
    if n == 1 {
      var x :| x in s;
      p := [x];
    } else {
      var q := LongChain(g, s, n - 1);
      assert HasPredecessorIn(g, s, q[0]);
      var d :| d in s && Edge(g, d, q[0]);
      ChainPrepend(g, d, q);
      p := [d] + q;
    }
  }

  /** A finite set without sources, as left over by Kahn's algorithm, contains a cycle. */
  lemma SourcelessIsCyclic<T(!new)>(g: EdgeMap<T>, s: set<T>)
    requires s != {}
    requires forall x {:trigger HasPredecessorIn(g, s, x)} :: x in s ==> HasPredecessorIn(g, s, x)
    ensures !Acyclic(g)
  {
    if Acyclic(g) {
      var p := LongChain(g, s, |s| + 1);
      ChainBound(g, p, s);
    }
  }
}
