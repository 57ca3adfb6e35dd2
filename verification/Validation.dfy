/** Which expected points no completed range covers. */
module Validation {
  import opened Sequences
  import opened Sorting

  datatype Range = Range(from: int, to: int)

  datatype CompletenessReport = CompletenessReport(
    totalExpected: int, totalCompleted: int, missingRanges: seq<Range>, isComplete: bool)

  predicate In(x: int, r: Range) {
    r.from <= x < r.to
  }

  ghost predicate Covered(x: int, ranges: seq<Range>) {
    exists i :: 0 <= i < |ranges| && In(x, ranges[i])
  }

  ghost predicate AllWellFormed(ranges: seq<Range>) {
    forall i :: 0 <= i < |ranges| ==> ranges[i].from <= ranges[i].to
  }

  function ByStart(): Range -> int {
    (r: Range) => r.from
  }

  function TotalLength(ranges: seq<Range>): int {
    if ranges == [] then
      0
    else
      TotalLength(ranges[..|ranges| - 1]) + (ranges[|ranges| - 1].to - ranges[|ranges| - 1].from)
  }

  // ---------------------------------------------------------------------------------------------
  // findMissingRanges
  // ---------------------------------------------------------------------------------------------

  function Remainder(current: int, end: int): seq<Range> {
    if current < end then [Range(current, end)] else []
  }

  /** What one pass over `completed` adds for an expected range that is covered up to `current`. */
  function Gaps(current: int, end: int, completed: seq<Range>): seq<Range>
    decreases |completed|
  {
    if completed == [] then
      Remainder(current, end)
    else
      var comp := completed[0];
      if comp.to <= current then
        Gaps(current, end, completed[1..])
      else if comp.from >= end then
        Remainder(current, end)
      else
        Remainder(current, comp.from)
        + Gaps(if current > comp.to then current else comp.to, end, completed[1..])
  }

  function AllGaps(expected: seq<Range>, completed: seq<Range>): seq<Range> {
    if expected == [] then []
    else
      AllGaps(expected[..|expected| - 1], completed)
      + Gaps(expected[|expected| - 1].from, expected[|expected| - 1].to, completed)
  }

  method FindMissingRanges(expected: seq<Range>, completed: seq<Range>) returns (missing: seq<Range>)
    ensures missing == AllGaps(expected, completed)
  {
    missing := [];
    for i := 0 to |expected|
      invariant missing == AllGaps(expected[..i], completed)
    {
      var exp := expected[i];
      var current := exp.from;
      var k := 0;
      ghost var before := missing;
      while k < |completed|
        invariant 0 <= k <= |completed|
        invariant missing + Gaps(current, exp.to, completed[k..]) == before + Gaps(exp.from, exp.to, completed)
      {
        var comp := completed[k];
        assert completed[k..][1..] == completed[k + 1..];
        if comp.to <= current {
          k := k + 1;
          continue;
        }
        if comp.from >= exp.to {
          break;
        }
        if comp.from > current {
          missing := missing + [Range(current, comp.from)];
        }
        current := if current > comp.to then current else comp.to;
        k := k + 1;
      }
      if current < exp.to {
        missing := missing + [Range(current, exp.to)];
      }
      assert expected[..i + 1][..i] == expected[..i];
    }
    assert expected[..|expected|] == expected;
  }

  /** Non-empty gaps inside `[lo, hi)`, in order and without overlap. */
  ghost predicate OrderedGaps(gaps: seq<Range>, lo: int, hi: int) {
    && (forall i :: 0 <= i < |gaps| ==> lo <= gaps[i].from < gaps[i].to <= hi)
    && (forall i, j :: 0 <= i < j < |gaps| ==> gaps[i].to <= gaps[j].from)
  }

  /** The gaps of one expected range are ordered, disjoint and non-empty. */
  lemma {:induction false} GapsAreOrdered(current: int, end: int, completed: seq<Range>)
    requires AllWellFormed(completed)
    ensures OrderedGaps(Gaps(current, end, completed), current, end)
    decreases |completed|
  {
    if completed != [] {
      var comp := completed[0];
      if comp.to <= current {
        GapsAreOrdered(current, end, completed[1..]);
      } else if comp.from < end {
        GapsAreOrdered(comp.to, end, completed[1..]);
      }
    }
  }

  lemma CoveredSplit(x: int, a: seq<Range>, b: seq<Range>)
    ensures Covered(x, a + b) <==> Covered(x, a) || Covered(x, b)
  {
    if Covered(x, a) {
      var i :| 0 <= i < |a| && In(x, a[i]);
      assert (a + b)[i] == a[i];
    }
    if Covered(x, b) {
      var i :| 0 <= i < |b| && In(x, b[i]);
      assert (a + b)[|a| + i] == b[i];
    }
  }

  lemma CoveredHead(x: int, ranges: seq<Range>)
    requires ranges != []
    ensures Covered(x, ranges) <==> In(x, ranges[0]) || Covered(x, ranges[1..])
  {
    CoveredSplit(x, [ranges[0]], ranges[1..]);
    HeadAndTail(ranges);
    assert In(x, ranges[0]) <==> Covered(x, [ranges[0]]) by {
      assert [ranges[0]][0] == ranges[0];
    }
  }

  lemma CoveredRemainder(x: int, current: int, end: int)
    ensures Covered(x, Remainder(current, end)) <==> current <= x < end
  {
    if current <= x < end {
      assert In(x, Remainder(current, end)[0]);
    }
  }

  /** The gaps of one expected range hold exactly its points that no completed range covers. */
  lemma {:induction false} GapsHoldUncovered(current: int, end: int, completed: seq<Range>, x: int)
    requires SortedBy(ByStart(), completed) && AllWellFormed(completed)
    ensures Covered(x, Gaps(current, end, completed)) <==> current <= x < end && !Covered(x, completed)
    decreases |completed|
  {
    if completed == [] {
      CoveredRemainder(x, current, end);
    } else {
      var comp, rest := completed[0], completed[1..];
      assert SortedBy(ByStart(), rest) by {
        forall i, j | 0 <= i < j < |rest|
          ensures ByStart()(rest[i]) <= ByStart()(rest[j])
        {
          assert rest[i] == completed[i + 1] && rest[j] == completed[j + 1];
        }
      }
      CoveredHead(x, completed);
      forall i | 0 <= i < |rest|
        ensures comp.from <= rest[i].from
      {
        assert ByStart()(completed[0]) <= ByStart()(completed[i + 1]);
      }
      if comp.to <= current {
        GapsHoldUncovered(current, end, rest, x);
      } else if comp.from >= end {
        CoveredRemainder(x, current, end);
      } else {
        GapsHoldUncovered(comp.to, end, rest, x);
        CoveredRemainder(x, current, comp.from);
        CoveredSplit(x, Remainder(current, comp.from), Gaps(comp.to, end, rest));
      }
    }
  }

  /** Over all expected ranges: the missing points are the expected ones that are not completed. */
  lemma {:induction false} MissingHoldUncovered(expected: seq<Range>, completed: seq<Range>, x: int)
    requires SortedBy(ByStart(), completed) && AllWellFormed(completed)
    ensures Covered(x, AllGaps(expected, completed)) <==> Covered(x, expected) && !Covered(x, completed)
  {
    if expected != [] {
      var front, last := expected[..|expected| - 1], expected[|expected| - 1];
      MissingHoldUncovered(front, completed, x);
      GapsHoldUncovered(last.from, last.to, completed, x);
      CoveredSplit(x, AllGaps(front, completed), Gaps(last.from, last.to, completed));
      CoveredSplit(x, front, [last]);
      assert expected == front + [last];
      assert In(x, last) <==> Covered(x, [last]) by {
        assert [last][0] == last;
      }
    }
  }

  // ---------------------------------------------------------------------------------------------
  // Lengths as numbers of points
  // ---------------------------------------------------------------------------------------------

  ghost function PointsOf(r: Range): set<int> {
    set x | r.from <= x < r.to && In(x, r)
  }

  ghost function Points(ranges: seq<Range>): set<int> {
    if ranges == [] then {} else Points(ranges[..|ranges| - 1]) + PointsOf(ranges[|ranges| - 1])
  }

  /** No two of the ranges share a point. */
  ghost predicate Disjoint(ranges: seq<Range>) {
    forall i, j :: 0 <= i < j < |ranges| ==> PointsOf(ranges[i]) !! PointsOf(ranges[j])
  }

  lemma {:induction false} PointsAreCovered(ranges: seq<Range>, x: int)
    ensures x in Points(ranges) <==> Covered(x, ranges)
  {
    if ranges != [] {
      var front, last := ranges[..|ranges| - 1], ranges[|ranges| - 1];
      PointsAreCovered(front, x);
      CoveredSplit(x, front, [last]);
      assert ranges == front + [last];
      assert In(x, last) <==> Covered(x, [last]) by {
        assert [last][0] == last;
      }
    }
  }

  lemma {:induction false} LengthIsPoints(r: Range)
    requires r.from <= r.to
    ensures |PointsOf(r)| == r.to - r.from
    decreases r.to - r.from
  {
    if r.from == r.to {
      assert PointsOf(r) == {};
    } else {
      LengthIsPoints(Range(r.from, r.to - 1));
      assert PointsOf(r) == PointsOf(Range(r.from, r.to - 1)) + {r.to - 1};
    }
  }

  lemma UnionCardinality(a: set<int>, b: set<int>)
    ensures |a + b| == |a| + |b| - |a * b|
  {
    assert a + b == a + (b - a);
    assert b == (b - a) + a * b;
  }

  /** The summed lengths are at least the number of points, with equality exactly for disjoint ranges. */
  lemma {:induction false} TotalLengthCountsPoints(ranges: seq<Range>)
    requires AllWellFormed(ranges)
    ensures TotalLength(ranges) >= |Points(ranges)|
    ensures TotalLength(ranges) == |Points(ranges)| <==> Disjoint(ranges)
  {
    if ranges != [] {
      var front, last := ranges[..|ranges| - 1], ranges[|ranges| - 1];
      TotalLengthCountsPoints(front);
      LengthIsPoints(last);
      UnionCardinality(Points(front), PointsOf(last));
      LastIsApart(front, last);
      assert ranges == front + [last];
      assert Disjoint(ranges) <==> Disjoint(front) && Points(front) !! PointsOf(last);
      if Points(front) * PointsOf(last) == {} {
      } else {
        assert |Points(front) * PointsOf(last)| > 0;
      }
    }
  }

  lemma LastIsApart(front: seq<Range>, last: Range)
    ensures Disjoint(front + [last]) <==> Disjoint(front) && Points(front) !! PointsOf(last)
  {
    var all := front + [last];
    if Disjoint(all) {
      forall i, j | 0 <= i < j < |front|
        ensures PointsOf(front[i]) !! PointsOf(front[j])
      {
        assert all[i] == front[i] && all[j] == front[j];
      }
      forall x | x in Points(front)
        ensures x !in PointsOf(last)
      {
        PointsAreCovered(front, x);
        var i :| 0 <= i < |front| && In(x, front[i]);
        assert all[i] == front[i] && all[|front|] == last;
      }
    }
    if Disjoint(front) && Points(front) !! PointsOf(last) {
      forall i, j | 0 <= i < j < |all|
        ensures PointsOf(all[i]) !! PointsOf(all[j])
      {
        if j == |front| {
          forall x | x in PointsOf(front[i])
            ensures x !in PointsOf(last)
          {
            assert In(x, front[i]);
            PointsAreCovered(front, x);
          }
        } else {
          assert all[i] == front[i] && all[j] == front[j];
        }
      }
    }
  }

  lemma DisjointAppend(a: seq<Range>, b: seq<Range>)
    requires Disjoint(a) && Disjoint(b) && Points(a) !! Points(b)
    ensures Disjoint(a + b)
  {
    forall i, j | 0 <= i < j < |a + b|
      ensures PointsOf((a + b)[i]) !! PointsOf((a + b)[j])
    {
      if i < |a| <= j {
        forall x | x in PointsOf(a[i])
          ensures x !in PointsOf(b[j - |a|])
        {
          assert In(x, a[i]);
          PointsAreCovered(a, x);
          if x in PointsOf(b[j - |a|]) {
            assert In(x, b[j - |a|]);
            PointsAreCovered(b, x);
          }
        }
      }
    }
  }

  /** Gaps of disjoint expected ranges are disjoint. */
  lemma {:induction false} MissingAreDisjoint(expected: seq<Range>, completed: seq<Range>)
    requires Disjoint(expected) && SortedBy(ByStart(), completed) && AllWellFormed(completed)
    ensures Disjoint(AllGaps(expected, completed)) && AllWellFormed(AllGaps(expected, completed))
  {
    if expected != [] {
      var front, last := expected[..|expected| - 1], expected[|expected| - 1];
      var a, b := AllGaps(front, completed), Gaps(last.from, last.to, completed);
      assert expected == front + [last];
      LastIsApart(front, last);
      MissingAreDisjoint(front, completed);
      GapsAreOrdered(last.from, last.to, completed);
      forall x | x in Points(a)
        ensures x !in Points(b)
      {
        PointsAreCovered(a, x);
        PointsAreCovered(b, x);
        MissingHoldUncovered(front, completed, x);
        GapsHoldUncovered(last.from, last.to, completed, x);
        PointsAreCovered(front, x);
      }
      DisjointAppend(a, b);
    }
  }

  /** Conservation: nothing completed outside and nothing counted twice, so the lengths add up. */
  lemma MissingPlusCompleted(expected: seq<Range>, completed: seq<Range>)
    requires SortedBy(ByStart(), completed) && AllWellFormed(completed) && AllWellFormed(expected)
    requires Disjoint(expected) && Disjoint(completed)
    requires Points(completed) <= Points(expected)
    ensures TotalLength(AllGaps(expected, completed)) + TotalLength(completed) == TotalLength(expected)
  {
    var missing := AllGaps(expected, completed);
    forall x
      ensures x in Points(missing) <==> x in Points(expected) && x !in Points(completed)
    {
      PointsAreCovered(missing, x);
      PointsAreCovered(expected, x);
      PointsAreCovered(completed, x);
      MissingHoldUncovered(expected, completed, x);
    }
    MissingAreDisjoint(expected, completed);
    TotalLengthCountsPoints(missing);
    TotalLengthCountsPoints(expected);
    TotalLengthCountsPoints(completed);
    assert Points(expected) == Points(missing) + Points(completed);
    assert |Points(expected)| == |Points(missing)| + |Points(completed)|;
  }

  // ---------------------------------------------------------------------------------------------
  // validateCompleteness
  // ---------------------------------------------------------------------------------------------

  lemma TotalLengthAppend(a: seq<Range>, b: seq<Range>)
    ensures TotalLength(a + b) == TotalLength(a) + TotalLength(b)
    decreases |b|
  {
    if b == [] {
      assert a + b == a;
    } else {
      assert (a + b)[..|a + b| - 1] == a + b[..|b| - 1];
      TotalLengthAppend(a, b[..|b| - 1]);
    }
  }

  lemma {:induction false} TotalLengthInsert(r: Range, s: seq<Range>)
    ensures TotalLength(Insert(ByStart(), r, s)) == TotalLength(s) + (r.to - r.from)
  {
    assert TotalLength([r]) == r.to - r.from by {
      assert [r][..0] == [];
    }
    if s == [] || r.from <= s[0].from {
      TotalLengthAppend([r], s);
    } else {
      TotalLengthInsert(r, s[1..]);
      HeadAndTail(s);
      TotalLengthAppend([s[0]], s[1..]);
      TotalLengthAppend([s[0]], Insert(ByStart(), r, s[1..]));
    }
  }

  lemma {:induction false} TotalLengthSorted(s: seq<Range>)
    ensures TotalLength(SortBy(ByStart(), s)) == TotalLength(s)
  {
    if s != [] {
      TotalLengthSorted(s[1..]);
      TotalLengthInsert(s[0], SortBy(ByStart(), s[1..]));
      HeadAndTail(s);
      TotalLengthAppend([s[0]], s[1..]);
      assert [s[0]][..0] == [];
    }
  }

  lemma CoveredSorted(x: int, s: seq<Range>)
    ensures Covered(x, SortBy(ByStart(), s)) <==> Covered(x, s)
  {
    var t := SortBy(ByStart(), s);
    SortByMembers(ByStart(), s);
    if Covered(x, t) {
      var i :| 0 <= i < |t| && In(x, t[i]);
      assert t[i] in s;
    }
    if Covered(x, s) {
      var i :| 0 <= i < |s| && In(x, s[i]);
      assert s[i] in t;
    }
  }

  lemma WellFormedSorted(s: seq<Range>)
    requires AllWellFormed(s)
    ensures AllWellFormed(SortBy(ByStart(), s))
  {
    SortByMembers(ByStart(), s);
    var t := SortBy(ByStart(), s);
    forall i | 0 <= i < |t|
      ensures t[i].from <= t[i].to
    {
      assert t[i] in s;
    }
  }

  lemma PointsSorted(s: seq<Range>)
    ensures Points(SortBy(ByStart(), s)) == Points(s)
  {
    forall x
      ensures x in Points(SortBy(ByStart(), s)) <==> x in Points(s)
    {
      PointsAreCovered(SortBy(ByStart(), s), x);
      PointsAreCovered(s, x);
      CoveredSorted(x, s);
    }
  }

  lemma DisjointSorted(s: seq<Range>)
    requires AllWellFormed(s)
    ensures Disjoint(SortBy(ByStart(), s)) <==> Disjoint(s)
  {
    WellFormedSorted(s);
    TotalLengthSorted(s);
    PointsSorted(s);
    TotalLengthCountsPoints(s);
    TotalLengthCountsPoints(SortBy(ByStart(), s));
  }

  /** The report on ranges given in any order. */
  ghost predicate Reports(expected: seq<Range>, completed: seq<Range>, r: CompletenessReport) {
    && r.totalExpected == TotalLength(expected)
    && (expected != [] ==> r.totalCompleted == TotalLength(completed))
    && (forall x :: Covered(x, r.missingRanges) <==> Covered(x, expected) && !Covered(x, completed))
    && (r.isComplete <==> forall x :: Covered(x, expected) ==> Covered(x, completed))
  }

  method ValidateCompleteness(expectedRanges: seq<Range>, completedRanges: seq<Range>)
    returns (r: CompletenessReport)
    ensures r.isComplete <==> r.missingRanges == []
    ensures r.missingRanges
      == AllGaps(SortBy(ByStart(), expectedRanges), SortBy(ByStart(), completedRanges))
    ensures AllWellFormed(completedRanges) ==> Reports(expectedRanges, completedRanges, r)
    ensures expectedRanges == [] ==> r.totalCompleted == 0
    ensures
      && AllWellFormed(completedRanges) && AllWellFormed(expectedRanges) && expectedRanges != []
      && Disjoint(expectedRanges) && Disjoint(completedRanges)
      && Points(completedRanges) <= Points(expectedRanges)
      ==> TotalLength(r.missingRanges) + r.totalCompleted == r.totalExpected
  {
    if |expectedRanges| == 0 {
      return CompletenessReport(0, 0, [], true);
    }
    var sorted := SortBy(ByStart(), expectedRanges);
    var completed := SortBy(ByStart(), completedRanges);
    var totalExpected := SumLengths(sorted);
    var totalCompleted := SumLengths(completed);
    var missingRanges := FindMissingRanges(sorted, completed);
    r := CompletenessReport(totalExpected, totalCompleted, missingRanges, |missingRanges| == 0);
    TotalLengthSorted(expectedRanges);
    TotalLengthSorted(completedRanges);
    if AllWellFormed(completedRanges) {
      MissingReported(expectedRanges, completedRanges);
    }
  }

  /** The `reduce` that adds up the lengths. */
  method SumLengths(ranges: seq<Range>) returns (sum: int)
    ensures sum == TotalLength(ranges)
  {
    sum := 0;
    for i := 0 to |ranges|
      invariant sum == TotalLength(ranges[..i])
    {
      assert ranges[..i + 1][..i] == ranges[..i];
      sum := sum + (ranges[i].to - ranges[i].from);
    }
    assert ranges[..|ranges|] == ranges;
  }

  /** A non-empty list of gaps covers a point. */
  lemma {:induction false} SomeGapHasPoint(expected: seq<Range>, completed: seq<Range>)
    requires AllWellFormed(completed) && AllGaps(expected, completed) != []
    ensures exists x :: Covered(x, AllGaps(expected, completed))
  {
    var front, last := expected[..|expected| - 1], expected[|expected| - 1];
    var a, b := AllGaps(front, completed), Gaps(last.from, last.to, completed);
    if a != [] {
      SomeGapHasPoint(front, completed);
      var x :| Covered(x, a);
      CoveredSplit(x, a, b);
    } else {
      GapsAreOrdered(last.from, last.to, completed);
      assert In(b[0].from, (a + b)[0]);
      assert Covered(b[0].from, a + b);
    }
  }

  lemma MissingReported(expected: seq<Range>, completed: seq<Range>)
    requires AllWellFormed(completed)
    ensures var missing := AllGaps(SortBy(ByStart(), expected), SortBy(ByStart(), completed));
      && (forall x :: Covered(x, missing) <==> Covered(x, expected) && !Covered(x, completed))
      && (missing == [] <==> forall x :: Covered(x, expected) ==> Covered(x, completed))
      && (AllWellFormed(expected) && Disjoint(expected) && Disjoint(completed)
        && Points(completed) <= Points(expected)
        ==> TotalLength(missing) + TotalLength(completed) == TotalLength(expected))
  {
    var e, c := SortBy(ByStart(), expected), SortBy(ByStart(), completed);
    var missing := AllGaps(e, c);
    SortBySorts(ByStart(), completed);
    WellFormedSorted(completed);
    forall x
      ensures Covered(x, missing) <==> Covered(x, expected) && !Covered(x, completed)
    {
      MissingHoldUncovered(e, c, x);
      CoveredSorted(x, expected);
      CoveredSorted(x, completed);
    }
    if missing != [] {
      SomeGapHasPoint(e, c);
    }
    if AllWellFormed(expected) && Disjoint(expected) && Disjoint(completed)
      && Points(completed) <= Points(expected) {
      WellFormedSorted(expected);
      DisjointSorted(expected);
      DisjointSorted(completed);
      PointsSorted(expected);
      PointsSorted(completed);
      TotalLengthSorted(expected);
      TotalLengthSorted(completed);
      MissingPlusCompleted(e, c);
    }
  }
}
