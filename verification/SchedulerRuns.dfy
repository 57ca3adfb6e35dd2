/**
 Whole runs of the scheduler. Workers lease chunks that are eligible at that moment and each worker
 that holds a chunk reports on it at most once; time and lease expiry are unconstrained.
 */
module SchedulerRuns {
  import opened Wrappers
  import opened SchedulerSteps

  datatype Action =
    | Lease(i: nat, now: int)
    | Run(i: nat)
    | Complete(i: nat, checksum: Option<string>)
    | Fail(i: nat)
    | Reap(now: int)
    | Look(limit: int, now: int)
    | Resume
    | Pause

  /** The scheduler with, per chunk, the workers that lease it and have not reported, and all leases granted. */
  datatype World = World(s: State, holders: seq<int>, granted: seq<int>)

  predicate Shape(w: World) {
    |w.holders| == |w.s.chunks| && |w.granted| == |w.s.chunks|
  }

  predicate InRange(w: World, a: Action) {
    Shape(w) && match a
      case Lease(i, _) => i < |w.s.chunks|
      case Run(i) => i < |w.s.chunks|
      case Complete(i, _) => i < |w.s.chunks|
      case Fail(i) => i < |w.s.chunks|
      case _ => true
  }

  /** The callers' discipline; `Pause` is not part of it. */
  predicate Disciplined(w: World, a: Action) {
    InRange(w, a) && match a
      case Lease(i, now) => Eligible(w.s, i, now)
      case Run(i) => w.holders[i] > 0
      case Complete(i, _) => w.holders[i] > 0
      case Fail(i) => w.holders[i] > 0
      case Reap(_) => true
      case Look(_, _) => true
      case Resume => true
      case Pause => false
  }

  function Step(w: World, a: Action): (r: World)
    requires InRange(w, a)
    ensures Shape(r) && |r.s.chunks| == |w.s.chunks|
  {
    match a
    case Lease(i, now) =>
      World(LeaseStep(w.s, i, now), w.holders[i := w.holders[i] + 1], w.granted[i := w.granted[i] + 1])
    case Run(i) => w.(s := RunningStep(w.s, i))
    case Complete(i, checksum) =>
      w.(s := CompletedStep(w.s, i, checksum), holders := w.holders[i := w.holders[i] - 1])
    case Fail(i) => w.(s := FailedStep(w.s, i), holders := w.holders[i := w.holders[i] - 1])
    case Reap(now) => w.(s := w.s.(leases := LiveLeases(w.s.leases, now)))
    case Look(limit, now) => w.(s := w.s.(leases := ScanStep(w.s, limit, now, |w.s.chunks|).leases))
    case Resume => w.(s := ResumeStep(w.s, |w.s.chunks|))
    case Pause => w.(s := PauseStep(w.s, |w.s.chunks|))
  }

  /** A run in which every action obeys the discipline when it happens. */
  predicate DisciplinedRun(w: World, acts: seq<Action>)
    decreases |acts|
  {
    acts != [] ==> Disciplined(w, acts[0]) && DisciplinedRun(Step(w, acts[0]), acts[1..])
  }

  function After(w: World, acts: seq<Action>): World
    requires DisciplinedRun(w, acts)
    decreases |acts|
  {
    if acts == [] then w else After(Step(w, acts[0]), acts[1..])
  }

  // ---------------------------------------------------------------------------------------------
  // The invariant
  // ---------------------------------------------------------------------------------------------

  predicate Active(status: TaskStatus) {
    status in {Leased, Running}
  }

  /** One chunk: the tabled status determines holders, attempts, grants and the recorded status. */
  predicate ChunkOk(status: TaskStatus, c: Chunk, holders: int, granted: int) {
    && status in {Pending, Leased, Running, Completed, Failed}
    && holders == (if Active(status) then 1 else 0)
    && granted == c.attempts + (if Active(status) || status == Completed then 1 else 0)
    && c.attempts <= c.maxAttempts && (c.attempts == c.maxAttempts <==> status == Failed)
    && (c.status == Completed <==> status == Completed)
    && (c.status == Failed <==> status == Failed)
  }

  ghost predicate Inv(w: World) {
    && Shape(w) && DistinctKeys(w.s)
    && forall i :: 0 <= i < |w.s.chunks| ==>
      && w.s.chunks[i].key in w.s.statusMap
      && ChunkOk(w.s.statusMap[w.s.chunks[i].key], w.s.chunks[i], w.holders[i], w.granted[i])
  }

  /** A fresh scheduler: everything pending, nothing leased, at least one attempt allowed. */
  ghost predicate Fresh(w: World) {
    && Shape(w) && DistinctKeys(w.s) && w.s.leases == map[]
    && forall i :: 0 <= i < |w.s.chunks| ==>
      && w.s.chunks[i].key in w.s.statusMap && w.s.statusMap[w.s.chunks[i].key] == Pending
      && w.s.chunks[i].status == Pending
      && w.s.chunks[i].attempts == 0 < w.s.chunks[i].maxAttempts
      && w.holders[i] == 0 && w.granted[i] == 0
  }

  lemma FreshIsOk(w: World)
    requires Fresh(w)
    ensures Inv(w)
  {
  }

  lemma {:induction false} ResumeFindsNothing(w: World, n: nat)
    requires Inv(w) && n <= |w.s.chunks|
    ensures ResumeStep(w.s, n) == w.s
  {
    if n > 0 {
      ResumeFindsNothing(w, n - 1);
      assert ChunkOk(w.s.statusMap[w.s.chunks[n - 1].key], w.s.chunks[n - 1], w.holders[n - 1], w.granted[n - 1]);
    }
  }

  lemma StepKeepsInv(w: World, a: Action)
    requires Inv(w) && Disciplined(w, a)
    ensures Inv(Step(w, a))
  {
    if a.Resume? {
      ResumeFindsNothing(w, |w.s.chunks|);
    }
    var r := Step(w, a);
    forall i | 0 <= i < |r.s.chunks|
      ensures r.s.chunks[i].key in r.s.statusMap
      ensures ChunkOk(r.s.statusMap[r.s.chunks[i].key], r.s.chunks[i], r.holders[i], r.granted[i])
    {
      assert ChunkOk(w.s.statusMap[w.s.chunks[i].key], w.s.chunks[i], w.holders[i], w.granted[i]);
    }
  }

  lemma {:induction false} RunKeepsInv(w: World, acts: seq<Action>)
    requires Inv(w) && DisciplinedRun(w, acts)
    ensures Inv(After(w, acts))
    decreases |acts|
  {
    if acts != [] {
      StepKeepsInv(w, acts[0]);
      RunKeepsInv(Step(w, acts[0]), acts[1..]);
    }
  }

  // ---------------------------------------------------------------------------------------------
  // What the invariant means for the users of the scheduler
  // ---------------------------------------------------------------------------------------------

  function StatusOf(s: State, i: nat): Option<TaskStatus>
    requires i < |s.chunks|
  {
    if s.chunks[i].key in s.statusMap then Some(s.statusMap[s.chunks[i].key]) else None
  }

  /**
   In every disciplined run from a fresh scheduler: never two holders of a chunk, even after its
   lease has expired; the retry budget is respected and used up exactly by the failed chunks; the
   chunk objects agree with the status map on what is completed and what is failed.
   */
  lemma RunsAreSafe(w: World, acts: seq<Action>, i: nat)
    requires Fresh(w) && DisciplinedRun(w, acts) && i < |w.s.chunks|
    ensures var r := After(w, acts);
      && Inv(r) && i < |r.s.chunks|
      && 0 <= r.holders[i] <= 1
      && r.s.chunks[i].attempts <= r.s.chunks[i].maxAttempts == w.s.chunks[i].maxAttempts
      && (r.s.chunks[i].attempts == r.s.chunks[i].maxAttempts <==> StatusOf(r.s, i) == Some(Failed))
      && (r.s.chunks[i].status == Completed <==> StatusOf(r.s, i) == Some(Completed))
      && (r.s.chunks[i].status == Failed <==> StatusOf(r.s, i) == Some(Failed))
      && r.granted[i] <= w.s.chunks[i].maxAttempts
  {
    FreshIsOk(w);
    RunKeepsInv(w, acts);
    RunKeepsPlan(w, acts, i);
    var r := After(w, acts);
    assert ChunkOk(r.s.statusMap[r.s.chunks[i].key], r.s.chunks[i], r.holders[i], r.granted[i]);
  }

  /** What a chunk covers and how it is filed never changes. */
  predicate SamePlan(a: Chunk, b: Chunk) {
    a.key == b.key && a.taskId == b.taskId && a.chunkIndex == b.chunkIndex
    && a.from == b.from && a.to == b.to && a.maxAttempts == b.maxAttempts
  }

  lemma {:induction false} RunKeepsPlan(w: World, acts: seq<Action>, i: nat)
    requires Inv(w) && DisciplinedRun(w, acts) && i < |w.s.chunks|
    ensures |After(w, acts).s.chunks| == |w.s.chunks| && SamePlan(After(w, acts).s.chunks[i], w.s.chunks[i])
    decreases |acts|
  {
    if acts != [] {
      StepKeepsInv(w, acts[0]);
      if acts[0].Resume? {
        ResumeFindsNothing(w, |w.s.chunks|);
      }
      assert SamePlan(Step(w, acts[0]).s.chunks[i], w.s.chunks[i]);
      RunKeepsPlan(Step(w, acts[0]), acts[1..], i);
    }
  }

  /** Completed and failed are final: whatever disciplined run follows, the chunk keeps its status. */
  lemma {:induction false} FinalStatusStays(w: World, acts: seq<Action>, i: nat)
    requires Inv(w) && DisciplinedRun(w, acts) && i < |w.s.chunks|
    requires StatusOf(w.s, i) in {Some(Completed), Some(Failed)}
    ensures |After(w, acts).s.chunks| == |w.s.chunks|
    ensures StatusOf(After(w, acts).s, i) == StatusOf(w.s, i)
    ensures After(w, acts).s.chunks[i] == w.s.chunks[i]
    decreases |acts|
  {
    if acts != [] {
      FinalStatusStaysOneStep(w, acts[0], i);
      StepKeepsInv(w, acts[0]);
      FinalStatusStays(Step(w, acts[0]), acts[1..], i);
    }
  }

  lemma FinalStatusStaysOneStep(w: World, a: Action, i: nat)
    requires Inv(w) && Disciplined(w, a) && i < |w.s.chunks|
    requires StatusOf(w.s, i) in {Some(Completed), Some(Failed)}
    ensures StatusOf(Step(w, a).s, i) == StatusOf(w.s, i) && Step(w, a).s.chunks[i] == w.s.chunks[i]
  {
    if a.Resume? {
      ResumeFindsNothing(w, |w.s.chunks|);
    }
    assert ChunkOk(w.s.statusMap[w.s.chunks[i].key], w.s.chunks[i], w.holders[i], w.granted[i]);
  }

  // ---------------------------------------------------------------------------------------------
  // Leases
  // ---------------------------------------------------------------------------------------------

  /** Only leased and running chunks have an entry in the lease table. */
  ghost predicate LeasesMatch(w: World) {
    forall i | 0 <= i < |w.s.chunks| && w.s.chunks[i].key in w.s.leases ::
      StatusOf(w.s, i) in {Some(Leased), Some(Running)}
  }

  lemma StepKeepsLeases(w: World, a: Action)
    requires Inv(w) && LeasesMatch(w) && Disciplined(w, a)
    ensures LeasesMatch(Step(w, a))
  {
    if a.Resume? {
      ResumeFindsNothing(w, |w.s.chunks|);
    }
    if a.Look? {
      ScanIsOrdered(w.s, a.limit, a.now, |w.s.chunks|);
    }
    var r := Step(w, a);
    forall i | 0 <= i < |r.s.chunks| && r.s.chunks[i].key in r.s.leases
      ensures StatusOf(r.s, i) in {Some(Leased), Some(Running)}
    {
      assert ChunkOk(w.s.statusMap[w.s.chunks[i].key], w.s.chunks[i], w.holders[i], w.granted[i]);
      assert w.s.chunks[i].key == r.s.chunks[i].key;
      assert StatusOf(w.s, i).Some?;
    }
  }

  lemma {:induction false} RunKeepsLeases(w: World, acts: seq<Action>)
    requires Inv(w) && LeasesMatch(w) && DisciplinedRun(w, acts)
    ensures LeasesMatch(After(w, acts))
    decreases |acts|
  {
    if acts != [] {
      StepKeepsInv(w, acts[0]);
      StepKeepsLeases(w, acts[0]);
      RunKeepsLeases(Step(w, acts[0]), acts[1..]);
    }
  }

  /**
   In every disciplined run from a fresh scheduler, whatever the clock: a lease entry belongs to a leased or running
   chunk, so a pending chunk, failed before or not, is eligible at once, and finished chunks hold no lease.
   */
  lemma PendingIsEligible(w: World, acts: seq<Action>, i: nat, now: int)
    requires Fresh(w) && DisciplinedRun(w, acts) && i < |w.s.chunks|
    ensures var s := After(w, acts).s;
      && i < |s.chunks|
      && (s.chunks[i].key in s.leases ==> StatusOf(s, i) in {Some(Leased), Some(Running)})
      && (StatusOf(s, i) == Some(Pending) ==> Eligible(s, i, now))
      && (StatusOf(s, i) in {Some(Completed), Some(Failed)} ==> s.chunks[i].key !in s.leases)
  {
    FreshIsOk(w);
    RunKeepsCount(w, acts);
    RunKeepsLeases(w, acts);
  }

  function Sum(s: seq<int>): int {
    if s == [] then 0 else Sum(s[..|s| - 1]) + s[|s| - 1]
  }

  ghost function Budgets(s: State): seq<int> {
    seq(|s.chunks|, i requires 0 <= i < |s.chunks| => s.chunks[i].maxAttempts)
  }

  lemma {:induction false} SumMonotone(a: seq<int>, b: seq<int>)
    requires |a| == |b| && forall i :: 0 <= i < |a| ==> a[i] <= b[i]
    ensures Sum(a) <= Sum(b)
  {
    if a != [] {
      SumMonotone(a[..|a| - 1], b[..|b| - 1]);
    }
  }

  /** All leases ever granted stay within the summed retry budgets. */
  lemma TotalLeasesBounded(w: World, acts: seq<Action>)
    requires Fresh(w) && DisciplinedRun(w, acts)
    ensures Sum(After(w, acts).granted) <= Sum(Budgets(w.s))
  {
    var r := After(w, acts);
    FreshIsOk(w);
    RunKeepsInv(w, acts);
    RunKeepsCount(w, acts);
    forall i | 0 <= i < |w.s.chunks|
      ensures r.granted[i] <= Budgets(w.s)[i]
    {
      RunsAreSafe(w, acts, i);
    }
    SumMonotone(r.granted, Budgets(w.s));
  }

  lemma {:induction false} RunKeepsCount(w: World, acts: seq<Action>)
    requires Inv(w) && DisciplinedRun(w, acts)
    ensures |After(w, acts).s.chunks| == |w.s.chunks|
    decreases |acts|
  {
    if acts != [] {
      StepKeepsInv(w, acts[0]);
      RunKeepsCount(Step(w, acts[0]), acts[1..]);
    }
  }

  // ---------------------------------------------------------------------------------------------
  // pauseAll
  // ---------------------------------------------------------------------------------------------

  lemma {:induction false} PauseFindsNothing(w: World, n: nat)
    requires Inv(w) && n <= |w.s.chunks| && forall i :: 0 <= i < |w.holders| ==> w.holders[i] == 0
    ensures PauseStep(w.s, n) == w.s
  {
    if n > 0 {
      PauseFindsNothing(w, n - 1);
      assert ChunkOk(w.s.statusMap[w.s.chunks[n - 1].key], w.s.chunks[n - 1], w.holders[n - 1], w.granted[n - 1]);
    }
  }

  lemma {:induction false} PauseReaches(w: World, n: nat, i: nat)
    requires Inv(w) && n <= |w.s.chunks| && i < |w.s.chunks|
    ensures PauseStep(w.s, n).chunks[i].key == w.s.chunks[i].key
    ensures StatusOf(PauseStep(w.s, n), i)
      == if i < n && w.holders[i] > 0 then Some(Paused) else StatusOf(w.s, i)
  {
    assert ChunkOk(w.s.statusMap[w.s.chunks[i].key], w.s.chunks[i], w.holders[i], w.granted[i]);
    if n > 0 {
      PauseReaches(w, n - 1, i);
      PauseReaches(w, n - 1, n - 1);
    }
  }

  ghost predicate SomebodyHolds(w: World) {
    exists i :: 0 <= i < |w.holders| && w.holders[i] > 0
  }

  /** Some disciplined run from `w` gives a chunk to two workers at once. */
  ghost predicate CanBeHeldTwice(w: World) {
    exists acts, i: nat ::
      DisciplinedRun(w, acts) && i < |After(w, acts).holders| && After(w, acts).holders[i] > 1
  }

  /** Some disciplined run from `w` completes a chunk and later gives it another status. */
  ghost predicate CanLoseCompletion(w: World) {
    exists acts, later, i: nat :: LosesCompletion(w, acts, later, i)
  }

  ghost predicate LosesCompletion(w: World, acts: seq<Action>, later: seq<Action>, i: nat) {
    && DisciplinedRun(w, acts) && DisciplinedRun(After(w, acts), later)
    && i < |After(w, acts).s.chunks| && i < |After(After(w, acts), later).s.chunks|
    && StatusOf(After(w, acts).s, i) == Some(Completed)
    && StatusOf(After(After(w, acts), later).s, i) != Some(Completed)
  }

  lemma OneStep(w: World, a: Action)
    requires Disciplined(w, a)
    ensures DisciplinedRun(w, [a]) && After(w, [a]) == Step(w, a)
  {
    assert [a][1..] == [];
    assert DisciplinedRun(Step(w, a), []);
  }

  lemma TwoSteps(w: World, a: Action, b: Action)
    requires Disciplined(w, a) && Disciplined(Step(w, a), b)
    ensures DisciplinedRun(w, [a, b]) && After(w, [a, b]) == Step(Step(w, a), b)
  {
    assert [a, b][1..] == [b];
    OneStep(Step(w, a), b);
  }

  /** After a pause a held chunk can be leased again beside its holder, and its lease is gone. */
  lemma PausedIsEligible(w: World, i: nat, now: int)
    requires Inv(w) && i < |w.holders| && w.holders[i] > 0
    ensures var p := Step(w, Pause);
      Shape(p) && i < |p.holders| && p.holders == w.holders && Eligible(p.s, i, now)
  {
    PauseReaches(w, |w.s.chunks|, i);
    PauseReleases(w, |w.s.chunks|, i);
  }

  lemma {:induction false} PauseReleases(w: World, n: nat, i: nat)
    requires Inv(w) && i < n <= |w.s.chunks| && w.holders[i] > 0
    ensures w.s.chunks[i].key !in PauseStep(w.s, n).leases
  {
    PauseReaches(w, n - 1, n - 1);
    if i < n - 1 {
      PauseReleases(w, n - 1, i);
    } else {
      assert ChunkOk(w.s.statusMap[w.s.chunks[i].key], w.s.chunks[i], w.holders[i], w.granted[i]);
    }
  }

  lemma HeldCanBeHeldTwice(w: World, i: nat)
    requires Inv(w) && i < |w.holders| && w.holders[i] > 0
    ensures CanBeHeldTwice(Step(w, Pause)) && CanLoseCompletion(Step(w, Pause))
  {
    var p := Step(w, Pause);
    PausedIsEligible(w, i, 0);
    OneStep(p, Lease(i, 0));
    assert After(p, [Lease(i, 0)]).holders[i] > 1;
    TwoSteps(p, Lease(i, 0), Complete(i, None));
    var done := After(p, [Lease(i, 0), Complete(i, None)]);
    OneStep(done, Fail(i));
    assert LosesCompletion(p, [Lease(i, 0), Complete(i, None)], [Fail(i)], i);
  }

  lemma InvForbidsBoth(w: World)
    requires Inv(w)
    ensures !CanBeHeldTwice(w) && !CanLoseCompletion(w)
  {
    forall acts, i: nat | DisciplinedRun(w, acts) && i < |After(w, acts).holders|
      ensures After(w, acts).holders[i] <= 1
    {
      RunKeepsInv(w, acts);
      var r := After(w, acts);
      assert ChunkOk(r.s.statusMap[r.s.chunks[i].key], r.s.chunks[i], r.holders[i], r.granted[i]);
    }
    forall acts, later, i: nat
      ensures !LosesCompletion(w, acts, later, i)
    {
      if LosesCompletion(w, acts, later, i) {
        RunKeepsInv(w, acts);
        FinalStatusStays(After(w, acts), later, i);
      }
    }
  }

  /**
   After `pauseAll` a chunk can come to have two holders, and a completed chunk can be undone, exactly when some
   worker held a chunk at that moment.
   */
  lemma PauseIsSafeIff(w: World)
    requires Inv(w)
    ensures CanBeHeldTwice(Step(w, Pause)) <==> SomebodyHolds(w)
    ensures CanLoseCompletion(Step(w, Pause)) <==> SomebodyHolds(w)
  {
    if SomebodyHolds(w) {
      var i :| 0 <= i < |w.holders| && w.holders[i] > 0;
      HeldCanBeHeldTwice(w, i);
    } else {
      forall i | 0 <= i < |w.holders|
        ensures w.holders[i] == 0
      {
        assert ChunkOk(w.s.statusMap[w.s.chunks[i].key], w.s.chunks[i], w.holders[i], w.granted[i]);
      }
      PauseFindsNothing(w, |w.s.chunks|);
      InvForbidsBoth(w);
    }
  }

  /**
   What goes wrong otherwise: a chunk leased, paused and leased again has two holders, and when the
   second completes it, the late failure report of the first makes it pending again.
   */
  lemma PauseUndoesCompletion(c: Chunk, now: int)
    requires c.status == Pending && c.attempts == 0 && c.maxAttempts == 3
    ensures var w := World(State([c], map[], map[c.key := Pending]), [0], [0]);
      && Fresh(w)
      && Eligible(w.s, 0, now)
      && var p := Step(Step(w, Lease(0, now)), Pause);
      && Eligible(p.s, 0, now)
      && var two := Step(p, Lease(0, now));
      && two.holders == [2]
      && var done := Step(two, Complete(0, None));
      && StatusOf(done.s, 0) == Some(Completed) && done.holders == [1]
      && StatusOf(Step(done, Fail(0)).s, 0) == Some(Pending)
  {
    var w := World(State([c], map[], map[c.key := Pending]), [0], [0]);
    var one := Step(w, Lease(0, now));
    assert PauseStep(one.s, 0) == one.s;
    assert PauseStep(one.s, 1) == PauseOne(one.s, 0);
  }
}
