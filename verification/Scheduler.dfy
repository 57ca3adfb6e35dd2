/**
 The chunk scheduler: lease table, status map and the chunk objects it updates in place. Each method
 is proved against a step function on plain values; `SchedulerRuns` reasons about those steps.
 */
module SchedulerSteps {
  import opened Arithmetic
  import opened Wrappers
  import opened Text

  const LEASE_DURATION_MS := 5 * 60 * 1000

  datatype TaskStatus = Pending | Ready | Leased | Running | Completed | Failed | Paused | Cancelled

  /** The value of a chunk object; `key` is the text under which both tables file it. */
  datatype Chunk = Chunk(
    key: string, taskId: string, chunkIndex: int, from: int, to: int, status: TaskStatus,
    leaseId: Option<string>, leaseExpiresAt: Option<int>,
    attempts: int, maxAttempts: int, checksum: Option<string>)

  function ChunkKey(taskId: string, chunkIndex: int): string {
    taskId + ":" + IntText(chunkIndex)
  }

  /** A chunk as the orchestrator creates it. */
  function NewChunk(taskId: string, chunkIndex: int, from: int, to: int, maxAttempts: int): Chunk {
    Chunk(
      ChunkKey(taskId, chunkIndex), taskId, chunkIndex, from, to, Pending, None, None, 0, maxAttempts, None)
  }

  /** The scheduler's data: its chunks, the lease expiry per key and the status per key. */
  datatype State = State(chunks: seq<Chunk>, leases: map<string, int>, statusMap: map<string, TaskStatus>)

  function LeaseIdText(taskId: string, chunkIndex: int, now: int): string {
    "lease-" + taskId + "-" + IntText(chunkIndex) + "-" + IntText(now)
  }

  predicate IsLeasedAt(leases: map<string, int>, key: string, now: int) {
    key in leases && leases[key] > now
  }

  predicate Waiting(statusMap: map<string, TaskStatus>, key: string) {
    key in statusMap && statusMap[key] in {Pending, Ready, Paused}
  }

  function LeaseStep(s: State, i: nat, now: int): State
    requires i < |s.chunks|
  {
    var c := s.chunks[i];
    s.(
      leases := s.leases[c.key := now + LEASE_DURATION_MS],
      statusMap := s.statusMap[c.key := Leased],
      chunks := s.chunks[i := c.(
        leaseId := Some(LeaseIdText(c.taskId, c.chunkIndex, now)),
        leaseExpiresAt := Some(now + LEASE_DURATION_MS))])
  }

  function RunningStep(s: State, i: nat): State
    requires i < |s.chunks|
  {
    s.(statusMap := s.statusMap[s.chunks[i].key := Running])
  }

  function CompletedStep(s: State, i: nat, checksum: Option<string>): State
    requires i < |s.chunks|
  {
    var c := s.chunks[i];
    State(
      s.chunks[i := c.(status := Completed, checksum := checksum)],
      s.leases - {c.key},
      s.statusMap[c.key := Completed])
  }

  function FailedStep(s: State, i: nat): State
    requires i < |s.chunks|
  {
    var c := s.chunks[i];
    var next := if c.attempts + 1 < c.maxAttempts then Pending else Failed;
    State(
      s.chunks[i := c.(status := next, attempts := c.attempts + 1)],
      s.leases - {c.key},
      s.statusMap[c.key := next])
  }

  /** What `pauseAll` does to one chunk. */
  function PauseOne(s: State, i: nat): (r: State)
    requires i < |s.chunks|
    ensures |r.chunks| == |s.chunks|
  {
    var c := s.chunks[i];
    if c.key in s.statusMap && s.statusMap[c.key] in {Running, Leased} then
      State(s.chunks[i := c.(status := Paused)], s.leases - {c.key}, s.statusMap[c.key := Paused])
    else
      s
  }

  /** `pauseAll` on the first `n` chunks. */
  function PauseStep(s: State, n: nat): (r: State)
    requires n <= |s.chunks|
    ensures |r.chunks| == |s.chunks|
  {
    if n == 0 then s else PauseOne(PauseStep(s, n - 1), n - 1)
  }

  /** What `resumeAll` does to one chunk. */
  function ResumeOne(s: State, i: nat): (r: State)
    requires i < |s.chunks|
    ensures |r.chunks| == |s.chunks|
  {
    var c := s.chunks[i];
    if c.key in s.statusMap && s.statusMap[c.key] == Paused then
      s.(chunks := s.chunks[i := c.(status := Ready)], statusMap := s.statusMap[c.key := Ready])
    else
      s
  }

  /** `resumeAll` on the first `n` chunks. */
  function ResumeStep(s: State, n: nat): (r: State)
    requires n <= |s.chunks|
    ensures |r.chunks| == |s.chunks|
  {
    if n == 0 then s else ResumeOne(ResumeStep(s, n - 1), n - 1)
  }

  ghost predicate DistinctKeys(s: State) {
    forall i, j :: 0 <= i < j < |s.chunks| ==> s.chunks[i].key != s.chunks[j].key
  }

  /** `r` is `s` with the status of the keys in `moved` set to `status`, in table and chunks. */
  ghost predicate MovedTo(s: State, r: State, moved: set<string>, status: TaskStatus) {
    && r.statusMap.Keys == s.statusMap.Keys && |r.chunks| == |s.chunks|
    && (forall k | k in s.statusMap :: r.statusMap[k] == if k in moved then status else s.statusMap[k])
    && (forall i | 0 <= i < |s.chunks| :: r.chunks[i].key == s.chunks[i].key)
    && (DistinctKeys(s) ==>
          forall i | 0 <= i < |s.chunks| ::
            r.chunks[i] == if s.chunks[i].key in moved then s.chunks[i].(status := status) else s.chunks[i])
  }

  /** The keys of the first `n` chunks with one of the statuses. */
  ghost function KeysWith(s: State, n: nat, statuses: set<TaskStatus>): set<string>
    requires n <= |s.chunks|
  {
    set i | 0 <= i < n && s.chunks[i].key in s.statusMap && s.statusMap[s.chunks[i].key] in statuses :: s.chunks[i].key
  }

  /** Moving the `i`-th chunk as well, if its key has not been moved yet. */
  lemma MovedOneMore(s: State, r: State, moved: set<string>, status: TaskStatus, i: nat)
    requires i < |s.chunks| && MovedTo(s, r, moved, status) && s.chunks[i].key in s.statusMap
    requires s.chunks[i].key !in moved
    ensures var key := s.chunks[i].key;
      MovedTo(
        s, r.(chunks := r.chunks[i := r.chunks[i].(status := status)], statusMap := r.statusMap[key := status]),
        moved + {key}, status)
  {
  }

  lemma KeysWithNext(s: State, n: nat, statuses: set<TaskStatus>)
    requires 0 < n <= |s.chunks|
    ensures var c := s.chunks[n - 1];
      KeysWith(s, n, statuses) == KeysWith(s, n - 1, statuses)
        + (if c.key in s.statusMap && s.statusMap[c.key] in statuses then {c.key} else {})
  {
  }

  lemma TakenTogether(m: map<string, int>, a: set<string>, b: set<string>)
    ensures (m - a) - b == m - (a + b)
  {
  }

  lemma NothingMoved(s: State, statuses: set<TaskStatus>, status: TaskStatus)
    ensures KeysWith(s, 0, statuses) == {} && MovedTo(s, s, {}, status)
  {
  }

  /** Pausing moves exactly the leased and running chunks and releases exactly their leases. */
  lemma {:induction false} PauseMoves(s: State, n: nat)
    requires n <= |s.chunks|
    ensures MovedTo(s, PauseStep(s, n), KeysWith(s, n, {Leased, Running}), Paused)
    ensures PauseStep(s, n).leases == s.leases - KeysWith(s, n, {Leased, Running})
  {
    hide KeysWith, DistinctKeys;
    if n == 0 {
      NothingMoved(s, {Leased, Running}, Paused);
    } else {
      var r, moved, key := PauseStep(s, n - 1), KeysWith(s, n - 1, {Leased, Running}), s.chunks[n - 1].key;
      PauseMoves(s, n - 1);
      KeysWithNext(s, n, {Leased, Running});
      if key in s.statusMap && key !in moved && s.statusMap[key] in {Leased, Running} {
        MovedOneMore(s, r, moved, Paused, n - 1);
        TakenTogether(s.leases, moved, {key});
      } else {
        assert PauseOne(r, n - 1) == r;
        assert key in moved ==> moved + {key} == moved;
        assert moved + {} == moved;
      }
    }
  }

  /** Resuming moves exactly the paused chunks and leaves the leases alone. */
  lemma {:induction false} ResumeMoves(s: State, n: nat)
    requires n <= |s.chunks|
    ensures MovedTo(s, ResumeStep(s, n), KeysWith(s, n, {Paused}), Ready)
    ensures ResumeStep(s, n).leases == s.leases
  {
    hide KeysWith, DistinctKeys;
    if n == 0 {
      NothingMoved(s, {Paused}, Ready);
    } else {
      var r, moved, key := ResumeStep(s, n - 1), KeysWith(s, n - 1, {Paused}), s.chunks[n - 1].key;
      ResumeMoves(s, n - 1);
      KeysWithNext(s, n, {Paused});
      if key in s.statusMap && key !in moved && s.statusMap[key] == Paused {
        MovedOneMore(s, r, moved, Ready, n - 1);
      } else {
        assert ResumeOne(r, n - 1) == r;
        assert key in moved ==> moved + {key} == moved;
        assert moved + {} == moved;
      }
    }
  }

  function LiveLeases(leases: map<string, int>, now: int): map<string, int> {
    map k | k in leases && leases[k] > now :: leases[k]
  }

  /** The indices picked by a scan of the first `n` chunks, and the lease table it leaves behind. */
  datatype Scan = Scan(picked: seq<int>, leases: map<string, int>)

  function ScanStep(s: State, limit: int, now: int, n: nat): (r: Scan)
    requires n <= |s.chunks|
    ensures forall j :: 0 <= j < |r.picked| ==> 0 <= r.picked[j] < n
  {
    if n == 0 then
      Scan([], s.leases)
    else
      var p := ScanStep(s, limit, now, n - 1);
      var key := s.chunks[n - 1].key;
      if |p.picked| >= limit || !Waiting(s.statusMap, key) then p
      else if IsLeasedAt(p.leases, key, now) then p
      else Scan(p.picked + [n - 1], p.leases - {key})
  }

  lemma ScanNext(s: State, limit: int, now: int, k: nat)
    requires k < |s.chunks| && |ScanStep(s, limit, now, k).picked| < limit
    ensures var p, key := ScanStep(s, limit, now, k), s.chunks[k].key;
      ScanStep(s, limit, now, k + 1)
      == if Waiting(s.statusMap, key) && !IsLeasedAt(p.leases, key, now)
         then Scan(p.picked + [k], p.leases - {key}) else p
  {
  }

  predicate Eligible(s: State, i: nat, now: int) {
    && i < |s.chunks|
    && Waiting(s.statusMap, s.chunks[i].key)
    && !IsLeasedAt(s.leases, s.chunks[i].key, now)
  }

  lemma {:induction false} ScanKeepsLiveLeases(s: State, limit: int, now: int, n: nat, key: string)
    requires n <= |s.chunks|
    ensures IsLeasedAt(ScanStep(s, limit, now, n).leases, key, now) <==> IsLeasedAt(s.leases, key, now)
  {
    if n > 0 {
      ScanKeepsLiveLeases(s, limit, now, n - 1, key);
    }
  }

  /** The scan picks only eligible chunks, and all of them when it stays below its limit. */
  lemma {:induction false} ScanPicksEligible(s: State, limit: int, now: int, n: nat, i: nat)
    requires n <= |s.chunks|
    ensures i in ScanStep(s, limit, now, n).picked ==> i < n && Eligible(s, i, now)
    ensures |ScanStep(s, limit, now, n).picked| < limit && i < n && Eligible(s, i, now) ==>
      i in ScanStep(s, limit, now, n).picked
    ensures |ScanStep(s, limit, now, n).picked| <= if limit > 0 then limit else 0
  {
    if n > 0 {
      ScanPicksEligible(s, limit, now, n - 1, i);
      ScanKeepsLiveLeases(s, limit, now, n - 1, s.chunks[n - 1].key);
    }
  }

  predicate Increasing(p: seq<int>) {
    forall a, b | 0 <= a < b < |p| :: p[a] < p[b]
  }

  lemma NothingIsIncreasing()
    ensures Increasing([])
  {
  }

  lemma OneMoreInOrder(p: seq<int>, x: int)
    requires Increasing(p) && forall a | 0 <= a < |p| :: p[a] < x
    ensures Increasing(p + [x])
  {
  }

  /** The scan picks in order, no index twice, and drops no live lease. */
  lemma {:induction false} ScanIsOrdered(s: State, limit: int, now: int, n: nat)
    requires n <= |s.chunks|
    ensures var scan := ScanStep(s, limit, now, n);
      && Increasing(scan.picked)
      && (forall k | k in scan.leases :: k in s.leases && scan.leases[k] == s.leases[k])
      && (forall k | k in s.leases && s.leases[k] > now :: k in scan.leases)
  {
    hide Increasing;
    if n == 0 {
      NothingIsIncreasing();
    } else {
      ScanIsOrdered(s, limit, now, n - 1);
      OneMoreInOrder(ScanStep(s, limit, now, n - 1).picked, n - 1);
    }
  }

  // ---------------------------------------------------------------------------------------------
  // Progress
  // ---------------------------------------------------------------------------------------------

  datatype Group = IsCompleted | IsFailed | IsRunning | IsPending | IsPaused

  /** Where `getProgress` counts a chunk; a missing status counts as pending. */
  function GroupOf(statusMap: map<string, TaskStatus>, key: string): Group {
    if key !in statusMap then
      IsPending
    else
      match statusMap[key]
      case Completed => IsCompleted
      case Failed => IsFailed
      case Running => IsRunning
      case Leased => IsRunning
      case Paused => IsPaused
      case _ => IsPending
  }

  function CountIn(s: State, g: Group, n: nat): (c: nat)
    requires n <= |s.chunks|
    ensures c <= n
  {
    if n == 0 then 0
    else CountIn(s, g, n - 1) + (if GroupOf(s.statusMap, s.chunks[n - 1].key) == g then 1 else 0)
  }

  datatype Progress = Progress(
    total: nat, completed: nat, failed: nat, running: nat, pending: nat, paused: nat, percent: int)

  /** The counters after one more chunk of group `g`. */
  function Counted(p: Progress, g: Group): Progress {
    match g
    case IsCompleted => p.(completed := p.completed + 1)
    case IsFailed => p.(failed := p.failed + 1)
    case IsRunning => p.(running := p.running + 1)
    case IsPaused => p.(paused := p.paused + 1)
    case IsPending => p.(pending := p.pending + 1)
  }

  /** The counters after `n` chunks. */
  function Tally(s: State, n: nat): (p: Progress)
    requires n <= |s.chunks|
  {
    if n == 0 then Progress(|s.chunks|, 0, 0, 0, 0, 0, 0)
    else Counted(Tally(s, n - 1), GroupOf(s.statusMap, s.chunks[n - 1].key))
  }

  /** Each counter is the number of chunks in its group. */
  lemma {:induction false} TallyCounts(s: State, n: nat)
    requires n <= |s.chunks|
    ensures Tally(s, n) == Progress(
      |s.chunks|, CountIn(s, IsCompleted, n), CountIn(s, IsFailed, n), CountIn(s, IsRunning, n),
      CountIn(s, IsPending, n), CountIn(s, IsPaused, n), 0)
  {
    if n > 0 {
      TallyCounts(s, n - 1);
    }
  }

  /** The indices below `n` of the chunks that `getProgress` files under `g`, by their statuses. */
  ghost function IndicesIn(s: State, g: Group, n: nat): set<int>
    requires n <= |s.chunks|
  {
    set i | 0 <= i < n && FiledUnder(s, s.chunks[i].key, g)
  }

  /** By status: leased counts as running; ready, cancelled and a missing status count as pending. */
  predicate FiledUnder(s: State, key: string, g: Group) {
    match g
    case IsCompleted => key in s.statusMap && s.statusMap[key] == Completed
    case IsFailed => key in s.statusMap && s.statusMap[key] == Failed
    case IsRunning => key in s.statusMap && s.statusMap[key] in {Running, Leased}
    case IsPaused => key in s.statusMap && s.statusMap[key] == Paused
    case IsPending => key in s.statusMap ==> s.statusMap[key] in {Pending, Ready, Cancelled}
  }

  lemma {:induction false} CountIsNumber(s: State, g: Group, n: nat)
    requires n <= |s.chunks|
    ensures CountIn(s, g, n) == |IndicesIn(s, g, n)|
  {
    hide IndicesIn, FiledUnder, GroupOf;
    IndicesNext(s, g, n);
    if n > 0 {
      CountIsNumber(s, g, n - 1);
      FiledUnderGroup(s, s.chunks[n - 1].key, g);
    }
  }

  lemma IndicesNext(s: State, g: Group, n: nat)
    requires n <= |s.chunks|
    ensures n == 0 ==> IndicesIn(s, g, n) == {}
    ensures n > 0 ==>
      && n - 1 !in IndicesIn(s, g, n - 1)
      && IndicesIn(s, g, n)
         == IndicesIn(s, g, n - 1) + (if FiledUnder(s, s.chunks[n - 1].key, g) then {n - 1} else {})
  {
    hide FiledUnder;
  }

  lemma FiledUnderGroup(s: State, key: string, g: Group)
    ensures FiledUnder(s, key, g) <==> GroupOf(s.statusMap, key) == g
  {
  }

  lemma TallyIsNumber(s: State, n: nat)
    requires n <= |s.chunks|
    ensures var p := Tally(s, n);
      && p.completed == |IndicesIn(s, IsCompleted, n)| && p.failed == |IndicesIn(s, IsFailed, n)|
      && p.running == |IndicesIn(s, IsRunning, n)| && p.pending == |IndicesIn(s, IsPending, n)|
      && p.paused == |IndicesIn(s, IsPaused, n)|
  {
    hide IndicesIn;
    TallyCounts(s, n);
    CountIsNumber(s, IsCompleted, n);
    CountIsNumber(s, IsFailed, n);
    CountIsNumber(s, IsRunning, n);
    CountIsNumber(s, IsPending, n);
    CountIsNumber(s, IsPaused, n);
  }

  /** Every chunk is counted once. */
  lemma {:induction false} TallyPartitions(s: State, n: nat)
    requires n <= |s.chunks|
    ensures var p := Tally(s, n);
      p.total == |s.chunks| && p.percent == 0
      && p.completed + p.failed + p.running + p.pending + p.paused == n
  {
    if n > 0 {
      TallyPartitions(s, n - 1);
    }
  }

  /** `Math.round(completed / total * 100)`, exactly; 100 for no chunks at all. */
  function Percent(completed: nat, total: nat): int {
    if total == 0 then 100 else (200 * completed + total) / (2 * total)
  }

  /** `p` is the nearest whole number of percent, halves rounded up; 100 of nothing. */
  predicate IsRounded(p: int, completed: nat, total: nat) {
    if total == 0 then p == 100
    else (2 * p - 1) * total <= 200 * completed < (2 * p + 1) * total
  }

  /** The display rounds to 100 already when at most one chunk in two hundred is unfinished. */
  lemma PercentFullIff(completed: nat, total: nat)
    requires completed <= total
    ensures Percent(completed, total) == 100 <==> 200 * (total - completed) <= total
    ensures 0 <= Percent(completed, total) <= 100
    ensures IsRounded(Percent(completed, total), completed, total)
  {
    if total > 0 {
      var x := 200 * completed + total;
      FloorBelow(x, 2 * total, x / (2 * total));
      FloorBelow(x, 2 * total, x / (2 * total) + 1);
      FloorBelow(200 * completed + total, 2 * total, 0);
      FloorBelow(200 * completed + total, 2 * total, 100);
      FloorBelow(200 * completed + total, 2 * total, 101);
    }
  }
}

module Scheduler {
  import opened Wrappers
  import opened SchedulerSteps

  class ScheduledChunk {
    const taskId: string
    const chunkIndex: int
    const from: int
    const to: int
    const maxAttempts: int
    var status: TaskStatus
    var leaseId: Option<string>
    var leaseExpiresAt: Option<int>
    var attempts: int
    var checksum: Option<string>

    constructor (taskId: string, chunkIndex: int, from: int, to: int, maxAttempts: int)
      ensures Value() == NewChunk(taskId, chunkIndex, from, to, maxAttempts)
    {
      this.taskId, this.chunkIndex, this.from, this.to := taskId, chunkIndex, from, to;
      this.maxAttempts, status, attempts := maxAttempts, Pending, 0;
      leaseId, leaseExpiresAt, checksum := None, None, None;
    }

    function Value(): Chunk
      reads this
    {
      Chunk(
        ChunkKey(taskId, chunkIndex), taskId, chunkIndex, from, to, status,
        leaseId, leaseExpiresAt, attempts, maxAttempts, checksum)
    }
  }

  class LeaseManager {
    var leases: map<string, int>

    constructor ()
      ensures leases == map[]
    {
      leases := map[];
    }

    method AcquireLease(chunk: ScheduledChunk, now: int) returns (r: Result<string, string>)
      modifies this
      ensures r.Ok? <==> !old(IsLeasedAt(leases, chunk.Value().key, now))
      ensures r.Ok? ==> r.value == LeaseIdText(chunk.taskId, chunk.chunkIndex, now)
      ensures leases == if r.Ok? then old(leases)[chunk.Value().key := now + LEASE_DURATION_MS] else old(leases)
    {
      var leaseId := LeaseIdText(chunk.taskId, chunk.chunkIndex, now);
      var expiresAt := now + LEASE_DURATION_MS;
      var existingKey := ChunkKey(chunk.taskId, chunk.chunkIndex);
      if existingKey in leases && leases[existingKey] > now {
        return Err("Chunk " + existingKey + " is already leased");
      }
      leases := leases[existingKey := expiresAt];
      r := Ok(leaseId);
    }

    method ReleaseLease(taskId: string, chunkIndex: int)
      modifies this
      ensures leases == old(leases) - {ChunkKey(taskId, chunkIndex)}
    {
      leases := leases - {ChunkKey(taskId, chunkIndex)};
    }

    /** Drops the entry when it has expired. */
    method IsLeased(taskId: string, chunkIndex: int, now: int) returns (r: bool)
      modifies this
      ensures r == old(IsLeasedAt(leases, ChunkKey(taskId, chunkIndex), now))
      ensures leases == if r then old(leases) else old(leases) - {ChunkKey(taskId, chunkIndex)}
    {
      var key := ChunkKey(taskId, chunkIndex);
      if key !in leases {
        assert leases == leases - {key};
        return false;
      }
      if leases[key] <= now {
        leases := leases - {key};
        return false;
      }
      r := true;
    }

    method GetExpiredLeases(now: int) returns (expired: set<string>)
      modifies this
      ensures leases == LiveLeases(old(leases), now)
      ensures expired == old(leases).Keys - leases.Keys
    {
      expired := set k | k in leases && leases[k] <= now;
      leases := map k | k in leases && leases[k] > now :: leases[k];
    }
  }

  class BackfillScheduler {
    const chunks: seq<ScheduledChunk>
    const leaseManager: LeaseManager
    var statusMap: map<string, TaskStatus>

    ghost predicate Valid() {
      forall i, j :: 0 <= i < j < |chunks| ==> chunks[i] != chunks[j]
    }

    ghost function Values(): (values: seq<Chunk>)
      reads chunks
      ensures |values| == |chunks|
    {
      seq(|chunks|, i requires 0 <= i < |chunks| reads chunks => chunks[i].Value())
    }

    ghost function View(): State
      reads this, leaseManager, chunks
    {
      State(Values(), leaseManager.leases, statusMap)
    }

    /** The status map is keyed by task and index; a later chunk with the same key overwrites. */
    static ghost function InitialStatus(chunks: seq<Chunk>): map<string, TaskStatus> {
      if chunks == [] then map[]
      else InitialStatus(chunks[..|chunks| - 1])[chunks[|chunks| - 1].key := chunks[|chunks| - 1].status]
    }

    constructor (chunks: seq<ScheduledChunk>)
      requires forall i, j :: 0 <= i < j < |chunks| ==> chunks[i] != chunks[j]
      ensures this.chunks == chunks && Valid() && fresh(leaseManager)
      ensures View() == State(Values(), map[], InitialStatus(Values()))
    {
      this.chunks := chunks;
      leaseManager := new LeaseManager();
      statusMap := map[];
      new;
      for k := 0 to |chunks|
        invariant statusMap == InitialStatus(Values()[..k])
        invariant leaseManager.leases == map[]
      {
        assert Values()[..k + 1][..k] == Values()[..k];
        statusMap := statusMap[ChunkKey(chunks[k].taskId, chunks[k].chunkIndex) := chunks[k].status];
      }
      assert Values()[..|chunks|] == Values();
    }

    /** The eligibility test of the loop below; testing a waiting chunk drops its expired lease. */
    method IsEligible(chunk: ScheduledChunk, now: int) returns (r: bool)
      modifies leaseManager
      ensures r <==>
        && Waiting(statusMap, chunk.Value().key)
        && !old(IsLeasedAt(leaseManager.leases, chunk.Value().key, now))
      ensures leaseManager.leases
        == if r then old(leaseManager.leases) - {chunk.Value().key} else old(leaseManager.leases)
    {
      var key := ChunkKey(chunk.taskId, chunk.chunkIndex);
      r := false;
      if key in statusMap && statusMap[key] in {Pending, Ready, Paused} {
        var leased := leaseManager.IsLeased(chunk.taskId, chunk.chunkIndex, now);
        r := !leased;
      }
    }

    /** The chunks that wait without a live lease, all of them if the limit allows. */
    method GetEligibleChunks(limit: int, now: int) returns (eligible: seq<ScheduledChunk>)
      modifies leaseManager
      ensures var scan := ScanStep(old(View()), limit, now, |chunks|);
        Picked(eligible, scan.picked) && leaseManager.leases == scan.leases
      ensures |eligible| <= if limit > 0 then limit else 0
      ensures forall c | c in eligible :: c in chunks && !old(IsLeasedAt(leaseManager.leases, c.Value().key, now))
      ensures forall c | c in eligible ::
        c.Value().key in statusMap && statusMap[c.Value().key] in {Pending, Ready, Paused}
      ensures |eligible| < limit ==>
        forall c | c in chunks && c.Value().key in statusMap && statusMap[c.Value().key] in {Pending, Ready, Paused} ::
          c in eligible || old(IsLeasedAt(leaseManager.leases, c.Value().key, now))
      ensures forall k | k in old(leaseManager.leases) && old(leaseManager.leases)[k] > now ::
        k in leaseManager.leases && leaseManager.leases[k] == old(leaseManager.leases)[k]
    {
      hide Values, ScanStep, Picked;
      ghost var s := View();
      ViewKeys();
      eligible := ScanForEligible(limit, now);
      EligibleArePicked(s, eligible, limit, now);
    }

    /** The loop of `getEligibleChunks`. */
    method ScanForEligible(limit: int, now: int) returns (eligible: seq<ScheduledChunk>)
      modifies leaseManager
      ensures var scan := ScanStep(old(View()), limit, now, |chunks|);
        Picked(eligible, scan.picked) && leaseManager.leases == scan.leases
    {
      hide Values;
      eligible := [];
      ghost var s, picked: seq<int> := View(), [];
      var k := 0;
      while k < |chunks| && |eligible| < limit
        invariant 0 <= k <= |chunks|
        invariant ScanStep(s, limit, now, k) == Scan(picked, leaseManager.leases)
        invariant Picked(eligible, picked)
      {
        ghost var p, key := ScanStep(s, limit, now, k), s.chunks[k].key;
        KeyAt(k);
        assert key == chunks[k].Value().key && s.statusMap == statusMap;
        var take := IsEligible(chunks[k], now);
        assert take == (Waiting(s.statusMap, key) && !IsLeasedAt(p.leases, key, now));
        ScanNext(s, limit, now, k);
        if take {
          PickNext(eligible, picked, k);
          eligible, picked := eligible + [chunks[k]], picked + [k];
        }
        k := k + 1;
      }
      if k < |chunks| {
        ScanStops(s, limit, now, k, |chunks|);
      }
    }

    lemma ViewKeys()
      ensures |View().chunks| == |chunks| && View().statusMap == statusMap && View().leases == leaseManager.leases
      ensures forall i | 0 <= i < |chunks| :: View().chunks[i].key == chunks[i].Value().key
    {
    }

    /** What the scan's picks mean for the chunk objects. */
    lemma EligibleArePicked(s: State, eligible: seq<ScheduledChunk>, limit: int, now: int)
      requires |s.chunks| == |chunks| && forall i | 0 <= i < |chunks| :: s.chunks[i].key == chunks[i].Value().key
      requires Picked(eligible, ScanStep(s, limit, now, |chunks|).picked)
      ensures |eligible| <= if limit > 0 then limit else 0
      ensures forall c | c in eligible ::
        c in chunks && Waiting(s.statusMap, c.Value().key) && !IsLeasedAt(s.leases, c.Value().key, now)
      ensures |eligible| < limit ==>
        forall c | c in chunks && Waiting(s.statusMap, c.Value().key) ::
          c in eligible || IsLeasedAt(s.leases, c.Value().key, now)
      ensures forall k | k in s.leases && s.leases[k] > now ::
        k in ScanStep(s, limit, now, |chunks|).leases && ScanStep(s, limit, now, |chunks|).leases[k] == s.leases[k]
    {
      hide ScanStep;
      var picked := ScanStep(s, limit, now, |chunks|).picked;
      ScanIsOrdered(s, limit, now, |chunks|);
      ScanPicksEligible(s, limit, now, |chunks|, 0);
      forall c | c in eligible
        ensures c in chunks && Waiting(s.statusMap, c.Value().key) && !IsLeasedAt(s.leases, c.Value().key, now)
      {
        var j :| 0 <= j < |eligible| && eligible[j] == c;
        assert picked[j] in picked;
        ScanPicksEligible(s, limit, now, |chunks|, picked[j]);
      }
      if |eligible| < limit {
        forall c | c in chunks && Waiting(s.statusMap, c.Value().key) && !IsLeasedAt(s.leases, c.Value().key, now)
          ensures c in eligible
        {
          var i :| 0 <= i < |chunks| && chunks[i] == c;
          ScanPicksEligible(s, limit, now, |chunks|, i);
          var j :| 0 <= j < |picked| && picked[j] == i;
          assert eligible[j] == c;
        }
      }
    }

    lemma PickNext(eligible: seq<ScheduledChunk>, picked: seq<int>, k: nat)
      requires Picked(eligible, picked) && k < |chunks|
      ensures Picked(eligible + [chunks[k]], picked + [k])
    {
    }

    ghost predicate Picked(eligible: seq<ScheduledChunk>, picked: seq<int>) {
      && |eligible| == |picked|
      && forall j :: 0 <= j < |picked| ==>
        0 <= picked[j] < |chunks| && eligible[j] == chunks[picked[j]]
    }

    static lemma {:induction false} ScanStops(s: State, limit: int, now: int, k: nat, n: nat)
      requires k <= n <= |s.chunks| && |ScanStep(s, limit, now, k).picked| >= limit
      ensures ScanStep(s, limit, now, n) == ScanStep(s, limit, now, k)
    {
      if k < n {
        ScanStops(s, limit, now, k, n - 1);
      }
    }

    /** `i` says which of the scheduler's chunks `chunk` is. */
    method LeaseChunk(chunk: ScheduledChunk, ghost i: nat, now: int) returns (r: Result<string, string>)
      requires Valid() && i < |chunks| && chunk == chunks[i]
      modifies this, leaseManager, chunk
      ensures r.Ok? <==> !old(IsLeasedAt(leaseManager.leases, chunk.Value().key, now))
      ensures r.Ok? ==> View() == LeaseStep(old(View()), i, now) && chunk.leaseId == Some(r.value)
      ensures r.Err? ==> View() == old(View())
      ensures r.Ok? ==>
        && leaseManager.leases == old(leaseManager.leases)[chunk.Value().key := now + 300_000]
        && statusMap == old(statusMap)[chunk.Value().key := Leased]
        && chunk.Value() == old(chunk.Value()).(leaseId := Some(r.value), leaseExpiresAt := Some(now + 300_000))
    {
      r := leaseManager.AcquireLease(chunk, now);
      if r.Err? {
        return;
      }
      var key := ChunkKey(chunk.taskId, chunk.chunkIndex);
      statusMap := statusMap[key := Leased];
      chunk.leaseId := Some(r.value);
      chunk.leaseExpiresAt := Some(now + LEASE_DURATION_MS);
      assert Values() == LeaseStep(old(View()), i, now).chunks;
    }

    method MarkRunning(chunk: ScheduledChunk, ghost i: nat)
      requires Valid() && i < |chunks| && chunk == chunks[i]
      modifies this
      ensures View() == RunningStep(old(View()), i)
      ensures statusMap == old(statusMap)[chunk.Value().key := Running]
    {
      statusMap := statusMap[ChunkKey(chunk.taskId, chunk.chunkIndex) := Running];
    }

    method MarkCompleted(chunk: ScheduledChunk, ghost i: nat, checksum: Option<string>)
      requires Valid() && i < |chunks| && chunk == chunks[i]
      modifies this, leaseManager, chunk
      ensures View() == CompletedStep(old(View()), i, checksum)
      ensures statusMap == old(statusMap)[chunk.Value().key := Completed]
      ensures leaseManager.leases == old(leaseManager.leases) - {chunk.Value().key}
      ensures chunk.Value() == old(chunk.Value()).(status := Completed, checksum := checksum)
    {
      statusMap := statusMap[ChunkKey(chunk.taskId, chunk.chunkIndex) := Completed];
      chunk.status := Completed;
      chunk.checksum := checksum;
      leaseManager.ReleaseLease(chunk.taskId, chunk.chunkIndex);
      assert Values() == CompletedStep(old(View()), i, checksum).chunks;
    }

    /** With attempts left the chunk is pending again and, without a lease, eligible whatever the clock says. */
    method MarkFailed(chunk: ScheduledChunk, ghost i: nat)
      requires Valid() && i < |chunks| && chunk == chunks[i]
      modifies this, leaseManager, chunk
      ensures View() == FailedStep(old(View()), i)
      ensures leaseManager.leases == old(leaseManager.leases) - {chunk.Value().key}
      ensures var next := if old(chunk.attempts) + 1 < chunk.maxAttempts then Pending else Failed;
        && statusMap == old(statusMap)[chunk.Value().key := next]
        && chunk.Value() == old(chunk.Value()).(status := next, attempts := old(chunk.attempts) + 1)
      ensures old(chunk.attempts) + 1 < chunk.maxAttempts ==> forall now :: Eligible(View(), i, now)
    {
      var key := ChunkKey(chunk.taskId, chunk.chunkIndex);
      chunk.attempts := chunk.attempts + 1;
      if chunk.attempts < chunk.maxAttempts {
        statusMap := statusMap[key := Pending];
        chunk.status := Pending;
      } else {
        statusMap := statusMap[key := Failed];
        chunk.status := Failed;
      }
      leaseManager.ReleaseLease(chunk.taskId, chunk.chunkIndex);
      assert Values() == FailedStep(old(View()), i).chunks;
    }

    /** One turn of the loop of `pauseAll`. */
    method PauseChunk(i: nat)
      requires Valid() && i < |chunks|
      modifies this, leaseManager, chunks
      ensures View() == PauseOne(old(View()), i)
    {
      var chunk := chunks[i];
      var key := ChunkKey(chunk.taskId, chunk.chunkIndex);
      if key in statusMap && statusMap[key] in {Running, Leased} {
        statusMap := statusMap[key := Paused];
        chunk.status := Paused;
        leaseManager.ReleaseLease(chunk.taskId, chunk.chunkIndex);
        assert Values() == PauseOne(old(View()), i).chunks;
      }
    }

    method PauseAll()
      requires Valid()
      modifies this, leaseManager, chunks
      ensures View() == PauseStep(old(View()), |chunks|)
      ensures var moved := KeysWith(old(View()), |chunks|, {Leased, Running});
        && MovedTo(old(View()), View(), moved, Paused)
        && leaseManager.leases == old(leaseManager.leases) - moved
    {
      hide Values;
      ghost var s := View();
      PauseMoves(s, |chunks|);
      for k := 0 to |chunks|
        invariant View() == PauseStep(s, k)
      {
        PauseChunk(k);
      }
    }

    /** One turn of the loop of `resumeAll`. */
    method ResumeChunk(i: nat)
      requires Valid() && i < |chunks|
      modifies this, chunks
      ensures View() == ResumeOne(old(View()), i)
    {
      var chunk := chunks[i];
      var key := ChunkKey(chunk.taskId, chunk.chunkIndex);
      if key in statusMap && statusMap[key] == Paused {
        statusMap := statusMap[key := Ready];
        chunk.status := Ready;
        assert Values() == ResumeOne(old(View()), i).chunks;
      }
    }

    method ResumeAll()
      requires Valid()
      modifies this, chunks
      ensures View() == ResumeStep(old(View()), |chunks|)
      ensures MovedTo(old(View()), View(), KeysWith(old(View()), |chunks|, {Paused}), Ready)
    {
      hide Values;
      ghost var s := View();
      ResumeMoves(s, |chunks|);
      for k := 0 to |chunks|
        invariant View() == ResumeStep(s, k)
      {
        ResumeChunk(k);
      }
    }

    lemma KeyAt(k: nat)
      requires k < |chunks|
      ensures View().chunks[k].key == ChunkKey(chunks[k].taskId, chunks[k].chunkIndex)
      ensures View().statusMap == statusMap && |View().chunks| == |chunks|
    {
    }

    /** The counting loop of `getProgress`. */
    method CountChunks() returns (p: Progress)
      ensures p == Tally(View(), |chunks|)
    {
      p := Progress(|chunks|, 0, 0, 0, 0, 0, 0);
      ghost var s := View();
      for k := 0 to |chunks|
        invariant p == Tally(s, k)
      {
        KeyAt(k);
        p := Counted(p, GroupOf(statusMap, ChunkKey(chunks[k].taskId, chunks[k].chunkIndex)));
      }
    }

    method GetProgress() returns (p: Progress)
      ensures p.(percent := 0) == Tally(View(), |chunks|)
      ensures p.completed + p.failed + p.running + p.pending + p.paused == p.total == |chunks|
      ensures p.percent == Percent(p.completed, p.total) && IsRounded(p.percent, p.completed, p.total)
      ensures p.percent == 100 <==> 200 * (p.total - p.completed) <= p.total
      ensures p.completed == |IndicesIn(View(), IsCompleted, |chunks|)|
      ensures p.failed == |IndicesIn(View(), IsFailed, |chunks|)|
      ensures p.running == |IndicesIn(View(), IsRunning, |chunks|)|
      ensures p.pending == |IndicesIn(View(), IsPending, |chunks|)|
      ensures p.paused == |IndicesIn(View(), IsPaused, |chunks|)|
    {
      hide IndicesIn, Tally;
      TallyIsNumber(View(), |chunks|);
      p := CountChunks();
      TallyPartitions(View(), |chunks|);
      PercentFullIff(p.completed, |chunks|);
      p := p.(percent := Percent(p.completed, |chunks|));
    }

    method CleanupExpiredLeases(now: int) returns (expired: set<string>)
      requires Valid()
      modifies leaseManager
      ensures View() == old(View()).(leases := LiveLeases(old(leaseManager.leases), now))
      ensures expired == old(leaseManager.leases).Keys - leaseManager.leases.Keys
    {
      expired := leaseManager.GetExpiredLeases(now);
    }
  }
}
