/**
 The transactional outbox and its dead letter queue as atomic SQL statements and transactions. Dispatch jobs
 are small programs of several statements, so a run interleaves the statements of any number of jobs with
 publishing, redrives, administrator retries and releases.
 */
module OutboxStatements {
  import opened Wrappers

  datatype Status = Pending | Processing | Delivered | Failed | DeadLetter

  datatype Event = Event(
    status: Status, retryCount: nat, retryAfter: int, deliveredAt: Option<int>, errorMessage: Option<string>)

  datatype DlqRow = DlqRow(outboxId: int, errorCount: nat, lastError: string, lastAttempt: int)

  datatype Tables = Tables(events: map<int, Event>, dlq: map<int, DlqRow>)

  /** Where a dispatch job stands once it has marked its event as processing. */
  datatype Job =
    | Dispatching(event: int)
    | Failing(event: int, error: string)
    | Retrying(event: int, error: string, retryCount: nat)

  datatype State = State(tables: Tables, jobs: map<int, Job>)

  function Pow2(n: nat): (p: nat)
    ensures p >= 1
  {
    if n == 0 then 1 else 2 * Pow2(n - 1)
  }

  /** `min(1000 * 2^retryCount, 15 minutes)`. */
  function BackoffMs(retryCount: nat): nat {
    if 1000 * Pow2(retryCount) < 900_000 then 1000 * Pow2(retryCount) else 900_000
  }

  /** Two seconds after the first failure, then twice as long after each further one, up to a quarter of an hour. */
  lemma BackoffDoubles(retryCount: nat)
    ensures BackoffMs(1) == 2000 && BackoffMs(2) == 4000 && BackoffMs(3) == 8000 && BackoffMs(4) == 16_000
    ensures BackoffMs(retryCount + 1) ==
      if 2 * BackoffMs(retryCount) < 900_000 then 2 * BackoffMs(retryCount) else 900_000
    ensures retryCount >= 10 ==> BackoffMs(retryCount) == 900_000
  {
    assert Pow2(1) == 2 && Pow2(2) == 4 && Pow2(3) == 8 && Pow2(4) == 16;
    assert Pow2(5) == 32 && Pow2(6) == 64 && Pow2(7) == 128 && Pow2(8) == 256 && Pow2(9) == 512 && Pow2(10) == 1024;
    if retryCount >= 10 {
      Pow2Grows(10, retryCount);
    }
  }

  lemma {:induction false} Pow2Grows(n: nat, m: nat)
    requires n <= m
    ensures Pow2(n) <= Pow2(m)
  {
    if n < m {
      Pow2Grows(n, m - 1);
    }
  }

  // ---------------------------------------------------------------------------------------------
  // Row updates
  // ---------------------------------------------------------------------------------------------

  function Published(now: int): Event {
    Event(Pending, 0, now, None, None)
  }

  predicate IsPending(t: Tables, e: int) {
    e in t.events && t.events[e].status == Pending
  }

  function WithStatus(t: Tables, e: int, status: Status): Tables
    requires e in t.events
  {
    t.(events := t.events[e := t.events[e].(status := status)])
  }

  function MarkedDelivered(t: Tables, e: int, now: int): Tables {
    if e in t.events then
      t.(events := t.events[e := t.events[e].(status := Delivered, deliveredAt := Some(now))])
    else
      t
  }

  /** The row of `dlq` that an upsert for `e` updates, or the key under which it inserts. */
  ghost predicate Upserts(dlq: map<int, DlqRow>, e: int, d: int) {
    if d in dlq then dlq[d].outboxId == e else forall k | k in dlq :: dlq[k].outboxId != e
  }

  function Upserted(dlq: map<int, DlqRow>, d: int, e: int, error: string, errorCount: nat, now: int): map<int, DlqRow> {
    if d in dlq then
      dlq[d := dlq[d].(errorCount := dlq[d].errorCount + errorCount, lastError := error, lastAttempt := now)]
    else
      dlq[d := DlqRow(e, errorCount, error, now)]
  }

  function MovedToDeadLetter(t: Tables, d: int, e: int, error: string, errorCount: nat, now: int): Tables
    requires e in t.events
  {
    Tables(
      t.events[e := t.events[e].(status := DeadLetter, errorMessage := Some(error))],
      Upserted(t.dlq, d, e, error, errorCount, now))
  }

  /** Another try with a backoff, or the dead letter queue once the budget is spent. */
  function MarkedForRetry(
    t: Tables, d: int, e: int, error: string, retryCount: nat, maxRetries: int, now: int): Tables
    requires e in t.events
  {
    if retryCount >= maxRetries then
      MovedToDeadLetter(t, d, e, error, retryCount, now)
    else
      t.(events := t.events[e := t.events[e].(
        status := Pending, retryCount := retryCount, retryAfter := now + BackoffMs(retryCount),
        errorMessage := Some(error))])
  }

  /** Back to pending with a fresh retry budget. */
  function Requeued(t: Tables, e: int, now: int): Tables {
    if e in t.events then
      t.(events := t.events[e := t.events[e].(
        status := Pending, retryCount := 0, retryAfter := now, errorMessage := None)])
    else
      t
  }

  function Redriven(t: Tables, d: int, now: int): Tables {
    if d in t.dlq then
      Requeued(t, t.dlq[d].outboxId, now).(dlq := t.dlq[d := t.dlq[d].(lastAttempt := now)])
    else
      t
  }

  // ---------------------------------------------------------------------------------------------
  // Statements
  // ---------------------------------------------------------------------------------------------

  /**
   `Fail` is an error between marking and delivery. `FailOutside` is an error that the same handler catches
   without holding the event: before marking, after a skip, or after delivery, as when the commit fails.
   */
  datatype Statement =
    | Publish(event: int, now: int)
    | MarkProcessing(job: int, event: int)
    | MarkDelivered(job: int, now: int)
    | Fail(job: int, error: string)
    | FailOutside(job: int, event: int, error: string)
    | ReadRetryCount(job: int)
    | WriteRetry(job: int, dlqId: int, maxRetries: int, now: int)
    | Crash(job: int)
    | Redrive(dlqId: int, now: int)
    | AdminRequeue(event: int, now: int)
    | Release(dlqId: int)

  function Exec(s: State, st: Statement): State {
    match st
    case Publish(e, now) =>
      if e in s.tables.events then s
      else s.(tables := s.tables.(events := s.tables.events[e := Published(now)]))
    case MarkProcessing(job, e) =>
      if IsPending(s.tables, e) && job !in s.jobs then
        State(WithStatus(s.tables, e, Processing), s.jobs[job := Dispatching(e)])
      else
        s
    case MarkDelivered(job, now) =>
      if job in s.jobs && s.jobs[job].Dispatching? then
        State(MarkedDelivered(s.tables, s.jobs[job].event, now), s.jobs - {job})
      else
        s
    case Fail(job, error) =>
      if job in s.jobs && s.jobs[job].Dispatching? then
        s.(jobs := s.jobs[job := Failing(s.jobs[job].event, error)])
      else
        s
    case FailOutside(job, e, error) =>
      if job in s.jobs then s else s.(jobs := s.jobs[job := Failing(e, error)])
    case ReadRetryCount(job) =>
      if job in s.jobs && s.jobs[job].Failing? && s.jobs[job].event in s.tables.events then
        var j := s.jobs[job];
        s.(jobs := s.jobs[job := Retrying(j.event, j.error, s.tables.events[j.event].retryCount)])
      else
        s
    case WriteRetry(job, d, maxRetries, now) =>
      if RecordsFailure(s, job) then
        var j := s.jobs[job];
        State(MarkedForRetry(s.tables, d, j.event, j.error, j.retryCount + 1, maxRetries, now), s.jobs - {job})
      else
        s
    case Crash(job) => s.(jobs := s.jobs - {job})
    case Redrive(d, now) => s.(tables := Redriven(s.tables, d, now))
    case AdminRequeue(e, now) => s.(tables := Requeued(s.tables, e, now))
    case Release(d) => s.(tables := s.tables.(dlq := s.tables.dlq - {d}))
  }

  predicate RecordsFailure(s: State, job: int) {
    job in s.jobs && s.jobs[job].Retrying? && s.jobs[job].event in s.tables.events
  }

  predicate IsDeadLettered(t: Tables, e: int) {
    e in t.events && t.events[e].status == DeadLetter
  }

  predicate IsDelivered(t: Tables, e: int) {
    e in t.events && t.events[e].status == Delivered
  }

  /**
   The discipline: an upsert writes the row its own select found, only dead-lettered events are put back, a DLQ row
   is dropped only for a delivered event, and a dispatch fails only while it holds its event. The database provides
   the first; `OutboxAccount` says what becomes of the account without the others.
   */
  ghost predicate Allowed(s: State, st: Statement) {
    match st
    case WriteRetry(job, d, _, _) => RecordsFailure(s, job) ==> Upserts(s.tables.dlq, s.jobs[job].event, d)
    case Redrive(d, _) => d in s.tables.dlq ==> IsDeadLettered(s.tables, s.tables.dlq[d].outboxId)
    case AdminRequeue(e, _) => IsDeadLettered(s.tables, e)
    case FailOutside(_, _, _) => false
    case Release(d) => d in s.tables.dlq ==> IsDelivered(s.tables, s.tables.dlq[d].outboxId)
    case _ => true
  }

  // ---------------------------------------------------------------------------------------------
  // Runs
  // ---------------------------------------------------------------------------------------------

  function ExecAll(s: State, run: seq<Statement>): State {
    if run == [] then s else Exec(ExecAll(s, run[..|run| - 1]), run[|run| - 1])
  }

  ghost predicate Disciplined(s: State, run: seq<Statement>) {
    run != [] ==>
      var front, st := run[..|run| - 1], run[|run| - 1];
      Disciplined(s, front) && Allowed(ExecAll(s, front), st)
  }

  predicate Records(s: State, st: Statement, e: int) {
    st.WriteRetry? && RecordsFailure(s, st.job) && s.jobs[st.job].event == e
  }

  predicate Releases(s: State, st: Statement, e: int) {
    st.Release? && st.dlqId in s.tables.dlq && s.tables.dlq[st.dlqId].outboxId == e
  }

  /** How many failed dispatches of `e` a run records. */
  function Failures(s: State, run: seq<Statement>, e: int): nat {
    if run == [] then
      0
    else
      var front, st := run[..|run| - 1], run[|run| - 1];
      Failures(s, front, e) + (if Records(ExecAll(s, front), st, e) then 1 else 0)
  }

  /** Whether a run drops a DLQ row of `e`. */
  predicate WasReleased(s: State, run: seq<Statement>, e: int) {
    run != [] &&
    var front, st := run[..|run| - 1], run[|run| - 1];
    WasReleased(s, front, e) || Releases(ExecAll(s, front), st, e)
  }

  lemma RunExtends(s: State, run: seq<Statement>, st: Statement, e: int)
    ensures ExecAll(s, run + [st]) == Exec(ExecAll(s, run), st)
    ensures Disciplined(s, run + [st]) <==> Disciplined(s, run) && Allowed(ExecAll(s, run), st)
    ensures Failures(s, run + [st], e) == Failures(s, run, e) + (if Records(ExecAll(s, run), st, e) then 1 else 0)
    ensures WasReleased(s, run + [st], e) <==> WasReleased(s, run, e) || Releases(ExecAll(s, run), st, e)
  {
    assert (run + [st])[..|run|] == run;
  }

  ghost predicate OneRowPerEvent(t: Tables) {
    && (forall d | d in t.dlq :: t.dlq[d].outboxId in t.events)
    && (forall d, d' | d in t.dlq && d' in t.dlq && t.dlq[d].outboxId == t.dlq[d'].outboxId :: d == d')
  }

  ghost predicate HasDlqRow(t: Tables, e: int) {
    exists d :: d in t.dlq && t.dlq[d].outboxId == e
  }

  ghost predicate DeadLettersAreQueued(t: Tables) {
    forall e | IsDeadLettered(t, e) :: HasDlqRow(t, e)
  }

  ghost predicate NeverFailed(t: Tables) {
    forall e | e in t.events :: t.events[e].status != Failed
  }

  /** A job holds a processing event, alone, and knows its retry count once it has read it. */
  ghost predicate Holds(s: State, job: int)
    requires job in s.jobs
  {
    var j := s.jobs[job];
    && j.event in s.tables.events
    && s.tables.events[j.event].status == Processing
    && (j.Retrying? ==> j.retryCount == s.tables.events[j.event].retryCount)
  }

  ghost predicate OneHolder(s: State) {
    && (forall job | job in s.jobs :: Holds(s, job))
    && (forall j, k | j in s.jobs && k in s.jobs && s.jobs[j].event == s.jobs[k].event :: j == k)
  }

  ghost predicate Inv(s: State) {
    OneRowPerEvent(s.tables) && DeadLettersAreQueued(s.tables) && NeverFailed(s.tables) && OneHolder(s)
  }

  /** `n` is the DLQ error count plus the retry count of the attempts not yet moved there. */
  ghost predicate Balanced(t: Tables, e: int, n: nat)
    requires e in t.events
  {
    var own := if t.events[e].status == DeadLetter then 0 else t.events[e].retryCount;
    && (forall d | d in t.dlq && t.dlq[d].outboxId == e :: n == t.dlq[d].errorCount + own)
    && (!HasDlqRow(t, e) ==> n == own)
  }

  lemma StepKeepsTables(s: State, st: Statement)
    requires Inv(s) && Allowed(s, st)
    ensures OneRowPerEvent(Exec(s, st).tables) && NeverFailed(Exec(s, st).tables)
  {
  }

  lemma StepKeepsQueued(s: State, st: Statement)
    requires Inv(s) && Allowed(s, st)
    ensures DeadLettersAreQueued(Exec(s, st).tables)
  {
    var t, t' := s.tables, Exec(s, st).tables;
    forall e | IsDeadLettered(t', e)
      ensures HasDlqRow(t', e)
    {
      if IsDeadLettered(t, e) {
        var d :| d in t.dlq && t.dlq[d].outboxId == e;
        assert d in t'.dlq && t'.dlq[d].outboxId == e;
      } else {
        assert st.dlqId in t'.dlq && t'.dlq[st.dlqId].outboxId == e;
      }
    }
  }

  lemma StepKeepsHolders(s: State, st: Statement)
    requires Inv(s) && Allowed(s, st)
    ensures OneHolder(Exec(s, st))
  {
    var s' := Exec(s, st);
    forall job | job in s'.jobs
      ensures Holds(s', job)
    {
      assert job in s.jobs ==> Holds(s, job);
    }
  }

  /**
   At every moment of every disciplined run: at most one DLQ row per event, a DLQ row for every dead-lettered
   event, the `failed` status never used, and every dispatching job the only holder of its event.
   */
  lemma {:induction false} RunsKeepInv(s: State, run: seq<Statement>)
    requires Inv(s) && Disciplined(s, run)
    ensures Inv(ExecAll(s, run))
  {
    if run != [] {
      var front, st := run[..|run| - 1], run[|run| - 1];
      RunsKeepInv(s, front);
      StepKeepsTables(ExecAll(s, front), st);
      StepKeepsQueued(ExecAll(s, front), st);
      StepKeepsHolders(ExecAll(s, front), st);
    }
  }

  // ---------------------------------------------------------------------------------------------
  // Failure accounting
  // ---------------------------------------------------------------------------------------------

  lemma StepKeepsBalance(s: State, st: Statement, e: int, n: nat)
    requires Inv(s) && Allowed(s, st) && e in s.tables.events && Balanced(s.tables, e, n)
    requires !Releases(s, st, e)
    ensures Balanced(Exec(s, st).tables, e, n + (if Records(s, st, e) then 1 else 0))
  {
    var t, t' := s.tables, Exec(s, st).tables;
    if HasDlqRow(t, e) {
      var d :| d in t.dlq && t.dlq[d].outboxId == e;
      assert d in t'.dlq && t'.dlq[d].outboxId == e;
    }
    if st.WriteRetry? && RecordsFailure(s, st.job) {
      RetryKeepsBalance(s, st, e, n);
    }
  }

  lemma RetryKeepsBalance(s: State, st: Statement, e: int, n: nat)
    requires Inv(s) && Allowed(s, st) && e in s.tables.events && Balanced(s.tables, e, n)
    requires st.WriteRetry? && RecordsFailure(s, st.job)
    ensures Balanced(Exec(s, st).tables, e, n + (if Records(s, st, e) then 1 else 0))
  {
    var t, t' := s.tables, Exec(s, st).tables;
    if HasDlqRow(t, e) {
      var d :| d in t.dlq && t.dlq[d].outboxId == e;
      assert d in t'.dlq && t'.dlq[d].outboxId == e;
    } else if IsDeadLettered(t', e) {
      assert st.dlqId in t'.dlq && t'.dlq[st.dlqId].outboxId == e;
    }
  }

  /** Delivered rows never change again. */
  lemma StepKeepsDelivered(s: State, st: Statement, e: int)
    requires Inv(s) && Allowed(s, st) && IsDelivered(s.tables, e)
    ensures e in Exec(s, st).tables.events && Exec(s, st).tables.events[e] == s.tables.events[e]
  {
  }

  lemma {:induction false} DeliveredStays(s: State, run: seq<Statement>, e: int)
    requires Inv(s) && Disciplined(s, run) && IsDelivered(s.tables, e)
    ensures e in ExecAll(s, run).tables.events && ExecAll(s, run).tables.events[e] == s.tables.events[e]
  {
    if run != [] {
      var front := run[..|run| - 1];
      DeliveredStays(s, front, e);
      RunsKeepInv(s, front);
      StepKeepsDelivered(ExecAll(s, front), run[|run| - 1], e);
    }
  }

  /** Failures are never lost or counted twice, until the DLQ row of a delivered event is dropped. */
  lemma {:induction false} RunKeepsBalance(s: State, run: seq<Statement>, e: int, n: nat)
    requires Inv(s) && Disciplined(s, run)
    requires if e in s.tables.events then Balanced(s.tables, e, n) else n == 0
    ensures var t := ExecAll(s, run).tables;
      if e !in t.events then Failures(s, run, e) == 0 && n == 0
      else if WasReleased(s, run, e) then t.events[e].status == Delivered
      else Balanced(t, e, n + Failures(s, run, e))
  {
    if run != [] {
      var front, st := run[..|run| - 1], run[|run| - 1];
      var before := ExecAll(s, front);
      RunKeepsBalance(s, front, e, n);
      RunsKeepInv(s, front);
      if e in before.tables.events {
        if WasReleased(s, front, e) {
          StepKeepsDelivered(before, st, e);
        } else if !Releases(before, st, e) {
          StepKeepsBalance(before, st, e, n + Failures(s, front, e));
        }
      } else {
        NoEventNoRelease(s, front, e);
      }
    }
  }

  lemma {:induction false} NoEventNoRelease(s: State, run: seq<Statement>, e: int)
    requires Inv(s) && Disciplined(s, run) && e !in ExecAll(s, run).tables.events
    ensures !WasReleased(s, run, e)
  {
    if run != [] {
      var front := run[..|run| - 1];
      RunsKeepInv(s, front);
      NoEventNoRelease(s, front, e);
    }
  }

  function Start(): State {
    State(Tables(map[], map[]), map[])
  }

  /** The accounting from an empty outbox, for every run with any interleaving of jobs, sweeps and retries. */
  lemma FailuresAreAccounted(run: seq<Statement>, e: int)
    requires Disciplined(Start(), run) && e in ExecAll(Start(), run).tables.events
    requires !WasReleased(Start(), run, e)
    ensures Balanced(ExecAll(Start(), run).tables, e, Failures(Start(), run, e))
  {
    RunKeepsBalance(Start(), run, e, 0);
  }

  ghost predicate IsHeld(s: State, e: int) {
    exists job :: job in s.jobs && s.jobs[job].event == e
  }

  function StatusOf(s: State, e: int): Option<Status> {
    if e in s.tables.events then Some(s.tables.events[e].status) else None
  }

  lemma {:induction false} EventsStay(s: State, run: seq<Statement>, e: int)
    requires e in s.tables.events
    ensures e in ExecAll(s, run).tables.events
  {
    if run != [] {
      EventsStay(s, run[..|run| - 1], e);
    }
  }

  lemma {:induction false} FreshKey<V>(m: map<int, V>, bound: int) returns (k: int)
    ensures k !in m && k >= bound
    decreases |set j | j in m && j >= bound|
  {
    if bound in m {
      var above, rest := set j | j in m && j >= bound, set j | j in m && j >= bound + 1;
      assert above == rest + {bound};
      k := FreshKey(m, bound + 1);
    } else {
      k := bound;
    }
  }

  // ---------------------------------------------------------------------------------------------
  // Quiet rows
  // ---------------------------------------------------------------------------------------------

  predicate Reopens(st: Statement, e: int, d: int) {
    (st.Redrive? && st.dlqId == d) || (st.AdminRequeue? && st.event == e)
  }

  /** While nobody puts a dead-lettered event back, neither it nor its DLQ row changes. */
  lemma {:induction false} DeadLetterIsQuiet(s: State, run: seq<Statement>, d: int)
    requires Inv(s) && Disciplined(s, run) && d in s.tables.dlq
    requires IsDeadLettered(s.tables, s.tables.dlq[d].outboxId)
    requires forall st | st in run :: !Reopens(st, s.tables.dlq[d].outboxId, d)
    ensures var e, t := s.tables.dlq[d].outboxId, ExecAll(s, run).tables;
      && d in t.dlq && t.dlq[d] == s.tables.dlq[d]
      && e in t.events && t.events[e] == s.tables.events[e]
  {
    if run != [] {
      var front := run[..|run| - 1];
      assert !Reopens(run[|run| - 1], s.tables.dlq[d].outboxId, d);
      DeadLetterIsQuiet(s, front, d);
      RunsKeepInv(s, front);
    }
  }

  /** Nothing in a disciplined run recovers an event whose job died. */
  lemma {:induction false} AbandonedStaysProcessing(s: State, run: seq<Statement>, e: int)
    requires Inv(s) && Disciplined(s, run)
    requires e in s.tables.events && s.tables.events[e].status == Processing
    requires forall job | job in s.jobs :: s.jobs[job].event != e
    ensures var s' := ExecAll(s, run);
      && e in s'.tables.events && s'.tables.events[e] == s.tables.events[e]
      && (forall job | job in s'.jobs :: s'.jobs[job].event != e)
  {
    if run != [] {
      RunsKeepInv(s, run[..|run| - 1]);
      AbandonedStaysProcessing(s, run[..|run| - 1], e);
    }
  }
}

/** The producer's methods on the two tables, one dispatch, the administrator's retry and the redrive sweep. */
module Outbox {
  import opened OutboxAccount
  import opened Wrappers
  import opened OutboxStatements

  /** One event row is written, nothing else. */
  predicate RowSet(t: Tables, t': Tables, e: int, row: Event) {
    t'.events == t.events[e := row] && t'.dlq == t.dlq
  }

  /**
   The event is dead-lettered and its DLQ row carries the failure: the row it had, with the count added, or a new
   one with that count. No other row is written.
   */
  ghost predicate QueuedWith(t: Tables, t': Tables, e: int, error: string, count: nat, now: int)
    requires e in t.events
  {
    && t'.events == t.events[e := t.events[e].(status := DeadLetter, errorMessage := Some(error))]
    && exists d :: IsQueueRow(t, t', d, e, error, count, now)
  }

  ghost predicate IsQueueRow(t: Tables, t': Tables, d: int, e: int, error: string, count: nat, now: int) {
    if exists k :: k in t.dlq && t.dlq[k].outboxId == e then
      && d in t.dlq && t.dlq[d].outboxId == e
      && t'.dlq == t.dlq[d := DlqRow(e, t.dlq[d].errorCount + count, error, now)]
    else
      d !in t.dlq && t'.dlq == t.dlq[d := DlqRow(e, count, error, now)]
  }

  /** The event of DLQ row `d` is pending with a fresh budget, and the row's last attempt is now. */
  ghost predicate PutBackBy(t: Tables, t': Tables, d: int, now: int)
    requires d in t.dlq
  {
    var e := t.dlq[d].outboxId;
    && e in t.events
    && t'.events == t.events[e := t.events[e].(
         status := Pending, retryCount := 0, retryAfter := now, errorMessage := None)]
    && t'.dlq == t.dlq[d := t.dlq[d].(lastAttempt := now)]
  }

  class OutboxProducer {
    var tables: Tables

    ghost predicate Valid()
      reads this
    {
      OneRowPerEvent(tables)
    }

    constructor ()
      ensures Valid() && tables == Start().tables
    {
      tables := Tables(map[], map[]);
    }

    method MarkProcessing(e: int) returns (marked: bool)
      requires Valid()
      modifies this
      ensures Valid()
      ensures marked <==> IsPending(old(tables), e)
      ensures tables == if marked then WithStatus(old(tables), e, Processing) else old(tables)
      ensures marked <==> e in old(tables).events && old(tables).events[e].status == Pending
      ensures marked ==> RowSet(old(tables), tables, e, old(tables).events[e].(status := Processing))
    {
      marked := e in tables.events && tables.events[e].status == Pending;
      if marked {
        tables := tables.(events := tables.events[e := tables.events[e].(status := Processing)]);
      }
    }

    method MarkDelivered(e: int, now: int)
      requires Valid()
      modifies this
      ensures Valid() && tables == MarkedDelivered(old(tables), e, now)
      ensures if e in old(tables).events then
        RowSet(old(tables), tables, e, old(tables).events[e].(status := Delivered, deliveredAt := Some(now)))
      else
        tables == old(tables)
    {
      if e in tables.events {
        var row := tables.events[e].(status := Delivered, deliveredAt := Some(now));
        tables := tables.(events := tables.events[e := row]);
      }
    }

    method MarkForRetry(e: int, error: string, maxRetries: int, now: int, freshId: int)
      returns (found: bool, ghost d: int)
      requires Valid() && freshId !in tables.dlq
      modifies this
      ensures Valid() && Upserts(old(tables).dlq, e, d)
      ensures found <==> e in old(tables).events
      ensures tables ==
        if found then
          MarkedForRetry(old(tables), d, e, error, old(tables).events[e].retryCount + 1, maxRetries, now)
        else
          old(tables)
      ensures found ==>
        var row, count := old(tables).events[e], old(tables).events[e].retryCount + 1;
        if count < maxRetries then
          RowSet(old(tables), tables, e, row.(
            status := Pending, retryCount := count, retryAfter := now + BackoffMs(count), errorMessage := Some(error)))
        else
          QueuedWith(old(tables), tables, e, error, count, now)
    {
      if e !in tables.events {
        return false, AnUpsertRow(tables.dlq, e, freshId);
      }
      var event := tables.events[e];
      var retryCount := event.retryCount + 1;
      if retryCount >= maxRetries {
        d := MoveToDeadLetter(e, error, retryCount, now, freshId);
      } else {
        d := AnUpsertRow(tables.dlq, e, freshId);
        var row := event.(
          status := Pending, retryCount := retryCount, retryAfter := now + BackoffMs(retryCount),
          errorMessage := Some(error));
        tables := tables.(events := tables.events[e := row]);
      }
      found := true;
    }

    /** One transaction: upsert the DLQ row, then mark the event. */
    method MoveToDeadLetter(e: int, error: string, errorCount: nat, now: int, freshId: int) returns (ghost d: int)
      requires Valid() && e in tables.events && freshId !in tables.dlq
      modifies this
      ensures Valid() && Upserts(old(tables).dlq, e, d)
      ensures tables == MovedToDeadLetter(old(tables), d, e, error, errorCount, now)
      ensures QueuedWith(old(tables), tables, e, error, errorCount, now)
    {
      var dlq := tables.dlq;
      if existing :| existing in dlq && dlq[existing].outboxId == e {
        var row := dlq[existing];
        dlq := dlq[existing := row.(
          errorCount := row.errorCount + errorCount, lastError := error, lastAttempt := now)];
        d := existing;
      } else {
        dlq := dlq[freshId := DlqRow(e, errorCount, error, now)];
        d := freshId;
      }
      var row := tables.events[e].(status := DeadLetter, errorMessage := Some(error));
      tables := Tables(tables.events[e := row], dlq);
      assert IsQueueRow(old(tables), tables, d, e, error, errorCount, now);
    }

    method RedriveDeadLetter(d: int, now: int) returns (redriven: bool)
      requires Valid()
      modifies this
      ensures Valid()
      ensures redriven <==> d in old(tables).dlq
      ensures tables == Redriven(old(tables), d, now)
      ensures !redriven ==> tables == old(tables)
      ensures redriven ==> PutBackBy(old(tables), tables, d, now)
    {
      if d !in tables.dlq {
        return false;
      }
      var dlqRow := tables.dlq[d];
      var row := tables.events[dlqRow.outboxId].(
        status := Pending, retryCount := 0, retryAfter := now, errorMessage := None);
      tables := Tables(tables.events[dlqRow.outboxId := row], tables.dlq[d := dlqRow.(lastAttempt := now)]);
      redriven := true;
    }

    method ReleaseDeadLetter(d: int)
      requires Valid()
      modifies this
      ensures Valid()
      ensures tables == old(tables).(dlq := old(tables).dlq - {d})
    {
      tables := tables.(dlq := tables.dlq - {d});
    }

    method GetOutboxStatusForDeadLetter(d: int) returns (status: Option<Status>)
      requires Valid()
      ensures status ==
        if d in tables.dlq then Some(tables.events[tables.dlq[d].outboxId].status) else None
    {
      if d in tables.dlq {
        status := Some(tables.events[tables.dlq[d].outboxId].status);
      } else {
        status := None;
      }
    }
  }

  /** The row an upsert for `e` writes. */
  ghost function AnUpsertRow(dlq: map<int, DlqRow>, e: int, freshId: int): (d: int)
    requires freshId !in dlq
    ensures Upserts(dlq, e, d)
  {
    if d :| d in dlq && dlq[d].outboxId == e then d else freshId
  }

  /**
   Where a dispatch fails, if it does: with nothing marked (the select, or the commit after a skip), in the
   handler, or after delivery (the commit).
   */
  datatype Fault = NoFault | Unmarked(error: string) | InHandler(error: string) | AfterDelivery(error: string)

  /** The statements of job 0 dispatching `e`, up to the failure if there is one. */
  function MarkedRun(pending: bool, e: int, fault: Fault, now: int): seq<Statement> {
    if !pending || fault.Unmarked? then []
    else if fault.InHandler? then [] + [OutboxStatements.MarkProcessing(0, e)]
    else [] + [OutboxStatements.MarkProcessing(0, e)] + [OutboxStatements.MarkDelivered(0, now)]
  }

  predicate Throws(pending: bool, fault: Fault) {
    !fault.NoFault? && (fault.InHandler? ==> pending)
  }

  function FailureOf(e: int, fault: Fault): Statement
    requires !fault.NoFault?
  {
    if fault.InHandler? then Fail(0, fault.error) else FailOutside(0, e, fault.error)
  }

  function DispatchRun(
    pending: bool, e: int, fault: Fault, d: int, maxRetries: int, now: int): seq<Statement>
  {
    var marked := MarkedRun(pending, e, fault, now);
    if !Throws(pending, fault) then marked
    else
      marked + [FailureOf(e, fault)] + [ReadRetryCount(0)] + [WriteRetry(0, d, maxRetries, now)]
  }

  /** The tables when the dispatch has come as far as it gets without failing. */
  function MarkedTables(t: Tables, e: int, fault: Fault, now: int): Tables {
    if !IsPending(t, e) || fault.Unmarked? then t
    else if fault.InHandler? then WithStatus(t, e, Processing)
    else MarkedDelivered(WithStatus(t, e, Processing), e, now)
  }

  /** The tables a dispatch leaves when nothing interrupts it. */
  function Dispatched(t: Tables, e: int, fault: Fault, d: int, maxRetries: int, now: int): Tables {
    var marked := MarkedTables(t, e, fault, now);
    if e in t.events && Throws(IsPending(t, e), fault) then
      MarkedForRetry(marked, d, e, fault.error, t.events[e].retryCount + 1, maxRetries, now)
    else
      marked
  }

  lemma MarkedRunEffect(t: Tables, e: int, fault: Fault, now: int)
    ensures var s, run := State(t, map[]), MarkedRun(IsPending(t, e), e, fault, now);
      && ExecAll(s, run) == State(
           MarkedTables(t, e, fault, now),
           if IsPending(t, e) && fault.InHandler? then map[0 := Dispatching(e)] else map[])
      && Disciplined(s, run) && Failures(s, run, e) == 0
  {
    hide ExecAll, Disciplined, Failures, WasReleased;
    var s := State(t, map[]);
    OutboxAccount.NothingRun(s, e);
    if IsPending(t, e) && !fault.Unmarked? {
      var marked := [] + [OutboxStatements.MarkProcessing(0, e)];
      RunExtends(s, [], OutboxStatements.MarkProcessing(0, e), e);
      if !fault.InHandler? {
        RunExtends(s, marked, OutboxStatements.MarkDelivered(0, now), e);
        assert map[0 := Dispatching(e)] - {0} == map[];
      }
    }
  }

  lemma MarkedKeeps(t: Tables, e: int, fault: Fault, now: int)
    ensures var t' := MarkedTables(t, e, fault, now);
      && t'.dlq == t.dlq && (e in t'.events <==> e in t.events)
      && (e in t.events ==> t'.events[e].retryCount == t.events[e].retryCount)
  {
  }

  lemma RetryRunEffect(
    s: State, run: seq<Statement>, e: int, error: string, d: int, maxRetries: int, now: int)
    requires ExecAll(s, run).jobs == map[0 := Failing(e, error)]
    requires Upserts(ExecAll(s, run).tables.dlq, e, d)
    ensures var whole, t := run + [ReadRetryCount(0)] + [WriteRetry(0, d, maxRetries, now)], ExecAll(s, run).tables;
      && (Disciplined(s, whole) <==> Disciplined(s, run))
      && Failures(s, whole, e) == Failures(s, run, e) + (if e in t.events then 1 else 0)
      && ExecAll(s, whole).tables == (
           if e in t.events then
             MarkedForRetry(t, d, e, error, t.events[e].retryCount + 1, maxRetries, now)
           else t)
  {
    var read := run + [ReadRetryCount(0)];
    RunExtends(s, run, ReadRetryCount(0), e);
    RunExtends(s, read, WriteRetry(0, d, maxRetries, now), e);
    assert ExecAll(s, read).tables == ExecAll(s, run).tables;
    assert 0 in ExecAll(s, read).jobs;
  }

  /** What the statements of one job do, and whether they keep to the discipline. */
  lemma DispatchRunEffect(t: Tables, e: int, fault: Fault, d: int, maxRetries: int, now: int)
    requires Upserts(t.dlq, e, d)
    ensures var s, run := State(t, map[]), DispatchRun(IsPending(t, e), e, fault, d, maxRetries, now);
      && ExecAll(s, run).tables == Dispatched(t, e, fault, d, maxRetries, now)
      && (Disciplined(s, run) <==> fault.NoFault? || fault.InHandler?)
      && Failures(s, run, e) == if e in t.events && Throws(IsPending(t, e), fault) then 1 else 0
  {
    hide ExecAll, Disciplined, Failures, MarkedRun, MarkedTables, MarkedForRetry, Exec, Allowed, Upserts;
    MarkedKeeps(t, e, fault, now);
    var s, marked := State(t, map[]), MarkedRun(IsPending(t, e), e, fault, now);
    MarkedRunEffect(t, e, fault, now);
    if Throws(IsPending(t, e), fault) {
      var failed := marked + [FailureOf(e, fault)];
      FailureEffect(t, e, fault, now);
      UpsertsSame(t.dlq, ExecAll(s, failed).tables.dlq, e, d);
      RetryRunEffect(s, failed, e, fault.error, d, maxRetries, now);
    }
  }

  lemma UpsertsSame(dlq: map<int, DlqRow>, dlq': map<int, DlqRow>, e: int, d: int)
    requires dlq == dlq' && Upserts(dlq, e, d)
    ensures Upserts(dlq', e, d)
  {
  }

  lemma FailureEffect(t: Tables, e: int, fault: Fault, now: int)
    requires Throws(IsPending(t, e), fault)
    ensures var s, failed := State(t, map[]), MarkedRun(IsPending(t, e), e, fault, now) + [FailureOf(e, fault)];
      && ExecAll(s, failed) == State(MarkedTables(t, e, fault, now), map[0 := Failing(e, fault.error)])
      && (Disciplined(s, failed) <==> fault.InHandler?) && Failures(s, failed, e) == 0
  {
    hide ExecAll, Disciplined, Failures, MarkedRun, MarkedTables;
    var s, marked := State(t, map[]), MarkedRun(IsPending(t, e), e, fault, now);
    MarkedRunEffect(t, e, fault, now);
    RunExtends(s, marked, FailureOf(e, fault), e);
  }

  /** One dispatch that nothing interrupts does what the statements of one job do in the runs above. */
  method ProcessDispatchJob(
    producer: OutboxProducer, e: int, fault: Fault, maxRetries: int, now: int, freshId: int)
    returns (ghost d: int)
    requires producer.Valid() && freshId !in producer.tables.dlq
    modifies producer
    ensures producer.Valid() && Upserts(old(producer.tables).dlq, e, d)
    ensures producer.tables == ExecAll(
      State(old(producer.tables), map[]),
      DispatchRun(IsPending(old(producer.tables), e), e, fault, d, maxRetries, now)).tables
  {
    hide ExecAll, Disciplined, Failures, DispatchRun, MarkedRun;
    ghost var t := producer.tables;
    d := AnUpsertRow(t.dlq, e, freshId);
    var pending := e in producer.tables.events && producer.tables.events[e].status == Pending;
    if pending && !fault.Unmarked? {
      var _ := producer.MarkProcessing(e);
      if !fault.InHandler? {
        producer.MarkDelivered(e, now);
      }
    }
    if fault.Unmarked? || fault.AfterDelivery? || (fault.InHandler? && pending) {
      var _, row := producer.MarkForRetry(e, fault.error, maxRetries, now, freshId);
      d := row;
    }
    DispatchRunEffect(t, e, fault, d, maxRetries, now);
  }

  /** The administrator's retry of one event. */
  method RetryEvent(producer: OutboxProducer, e: int, now: int) returns (success: bool)
    requires producer.Valid()
    modifies producer
    ensures producer.Valid()
    ensures success <==>
      e in old(producer.tables).events && old(producer.tables).events[e].status in {Failed, DeadLetter}
    ensures producer.tables == if success then Requeued(old(producer.tables), e, now) else old(producer.tables)
    ensures success ==>
      RowSet(old(producer.tables), producer.tables, e, old(producer.tables).events[e].(
        status := Pending, retryCount := 0, retryAfter := now, errorMessage := None))
  {
    var t := producer.tables;
    success := e in t.events && (t.events[e].status == Failed || t.events[e].status == DeadLetter);
    if success {
      var row := t.events[e].(status := Pending, retryCount := 0, retryAfter := now, errorMessage := None);
      producer.tables := t.(events := t.events[e := row]);
    }
  }

  /** The tables after redriving each of `ids`, whatever the status of its event. */
  function RedrivenAll(t: Tables, ids: seq<int>, clock: int -> int): Tables {
    if ids == [] then t
    else Redriven(RedrivenAll(t, ids[..|ids| - 1], clock), ids[|ids| - 1], clock(|ids| - 1))
  }

  function Known(t: Tables, ids: seq<int>): seq<int> {
    if ids == [] then []
    else Known(t, ids[..|ids| - 1]) + (if ids[|ids| - 1] in t.dlq then [ids[|ids| - 1]] else [])
  }

  /** The administrator's bulk redrive: no status is looked at. */
  method RedriveDeadLetterEvents(producer: OutboxProducer, ids: seq<int>, clock: int -> int)
    returns (success: nat, failed: nat)
    requires producer.Valid()
    modifies producer
    ensures producer.Valid() && producer.tables == RedrivenAll(old(producer.tables), ids, clock)
    ensures success == |Known(old(producer.tables), ids)| && success + failed == |ids|
  {
    ghost var t := producer.tables;
    success, failed := 0, 0;
    for i := 0 to |ids|
      invariant producer.Valid() && producer.tables == RedrivenAll(t, ids[..i], clock)
      invariant producer.tables.dlq.Keys == t.dlq.Keys
      invariant success == |Known(t, ids[..i])| && success + failed == i
    {
      assert ids[..i + 1][..i] == ids[..i];
      var redriven := producer.RedriveDeadLetter(ids[i], clock(i));
      if redriven {
        success := success + 1;
      } else {
        failed := failed + 1;
      }
    }
    assert ids[..|ids|] == ids;
  }

  // ---------------------------------------------------------------------------------------------
  // The redrive sweep
  // ---------------------------------------------------------------------------------------------

  function MinReal(a: real, b: real): real {
    if a < b then a else b
  }

  function Pow2Of(errorCount: int): real {
    Pow2(if errorCount > 0 then errorCount else 0) as real
  }

  /** `Math.round`. */
  function Round(x: real): int {
    (x + 0.5).Floor
  }

  /** The delay before jitter: `min(base * 2^max(0, errorCount), max)`. */
  function RedriveBackoff(base: real, max: real, errorCount: int): real {
    MinReal(base * Pow2Of(errorCount), max)
  }

  /** The jitter: up to a fifth of the delay either way, for a draw from [0, 1). */
  function Jitter(delay: real, random: real): real {
    (random * 2.0 - 1.0) * (delay * 0.2)
  }

  function NextRedriveDelayMs(base: real, max: real, errorCount: int, random: real): int {
    var delay := RedriveBackoff(base, max, errorCount);
    var jittered := Round(delay + Jitter(delay, random));
    if jittered > 0 then jittered else 0
  }

  /** The delay is within a fifth of the backoff, up to rounding; a negative setting means no delay at all. */
  lemma DelayIsNearBackoff(base: real, max: real, errorCount: int, random: real)
    requires 0.0 <= random < 1.0
    ensures var delay := RedriveBackoff(base, max, errorCount);
      var r := NextRedriveDelayMs(base, max, errorCount, random) as real;
      && (delay >= 0.0 ==> 0.8 * delay - 0.5 <= r <= 1.2 * delay + 0.5)
      && (delay <= 0.0 ==> r == 0.0)
  {
    hide Jitter, RedriveBackoff;
    var delay := RedriveBackoff(base, max, errorCount);
    JitterBounds(delay, random);
    RoundIsNear(delay + Jitter(delay, random));
  }

  /** The delay is the backoff scaled by the draw, from four to six fifths of it, to the nearest millisecond. */
  lemma DelayIs(base: real, max: real, errorCount: int, random: real)
    requires 0.0 <= random < 1.0 && base >= 0.0 && max >= 0.0
    ensures var power := Pow2(if errorCount > 0 then errorCount else 0) as real;
      var backoff := if base * power < max then base * power else max;
      var exact := backoff * (0.8 + 0.4 * random);
      exact - 0.5 < NextRedriveDelayMs(base, max, errorCount, random) as real <= exact + 0.5
  {
    hide Jitter, Pow2;
    var backoff := RedriveBackoff(base, max, errorCount);
    BackoffIsPositive(base, max, errorCount);
    JitterScales(backoff, random);
    RoundIsNear(backoff + Jitter(backoff, random));
  }

  lemma BackoffIsPositive(base: real, max: real, errorCount: int)
    requires base >= 0.0 && max >= 0.0
    ensures RedriveBackoff(base, max, errorCount) >= 0.0
  {
    ProductIsPositive(base, Pow2Of(errorCount));
  }

  lemma ProductIsPositive(a: real, b: real)
    requires a >= 0.0 && b >= 0.0
    ensures a * b >= 0.0
  {
  }

  lemma JitterScales(delay: real, random: real)
    ensures delay + Jitter(delay, random) == delay * (0.8 + 0.4 * random)
    ensures delay >= 0.0 && random >= 0.0 ==> delay * (0.8 + 0.4 * random) >= 0.0
  {
    assert delay * (0.8 + 0.4 * random) == 0.8 * delay + 0.4 * (random * delay);
    assert Jitter(delay, random) == 0.4 * (random * delay) - 0.2 * delay;
    assert delay >= 0.0 && random >= 0.0 ==> random * delay >= 0.0;
  }

  lemma RoundIsNear(x: real)
    ensures x - 0.5 < Round(x) as real <= x + 0.5
  {
  }

  lemma JitterBounds(delay: real, random: real)
    requires 0.0 <= random < 1.0
    ensures delay >= 0.0 ==> -0.2 * delay <= Jitter(delay, random) <= 0.2 * delay
    ensures delay <= 0.0 ==> 0.2 * delay <= Jitter(delay, random) <= -0.2 * delay
  {
    ScaledBounds(random * 2.0 - 1.0, delay * 0.2);
  }

  lemma ScaledBounds(f: real, w: real)
    requires -1.0 <= f <= 1.0
    ensures w >= 0.0 ==> -w <= f * w <= w
    ensures w <= 0.0 ==> w <= f * w <= -w
  {
  }

  /** More recorded failures never shorten the backoff. */
  lemma BackoffGrows(base: real, max: real, n: int, m: int)
    requires base >= 0.0 && n <= m
    ensures RedriveBackoff(base, max, n) <= RedriveBackoff(base, max, m)
  {
    Pow2Grows(if n > 0 then n else 0, if m > 0 then m else 0);
    assert Pow2Of(n) <= Pow2Of(m);
    assert base * Pow2Of(n) <= base * Pow2Of(m);
  }

  datatype Listed = Listed(id: int, row: DlqRow)

  datatype Verdict = ReleaseRow | RedriveRow | LeaveRow

  /** What the sweep does with a listed row whose event has `status` (none when the row is gone). */
  function Judge(row: DlqRow, status: Option<Status>, delay: int, now: int): Verdict {
    if status == Some(Delivered) then ReleaseRow
    else if status == Some(Pending) || status == Some(Processing) then LeaveRow
    else if row.lastAttempt + delay > now then LeaveRow
    else RedriveRow
  }

  /** A sweep redrives no row before its backoff, as listed, has passed since its last attempt. */
  lemma RedriveWaits(row: DlqRow, status: Option<Status>, base: real, max: real, random: real, now: int)
    requires 0.0 <= random < 1.0 && base >= 0.0 && max >= 0.0
    requires Judge(row, status, NextRedriveDelayMs(base, max, row.errorCount, random), now) == RedriveRow
    ensures (now - row.lastAttempt) as real >= 0.8 * RedriveBackoff(base, max, row.errorCount) - 0.5
  {
    DelayIsNearBackoff(base, max, row.errorCount, random);
    BackoffIsPositive(base, max, row.errorCount);
  }

  /**
   However long ago the sweep listed its rows: an event that was dead-lettered then and that nobody else put
   back since is redriven only after the backoff of its current row, and its redrive is an allowed statement.
   */
  lemma ListedDeadLetterWaits(
    s: State, run: seq<Statement>, d: int, base: real, max: real, random: real, now: int)
    requires Inv(s) && Disciplined(s, run) && d in s.tables.dlq
    requires IsDeadLettered(s.tables, s.tables.dlq[d].outboxId)
    requires forall st | st in run :: !Reopens(st, s.tables.dlq[d].outboxId, d)
    requires 0.0 <= random < 1.0 && base >= 0.0 && max >= 0.0
    requires var row := s.tables.dlq[d];
      Judge(row, Some(DeadLetter), NextRedriveDelayMs(base, max, row.errorCount, random), now) == RedriveRow
    ensures var s' := ExecAll(s, run);
      && Allowed(s', Redrive(d, now)) && d in s'.tables.dlq
      && var row := s'.tables.dlq[d];
         (now - row.lastAttempt) as real >= 0.8 * RedriveBackoff(base, max, row.errorCount) - 0.5
  {
    DeadLetterIsQuiet(s, run, d);
    RedriveWaits(s.tables.dlq[d], Some(DeadLetter), base, max, random, now);
  }

  /**
   A sweep that listed row `d` in `s` redrives it after `run`, before its backoff as it then stands, although
   nobody else put the event back or dropped the row.
   */
  ghost predicate RedrivesEarly(
    s: State, run: seq<Statement>, d: int, base: real, max: real, random: real, now: int)
    requires d in s.tables.dlq
  {
    var listed, s' := s.tables.dlq[d], ExecAll(s, run);
    && LeavesRowAlone(run, listed.outboxId, d)
    && d in s'.tables.dlq
    && Judge(
         listed, StatusOf(s', listed.outboxId),
         NextRedriveDelayMs(base, max, listed.errorCount, random), now) == RedriveRow
    && (now - s'.tables.dlq[d].lastAttempt) as real
       < 0.8 * RedriveBackoff(base, max, s'.tables.dlq[d].errorCount) - 0.5
  }

  ghost predicate LeavesRowAlone(run: seq<Statement>, e: int, d: int) {
    forall st | st in run :: !Reopens(st, e, d) && st != Release(d)
  }

  lemma HeadAndLast(run: seq<Statement>)
    requires run != []
    ensures run[|run| - 1] in run && forall st | st in run[..|run| - 1] :: st in run
  {
    assert run == run[..|run| - 1] + [run[|run| - 1]];
  }

  lemma {:induction false} NoFailureSameRow(s: State, run: seq<Statement>, d: int)
    requires OneRowPerEvent(s.tables) && SoundRun(s, run) && d in s.tables.dlq
    requires LeavesRowAlone(run, s.tables.dlq[d].outboxId, d) && Failures(s, run, s.tables.dlq[d].outboxId) == 0
    ensures d in ExecAll(s, run).tables.dlq && ExecAll(s, run).tables.dlq[d] == s.tables.dlq[d]
  {
    if run != [] {
      var front, st := run[..|run| - 1], run[|run| - 1];
      HeadAndLast(run);
      NoFailureSameRow(s, front, d);
    }
  }

  /** In any sound run, errors outside the marked stretch included, an early redrive follows a recorded failure. */
  lemma EarlyNeedsFailure(
    s: State, run: seq<Statement>, d: int, base: real, max: real, random: real, now: int)
    requires OneRowPerEvent(s.tables) && SoundRun(s, run) && d in s.tables.dlq
    requires 0.0 <= random < 1.0 && base >= 0.0 && max >= 0.0
    requires RedrivesEarly(s, run, d, base, max, random, now)
    ensures Failures(s, run, s.tables.dlq[d].outboxId) > 0
  {
    hide ExecAll, SoundRun, Failures, RedriveBackoff, NextRedriveDelayMs;
    var listed := s.tables.dlq[d];
    RedriveWaits(listed, StatusOf(ExecAll(s, run), listed.outboxId), base, max, random, now);
    if Failures(s, run, listed.outboxId) == 0 {
      NoFailureSameRow(s, run, d);
    }
  }

  /** And an error outside the marked stretch makes one possible from any state. */
  lemma OutsideErrorMakesEarly(s: State, d: int, base: real, max: real, random: real)
    requires OneRowPerEvent(s.tables) && d in s.tables.dlq && 0.0 <= random < 1.0 && base >= 1.0 && max >= 1.0
    ensures exists run, now: int :: SoundRun(s, run) && RedrivesEarly(s, run, d, base, max, random, now)
  {
    hide ExecAll, SoundRun, RedriveBackoff, NextRedriveDelayMs;
    var listed, e := s.tables.dlq[d], s.tables.dlq[d].outboxId;
    var now := listed.lastAttempt + NextRedriveDelayMs(base, max, listed.errorCount, random);
    var k := FreshKey(s.jobs, 0);
    var run := OutsideFailure(k, e, d, s.tables.events[e].retryCount + 1, now);
    OutsideFailureQueues(s, k, d, now);
    BackoffAtLeastOne(base, max, ExecAll(s, run).tables.dlq[d].errorCount);
    assert RedrivesEarly(s, run, d, base, max, random, now);
  }

  function OutsideFailure(k: int, e: int, d: int, maxRetries: int, now: int): seq<Statement> {
    [] + [FailOutside(k, e, "")] + [ReadRetryCount(k)] + [WriteRetry(k, d, maxRetries, now)]
  }

  lemma OutsideFailureQueues(s: State, k: int, d: int, now: int)
    requires OneRowPerEvent(s.tables) && d in s.tables.dlq && k !in s.jobs
    ensures var e := s.tables.dlq[d].outboxId;
      var run := OutsideFailure(k, e, d, s.tables.events[e].retryCount + 1, now);
      var t := ExecAll(s, run).tables;
      && SoundRun(s, run) && LeavesRowAlone(run, e, d)
      && IsDeadLettered(t, e) && d in t.dlq && t.dlq[d].lastAttempt == now
  {
    hide ExecAll, SoundRun, Failures, WasReleased, Disciplined;
    var e := s.tables.dlq[d].outboxId;
    var r1 := [] + [FailOutside(k, e, "")];
    var r2, w := r1 + [ReadRetryCount(k)], WriteRetry(k, d, s.tables.events[e].retryCount + 1, now);
    OutboxAccount.NothingRun(s, e);
    RunExtends(s, [], FailOutside(k, e, ""), e);
    SoundExtends(s, [], FailOutside(k, e, ""));
    RunExtends(s, r1, ReadRetryCount(k), e);
    SoundExtends(s, r1, ReadRetryCount(k));
    RunExtends(s, r2, w, e);
    SoundExtends(s, r2, w);
  }

  /** Some disciplined run makes such a redrive possible. */
  ghost predicate CanRedriveEarly(s: State, d: int, base: real, max: real, random: real)
    requires d in s.tables.dlq
  {
    exists run, now: int :: Disciplined(s, run) && RedrivesEarly(s, run, d, base, max, random, now)
  }

  /** A job that holds the event of row `d` can fail it back into the queue at any time. */
  lemma FailsIntoQueue(s: State, run: seq<Statement>, j: int, e: int, d: int, now: int)
    requires Disciplined(s, run) && j in ExecAll(s, run).jobs && ExecAll(s, run).jobs[j].event == e
    requires e in ExecAll(s, run).tables.events && d in ExecAll(s, run).tables.dlq
    requires ExecAll(s, run).tables.dlq[d].outboxId == e
    ensures var whole := run + [Fail(j, "")] + [ReadRetryCount(j)] + [WriteRetry(j, d, 0, now)];
      var t := ExecAll(s, whole).tables;
      && Disciplined(s, whole) && IsDeadLettered(t, e) && d in t.dlq && t.dlq[d].lastAttempt == now
  {
    hide ExecAll, Disciplined, Failures, WasReleased;
    var failed := run + [Fail(j, "")];
    RunExtends(s, run, Fail(j, ""), e);
    RunExtends(s, failed, ReadRetryCount(j), e);
    assert ExecAll(s, failed).tables == ExecAll(s, run).tables;
    RunExtends(s, failed + [ReadRetryCount(j)], WriteRetry(j, d, 0, now), e);
  }

  lemma EarlyWitness(
    s: State, run: seq<Statement>, j: int, d: int, base: real, max: real, random: real)
    requires Disciplined(s, run) && d in s.tables.dlq && 0.0 <= random < 1.0 && base >= 1.0 && max >= 1.0
    requires forall st | st in run :: st.MarkProcessing?
    requires var e, mid := s.tables.dlq[d].outboxId, ExecAll(s, run);
      && j in mid.jobs && mid.jobs[j].event == e && e in mid.tables.events
      && d in mid.tables.dlq && mid.tables.dlq[d].outboxId == e
    ensures CanRedriveEarly(s, d, base, max, random)
  {
    hide ExecAll, Disciplined, RedriveBackoff, NextRedriveDelayMs;
    var listed := s.tables.dlq[d];
    var now := listed.lastAttempt + NextRedriveDelayMs(base, max, listed.errorCount, random);
    FailsIntoQueue(s, run, j, listed.outboxId, d, now);
    var whole := run + [Fail(j, "")] + [ReadRetryCount(j)] + [WriteRetry(j, d, 0, now)];
    assert LeavesRowAlone(whole, listed.outboxId, d);
    BackoffAtLeastOne(base, max, ExecAll(s, whole).tables.dlq[d].errorCount);
    assert RedrivesEarly(s, whole, d, base, max, random, now);
  }

  lemma BackoffAtLeastOne(base: real, max: real, errorCount: int)
    requires base >= 1.0 && max >= 1.0
    ensures RedriveBackoff(base, max, errorCount) >= 1.0
  {
    assert base * Pow2Of(errorCount) >= 1.0 * Pow2Of(errorCount);
  }

  /**
   With at least a millisecond of base delay, and errors in the marked stretch only: a sweep can redrive a listed
   row before its current backoff exactly when the event was pending, or held by a job, when the row was listed.
   */
  lemma RedriveCanBeEarlyIff(s: State, d: int, base: real, max: real, random: real)
    requires Inv(s) && d in s.tables.dlq && 0.0 <= random < 1.0 && base >= 1.0 && max >= 1.0
    ensures var e := s.tables.dlq[d].outboxId;
      CanRedriveEarly(s, d, base, max, random) <==> IsPending(s.tables, e) || IsHeld(s, e)
  {
    hide RedrivesEarly;
    var e := s.tables.dlq[d].outboxId;
    if IsHeld(s, e) {
      var j :| j in s.jobs && s.jobs[j].event == e;
      assert Holds(s, j);
      EarlyWitness(s, [], j, d, base, max, random);
    } else if IsPending(s.tables, e) {
      PendingCanBeEarly(s, d, base, max, random);
    } else {
      forall run, now: int
        ensures Disciplined(s, run) ==> !RedrivesEarly(s, run, d, base, max, random, now)
      {
        NeverEarly(s, run, d, base, max, random, now);
      }
    }
  }

  lemma PendingCanBeEarly(s: State, d: int, base: real, max: real, random: real)
    requires d in s.tables.dlq && IsPending(s.tables, s.tables.dlq[d].outboxId)
    requires 0.0 <= random < 1.0 && base >= 1.0 && max >= 1.0
    ensures CanRedriveEarly(s, d, base, max, random)
  {
    hide CanRedriveEarly;
    var e := s.tables.dlq[d].outboxId;
    var k := FreshKey(s.jobs, 0);
    RunExtends(s, [], OutboxStatements.MarkProcessing(k, e), e);
    EarlyWitness(s, [] + [OutboxStatements.MarkProcessing(k, e)], k, d, base, max, random);
  }

  lemma NeverEarly(s: State, run: seq<Statement>, d: int, base: real, max: real, random: real, now: int)
    requires Inv(s) && d in s.tables.dlq && 0.0 <= random < 1.0 && base >= 1.0 && max >= 1.0
    requires var e := s.tables.dlq[d].outboxId; !IsPending(s.tables, e) && !IsHeld(s, e)
    ensures Disciplined(s, run) ==> !RedrivesEarly(s, run, d, base, max, random, now)
  {
    hide ExecAll, Disciplined, RedriveBackoff, NextRedriveDelayMs;
    var e := s.tables.dlq[d].outboxId;
    if Disciplined(s, run) && RedrivesEarly(s, run, d, base, max, random, now) {
      if IsDeadLettered(s.tables, e) {
        DeadLetterIsQuiet(s, run, d);
        ListedDeadLetterWaits(s, run, d, base, max, random, now);
      } else if IsDelivered(s.tables, e) {
        DeliveredStays(s, run, e);
      } else {
        AbandonedStaysProcessing(s, run, e);
      }
    }
  }

  lemma FailsIntoNewQueue(s: State, run: seq<Statement>)
    requires Disciplined(s, run) && ExecAll(s, run).tables.dlq == map[]
    requires 1 in ExecAll(s, run).tables.events && 0 in ExecAll(s, run).jobs
    requires ExecAll(s, run).jobs[0] == Dispatching(1)
    ensures var whole := run + [Fail(0, "")] + [ReadRetryCount(0)] + [WriteRetry(0, 7, 1, 0)];
      var t := ExecAll(s, whole).tables;
      && Disciplined(s, whole) && IsDeadLettered(t, 1) && 7 in t.dlq && t.dlq[7].outboxId == 1
  {
    hide ExecAll, Disciplined, Failures, WasReleased;
    var failed := run + [Fail(0, "")];
    RunExtends(s, run, Fail(0, ""), 1);
    RunExtends(s, failed, ReadRetryCount(0), 1);
    RunExtends(s, failed + [ReadRetryCount(0)], WriteRetry(0, 7, 1, 0), 1);
  }

  /** A run that publishes an event, fails it into the queue once and puts it back. */
  lemma PutBackRun() returns (run: seq<Statement>)
    ensures Disciplined(Start(), run)
    ensures var t := ExecAll(Start(), run).tables;
      7 in t.dlq && t.dlq[7].outboxId == 1 && IsPending(t, 1)
  {
    hide ExecAll, Disciplined, Failures, WasReleased;
    var published := [] + [Publish(1, 0)];
    assert ExecAll(Start(), []) == Start() && Disciplined(Start(), []) by {
      EmptyRun(Start());
    }
    RunExtends(Start(), [], Publish(1, 0), 1);
    var marked := published + [OutboxStatements.MarkProcessing(0, 1)];
    RunExtends(Start(), published, OutboxStatements.MarkProcessing(0, 1), 1);
    FailsIntoNewQueue(Start(), marked);
    var queued := marked + [Fail(0, "")] + [ReadRetryCount(0)] + [WriteRetry(0, 7, 1, 0)];
    RunExtends(Start(), queued, Redrive(7, 60_000), 1);
    run := queued + [Redrive(7, 60_000)];
  }

  lemma EmptyRun(s: State)
    ensures ExecAll(s, []) == s && Disciplined(s, [])
  {
  }

  /** Such a moment is reached from an empty outbox. */
  lemma EarlyRedriveIsReachable()
    ensures exists run ::
      && Disciplined(Start(), run) && 7 in ExecAll(Start(), run).tables.dlq
      && CanRedriveEarly(ExecAll(Start(), run), 7, 60_000.0, 3_600_000.0, 0.5)
  {
    hide CanRedriveEarly, ExecAll, Disciplined;
    var run := PutBackRun();
    RunsKeepInv(Start(), run);
    RedriveCanBeEarlyIff(ExecAll(Start(), run), 7, 60_000.0, 3_600_000.0, 0.5);
  }

  datatype SweepResult = SweepResult(inspected: nat, redriven: nat, released: nat)

  datatype Settings = Settings(base: real, max: real)

  /** One iteration's draw and clock reading. */
  datatype Tick = Tick(random: real, now: int)

  ghost predicate Lists(t: Tables, batch: seq<Listed>) {
    && (forall i | 0 <= i < |batch| :: batch[i].id in t.dlq && t.dlq[batch[i].id] == batch[i].row)
    && (forall i, j | 0 <= i < j < |batch| :: batch[i].id != batch[j].id)
  }

  function VerdictOf(t: Tables, item: Listed, c: Settings, tick: Tick): Verdict
    requires item.row.outboxId in t.events
  {
    var delay := NextRedriveDelayMs(c.base, c.max, item.row.errorCount, tick.random);
    Judge(item.row, Some(t.events[item.row.outboxId].status), delay, tick.now)
  }

  /** What a sweep leaves of a listed row and its event. */
  ghost predicate Settled(t: Tables, t': Tables, item: Listed, v: Verdict, now: int)
    requires item.row.outboxId in t.events
  {
    var e := item.row.outboxId;
    && e in t'.events
    && match v
       case ReleaseRow => item.id !in t'.dlq && t'.events[e] == t.events[e]
       case LeaveRow => item.id in t'.dlq && t'.dlq[item.id] == item.row && t'.events[e] == t.events[e]
       case RedriveRow =>
         && item.id in t'.dlq && t'.dlq[item.id] == item.row.(lastAttempt := now)
         && t'.events[e] == t.events[e].(
              status := Pending, retryCount := 0, retryAfter := now, errorMessage := None)
  }

  function CountOf(vs: seq<Verdict>, v: Verdict): nat {
    if vs == [] then 0 else CountOf(vs[..|vs| - 1], v) + (if vs[|vs| - 1] == v then 1 else 0)
  }

  function VerdictsOf(t: Tables, batch: seq<Listed>, c: Settings, ticks: seq<Tick>): (vs: seq<Verdict>)
    requires |ticks| == |batch| && forall i | 0 <= i < |batch| :: batch[i].row.outboxId in t.events
    ensures |vs| == |batch|
    ensures forall i | 0 <= i < |batch| :: vs[i] == VerdictOf(t, batch[i], c, ticks[i])
  {
    seq(|batch|, i requires 0 <= i < |batch| => VerdictOf(t, batch[i], c, ticks[i]))
  }

  /** Only the given DLQ rows and events may have changed, and no row was added. */
  ghost predicate TouchesOnly(t: Tables, t': Tables, ids: set<int>, events: set<int>) {
    && t'.events.Keys == t.events.Keys
    && (forall d | d in t.dlq && d !in ids :: d in t'.dlq && t'.dlq[d] == t.dlq[d])
    && (forall e | e in t.events && e !in events :: t'.events[e] == t.events[e])
    && (forall d | d in t'.dlq :: d in t.dlq && t'.dlq[d].outboxId == t.dlq[d].outboxId)
  }

  function IdsOf(batch: seq<Listed>): set<int> {
    set i | 0 <= i < |batch| :: batch[i].id
  }

  function EventsOf(batch: seq<Listed>): set<int> {
    set i | 0 <= i < |batch| :: batch[i].row.outboxId
  }

  lemma SettledElsewhere(t: Tables, t1: Tables, t2: Tables, item: Listed, other: Listed, v: Verdict, now: int)
    requires item.row.outboxId in t.events && Settled(t, t1, item, v, now)
    requires TouchesOnly(t1, t2, {other.id}, {other.row.outboxId})
    requires item.id != other.id && item.row.outboxId != other.row.outboxId
    ensures Settled(t, t2, item, v, now)
  {
  }

  /** What the loop has settled after `i` rows. */
  ghost predicate SettledUpTo(
    t: Tables, t': Tables, batch: seq<Listed>, vs: seq<Verdict>, ticks: seq<Tick>, i: nat)
    requires OneRowPerEvent(t) && Lists(t, batch) && i <= |vs| == |ticks| == |batch|
  {
    && (forall j | 0 <= j < i :: Settled(t, t', batch[j], vs[j], ticks[j].now))
    && (forall j | i <= j < |batch| :: Settled(t, t', batch[j], LeaveRow, 0))
  }

  lemma SettleNext(
    t: Tables, t1: Tables, t2: Tables, batch: seq<Listed>, vs: seq<Verdict>, ticks: seq<Tick>, i: nat)
    requires OneRowPerEvent(t) && Lists(t, batch) && i < |vs| == |ticks| == |batch|
    requires SettledUpTo(t, t1, batch, vs, ticks, i)
    requires Settled(t1, t2, batch[i], vs[i], ticks[i].now)
    requires TouchesOnly(t1, t2, {batch[i].id}, {batch[i].row.outboxId})
    ensures SettledUpTo(t, t2, batch, vs, ticks, i + 1)
  {
    assert Settled(t, t1, batch[i], LeaveRow, 0);
    forall j | 0 <= j < |batch| && j != i
      ensures Settled(t, t2, batch[j], if j < i then vs[j] else LeaveRow, if j < i then ticks[j].now else 0)
    {
      var v, now := if j < i then vs[j] else LeaveRow, if j < i then ticks[j].now else 0;
      SettledElsewhere(t, t1, t2, batch[j], batch[i], v, now);
    }
  }

  /** The event of a listed row is neither delivered nor being worked on. */
  predicate IsWaiting(t: Tables, item: Listed) {
    item.row.outboxId in t.events && t.events[item.row.outboxId].status !in {Delivered, Pending, Processing}
  }

  /** Six fifths of the backoff have passed since the last attempt, and half a millisecond for rounding. */
  predicate IsOverdue(row: DlqRow, c: Settings, tick: Tick) {
    var power := Pow2(if row.errorCount > 0 then row.errorCount else 0) as real;
    var backoff := if c.base * power < c.max then c.base * power else c.max;
    c.base >= 0.0 && c.max >= 0.0 && tick.now as real >= row.lastAttempt as real + 1.2 * backoff + 0.5
  }

  lemma OverdueIsDue(row: DlqRow, c: Settings, tick: Tick)
    requires IsOverdue(row, c, tick) && 0.0 <= tick.random < 1.0
    ensures tick.now >= row.lastAttempt + NextRedriveDelayMs(c.base, c.max, row.errorCount, tick.random)
  {
    hide Pow2, NextRedriveDelayMs;
    var power := Pow2(if row.errorCount > 0 then row.errorCount else 0) as real;
    assert RedriveBackoff(c.base, c.max, row.errorCount) == if c.base * power < c.max then c.base * power else c.max;
    DelayIsNearBackoff(c.base, c.max, row.errorCount, tick.random);
    BackoffIsPositive(c.base, c.max, row.errorCount);
  }

  /** A row that a sweep would redrive at some time it would redrive, with the same draw, at any later one. */
  lemma DueStaysDue(t: Tables, item: Listed, c: Settings, tick: Tick, later: int)
    requires item.row.outboxId in t.events && tick.now <= later
    ensures VerdictOf(t, item, c, tick) == RedriveRow ==> VerdictOf(t, item, c, tick.(now := later)) == RedriveRow
    ensures IsWaiting(t, item) ==>
      (VerdictOf(t, item, c, tick) == RedriveRow
       <==> tick.now >= item.row.lastAttempt + NextRedriveDelayMs(c.base, c.max, item.row.errorCount, tick.random))
  {
  }

  /** The event waits and its delay, as listed, has passed. */
  predicate IsDue(t: Tables, item: Listed, c: Settings, tick: Tick) {
    && IsWaiting(t, item)
    && tick.now >= item.row.lastAttempt + NextRedriveDelayMs(c.base, c.max, item.row.errorCount, tick.random)
  }

  /** What a sweep does to each listed row, by the status of its event and the clock alone. */
  ghost predicate Swept(t: Tables, t': Tables, batch: seq<Listed>, c: Settings, ticks: seq<Tick>)
    requires |ticks| == |batch|
  {
    forall i | 0 <= i < |batch| ::
      var d, e := batch[i].id, batch[i].row.outboxId;
      && e in t.events && e in t'.events
      && (if IsDelivered(t, e) then d !in t'.dlq else d in t'.dlq)
      && (if IsDue(t, batch[i], c, ticks[i]) then
            && t'.events[e] == t.events[e].(
                 status := Pending, retryCount := 0, retryAfter := ticks[i].now, errorMessage := None)
            && t'.dlq[d] == batch[i].row.(lastAttempt := ticks[i].now)
          else
            t'.events[e] == t.events[e] && (d in t'.dlq ==> t'.dlq[d] == batch[i].row))
  }

  lemma SweptAsSettled(t: Tables, t': Tables, batch: seq<Listed>, c: Settings, ticks: seq<Tick>)
    requires OneRowPerEvent(t) && Lists(t, batch) && |ticks| == |batch|
    requires SettledUpTo(t, t', batch, VerdictsOf(t, batch, c, ticks), ticks, |batch|)
    ensures Swept(t, t', batch, c, ticks)
  {
    hide NextRedriveDelayMs;
    var vs := VerdictsOf(t, batch, c, ticks);
    forall i | 0 <= i < |batch|
      ensures Settled(t, t', batch[i], vs[i], ticks[i].now)
      ensures vs[i] == ReleaseRow <==> IsDelivered(t, batch[i].row.outboxId)
      ensures vs[i] == RedriveRow <==> IsDue(t, batch[i], c, ticks[i])
    {
    }
  }

  lemma {:induction false} CountIsNumber(vs: seq<Verdict>, v: Verdict)
    ensures CountOf(vs, v) == |set i | 0 <= i < |vs| && vs[i] == v|
  {
    if vs != [] {
      var n := |vs| - 1;
      CountIsNumber(vs[..n], v);
      assert |vs[..n]| == n;
      IndicesNext(vs, v, n);
    }
  }

  lemma IndicesNext(vs: seq<Verdict>, v: Verdict, n: nat)
    requires |vs| == n + 1
    ensures var front := set i | 0 <= i < n && vs[..n][i] == v;
      (set i | 0 <= i < |vs| && vs[i] == v) == front + (if vs[n] == v then {n} else {}) && n !in front
  {
  }

  /** The counters are the numbers of delivered and of due rows. */
  lemma CountersAreNumbers(t: Tables, batch: seq<Listed>, c: Settings, ticks: seq<Tick>)
    requires |ticks| == |batch| && forall i | 0 <= i < |batch| :: batch[i].row.outboxId in t.events
    ensures var r := Counters(batch, VerdictsOf(t, batch, c, ticks));
      && r.inspected == |batch|
      && r.released == |set i | 0 <= i < |batch| && IsDelivered(t, batch[i].row.outboxId)|
      && r.redriven == |set i | 0 <= i < |batch| && IsDue(t, batch[i], c, ticks[i])|
  {
    hide NextRedriveDelayMs;
    var vs := VerdictsOf(t, batch, c, ticks);
    CountIsNumber(vs, ReleaseRow);
    CountIsNumber(vs, RedriveRow);
    assert (set i | 0 <= i < |vs| && vs[i] == ReleaseRow)
      == (set i | 0 <= i < |batch| && IsDelivered(t, batch[i].row.outboxId));
    assert (set i | 0 <= i < |vs| && vs[i] == RedriveRow)
      == (set i | 0 <= i < |batch| && IsDue(t, batch[i], c, ticks[i]));
  }

  /** One sweep over the listed rows: what it counts and what it does to each row, whatever the order. */
  method RunOutboxDlqRedriveJob(producer: OutboxProducer, batch: seq<Listed>, c: Settings, ticks: seq<Tick>)
    returns (result: SweepResult)
    requires producer.Valid() && Lists(producer.tables, batch) && |ticks| == |batch|
    modifies producer
    ensures producer.Valid()
    ensures var vs := VerdictsOf(old(producer.tables), batch, c, ticks);
      && result == Counters(batch, vs)
      && SettledUpTo(old(producer.tables), producer.tables, batch, vs, ticks, |batch|)
    ensures TouchesOnly(old(producer.tables), producer.tables, IdsOf(batch), EventsOf(batch))
    ensures Swept(old(producer.tables), producer.tables, batch, c, ticks)
    ensures result.inspected == |batch|
    ensures result.released == |set i | 0 <= i < |batch| && IsDelivered(old(producer.tables), batch[i].row.outboxId)|
    ensures result.redriven == |set i | 0 <= i < |batch| && IsDue(old(producer.tables), batch[i], c, ticks[i])|
  {
    hide IsDue, Swept;
    ghost var t := producer.tables;
    ghost var vs := VerdictsOf(t, batch, c, ticks);
    result := SweepResult(|batch|, 0, 0);
    var i := 0;
    while i < |batch|
      invariant 0 <= i <= |batch|
      invariant producer.Valid()
      invariant result == Counters(batch, vs[..i])
      invariant SettledUpTo(t, producer.tables, batch, vs, ticks, i)
      invariant TouchesOnly(t, producer.tables, IdsOf(batch), EventsOf(batch))
    {
      ghost var t1 := producer.tables;
      assert Settled(t, t1, batch[i], LeaveRow, 0);
      var v := SweepOne(producer, batch[i], c, ticks[i]);
      SettleNext(t, t1, producer.tables, batch, vs, ticks, i);
      TouchMore(t, t1, producer.tables, batch, i);
      result := Counted(result, v);
      CountMore(batch, vs, i);
      i := i + 1;
    }
    assert vs[..i] == vs;
    SweptAsSettled(t, producer.tables, batch, c, ticks);
    CountersAreNumbers(t, batch, c, ticks);
  }

  function Counted(r: SweepResult, v: Verdict): SweepResult {
    match v
    case ReleaseRow => r.(released := r.released + 1)
    case RedriveRow => r.(redriven := r.redriven + 1)
    case LeaveRow => r
  }

  /** The counters after the given verdicts. */
  function Counters(batch: seq<Listed>, vs: seq<Verdict>): SweepResult {
    SweepResult(|batch|, CountOf(vs, RedriveRow), CountOf(vs, ReleaseRow))
  }

  lemma TouchMore(t: Tables, t1: Tables, t2: Tables, batch: seq<Listed>, i: nat)
    requires i < |batch|
    requires TouchesOnly(t, t1, IdsOf(batch), EventsOf(batch))
    requires TouchesOnly(t1, t2, {batch[i].id}, {batch[i].row.outboxId})
    ensures TouchesOnly(t, t2, IdsOf(batch), EventsOf(batch))
  {
    assert batch[i].id in IdsOf(batch) && batch[i].row.outboxId in EventsOf(batch);
  }

  lemma CountMore(batch: seq<Listed>, vs: seq<Verdict>, i: nat)
    requires i < |vs|
    ensures Counters(batch, vs[..i + 1]) == Counted(Counters(batch, vs[..i]), vs[i])
  {
    assert vs[..i + 1][..i] == vs[..i];
  }

  /** The body of the sweep's loop. */
  method SweepOne(producer: OutboxProducer, event: Listed, c: Settings, tick: Tick) returns (v: Verdict)
    requires producer.Valid() && event.id in producer.tables.dlq && producer.tables.dlq[event.id] == event.row
    modifies producer
    ensures producer.Valid() && v == VerdictOf(old(producer.tables), event, c, tick)
    ensures Settled(old(producer.tables), producer.tables, event, v, tick.now)
    ensures TouchesOnly(old(producer.tables), producer.tables, {event.id}, {event.row.outboxId})
    ensures var t, t' := old(producer.tables), producer.tables;
      match t.events[event.row.outboxId].status
      case Delivered => v == ReleaseRow && t' == t.(dlq := t.dlq - {event.id})
      case Pending => v == LeaveRow && t' == t
      case Processing => v == LeaveRow && t' == t
      case _ =>
        var delay := NextRedriveDelayMs(c.base, c.max, event.row.errorCount, tick.random);
        if tick.now >= event.row.lastAttempt + delay then v == RedriveRow && PutBackBy(t, t', event.id, tick.now)
        else v == LeaveRow && t' == t
    ensures IsWaiting(old(producer.tables), event) && IsOverdue(event.row, c, tick) && 0.0 <= tick.random < 1.0 ==>
      v == RedriveRow && PutBackBy(old(producer.tables), producer.tables, event.id, tick.now)
  {
    if IsOverdue(event.row, c, tick) && 0.0 <= tick.random < 1.0 {
      OverdueIsDue(event.row, c, tick);
    }
    var outboxStatus := producer.GetOutboxStatusForDeadLetter(event.id);
    if outboxStatus == Some(Delivered) {
      producer.ReleaseDeadLetter(event.id);
      return ReleaseRow;
    }
    if outboxStatus == Some(Pending) || outboxStatus == Some(Processing) {
      return LeaveRow;
    }
    var dueAt := event.row.lastAttempt + NextRedriveDelayMs(c.base, c.max, event.row.errorCount, tick.random);
    if dueAt > tick.now {
      return LeaveRow;
    }
    var redriven := producer.RedriveDeadLetter(event.id, tick.now);
    v := RedriveRow;
  }
}
