/**
 The failure account of the outbox over every run: errors outside the marked stretch of a dispatch, unguarded
 redrives and late administrator writes included.
 */
module OutboxAccount {
  import opened Wrappers
  import opened OutboxStatements

  // ---------------------------------------------------------------------------------------------
  // Sound runs
  // ---------------------------------------------------------------------------------------------

  /** All that the database provides: an upsert writes the row that its own transaction found. */
  ghost predicate Sound(s: State, st: Statement) {
    st.WriteRetry? && RecordsFailure(s, st.job) ==> Upserts(s.tables.dlq, s.jobs[st.job].event, st.dlqId)
  }

  ghost predicate SoundRun(s: State, run: seq<Statement>) {
    run != [] ==>
      var front := run[..|run| - 1];
      SoundRun(s, front) && Sound(ExecAll(s, front), run[|run| - 1])
  }

  lemma SoundKeepsRows(s: State, st: Statement)
    requires OneRowPerEvent(s.tables) && Sound(s, st)
    ensures OneRowPerEvent(Exec(s, st).tables)
  {
  }

  lemma {:induction false} SoundRunKeepsRows(s: State, run: seq<Statement>)
    requires OneRowPerEvent(s.tables) && SoundRun(s, run)
    ensures OneRowPerEvent(ExecAll(s, run).tables)
  {
    if run != [] {
      SoundRunKeepsRows(s, run[..|run| - 1]);
      SoundKeepsRows(ExecAll(s, run[..|run| - 1]), run[|run| - 1]);
    }
  }

  predicate DropsDeadLetter(s: State, st: Statement) {
    st.Release? && st.dlqId in s.tables.dlq && IsDeadLettered(s.tables, s.tables.dlq[st.dlqId].outboxId)
  }

  /** No DLQ row of a dead-lettered event is dropped. */
  predicate KeepsDeadLetters(s: State, run: seq<Statement>) {
    run != [] ==>
      var front := run[..|run| - 1];
      KeepsDeadLetters(s, front) && !DropsDeadLetter(ExecAll(s, front), run[|run| - 1])
  }

  ghost predicate TablesInv(t: Tables) {
    OneRowPerEvent(t) && DeadLettersAreQueued(t) && NeverFailed(t)
  }

  lemma StepKeepsTablesInv(s: State, st: Statement)
    requires TablesInv(s.tables) && Sound(s, st) && !DropsDeadLetter(s, st)
    ensures TablesInv(Exec(s, st).tables)
  {
    var t, t' := s.tables, Exec(s, st).tables;
    SoundKeepsRows(s, st);
    forall e | IsDeadLettered(t', e)
      ensures HasDlqRow(t', e)
    {
      if IsDeadLettered(t, e) {
        var d :| d in t.dlq && t.dlq[d].outboxId == e;
        assert d in t'.dlq && t'.dlq[d].outboxId == e;
      } else {
        assert st.dlqId in t'.dlq && t'.dlq[st.dlqId].outboxId == e;
      }
    }
  }

  /**
   Whatever errors, redrives and administrator writes come: at most one DLQ row per event, one for every
   dead-lettered event, and the `failed` status never used, as long as no dead letter is dropped.
   */
  lemma {:induction false} RunsKeepTables(s: State, run: seq<Statement>)
    requires TablesInv(s.tables) && SoundRun(s, run) && KeepsDeadLetters(s, run)
    ensures TablesInv(ExecAll(s, run).tables)
  {
    if run != [] {
      RunsKeepTables(s, run[..|run| - 1]);
      StepKeepsTablesInv(ExecAll(s, run[..|run| - 1]), run[|run| - 1]);
    }
  }

  // ---------------------------------------------------------------------------------------------
  // The account and its drift
  // ---------------------------------------------------------------------------------------------

  /** The retry count of the attempts not yet moved to the DLQ. */
  function Own(t: Tables, e: int): nat {
    if e in t.events && t.events[e].status != DeadLetter then t.events[e].retryCount else 0
  }

  ghost function ErrorCount(t: Tables, e: int): nat {
    if HasDlqRow(t, e) then var d :| d in t.dlq && t.dlq[d].outboxId == e; t.dlq[d].errorCount else 0
  }

  ghost function Account(t: Tables, e: int): nat {
    ErrorCount(t, e) + Own(t, e)
  }

  lemma ErrorCountIs(t: Tables, e: int, d: int)
    requires OneRowPerEvent(t) && d in t.dlq && t.dlq[d].outboxId == e
    ensures HasDlqRow(t, e) && ErrorCount(t, e) == t.dlq[d].errorCount
  {
  }

  lemma BalancedIsAccount(t: Tables, e: int, n: nat)
    requires OneRowPerEvent(t) && e in t.events
    ensures Balanced(t, e, n) <==> n == Account(t, e)
  {
    if HasDlqRow(t, e) {
      var d :| d in t.dlq && t.dlq[d].outboxId == e;
      ErrorCountIs(t, e, d);
    }
  }

  /** The event is put back to pending, whatever its status. */
  predicate PutsBack(s: State, st: Statement, e: int) {
    || (st.Redrive? && st.dlqId in s.tables.dlq && s.tables.dlq[st.dlqId].outboxId == e)
    || (st.AdminRequeue? && st.event == e)
  }

  /**
   What a statement does to the account beyond recording a failure: a job writes on from the count it has read, a
   put-back forgets the attempts not yet moved, delivering a dead letter counts its old attempts again, and a
   release drops the row.
   */
  function Drift(s: State, st: Statement, e: int): int {
    if Records(s, st, e) then s.jobs[st.job].retryCount - Own(s.tables, e)
    else if PutsBack(s, st, e) then 0 - Own(s.tables, e)
    else if DeliversDeadLetter(s, st, e) then s.tables.events[e].retryCount
    else if Releases(s, st, e) then 0 - s.tables.dlq[st.dlqId].errorCount
    else 0
  }

  predicate DeliversDeadLetter(s: State, st: Statement, e: int) {
    && st.MarkDelivered? && st.job in s.jobs && s.jobs[st.job].Dispatching? && s.jobs[st.job].event == e
    && IsDeadLettered(s.tables, e)
  }

  function TotalDrift(s: State, run: seq<Statement>, e: int): int {
    if run == [] then 0
    else TotalDrift(s, run[..|run| - 1], e) + Drift(ExecAll(s, run[..|run| - 1]), run[|run| - 1], e)
  }

  lemma RetryDrift(s: State, st: Statement, e: int)
    requires OneRowPerEvent(s.tables) && Sound(s, st) && Records(s, st, e)
    ensures Account(Exec(s, st).tables, e) == s.jobs[st.job].retryCount + 1 + ErrorCount(s.tables, e)
  {
    var t, t' := s.tables, Exec(s, st).tables;
    SoundKeepsRows(s, st);
    if HasDlqRow(t, e) {
      var d :| d in t.dlq && t.dlq[d].outboxId == e;
      assert d in t'.dlq && t'.dlq[d].outboxId == e;
      ErrorCountIs(t, e, d);
      ErrorCountIs(t', e, d);
    } else if IsDeadLettered(t', e) {
      ErrorCountIs(t', e, st.dlqId);
    } else {
      assert t'.dlq == t.dlq;
    }
  }

  lemma OtherErrorCount(s: State, st: Statement, e: int)
    requires OneRowPerEvent(s.tables) && Sound(s, st) && !Records(s, st, e)
    ensures ErrorCount(Exec(s, st).tables, e) ==
      if Releases(s, st, e) then 0 else ErrorCount(s.tables, e)
    ensures Releases(s, st, e) ==> ErrorCount(s.tables, e) == s.tables.dlq[st.dlqId].errorCount
  {
    var t, t' := s.tables, Exec(s, st).tables;
    SoundKeepsRows(s, st);
    if HasDlqRow(t, e) {
      var d :| d in t.dlq && t.dlq[d].outboxId == e;
      ErrorCountIs(t, e, d);
      if Releases(s, st, e) {
        assert !HasDlqRow(t', e);
      } else {
        assert d in t'.dlq && t'.dlq[d].outboxId == e;
        ErrorCountIs(t', e, d);
      }
    } else {
      assert !HasDlqRow(t', e);
    }
  }

  lemma StepDrift(s: State, st: Statement, e: int)
    requires OneRowPerEvent(s.tables) && Sound(s, st)
    ensures Account(Exec(s, st).tables, e) ==
      Account(s.tables, e) + (if Records(s, st, e) then 1 else 0) + Drift(s, st, e)
  {
    hide ErrorCount, OneRowPerEvent, Sound;
    if Records(s, st, e) {
      RetryDrift(s, st, e);
    } else {
      OtherErrorCount(s, st, e);
    }
  }

  /** Over any sound run at all: recorded failures and drift are all that moves the account. */
  lemma {:induction false} AccountOverAnyRun(s: State, run: seq<Statement>, e: int)
    requires OneRowPerEvent(s.tables) && SoundRun(s, run)
    ensures Account(ExecAll(s, run).tables, e) == Account(s.tables, e) + Failures(s, run, e) + TotalDrift(s, run, e)
  {
    if run != [] {
      var front := run[..|run| - 1];
      AccountOverAnyRun(s, front, e);
      SoundRunKeepsRows(s, front);
      StepDrift(ExecAll(s, front), run[|run| - 1], e);
    }
  }

  /** From an empty outbox the account is the number of recorded failures exactly when the drift cancels out. */
  lemma AccountIsFailuresIff(run: seq<Statement>, e: int)
    requires SoundRun(Start(), run) && e in ExecAll(Start(), run).tables.events
    ensures Balanced(ExecAll(Start(), run).tables, e, Failures(Start(), run, e))
      <==> TotalDrift(Start(), run, e) == 0
  {
    AccountOverAnyRun(Start(), run, e);
    SoundRunKeepsRows(Start(), run);
    BalancedIsAccount(ExecAll(Start(), run).tables, e, Failures(Start(), run, e));
  }

  // ---------------------------------------------------------------------------------------------
  // What can follow
  // ---------------------------------------------------------------------------------------------

  /** The failures of `e` stay accounted for in every disciplined run from `s`, `n` being those so far. */
  ghost predicate KeepsAccount(s: State, e: int, n: nat) {
    forall run | Disciplined(s, run) ::
      var t := ExecAll(s, run).tables;
      e in t.events && (WasReleased(s, run, e) || Balanced(t, e, n + Failures(s, run, e)))
  }

  ghost predicate TwoDispatch(s: State, e: int) {
    exists j, k | j in s.jobs && k in s.jobs && j != k :: s.jobs[j] == Dispatching(e) && s.jobs[k] == Dispatching(e)
  }

  /** Some disciplined run from `s` has two jobs dispatch `e` at once. */
  ghost predicate CanDispatchTwice(s: State, e: int) {
    exists run :: Disciplined(s, run) && TwoDispatch(ExecAll(s, run), e)
  }

  /** A disciplined run that records `f` failures of `e` and releases nothing leads from `s` to `r`. */
  ghost predicate Reaches(s: State, e: int, r: State, f: nat) {
    exists run :: LeadsTo(s, run, e, r, f)
  }

  ghost predicate LeadsTo(s: State, run: seq<Statement>, e: int, r: State, f: nat) {
    Disciplined(s, run) && ExecAll(s, run) == r && Failures(s, run, e) == f && !WasReleased(s, run, e)
  }

  lemma ReachSelf(s: State, e: int)
    ensures Reaches(s, e, s, 0)
  {
    assert LeadsTo(s, [], e, s, 0);
  }

  lemma ReachNext(s: State, e: int, r: State, f: nat, st: Statement)
    requires Reaches(s, e, r, f) && Allowed(r, st) && !st.Release?
    ensures Reaches(s, e, Exec(r, st), f + (if Records(r, st, e) then 1 else 0))
  {
    var run :| LeadsTo(s, run, e, r, f);
    RunExtends(s, run, st, e);
    assert LeadsTo(s, run + [st], e, Exec(r, st), f + (if Records(r, st, e) then 1 else 0));
  }

  lemma NotKept(s: State, e: int, r: State, f: nat, n: nat)
    requires Reaches(s, e, r, f) && e in r.tables.events && !Balanced(r.tables, e, n + f)
    ensures !KeepsAccount(s, e, n)
  {
    var run :| LeadsTo(s, run, e, r, f);
  }

  lemma ReachesTwo(s: State, e: int, r: State, f: nat)
    requires Reaches(s, e, r, f) && TwoDispatch(r, e)
    ensures CanDispatchTwice(s, e)
  {
    var run :| LeadsTo(s, run, e, r, f);
  }

  /** An id that an upsert for `e` may write. */
  lemma AnUpsert(dlq: map<int, DlqRow>, e: int) returns (d: int)
    ensures Upserts(dlq, e, d)
  {
    if k :| k in dlq && dlq[k].outboxId == e {
      d := k;
    } else {
      d := FreshKey(dlq, 0);
    }
  }

  /** `j` has read the retry count of `e` as it stands, and writing it schedules another try. */
  lemma WritesOn(s: State, e: int, r: State, f: nat, j: int) returns (r': State)
    requires Reaches(s, e, r, f) && j in r.jobs && r.jobs[j].Retrying? && r.jobs[j].event == e
    requires e in r.tables.events && OneRowPerEvent(r.tables)
    ensures Reaches(s, e, r', f + 1) && OneRowPerEvent(r'.tables) && r'.jobs == r.jobs - {j}
    ensures IsPending(r'.tables, e) && r'.tables.events[e].retryCount == r.jobs[j].retryCount + 1
    ensures Account(r'.tables, e) == Account(r.tables, e) + 1 + r.jobs[j].retryCount - Own(r.tables, e)
  {
    var d := AnUpsert(r.tables.dlq, e);
    var st := WriteRetry(j, d, r.jobs[j].retryCount + 2, 0);
    r' := Exec(r, st);
    ReachNext(s, e, r, f, st);
    SoundKeepsRows(r, st);
    StepDrift(r, st, e);
  }

  /** Two jobs that have read the same count lose one of their two failures. */
  lemma TwoReadersLoseOne(s: State, e: int, r: State, f: nat, j: int, k: int, n: nat)
    requires Reaches(s, e, r, f) && e in r.tables.events && OneRowPerEvent(r.tables) && j != k
    requires j in r.jobs && r.jobs[j].Retrying? && r.jobs[j].event == e
    requires k in r.jobs && r.jobs[k].Retrying? && r.jobs[k].event == e
    requires r.jobs[j].retryCount == r.jobs[k].retryCount == Own(r.tables, e)
    requires Account(r.tables, e) == n + f
    ensures !KeepsAccount(s, e, n)
  {
    var r1 := WritesOn(s, e, r, f, j);
    assert r1.jobs[k] == r.jobs[k];
    var r2 := WritesOn(s, e, r1, f + 1, k);
    BalancedIsAccount(r2.tables, e, n + f + 2);
    NotKept(s, e, r2, f + 2, n);
  }

  /** Brings job `j`, attached to `e` in whatever state, to have read the retry count. */
  lemma ReadsOn(s: State, e: int, r: State, f: nat, j: int) returns (r': State)
    requires Reaches(s, e, r, f) && j in r.jobs && r.jobs[j].event == e && e in r.tables.events
    ensures Reaches(s, e, r', f) && r'.tables == r.tables && r'.jobs.Keys == r.jobs.Keys
    ensures r'.jobs[j].Retrying? && r'.jobs[j].event == e
    ensures r'.jobs[j].retryCount ==
      if r.jobs[j].Retrying? then r.jobs[j].retryCount else r.tables.events[e].retryCount
    ensures forall i | i in r.jobs && i != j :: r'.jobs[i] == r.jobs[i]
  {
    var r1 := Exec(r, Fail(j, ""));
    ReachNext(s, e, r, f, Fail(j, ""));
    ReachNext(s, e, r1, f, ReadRetryCount(j));
    r' := Exec(r1, ReadRetryCount(j));
  }

  /** A pending event is marked by a job that was not there. */
  lemma MarksOn(s: State, e: int, r: State, f: nat) returns (r': State, a: int)
    requires Reaches(s, e, r, f) && IsPending(r.tables, e)
    ensures Reaches(s, e, r', f) && r'.tables == WithStatus(r.tables, e, Processing)
    ensures a !in r.jobs && r'.jobs == r.jobs[a := Dispatching(e)]
  {
    a := FreshKey(r.jobs, 0);
    ReachNext(s, e, r, f, MarkProcessing(a, e));
    r' := Exec(r, MarkProcessing(a, e));
  }

  lemma SameRowsSameAccount(t: Tables, t': Tables, e: int)
    requires t'.dlq == t.dlq && Own(t', e) == Own(t, e) && OneRowPerEvent(t) && OneRowPerEvent(t')
    ensures Account(t', e) == Account(t, e)
  {
    if HasDlqRow(t, e) {
      var d :| d in t.dlq && t.dlq[d].outboxId == e;
      ErrorCountIs(t, e, d);
      ErrorCountIs(t', e, d);
    }
  }

  /** A pending event with a job still attached to it, which knows its count: a second dispatch loses one failure. */
  lemma PendingLosesOne(s: State, e: int, r: State, f: nat, j: int, n: nat)
    requires Reaches(s, e, r, f) && IsPending(r.tables, e) && OneRowPerEvent(r.tables)
    requires j in r.jobs && r.jobs[j].event == e && Account(r.tables, e) == n + f
    requires r.jobs[j].Retrying? ==> r.jobs[j].retryCount == r.tables.events[e].retryCount
    ensures !KeepsAccount(s, e, n)
  {
    var r1, a := MarksOn(s, e, r, f);
    SameRowsSameAccount(r.tables, r1.tables, e);
    var r2 := ReadsOn(s, e, r1, f, j);
    var r3 := ReadsOn(s, e, r2, f, a);
    TwoReadersLoseOne(s, e, r3, f, j, a, n);
  }

  /** A pending event with a job still attached to it can be dispatched twice at once. */
  lemma PendingDoubles(s: State, e: int, r: State, f: nat, j: int)
    requires Reaches(s, e, r, f) && IsPending(r.tables, e) && OneRowPerEvent(r.tables)
    requires j in r.jobs && r.jobs[j].event == e
    ensures CanDispatchTwice(s, e)
  {
    var r1, a := MarksOn(s, e, r, f);
    if r.jobs[j].Dispatching? {
      assert r1.jobs[j] == Dispatching(e) && r1.jobs[a] == Dispatching(e);
      ReachesTwo(s, e, r1, f);
    } else {
      var r2 := ReadsOn(s, e, r1, f, j);
      var r3 := WritesOn(s, e, r2, f, j);
      assert r3.jobs[a] == Dispatching(e);
      var r4, b := MarksOn(s, e, r3, f + 1);
      assert r4.jobs[a] == Dispatching(e) && r4.jobs[b] == Dispatching(e);
      ReachesTwo(s, e, r4, f + 1);
    }
  }

  // ---------------------------------------------------------------------------------------------
  // Put-backs: the unguarded redrive and the administrator's late write
  // ---------------------------------------------------------------------------------------------

  lemma InvKeeps(s: State, e: int, n: nat)
    requires Inv(s) && e in s.tables.events && Balanced(s.tables, e, n)
    ensures KeepsAccount(s, e, n) && !CanDispatchTwice(s, e)
  {
    forall run | Disciplined(s, run)
      ensures var t := ExecAll(s, run).tables;
        e in t.events && (WasReleased(s, run, e) || Balanced(t, e, n + Failures(s, run, e)))
      ensures !TwoDispatch(ExecAll(s, run), e)
    {
      EventsStay(s, run, e);
      RunKeepsBalance(s, run, e, n);
      RunsKeepInv(s, run);
    }
  }

  lemma PutBackKeepsInv(s: State, st: Statement, e: int)
    requires Inv(s) && PutsBack(s, st, e) && !IsHeld(s, e)
    ensures Inv(Exec(s, st))
  {
    var s' := Exec(s, st);
    forall x | IsDeadLettered(s'.tables, x)
      ensures HasDlqRow(s'.tables, x)
    {
      assert IsDeadLettered(s.tables, x);
      var k :| k in s.tables.dlq && s.tables.dlq[k].outboxId == x;
      assert k in s'.tables.dlq && s'.tables.dlq[k].outboxId == x;
    }
    forall job | job in s'.jobs
      ensures Holds(s', job)
    {
      assert Holds(s, job);
    }
  }

  /**
   Putting an event back, by either route and with or without a DLQ row. Every disciplined continuation keeps the
   failure account exactly when the event is dead-lettered, or nobody holds it and none of its retry budget is
   used; and two jobs can come to dispatch it at once exactly when somebody holds it.
   */
  lemma PutBackIff(s: State, st: Statement, e: int, n: nat)
    requires Inv(s) && e in s.tables.events && PutsBack(s, st, e) && Balanced(s.tables, e, n)
    ensures KeepsAccount(Exec(s, st), e, n)
      <==> s.tables.events[e].status == DeadLetter || (s.tables.events[e].retryCount == 0 && !IsHeld(s, e))
    ensures CanDispatchTwice(Exec(s, st), e) <==> IsHeld(s, e)
  {
    var s' := Exec(s, st);
    StepDrift(s, st, e);
    SoundKeepsRows(s, st);
    BalancedIsAccount(s.tables, e, n);
    BalancedIsAccount(s'.tables, e, n);
    ReachSelf(s', e);
    if IsHeld(s, e) {
      HeldPutBack(s, st, e, n);
      if Own(s.tables, e) != 0 {
        NotKept(s', e, s', 0, n);
      }
    } else {
      PutBackKeepsInv(s, st, e);
      InvKeeps(s', e, Account(s'.tables, e));
      if Own(s.tables, e) == 0 {
        InvKeeps(s', e, n);
      } else {
        NotKept(s', e, s', 0, n);
      }
    }
  }

  /** A held event put back: the holder and a new job share it. */
  lemma HeldPutBack(s: State, st: Statement, e: int, n: nat)
    requires Inv(s) && e in s.tables.events && PutsBack(s, st, e) && IsHeld(s, e)
    ensures CanDispatchTwice(Exec(s, st), e) && s.tables.events[e].status == Processing
    ensures Own(s.tables, e) == 0 && Account(Exec(s, st).tables, e) == n ==> !KeepsAccount(Exec(s, st), e, n)
  {
    var s' := Exec(s, st);
    var j :| j in s.jobs && s.jobs[j].event == e;
    assert Holds(s, j) && s'.jobs == s.jobs && IsPending(s'.tables, e);
    SoundKeepsRows(s, st);
    ReachSelf(s', e);
    PendingDoubles(s', e, s', 0, j);
    if Own(s.tables, e) == 0 && Account(s'.tables, e) == n {
      PendingLosesOne(s', e, s', 0, j, n);
    }
  }

  /** A redrive after an administrator's retry and one more failed attempt forgets that failure. */
  lemma LateRedriveForgets()
    ensures var t := Tables(map[1 := Event(Pending, 1, 0, None, Some("x"))], map[7 := DlqRow(1, 1, "x", 0)]);
      && Inv(State(t, map[])) && Balanced(t, 1, 2)
      && !KeepsAccount(Exec(State(t, map[]), Redrive(7, 5)), 1, 2)
  {
    var t := Tables(map[1 := Event(Pending, 1, 0, None, Some("x"))], map[7 := DlqRow(1, 1, "x", 0)]);
    assert t.dlq[7].outboxId == 1;
    PutBackIff(State(t, map[]), Redrive(7, 5), 1, 2);
  }

  /** A redrive beside a job that still holds the event, with nothing of the budget used, loses one of two failures. */
  lemma HeldRedriveForgets()
    ensures var t := Tables(map[1 := Event(Processing, 0, 0, None, None)], map[7 := DlqRow(1, 1, "x", 0)]);
      var s := State(t, map[0 := Dispatching(1)]);
      Inv(s) && Balanced(t, 1, 1) && !KeepsAccount(Exec(s, Redrive(7, 5)), 1, 1)
  {
    var t := Tables(map[1 := Event(Processing, 0, 0, None, None)], map[7 := DlqRow(1, 1, "x", 0)]);
    var s := State(t, map[0 := Dispatching(1)]);
    assert t.dlq[7].outboxId == 1 && 0 in s.jobs && s.jobs[0].event == 1;
    PutBackIff(s, Redrive(7, 5), 1, 1);
  }

  /** Two administrators retry the same event; between their writes it fails once more, and that failure is lost. */
  lemma LateRequeueForgets()
    ensures var t := Tables(map[1 := Event(Pending, 1, 0, None, Some("x"))], map[7 := DlqRow(1, 5, "x", 0)]);
      && Inv(State(t, map[])) && Balanced(t, 1, 6)
      && !KeepsAccount(Exec(State(t, map[]), AdminRequeue(1, 5)), 1, 6)
  {
    var t := Tables(map[1 := Event(Pending, 1, 0, None, Some("x"))], map[7 := DlqRow(1, 5, "x", 0)]);
    assert t.dlq[7].outboxId == 1;
    PutBackIff(State(t, map[]), AdminRequeue(1, 5), 1, 6);
  }

  // ---------------------------------------------------------------------------------------------
  // Errors outside the marked stretch
  // ---------------------------------------------------------------------------------------------

  /** No other job and no put-back will touch `e` before a failure of it is recorded. */
  ghost predicate AtRest(s: State, e: int) {
    StatusOf(s, e) == Some(Delivered) || (StatusOf(s, e) == Some(Processing) && !IsHeld(s, e))
  }

  function Without(s: State, k: int): State {
    s.(jobs := s.jobs - {k})
  }

  /** Job `k` has failed outside on `e`, which is at rest but for `k`; everything else keeps the invariant. */
  ghost predicate Stray(s: State, e: int, k: int) {
    && Inv(Without(s, k)) && !IsHeld(Without(s, k), e)
    && StatusOf(s, e) in {Some(Delivered), Some(Processing)}
    && k in s.jobs && s.jobs[k].event == e && !s.jobs[k].Dispatching?
    && (s.jobs[k].Retrying? ==> s.jobs[k].retryCount == s.tables.events[e].retryCount)
  }

  predicate IsBy(st: Statement, k: int) {
    match st
    case MarkProcessing(job, _) => job == k
    case MarkDelivered(job, _) => job == k
    case Fail(job, _) => job == k
    case ReadRetryCount(job) => job == k
    case WriteRetry(job, _, _, _) => job == k
    case Crash(job) => job == k
    case _ => false
  }

  /** Statements of other jobs do not see `k`. */
  lemma OthersIgnore(s: State, st: Statement, k: int)
    requires !IsBy(st, k) && !st.FailOutside?
    ensures Without(Exec(s, st), k) == Exec(Without(s, k), st)
    ensures Allowed(s, st) ==> Allowed(Without(s, k), st)
    ensures k in s.jobs ==> k in Exec(s, st).jobs && Exec(s, st).jobs[k] == s.jobs[k]
  {
    assert Without(Exec(s, st), k).jobs == Exec(Without(s, k), st).jobs;
  }

  lemma StepKeepsInv(s: State, st: Statement)
    requires Inv(s) && Allowed(s, st)
    ensures Inv(Exec(s, st))
  {
    StepKeepsTables(s, st);
    StepKeepsQueued(s, st);
    StepKeepsHolders(s, st);
  }

  lemma RestStays(s: State, st: Statement, e: int)
    requires Inv(s) && Allowed(s, st) && !IsHeld(s, e) && StatusOf(s, e) in {Some(Delivered), Some(Processing)}
    ensures e in Exec(s, st).tables.events && Exec(s, st).tables.events[e] == s.tables.events[e]
    ensures !IsHeld(Exec(s, st), e)
  {
  }

  /** The stray job stays until it writes or dies; then the invariant holds again. */
  lemma StrayStep(s: State, st: Statement, e: int, k: int)
    requires Stray(s, e, k) && Allowed(s, st)
    ensures Stray(Exec(s, st), e, k) || Inv(Exec(s, st))
    ensures !Releases(s, st, e) ==> Drift(s, st, e) == 0
  {
    if IsBy(st, k) {
      StrayStepBy(s, st, e, k);
    } else {
      OthersIgnore(s, st, k);
      StepKeepsInv(Without(s, k), st);
      RestStays(Without(s, k), st, e);
    }
  }

  lemma StrayStepBy(s: State, st: Statement, e: int, k: int)
    requires Stray(s, e, k) && Allowed(s, st) && IsBy(st, k)
    ensures Stray(Exec(s, st), e, k) || Inv(Exec(s, st))
    ensures Drift(s, st, e) == 0
  {
    if st.Crash? {
      assert Exec(s, st) == Without(s, k);
    } else if st.WriteRetry? && RecordsFailure(s, k) {
      StrayWrites(s, st, e, k);
    } else {
      assert Without(Exec(s, st), k) == Without(s, k);
    }
  }

  lemma StrayWrites(s: State, st: Statement, e: int, k: int)
    requires Stray(s, e, k) && Allowed(s, st) && st.WriteRetry? && st.job == k && RecordsFailure(s, k)
    ensures Inv(Exec(s, st)) && Drift(s, st, e) == 0
  {
    var base, s' := Without(s, k), Exec(s, st);
    assert s'.jobs == base.jobs;
    SoundKeepsRows(s, st);
    forall x | IsDeadLettered(s'.tables, x)
      ensures HasDlqRow(s'.tables, x)
    {
      if x == e {
        assert st.dlqId in s'.tables.dlq && s'.tables.dlq[st.dlqId].outboxId == e;
      } else {
        assert IsDeadLettered(s.tables, x);
        var d :| d in s.tables.dlq && s.tables.dlq[d].outboxId == x;
        assert d in s'.tables.dlq && s'.tables.dlq[d].outboxId == x;
      }
    }
    forall job | job in s'.jobs
      ensures Holds(s', job)
    {
      assert Holds(base, job) && base.jobs[job].event != e;
    }
  }

  /** Under the invariant an allowed statement drifts only by releasing. */
  lemma AllowedDrift(s: State, st: Statement, e: int)
    requires Inv(s) && Allowed(s, st) && !Releases(s, st, e)
    ensures Drift(s, st, e) == 0
  {
    assert Records(s, st, e) ==> Holds(s, st.job);
    assert st.MarkDelivered? && st.job in s.jobs ==> Holds(s, st.job);
  }

  lemma {:induction false} StrayRun(s: State, run: seq<Statement>, e: int, k: int, n: nat)
    requires Stray(s, e, k) && Disciplined(s, run) && Account(s.tables, e) == n
    ensures var r := ExecAll(s, run);
      && (Stray(r, e, k) || Inv(r))
      && (WasReleased(s, run, e) || Account(r.tables, e) == n + Failures(s, run, e))
  {
    if run != [] {
      var front, st := run[..|run| - 1], run[|run| - 1];
      var r := ExecAll(s, front);
      StrayRun(s, front, e, k, n);
      StepDrift(r, st, e);
      if Stray(r, e, k) {
        StrayStep(r, st, e, k);
      } else {
        StepKeepsInv(r, st);
        if !Releases(r, st, e) {
          AllowedDrift(r, st, e);
        }
      }
    }
  }

  lemma NotTwo(s: State, e: int, k: int)
    requires Stray(s, e, k) || Inv(s)
    ensures !TwoDispatch(s, e)
  {
    if Stray(s, e, k) {
      forall j | j in s.jobs
        ensures s.jobs[j] != Dispatching(e)
      {
        assert j != k ==> j in Without(s, k).jobs && Without(s, k).jobs[j] == s.jobs[j];
      }
    }
  }

  lemma StrayKeeps(s: State, e: int, k: int, n: nat)
    requires Stray(s, e, k) && Balanced(s.tables, e, n)
    ensures KeepsAccount(s, e, n) && !CanDispatchTwice(s, e)
  {
    BalancedIsAccount(s.tables, e, n);
    forall run | Disciplined(s, run)
      ensures var t := ExecAll(s, run).tables;
        e in t.events && (WasReleased(s, run, e) || Balanced(t, e, n + Failures(s, run, e)))
      ensures !TwoDispatch(ExecAll(s, run), e)
    {
      EventsStay(s, run, e);
      StrayRun(s, run, e, k, n);
      NotTwo(ExecAll(s, run), e, k);
      BalancedIsAccount(ExecAll(s, run).tables, e, n + Failures(s, run, e));
    }
  }

  /**
   An error outside the marked stretch. Every disciplined continuation keeps the failure account, and none has two
   jobs dispatch the event at once, exactly when the event is delivered, or abandoned in processing.
   */
  lemma OutsideErrorIff(s: State, k: int, e: int, error: string, n: nat)
    requires Inv(s) && k !in s.jobs && e in s.tables.events && Balanced(s.tables, e, n)
    ensures KeepsAccount(Exec(s, FailOutside(k, e, error)), e, n) <==> AtRest(s, e)
    ensures CanDispatchTwice(Exec(s, FailOutside(k, e, error)), e) <==> !AtRest(s, e)
  {
    var s' := Exec(s, FailOutside(k, e, error));
    BalancedIsAccount(s.tables, e, n);
    ReachSelf(s', e);
    if AtRest(s, e) {
      assert Without(s', k) == s;
      assert forall job | job in s.jobs :: Holds(s, job);
      StrayKeeps(s', e, k, n);
    } else if IsHeld(s, e) {
      OutsideWhileHeld(s, s', k, e, n);
    } else if IsPending(s.tables, e) {
      PendingLosesOne(s', e, s', 0, k, n);
      PendingDoubles(s', e, s', 0, k);
    } else {
      OutsideWhileQueued(s', k, e, n);
    }
  }

  lemma OutsideWhileHeld(s: State, s': State, k: int, e: int, n: nat)
    requires Inv(s) && k !in s.jobs && IsHeld(s, e) && e in s.tables.events && Account(s.tables, e) == n
    requires s'.tables == s.tables && k in s'.jobs && s'.jobs == s.jobs[k := s'.jobs[k]]
    requires s'.jobs[k].Failing? && s'.jobs[k].event == e
    ensures !KeepsAccount(s', e, n) && CanDispatchTwice(s', e)
  {
    hide KeepsAccount, CanDispatchTwice, Reaches, Account;
    var j :| j in s.jobs && s.jobs[j].event == e;
    assert Holds(s, j) && s'.jobs[j] == s.jobs[j];
    SameRowsSameAccount(s.tables, s'.tables, e);
    ReachSelf(s', e);
    var r1 := ReadsOn(s', e, s', 0, k);
    var r2 := ReadsOn(s', e, r1, 0, j);
    TwoReadersLoseOne(s', e, r2, 0, j, k, n);
    var r3 := WritesOn(s', e, r1, 0, k);
    assert r3.jobs[j] == s.jobs[j];
    PendingDoubles(s', e, r3, 1, j);
  }

  lemma OutsideWhileQueued(s': State, k: int, e: int, n: nat)
    requires OneRowPerEvent(s'.tables) && IsDeadLettered(s'.tables, e) && Account(s'.tables, e) == n
    requires k in s'.jobs && s'.jobs[k].Failing? && s'.jobs[k].event == e
    ensures !KeepsAccount(s', e, n) && CanDispatchTwice(s', e)
  {
    var r := Exec(s', AdminRequeue(e, 0));
    ReachSelf(s', e);
    ReachNext(s', e, s', 0, AdminRequeue(e, 0));
    StepDrift(s', AdminRequeue(e, 0), e);
    SoundKeepsRows(s', AdminRequeue(e, 0));
    PendingLosesOne(s', e, r, 0, k, n);
    PendingDoubles(s', e, r, 0, k);
  }

  /** A commit that fails after a skip counts the attempts of a dead letter twice: one failure, five more counted. */
  lemma OutsideErrorCountsTwice()
    ensures var t := Tables(map[1 := Event(DeadLetter, 4, 0, None, Some("x"))], map[7 := DlqRow(1, 5, "x", 0)]);
      var s, run := State(t, map[]), [] + [FailOutside(0, 1, "y")] + [ReadRetryCount(0)] + [WriteRetry(0, 7, 5, 9)];
      && Inv(s) && SoundRun(s, run) && Account(t, 1) == 5
      && Failures(s, run, 1) == 1 && Account(ExecAll(s, run).tables, 1) == 10
  {
    hide ExecAll, SoundRun, Failures, WasReleased, Disciplined;
    var t := Tables(map[1 := Event(DeadLetter, 4, 0, None, Some("x"))], map[7 := DlqRow(1, 5, "x", 0)]);
    var s, r1 := State(t, map[]), [] + [FailOutside(0, 1, "y")];
    NothingRun(s, 1);
    assert t.dlq[7].outboxId == 1;
    ErrorCountIs(t, 1, 7);
    RunExtends(s, [], FailOutside(0, 1, "y"), 1);
    var r2 := r1 + [ReadRetryCount(0)];
    RunExtends(s, r1, ReadRetryCount(0), 1);
    RunExtends(s, r2, WriteRetry(0, 7, 5, 9), 1);
    SoundExtends(s, [], FailOutside(0, 1, "y"));
    SoundExtends(s, r1, ReadRetryCount(0));
    SoundExtends(s, r2, WriteRetry(0, 7, 5, 9));
    StepDrift(ExecAll(s, r2), WriteRetry(0, 7, 5, 9), 1);
    assert ExecAll(s, r2).tables == t;
  }

  lemma NothingRun(s: State, e: int)
    ensures ExecAll(s, []) == s && Disciplined(s, []) && SoundRun(s, []) && Failures(s, [], e) == 0
  {
  }

  lemma SoundExtends(s: State, run: seq<Statement>, st: Statement)
    ensures SoundRun(s, run + [st]) <==> SoundRun(s, run) && Sound(ExecAll(s, run), st)
  {
    assert (run + [st])[..|run|] == run;
  }

  // ---------------------------------------------------------------------------------------------
  // What delivered, abandoned and dead-lettered events depend on
  // ---------------------------------------------------------------------------------------------

  predicate WasPutBack(s: State, run: seq<Statement>, e: int) {
    run != [] &&
    (WasPutBack(s, run[..|run| - 1], e) || PutsBack(ExecAll(s, run[..|run| - 1]), run[|run| - 1], e))
  }

  /** Some moment of the run sees another status than its start. */
  predicate Leaves(s: State, run: seq<Statement>, e: int) {
    run != [] && (Leaves(s, run[..|run| - 1], e) || StatusOf(ExecAll(s, run), e) != StatusOf(s, e))
  }

  /**
   In any run at all, errors outside the marked stretch and unguarded redrives included: an event that is
   delivered, or abandoned in processing, ever leaves its status exactly when it is put back or when a failed
   dispatch of it is recorded.
   */
  lemma {:induction false} LeavesIff(s: State, run: seq<Statement>, e: int)
    requires StatusOf(s, e) in {Some(Delivered), Some(Processing)} && !IsHeld(s, e)
    ensures Leaves(s, run, e) <==> WasPutBack(s, run, e) || Failures(s, run, e) > 0
    ensures !Leaves(s, run, e) ==> SameRow(s, ExecAll(s, run), e)
  {
    if run == [] {
      assert forall job | job in s.jobs :: s.jobs[job].event != e;
    } else {
      var front := run[..|run| - 1];
      LeavesIff(s, front, e);
      if !Leaves(s, front, e) {
        LeavesStep(s, ExecAll(s, front), run[|run| - 1], e);
      }
    }
  }

  /** The row of `e` is as in `s`, and no job is in the marked stretch of a dispatch of `e`. */
  ghost predicate SameRow(s: State, s': State, e: int)
    requires e in s.tables.events
  {
    && e in s'.tables.events && s'.tables.events[e] == s.tables.events[e]
    && forall job | job in s'.jobs :: s'.jobs[job].event == e ==> !s'.jobs[job].Dispatching?
  }

  lemma LeavesStep(s: State, before: State, st: Statement, e: int)
    requires StatusOf(s, e) in {Some(Delivered), Some(Processing)} && SameRow(s, before, e)
    ensures StatusOf(Exec(before, st), e) != StatusOf(s, e) <==> PutsBack(before, st, e) || Records(before, st, e)
    ensures StatusOf(Exec(before, st), e) == StatusOf(s, e) ==> SameRow(s, Exec(before, st), e)
  {
  }

  /** The dead-lettered event and its DLQ row, as they stand in `s`. */
  predicate Untouched(s: State, r: State, e: int, d: int)
    requires e in s.tables.events && d in s.tables.dlq
  {
    && e in r.tables.events && r.tables.events[e] == s.tables.events[e]
    && d in r.tables.dlq && r.tables.dlq[d] == s.tables.dlq[d]
  }

  predicate EverTouched(s: State, run: seq<Statement>, e: int, d: int)
    requires e in s.tables.events && d in s.tables.dlq
  {
    run != [] && (EverTouched(s, run[..|run| - 1], e, d) || !Untouched(s, ExecAll(s, run), e, d))
  }

  ghost predicate QuietSoFar(s: State, r: State, e: int, d: int)
    requires e in s.tables.events && d in s.tables.dlq
  {
    Untouched(s, r, e, d) && forall job | job in r.jobs :: r.jobs[job].event == e ==> !r.jobs[job].Dispatching?
  }

  lemma QuietStep(s: State, r: State, st: Statement, d: int)
    requires d in s.tables.dlq && IsDeadLettered(s.tables, s.tables.dlq[d].outboxId)
    requires OneRowPerEvent(r.tables) && Sound(r, st) && QuietSoFar(s, r, s.tables.dlq[d].outboxId, d)
    ensures var e := s.tables.dlq[d].outboxId;
      && (!Untouched(s, Exec(r, st), e, d) <==> PutsBack(r, st, e) || Records(r, st, e) || Releases(r, st, e))
      && (Untouched(s, Exec(r, st), e, d) ==> QuietSoFar(s, Exec(r, st), e, d))
  {
  }

  /**
   In any sound run, outside errors and unguarded redrives included: a dead-lettered event and its DLQ row ever
   change exactly when the event is put back, a failed dispatch of it is recorded, or the row is dropped.
   */
  lemma {:induction false} DeadLetterChangesIff(s: State, run: seq<Statement>, d: int)
    requires OneRowPerEvent(s.tables) && SoundRun(s, run) && d in s.tables.dlq
    requires IsDeadLettered(s.tables, s.tables.dlq[d].outboxId) && !IsHeld(s, s.tables.dlq[d].outboxId)
    ensures var e := s.tables.dlq[d].outboxId;
      && (EverTouched(s, run, e, d)
          <==> WasPutBack(s, run, e) || Failures(s, run, e) > 0 || WasReleased(s, run, e))
      && (!EverTouched(s, run, e, d) ==> QuietSoFar(s, ExecAll(s, run), e, d))
  {
    var e := s.tables.dlq[d].outboxId;
    if run == [] {
      assert forall job | job in s.jobs :: s.jobs[job].event != e;
    } else {
      var front := run[..|run| - 1];
      DeadLetterChangesIff(s, front, d);
      SoundRunKeepsRows(s, front);
      if !EverTouched(s, front, e, d) {
        QuietStep(s, ExecAll(s, front), run[|run| - 1], d);
      }
    }
  }
}
