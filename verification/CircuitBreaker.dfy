/**
 The SDK circuit breaker. A call that was admitted reports its outcome later, so a history is any
 interleaving of state queries, late successes, late failures and resets, with arbitrary clock readings.
 */
module BreakerSteps {
  datatype State = Closed | Open | HalfOpen

  datatype Breaker = Breaker(state: State, failureCount: nat, successCount: nat, lastFailureTime: int)

  datatype Limits = Limits(failureThreshold: int, resetTimeoutMs: int, successThreshold: int)

  datatype Action = GetState(now: int) | Success | Failure(now: int) | Reset

  function Fresh(): Breaker {
    Breaker(Closed, 0, 0, 0)
  }

  function Step(c: Limits, b: Breaker, a: Action): Breaker {
    match a
    case GetState(now) =>
      if b.state == Open && now - b.lastFailureTime > c.resetTimeoutMs then b.(state := HalfOpen) else b
    case Success =>
      if b.state == HalfOpen then
        if b.successCount + 1 >= c.successThreshold then b.(state := Closed, failureCount := 0, successCount := 0)
        else b.(successCount := b.successCount + 1)
      else if b.state == Closed then
        b.(failureCount := 0)
      else
        b
    case Failure(now) =>
      var f := b.(failureCount := b.failureCount + 1, lastFailureTime := now);
      if b.state == HalfOpen || f.failureCount >= c.failureThreshold then f.(state := Open, successCount := 0) else f
    case Reset => Fresh()
  }

  function After(c: Limits, history: seq<Action>): Breaker {
    if history == [] then Fresh() else Step(c, After(c, history[..|history| - 1]), history[|history| - 1])
  }

  // ---------------------------------------------------------------------------------------------
  // What the history alone says
  // ---------------------------------------------------------------------------------------------

  /** Failures recorded since the last success or reset. */
  function TrailingFailures(history: seq<Action>): nat {
    if history == [] then
      0
    else
      match history[|history| - 1]
      case Failure(_) => TrailingFailures(history[..|history| - 1]) + 1
      case GetState(_) => TrailingFailures(history[..|history| - 1])
      case Success => 0
      case Reset => 0
  }

  /** Successes recorded since the last failure or reset. */
  function TrailingSuccesses(history: seq<Action>): nat {
    if history == [] then
      0
    else
      match history[|history| - 1]
      case Success => TrailingSuccesses(history[..|history| - 1]) + 1
      case GetState(_) => TrailingSuccesses(history[..|history| - 1])
      case Failure(_) => 0
      case Reset => 0
  }

  /** The time of the last failure since the last reset, or 0. */
  function LastFailure(history: seq<Action>): int {
    if history == [] then
      0
    else
      match history[|history| - 1]
      case Failure(now) => now
      case Reset => 0
      case _ => LastFailure(history[..|history| - 1])
  }

  /** Successes recorded while half open, since it last became half open. */
  function Probes(c: Limits, history: seq<Action>): nat {
    if history == [] then
      0
    else
      var front := history[..|history| - 1];
      match history[|history| - 1]
      case Success => if After(c, front).state == HalfOpen then Probes(c, front) + 1 else 0
      case GetState(_) => if After(c, front).state == HalfOpen then Probes(c, front) else 0
      case _ => 0
  }

  /** A threshold below one acts like one. */
  function AtLeastOne(n: int): int {
    if n < 1 then 1 else n
  }

  /** The fields, told by the history. */
  ghost predicate FieldsTellHistory(c: Limits, history: seq<Action>) {
    var b := After(c, history);
    && b.lastFailureTime == LastFailure(history)
    && (b.state == Closed ==>
          b.failureCount == TrailingFailures(history) < AtLeastOne(c.failureThreshold) && b.successCount == 0)
    && (b.state == Open ==> b.successCount == 0)
    && (b.state == HalfOpen ==>
          b.successCount == Probes(c, history) < AtLeastOne(c.successThreshold)
          && Probes(c, history) <= TrailingSuccesses(history))
  }

  /** In every interleaving; while closed, the count is the trailing run of failures and below the threshold. */
  lemma {:induction false} HistoryIsTold(c: Limits, history: seq<Action>)
    ensures FieldsTellHistory(c, history)
  {
    if history != [] {
      HistoryIsTold(c, history[..|history| - 1]);
    }
  }

  lemma Extends(c: Limits, history: seq<Action>, a: Action)
    ensures After(c, history + [a]) == Step(c, After(c, history), a)
  {
    assert (history + [a])[..|history|] == history;
  }

  /** It opens exactly when a run of failures reaches the threshold. */
  lemma OpensIff(c: Limits, history: seq<Action>, a: Action)
    requires After(c, history).state == Closed
    ensures After(c, history + [a]).state != Closed
      <==> a.Failure? && TrailingFailures(history + [a]) >= AtLeastOne(c.failureThreshold)
    ensures After(c, history + [a]).state != HalfOpen
  {
    HistoryIsTold(c, history);
    Extends(c, history, a);
    assert (history + [a])[..|history|] == history;
  }

  /** It leaves the open state exactly by a reset, or by a query past the timeout after the last failure. */
  lemma LeavesOpenIff(c: Limits, history: seq<Action>, a: Action)
    requires After(c, history).state == Open
    ensures After(c, history + [a]).state == Closed <==> a.Reset?
    ensures After(c, history + [a]).state == HalfOpen
      <==> a.GetState? && a.now - LastFailure(history) > c.resetTimeoutMs
  {
    HistoryIsTold(c, history);
    Extends(c, history, a);
  }

  /** It closes from half open exactly by a reset or by enough probes, with no failure between them. */
  lemma ClosesIff(c: Limits, history: seq<Action>, a: Action)
    requires After(c, history).state == HalfOpen
    ensures After(c, history + [a]).state == Closed
      <==> a.Reset? || (a.Success? && Probes(c, history + [a]) >= AtLeastOne(c.successThreshold))
    ensures After(c, history + [a]).state == Closed && a.Success? ==>
      TrailingSuccesses(history + [a]) >= AtLeastOne(c.successThreshold)
    ensures After(c, history + [a]).state == Open <==> a.Failure?
  {
    HistoryIsTold(c, history);
    Extends(c, history, a);
    assert (history + [a])[..|history|] == history;
  }

  /** While no reset and no late enough query comes, an open breaker stays open whatever calls report. */
  lemma {:induction false} OpenShields(c: Limits, history: seq<Action>, later: seq<Action>)
    requires After(c, history).state == Open
    requires forall a | a in later :: !a.Reset?
    requires forall i | 0 <= i < |later| && later[i].GetState? ::
      later[i].now - LastFailure(history + later[..i]) <= c.resetTimeoutMs
    ensures After(c, history + later).state == Open
  {
    if later == [] {
      assert history + later == history;
    } else {
      var front, a := later[..|later| - 1], later[|later| - 1];
      assert forall i | 0 <= i < |front| :: front[..i] == later[..i];
      OpenShields(c, history, front);
      LeavesOpenIff(c, history + front, a);
      assert (history + front) + [a] == history + later;
    }
  }
}

module CircuitBreaker {
  import opened Wrappers
  import opened BreakerSteps

  /** What becomes of a call before its function has run, and after. */
  datatype Admission = CallFn | UseFallback | ThrowOpenError

  datatype Outcome = ReturnResult | ReturnFallback | ThrowError

  /** `option || fallback`: an absent or zero option takes the default. */
  function OrDefault(option: Option<int>, default_: int): int {
    if option.None? || option.value == 0 then default_ else option.value
  }

  /** A non-zero option is kept; an absent one or zero gives the default. */
  predicate IsOption(option: Option<int>, value: int, default_: int) {
    match option
    case None => value == default_
    case Some(n) => if n != 0 then value == n else value == default_
  }

  class CircuitBreaker {
    var state: State
    var failureCount: nat
    var successCount: nat
    var lastFailureTime: int
    const limits: Limits

    ghost function View(): Breaker
      reads this
    {
      Breaker(state, failureCount, successCount, lastFailureTime)
    }

    constructor (failureThreshold: Option<int>, resetTimeoutMs: Option<int>, successThreshold: Option<int>)
      ensures View() == After(limits, [])
      ensures limits == Limits(
        OrDefault(failureThreshold, 3), OrDefault(resetTimeoutMs, 5000), OrDefault(successThreshold, 2))
      ensures state == Closed && failureCount == 0 && successCount == 0 && lastFailureTime == 0
      ensures IsOption(failureThreshold, limits.failureThreshold, 3)
      ensures IsOption(resetTimeoutMs, limits.resetTimeoutMs, 5000)
      ensures IsOption(successThreshold, limits.successThreshold, 2)
    {
      state, failureCount, successCount, lastFailureTime := Closed, 0, 0, 0;
      limits := Limits(
        OrDefault(failureThreshold, 3), OrDefault(resetTimeoutMs, 5000), OrDefault(successThreshold, 2));
    }

    method GetState(now: int) returns (current: State)
      modifies this
      ensures View() == Step(limits, old(View()), BreakerSteps.GetState(now)) && current == state
      ensures state ==
        if old(state) == Open && now - old(lastFailureTime) > limits.resetTimeoutMs then HalfOpen else old(state)
      ensures View() == old(View()).(state := state)
    {
      if state == Open {
        if now - lastFailureTime > limits.resetTimeoutMs {
          state := HalfOpen;
        }
      }
      current := state;
    }

    /** `execute` up to the call of the function, which is never made while the breaker is open. */
    method Admit(now: int, hasFallback: bool) returns (admission: Admission)
      modifies this
      ensures View() == Step(limits, old(View()), BreakerSteps.GetState(now))
      ensures admission == CallFn <==> state != Open
      ensures admission == CallFn ==> old(state) != Open || now - old(lastFailureTime) > limits.resetTimeoutMs
      ensures admission == UseFallback <==> state == Open && hasFallback
    {
      var currentState := GetState(now);
      if currentState == Open {
        return if hasFallback then UseFallback else ThrowOpenError;
      }
      admission := CallFn;
    }

    /** `execute` once the function has returned or thrown. */
    method Report(succeeded: bool, now: int, hasFallback: bool) returns (outcome: Outcome)
      modifies this
      ensures View() == Step(limits, old(View()), if succeeded then Success else Failure(now))
      ensures outcome ==
        if succeeded then ReturnResult else if hasFallback then ReturnFallback else ThrowError
    {
      if succeeded {
        RecordSuccess();
        return ReturnResult;
      }
      RecordFailure(now);
      outcome := if hasFallback then ReturnFallback else ThrowError;
    }

    method RecordSuccess()
      modifies this
      ensures View() == Step(limits, old(View()), Success)
      ensures old(state) == Closed ==> View() == old(View()).(failureCount := 0)
      ensures old(state) == Open ==> View() == old(View())
      ensures old(state) == HalfOpen ==>
        if old(successCount) + 1 >= limits.successThreshold then
          View() == Breaker(Closed, 0, 0, old(lastFailureTime))
        else
          View() == old(View()).(successCount := old(successCount) + 1)
    {
      if state == HalfOpen {
        successCount := successCount + 1;
        if successCount >= limits.successThreshold {
          state := Closed;
          failureCount := 0;
          successCount := 0;
        }
      } else if state == Closed {
        failureCount := 0;
      }
    }

    method RecordFailure(now: int)
      modifies this
      ensures View() == Step(limits, old(View()), Failure(now))
      ensures failureCount == old(failureCount) + 1 && lastFailureTime == now
      ensures if old(state) == HalfOpen || failureCount >= limits.failureThreshold then
        state == Open && successCount == 0
      else
        state == old(state) && successCount == old(successCount)
    {
      failureCount := failureCount + 1;
      lastFailureTime := now;
      if state == HalfOpen || failureCount >= limits.failureThreshold {
        state := Open;
        successCount := 0;
      }
    }

    method Reset()
      modifies this
      ensures View() == Step(limits, old(View()), BreakerSteps.Reset) && View() == Breaker(Closed, 0, 0, 0)
    {
      state := Closed;
      failureCount := 0;
      successCount := 0;
      lastFailureTime := 0;
    }
  }
}
