/**
 The token bucket that keeps capacity back for live traffic. Token amounts are thousandths of a
 token and times are milliseconds, so a rate of `A` tokens per second adds exactly `A` units each
 millisecond and the arithmetic of the source is exact.
 */
module CapacitySteps {
  import opened Arithmetic

  datatype Bucket = Bucket(rate: int, tokens: int, usage: int, lastRefill: int)

  datatype Wait = Ms(ms: int) | Never

  function Capacity(b: Bucket): int {
    1000 * b.rate
  }

  function Refill(b: Bucket, now: int): Bucket {
    b.(tokens := Min(b.tokens + (now - b.lastRefill) * b.rate, Capacity(b)), lastRefill := now)
  }

  predicate CanTake(b: Bucket, now: int, amount: int) {
    amount <= Refill(b, now).tokens
  }

  function Take(b: Bucket, now: int, amount: int): Bucket {
    var r := Refill(b, now);
    if amount <= r.tokens then r.(tokens := r.tokens - amount, usage := r.usage + amount) else r
  }

  function GiveBack(b: Bucket, amount: int): Bucket {
    b.(tokens := Min(b.tokens + amount, Capacity(b)), usage := Max(0, b.usage - amount))
  }

  function WaitFor(b: Bucket, now: int, amount: int): Wait {
    var r := Refill(b, now);
    if amount <= r.tokens then Ms(0)
    else if b.rate > 0 then Ms(CeilDiv(amount - r.tokens, b.rate))
    else Never
  }

  ghost predicate Sound(b: Bucket) {
    b.rate >= 0 && 0 <= b.tokens <= Capacity(b)
  }

  // ---------------------------------------------------------------------------------------------
  // The promise of waitTimeMs
  // ---------------------------------------------------------------------------------------------

  ghost predicate CanTakeAfter(b: Bucket, now: int, wait: nat, amount: int) {
    CanTake(b, now + wait, amount)
  }

  /** `w` is the least wait after which `amount` can be taken, if nothing else happens meanwhile. */
  ghost predicate IsLeastWait(b: Bucket, now: int, amount: int, w: Wait) {
    forall d: nat ::
      CanTakeAfter(b, now, d, amount) <==> w.Ms? && d >= w.ms
  }

  lemma MulMonotone(a: int, b: int, k: int)
    requires a <= b && k >= 0
    ensures a * k <= b * k
  {
  }

  /** At `now + d` the bucket holds what it held at `now` plus `d` times the rate, up to its size. */
  lemma RefillLater(b: Bucket, now: int, d: nat)
    requires Sound(b) && now >= b.lastRefill
    ensures Refill(b, now + d).tokens == Min(Refill(b, now).tokens + d * b.rate, Capacity(b))
    ensures Sound(Refill(b, now))
  {
    assert (now + d - b.lastRefill) * b.rate == (now - b.lastRefill) * b.rate + d * b.rate;
    MulMonotone(0, d, b.rate);
    MulMonotone(0, now - b.lastRefill, b.rate);
  }

  lemma CeilDivIsLeast(n: int, k: int, d: int)
    requires k > 0
    ensures d >= CeilDiv(n, k) <==> d * k >= n
  {
    if d >= CeilDiv(n, k) {
      MulMonotone(CeilDiv(n, k), d, k);
    } else {
      MulMonotone(d, CeilDiv(n, k) - 1, k);
    }
  }

  lemma WaitIsLeastAt(b: Bucket, now: int, amount: int, d: nat)
    requires Sound(b) && now >= b.lastRefill && (amount <= Capacity(b) || b.rate == 0)
    ensures CanTakeAfter(b, now, d, amount)
      <==> WaitFor(b, now, amount).Ms? && d >= WaitFor(b, now, amount).ms
  {
    var r := Refill(b, now);
    RefillLater(b, now, d);
    MulMonotone(0, d, b.rate);
    if r.tokens < amount && b.rate > 0 {
      CeilDivIsLeast(amount - r.tokens, b.rate, d);
    } else if b.rate == 0 {
      assert d * b.rate == 0;
    }
  }

  /**
   `waitTimeMs` keeps its promise exactly for requests that fit the bucket, or when the bucket never
   refills; a larger request gets a finite wait after which it still fails.
   */
  lemma WaitIsLeastIff(b: Bucket, now: int, amount: int)
    requires Sound(b) && now >= b.lastRefill
    ensures IsLeastWait(b, now, amount, WaitFor(b, now, amount)) <==> amount <= Capacity(b) || b.rate == 0
  {
    var w := WaitFor(b, now, amount);
    if amount <= Capacity(b) || b.rate == 0 {
      forall d: nat
        ensures CanTakeAfter(b, now, d, amount) <==> w.Ms? && d >= w.ms
      {
        WaitIsLeastAt(b, now, amount, d);
      }
      assert IsLeastWait(b, now, amount, w);
    } else {
      var d := Max(0, w.ms);
      RefillLater(b, now, d);
      RefillLater(b, now, 0);
      assert !CanTakeAfter(b, now, d, amount);
    }
  }

  // ---------------------------------------------------------------------------------------------
  // Runs
  // ---------------------------------------------------------------------------------------------

  /** `Observe` stands for `getBudget`, `availableTokens` and `waitTimeMs`, which only refill. */
  datatype Op = Acquire(now: int, amount: int) | Release(amount: int) | Observe(now: int)

  function Apply(b: Bucket, op: Op): Bucket {
    match op
    case Acquire(now, amount) => Take(b, now, amount)
    case Release(amount) => GiveBack(b, amount)
    case Observe(now) => Refill(b, now)
  }

  function ApplyAll(b: Bucket, ops: seq<Op>): Bucket {
    if ops == [] then b else Apply(ApplyAll(b, ops[..|ops| - 1]), ops[|ops| - 1])
  }

  /** Amounts are not negative and times run forward within `[start, end]`. */
  ghost predicate Timely(b: Bucket, ops: seq<Op>, start: int, end: int) {
    ops != [] ==>
      var front, op := ops[..|ops| - 1], ops[|ops| - 1];
      && Timely(b, front, start, end)
      && (op.Acquire? || op.Release? ==> op.amount >= 0)
      && (op.Acquire? || op.Observe? ==> start <= op.now <= end && ApplyAll(b, front).lastRefill <= op.now)
  }

  ghost function Granted(b: Bucket, ops: seq<Op>): int {
    if ops == [] then
      0
    else
      var front, op := ops[..|ops| - 1], ops[|ops| - 1];
      Granted(b, front) + (if op.Acquire? && CanTake(ApplyAll(b, front), op.now, op.amount) then op.amount else 0)
  }

  ghost function Released(ops: seq<Op>): int {
    if ops == [] then
      0
    else
      Released(ops[..|ops| - 1]) + (if ops[|ops| - 1].Release? then ops[|ops| - 1].amount else 0)
  }

  /** The account kept along a run: `granted` so far, against the bucket, the refill and the releases. */
  ghost predicate Account(b: Bucket, start: int, capacity: int, granted: int, released: int) {
    && Sound(b) && Capacity(b) == capacity && released >= 0
    && (b.lastRefill < start ==> granted == 0)
    && granted + b.tokens <= capacity + Max(0, b.lastRefill - start) * b.rate + released
  }

  lemma RefillKeepsAccount(b: Bucket, start: int, capacity: int, granted: int, released: int, now: int)
    requires Account(b, start, capacity, granted, released) && start <= now && b.lastRefill <= now
    ensures Account(Refill(b, now), start, capacity, granted, released)
  {
    RefillLater(b, now, 0);
    MulMonotone(0, now - start, b.rate);
    if b.lastRefill >= start {
      assert (now - start) * b.rate == (b.lastRefill - start) * b.rate + (now - b.lastRefill) * b.rate;
    }
  }

  lemma {:induction false} GrantsAreCovered(b: Bucket, ops: seq<Op>, start: int, end: int)
    requires Sound(b) && b.lastRefill <= start <= end && Timely(b, ops, start, end)
    ensures Account(ApplyAll(b, ops), start, Capacity(b), Granted(b, ops), Released(ops))
    ensures ApplyAll(b, ops).rate == b.rate && ApplyAll(b, ops).lastRefill <= end
  {
    if ops == [] {
      MulMonotone(0, Max(0, b.lastRefill - start), b.rate);
    } else {
      var front, op := ops[..|ops| - 1], ops[|ops| - 1];
      GrantsAreCovered(b, front, start, end);
      if !op.Release? {
        RefillKeepsAccount(
          ApplyAll(b, front), start, Capacity(b), Granted(b, front), Released(front), op.now);
      }
    }
  }

  /** In any interval of `d` milliseconds at most `A + A * d / 1000` tokens beyond the releases are granted. */
  lemma GrantsInInterval(b: Bucket, ops: seq<Op>, start: int, d: nat)
    requires Sound(b) && b.lastRefill <= start && Timely(b, ops, start, start + d)
    ensures Granted(b, ops) <= Capacity(b) + b.rate * d + Released(ops)
    ensures 0 <= ApplyAll(b, ops).tokens <= Capacity(b)
  {
    GrantsAreCovered(b, ops, start, start + d);
    var r := ApplyAll(b, ops);
    MulMonotone(Max(0, r.lastRefill - start), d, b.rate);
  }
}

module CapacityReservations {
  import opened Arithmetic
  import opened Wrappers
  import opened CapacitySteps

  class CapacityReservation {
    const totalRatePerSecond: int
    const reservedForLive: int
    const availableForBackfill: int
    var currentBackfillUsage: int
    var backfillTokens: int
    var lastRefill: int

    constructor (totalRatePerSecond: int, reservedForLive: int, now: int)
      requires reservedForLive <= totalRatePerSecond
      ensures this.totalRatePerSecond == totalRatePerSecond && this.reservedForLive == reservedForLive
      ensures availableForBackfill == totalRatePerSecond - reservedForLive
      ensures View() == Bucket(availableForBackfill, 1000 * availableForBackfill, 0, now) && Sound(View())
    {
      this.totalRatePerSecond, this.reservedForLive := totalRatePerSecond, reservedForLive;
      availableForBackfill := totalRatePerSecond - reservedForLive;
      currentBackfillUsage := 0;
      backfillTokens := 1000 * (totalRatePerSecond - reservedForLive);
      lastRefill := now;
    }

    /** The constructor of the source, which throws when too much is reserved. */
    static method Create(totalRatePerSecond: int, reservedForLive: int, now: int)
      returns (r: Option<CapacityReservation>)
      ensures r.Some? <==> reservedForLive <= totalRatePerSecond
      ensures r.Some? ==>
        && fresh(r.value)
        && r.value.View() == Bucket(
          totalRatePerSecond - reservedForLive, 1000 * (totalRatePerSecond - reservedForLive), 0, now)
        && Sound(r.value.View())
    {
      if reservedForLive > totalRatePerSecond {
        return None;
      }
      var c := new CapacityReservation(totalRatePerSecond, reservedForLive, now);
      r := Some(c);
    }

    function View(): Bucket
      reads this
    {
      Bucket(availableForBackfill, backfillTokens, currentBackfillUsage, lastRefill)
    }

    method RefillNow(now: int)
      modifies this`backfillTokens, this`lastRefill
      ensures View() == Refill(old(View()), now)
    {
      var refillAmount := (now - lastRefill) * availableForBackfill;
      backfillTokens := Min(backfillTokens + refillAmount, 1000 * availableForBackfill);
      lastRefill := now;
    }

    method TryAcquire(amount: int, now: int) returns (granted: bool)
      modifies this`backfillTokens, this`lastRefill, this`currentBackfillUsage
      ensures granted <==> CanTake(old(View()), now, amount)
      ensures View() == Take(old(View()), now, amount)
    {
      RefillNow(now);
      if amount <= backfillTokens {
        backfillTokens := backfillTokens - amount;
        currentBackfillUsage := currentBackfillUsage + amount;
        return true;
      }
      granted := false;
    }

    method Release(amount: int)
      modifies this`backfillTokens, this`currentBackfillUsage
      ensures View() == GiveBack(old(View()), amount)
    {
      backfillTokens := Min(backfillTokens + amount, 1000 * availableForBackfill);
      currentBackfillUsage := Max(0, currentBackfillUsage - amount);
    }

    /** Whole tokens available, rounded down. */
    method AvailableTokens(now: int) returns (n: int)
      modifies this`backfillTokens, this`lastRefill
      ensures View() == Refill(old(View()), now)
      ensures 1000 * n <= View().tokens < 1000 * (n + 1)
    {
      RefillNow(now);
      n := backfillTokens / 1000;
    }

    method WaitTimeMs(amount: int, now: int) returns (w: Wait)
      requires availableForBackfill >= 0
      modifies this`backfillTokens, this`lastRefill
      ensures View() == Refill(old(View()), now)
      ensures w == WaitFor(old(View()), now, amount)
      ensures Sound(old(View())) && now >= old(lastRefill) && amount <= 1000 * availableForBackfill ==>
        IsLeastWait(old(View()), now, amount, w)
    {
      ghost var before := View();
      RefillNow(now);
      if Sound(before) && now >= before.lastRefill && amount <= 1000 * availableForBackfill {
        WaitIsLeastIff(before, now, amount);
      }
      if amount <= backfillTokens {
        return Ms(0);
      }
      var deficit := amount - backfillTokens;
      w := if availableForBackfill > 0 then Ms(CeilDiv(deficit, availableForBackfill)) else Never;
    }
  }
}
