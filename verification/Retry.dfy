/** Retry, backoff and dead-letter handling of a failed dispatch (scheduler.go), on the row it writes. */
module Retry {
  import opened Rows

  /** max_retries 0 stands for 3. */
  function RetryLimit(maxRetries: int): int {
    if maxRetries == 0 then 3 else maxRetries
  }

  function Pow2(k: nat): (p: nat)
    ensures p > 0
  {
    if k == 0 then 1 else 2 * Pow2(k - 1)
  }

  /** Go's `1 << k` on a 64-bit int. */
  function ShiftOne(k: nat): int {
    if k < 63 then Pow2(k) else if k == 63 then -0x8000_0000_0000_0000 else 0
  }

  /** Go refuses to shift by a negative count; 0 stands in for it. */
  function BackoffMinutes(retry: int, exponential: bool): int {
    if exponential then ShiftOne(if retry < 0 then 0 else retry) else 2 * retry
  }

  /** `time.Duration(minutes) * time.Minute`: 64-bit nanoseconds. */
  function Backoff(retry: int, exponential: bool): int {
    Wrap64(BackoffMinutes(retry, exponential) * MINUTE)
  }

  /** Whether the failure recorded by `snapshot` is the one that sends the task to the dead-letter queue. */
  predicate Exhausts(snapshot: Task) {
    Wrap32(snapshot.retryCount + 1) > RetryLimit(snapshot.maxRetries)
  }

  /** The row after a failed dispatch at time `now`: two UPDATEs when it is rescheduled, one when it is given up.
      The counters come from the row the dispatch read. */
  function FailRow(row: Task, snapshot: Task, now: int): Task {
    var failures, retry := Wrap32(snapshot.failureCount + 1), Wrap32(snapshot.retryCount + 1);
    if Exhausts(snapshot) then
      SetCounters(Error, failures, retry).On(row)
    else
      SetNextRun(Active, now + Backoff(retry, snapshot.exponential))
      .On(SetCounters(Active, failures, retry).On(row))
  }

  function FailDispatch(tasks: Tasks, id: Uuid, snapshot: Task, now: int): Tasks {
    if id in tasks then tasks[id := FailRow(tasks[id], snapshot, now)] else tasks
  }

  /** One task whose every dispatch fails, the k-th at `times[k]`; `dlq` counts its dead-letter rows. */
  datatype Failing = Failing(row: Task, dlq: nat)

  function FailAt(s: Failing, now: int): Failing {
    Failing(FailRow(s.row, s.row, now), if Exhausts(s.row) then s.dlq + 1 else s.dlq)
  }

  function FailAll(s: Failing, times: seq<int>): Failing {
    if times == [] then s else FailAt(FailAll(s, times[..|times| - 1]), times[|times| - 1])
  }

  /** The budgets a 32-bit counter can count past. */
  predicate Countable(maxRetries: int) {
    0 <= maxRetries < 0x7fff_ffff
  }

  lemma WithinBudget(s: Failing, now: int)
    requires 0 <= s.row.retryCount < RetryLimit(s.row.maxRetries) && Countable(s.row.maxRetries)
    ensures var s' := FailAt(s, now);
            && s'.dlq == s.dlq && s'.row.retryCount == s.row.retryCount + 1
            && s'.row.maxRetries == s.row.maxRetries && s'.row.exponential == s.row.exponential
            && s'.row.status == Active && s'.row.lockedBy == None
            && s'.row.nextRun == now + Backoff(s.row.retryCount + 1, s.row.exponential)
  {
  }

  /** Up to the limit every failure reschedules: the counter grows by one, its distance to the limit shrinks. */
  lemma {:induction false} Reschedules(start: Task, times: seq<int>)
    requires start.retryCount == 0 && Countable(start.maxRetries)
    requires |times| <= RetryLimit(start.maxRetries)
    ensures var s := FailAll(Failing(start, 0), times);
            && s.dlq == 0
            && s.row.retryCount == |times|
            && s.row.maxRetries == start.maxRetries && s.row.exponential == start.exponential
            && (times != [] ==>
                  && s.row.status == Active && s.row.lockedBy == None
                  && s.row.nextRun == times[|times| - 1] + Backoff(|times|, start.exponential))
  {
    if times != [] {
      Reschedules(start, times[..|times| - 1]);
      WithinBudget(FailAll(Failing(start, 0), times[..|times| - 1]), times[|times| - 1]);
    }
  }

  /** Rescheduled after each of the first RetryLimit failures. */
  lemma EveryRetryReschedules(start: Task, times: seq<int>, k: nat)
    requires start.retryCount == 0 && Countable(start.maxRetries)
    requires 0 < k <= RetryLimit(start.maxRetries) && k <= |times|
    ensures var s := FailAll(Failing(start, 0), times[..k]);
            && s.row.status == Active && s.row.lockedBy == None && s.dlq == 0
            && s.row.nextRun == times[k - 1] + Backoff(k, start.exponential)
  {
    Reschedules(start, times[..k]);
  }

  lemma LastFailure(s: Failing, now: int)
    requires Countable(s.row.maxRetries) && s.row.retryCount == RetryLimit(s.row.maxRetries)
    ensures FailAt(s, now).row.status == Error && FailAt(s, now).dlq == s.dlq + 1
  {
  }

  /** Then Error, with exactly one dead-letter row. */
  lemma RetryBudget(start: Task, times: seq<int>, last: int)
    requires start.retryCount == 0 && Countable(start.maxRetries)
    requires |times| == RetryLimit(start.maxRetries)
    ensures FailAll(Failing(start, 0), times + [last]).row.status == Error
    ensures FailAll(Failing(start, 0), times + [last]).dlq == 1
  {
    Reschedules(start, times);
    assert (times + [last])[..|times|] == times;
    LastFailure(FailAll(Failing(start, 0), times), last);
  }

  /** A success at any point gives the whole budget back. */
  lemma CompletionRestoresBudget(row: Task, next: int, status: Status, now: int, times: seq<int>, last: int)
    requires Countable(row.maxRetries) && |times| == RetryLimit(row.maxRetries)
    ensures FailAll(Failing(CompleteTask(next, status, now).On(row), 0), times + [last]).dlq == 1
    ensures FailAll(Failing(CompleteTask(next, status, now).On(row), 0), times).dlq == 0
  {
    RetryBudget(CompleteTask(next, status, now).On(row), times, last);
    Reschedules(CompleteTask(next, status, now).On(row), times);
  }

  /** A negative budget is none at all, and the one budget the counter cannot pass never runs out. */
  lemma UncountableBudgets(row: Task)
    requires row.maxRetries < 0 && row.retryCount == 0
    ensures FailAt(Failing(row, 0), 0).dlq == 1
    ensures !Exhausts(row.(maxRetries := 0x7fff_ffff, retryCount := 0x7fff_ffff))
  {
  }

  function TotalBackoff(retries: nat, exponential: bool): int {
    if retries == 0 then 0 else TotalBackoff(retries - 1, exponential) + Backoff(retries, exponential)
  }

  /** What the delays are meant to add up to, in minutes. */
  function IntendedMinutes(retries: nat, exponential: bool): nat {
    if exponential then 2 * Pow2(retries) - 2 else retries * (retries + 1)
  }

  // The largest backoffs that 64-bit nanoseconds can hold.
  const LAST_EXPONENTIAL: nat := 27
  const LAST_LINEAR: nat := 76_861_433

  function LastExact(exponential: bool): nat {
    if exponential then LAST_EXPONENTIAL else LAST_LINEAR
  }

  lemma {:induction false} Pow2Grows(j: nat, k: nat)
    requires j <= k
    ensures Pow2(j) <= Pow2(k)
  {
    if j < k {
      Pow2Grows(j, k - 1);
    }
  }

  lemma Pow2Values()
    ensures Pow2(27) == 0x800_0000 && Pow2(28) == 0x1000_0000 && Pow2(62) == 0x4000_0000_0000_0000
  {
    assert Pow2(9) == 512;
    assert Pow2(18) == 0x4_0000;
    assert Pow2(27) == 0x800_0000;
    assert Pow2(36) == 0x10_0000_0000;
    assert Pow2(45) == 0x2000_0000_0000;
    assert Pow2(54) == 0x40_0000_0000_0000;
  }

  function Intended(retry: nat, exponential: bool): nat {
    if exponential then Pow2(retry) else 2 * retry
  }

  lemma WrapBound(x: nat)
    ensures Wrap64(x) <= x
    ensures Wrap64(x) == x <==> x < 0x8000_0000_0000_0000
  {
  }

  /** Past 62 bits the shift leaves nothing that survives the multiplication. */
  lemma ShiftedOut(retry: nat)
    requires retry >= 63
    ensures Backoff(retry, true) == 0
  {
  }

  lemma ExponentialFits(retry: nat)
    ensures Pow2(retry) * MINUTE < 0x8000_0000_0000_0000 <==> retry <= LAST_EXPONENTIAL
  {
    Pow2Values();
    if retry <= 27 {
      Pow2Grows(retry, 27);
    } else {
      Pow2Grows(28, retry);
    }
  }

  /** One delay is what was meant iff it fits; it is never longer. */
  lemma BackoffExact(retry: nat, exponential: bool)
    ensures Backoff(retry, exponential) <= Intended(retry, exponential) * MINUTE
    ensures Backoff(retry, exponential) == Intended(retry, exponential) * MINUTE <==> retry <= LastExact(exponential)
  {
    if exponential && retry >= 63 {
      ShiftedOut(retry);
    } else {
      WrapBound(Intended(retry, exponential) * MINUTE);
      ExponentialFits(retry);
    }
  }

  lemma IntendedStep(retries: nat, exponential: bool)
    requires retries > 0
    ensures IntendedMinutes(retries, exponential)
            == IntendedMinutes(retries - 1, exponential) + Intended(retries, exponential)
  {
  }

  /** Two sums, one term by term at most the other, are equal iff their terms are. */
  lemma Squeeze(a: int, b: int, intendedA: int, intendedB: int)
    requires a <= intendedA && b <= intendedB
    ensures a + b <= intendedA + intendedB
    ensures a + b == intendedA + intendedB <==> a == intendedA && b == intendedB
  {
  }

  /** The delays before the dead-letter queue add up to M(M+1) minutes, or 2^(M+1) - 2 when exponential,
      exactly as long as no single delay overflows 64-bit nanoseconds. */
  lemma {:induction false} TotalBackoffExact(retries: nat, exponential: bool)
    ensures TotalBackoff(retries, exponential) <= IntendedMinutes(retries, exponential) * MINUTE
    ensures TotalBackoff(retries, exponential) == IntendedMinutes(retries, exponential) * MINUTE
            <==> retries <= LastExact(exponential)
  {
    if retries > 0 {
      TotalBackoffExact(retries - 1, exponential);
      BackoffExact(retries, exponential);
      IntendedStep(retries, exponential);
      Squeeze(TotalBackoff(retries - 1, exponential), Backoff(retries, exponential),
              IntendedMinutes(retries - 1, exponential) * MINUTE, Intended(retries, exponential) * MINUTE);
    }
  }
}
