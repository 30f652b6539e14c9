/** The retry budget in runs of the machine, where a failed dispatch works on the row its token carries. */
module RetryRuns {
  import opened Rows
  import opened Retry
  import opened Lifecycle
  import opened LifecycleSafety

  /** All that a failure reads. */
  predicate SameCounters(a: Task, b: Task) {
    && a.failureCount == b.failureCount && a.retryCount == b.retryCount
    && a.maxRetries == b.maxRetries && a.exponential == b.exponential
  }

  /** The rows that tokens of an undisturbed task carry have the counters of its row. */
  ghost predicate Snapshots(s: Sys, i: Uuid) {
    Quiet(s, i) ==>
      forall t :: t in s.flight.tokens && t.task == i && (t.Hook? || t.Job?) ==> SameCounters(t.row, s.tasks[i])
  }

  // ----- Snapshots are current -----

  lemma EditKeepsCounters(s: Sys, step: Step, i: Uuid)
    requires Named(s, step) && EditOf(s, step).Some? && i in s.tasks
    requires !OwnWrite(s, step, i) && i !in WrittenFromOutside(s, step)
    ensures SameCounters(s.tasks[i], TasksAfter(s, step)[i])
  {
    EditsAreAccounted(s, step);
  }

  lemma CountersFrame(s: Sys, step: Step, i: Uuid)
    requires Named(s, step) && i in s.tasks && i in TasksAfter(s, step) && !(step.Create? && step.id == i)
    requires !OwnWrite(s, step, i) && i !in WrittenFromOutside(s, step)
    ensures SameCounters(s.tasks[i], TasksAfter(s, step)[i])
  {
    if EditOf(s, step).Some? {
      EditKeepsCounters(s, step, i);
    }
  }

  /** An execution that ends with this step leaves none behind. */
  lemma NoTokenLeft(s: Sys, step: Step, i: Uuid, t: Token)
    requires Timed(s.flight, s.now) && Exclusive(s, i) && Quiet(s, i) && Enabled(s, step)
    requires i !in FlightAfter(s, step).late && t in FlightAfter(s, step).tokens && t.task == i
    ensures !OwnWrite(s, step, i)
  {
    OutstandingAfter(s, step, i);
    var tokens := FlightAfter(s, step).tokens;
    var k :| 0 <= k < |tokens| && tokens[k] == t;
    CountPositive(tokens, k, InFlight, i);
  }

  lemma OldTokenCounts(s: Sys, t: Token, i: Uuid)
    requires t in s.flight.tokens && t.task == i
    ensures Outstanding(s.flight, i) > 0
  {
    var k :| 0 <= k < |s.flight.tokens| && s.flight.tokens[k] == t;
    CountPositive(s.flight.tokens, k, InFlight, i);
  }

  lemma TokenStaysCurrent(s: Sys, step: Step, i: Uuid, t: Token)
    requires Timed(s.flight, s.now) && Exclusive(s, i) && Snapshots(s, i) && Enabled(s, step)
    requires Quiet(Apply(s, step), i) && i in s.tasks
    requires t in FlightAfter(s, step).tokens && t.task == i && (t.Hook? || t.Job?)
    ensures SameCounters(t.row, TasksAfter(s, step)[i])
  {
    QuietBefore(s, step, i);
    NoTokenLeft(s, step, i, t);
    Origins(s, step, t);
    if step.ClaimByHook? && step.id == i {
      assert i !in WrittenFromOutside(s, step);
    } else if t in s.flight.tokens {
      OldTokenCounts(s, t, i);
    } else if step.Accept? && Hook(t.task, t.row) in s.flight.tokens {
      OldTokenCounts(s, Hook(t.task, t.row), i);
    }
    CountersFrame(s, step, i);
  }

  lemma SnapshotsStay(s: Sys, step: Step, i: Uuid)
    requires Timed(s.flight, s.now) && Exclusive(s, i) && Snapshots(s, i) && Enabled(s, step)
    ensures Snapshots(Apply(s, step), i)
  {
    if Quiet(Apply(s, step), i) {
      forall t | t in FlightAfter(s, step).tokens && t.task == i && (t.Hook? || t.Job?)
        ensures SameCounters(t.row, TasksAfter(s, step)[i])
      {
        if i in s.tasks {
          TokenStaysCurrent(s, step, i, t);
        } else {
          FreshIsQuiet(s, step, i);
          OldTokenCounts(s, t, i);
        }
      }
    }
  }

  ghost predicate Sound(s: Sys, i: Uuid) {
    Safe(s, i, Edge(i, i)) && Snapshots(s, i)
  }

  lemma StaysSound(s: Sys, step: Step, i: Uuid)
    requires Sound(s, i) && Enabled(s, step)
    ensures Sound(Apply(s, step), i)
  {
    StaysSafe(s, step, i, Edge(i, i));
    SnapshotsStay(s, step, i);
  }

  lemma {:induction false} SoundThroughout(s: Sys, steps: seq<Step>, i: Uuid)
    requires Sound(s, i) && IsRun(s, steps)
    ensures Sound(After(s, steps), i)
    decreases |steps|
  {
    if steps != [] {
      StaysSound(s, steps[0], i);
      SoundThroughout(Apply(s, steps[0]), steps[1..], i);
    }
  }

  lemma AlwaysSound(now: int, steps: seq<Step>, i: Uuid)
    requires IsRun(Initial(now), steps)
    ensures Sound(After(Initial(now), steps), i)
  {
    AlwaysSafe(now, [], i, Edge(i, i));
    SoundThroughout(Initial(now), steps, i);
  }

  // ----- Failures in a run -----

  /** A dispatch of task i that passed its gate fails. */
  predicate Fails(s: Sys, step: Step, i: Uuid)
    requires Named(s, step)
  {
    && step.Dispatch? && step.outcome.Failed?
    && s.flight.tokens[step.index].task == i && GatePassed(s.flight.tokens[step.index].row)
  }

  function DeadLetters(s: Sys, i: Uuid): nat { multiset(s.dlq)[i] }

  /** In every reachable state of an undisturbed task, a failed dispatch does to its row, as it is now, what the retry
      model says, whatever happened since the token was issued. */
  lemma FailureUsesCurrentRow(now: int, steps: seq<Step>, step: Step, i: Uuid)
    requires IsRun(Initial(now), steps) && Quiet(After(Initial(now), steps), i)
    requires Enabled(After(Initial(now), steps), step) && Fails(After(Initial(now), steps), step, i)
    ensures var s := After(Initial(now), steps);
            && i in TasksAfter(s, step)
            && TasksAfter(s, step)[i] == FailAt(Failing(s.tasks[i], 0), s.now).row
            && DeadLetters(Apply(s, step), i) == DeadLetters(s, i) + FailAt(Failing(s.tasks[i], 0), s.now).dlq
  {
    AlwaysSound(now, steps, i);
    FailsOnItsRow(After(Initial(now), steps), step, i);
  }

  lemma FailsOnItsRow(s: Sys, step: Step, i: Uuid)
    requires Snapshots(s, i) && Quiet(s, i) && Enabled(s, step) && Fails(s, step, i)
    ensures i in TasksAfter(s, step) && TasksAfter(s, step)[i] == FailAt(Failing(s.tasks[i], 0), s.now).row
    ensures DeadLetters(Apply(s, step), i) == DeadLetters(s, i) + FailAt(Failing(s.tasks[i], 0), s.now).dlq
  {
    var t := s.flight.tokens[step.index];
    assert t in s.flight.tokens;
  }

  /** The task exists throughout and never completes. */
  ghost predicate NeverCompletes(s: Sys, steps: seq<Step>, i: Uuid)
    requires IsRun(s, steps)
    decreases |steps|
  {
    && i in s.tasks
    && (steps == [] ||
        (&& !CompletesTask(s, steps[0], i)
         && NeverCompletes(Apply(s, steps[0]), steps[1..], i)))
  }

  ghost function FailuresIn(s: Sys, steps: seq<Step>, i: Uuid): nat
    requires IsRun(s, steps)
    decreases |steps|
  {
    if steps == [] then 0
    else (if Fails(s, steps[0], i) then 1 else 0) + FailuresIn(Apply(s, steps[0]), steps[1..], i)
  }

  lemma {:induction false} QuietFromStart(s: Sys, steps: seq<Step>, i: Uuid)
    requires IsRun(s, steps) && NeverCompletes(s, steps, i) && Quiet(After(s, steps), i)
    ensures Quiet(s, i)
    decreases |steps|
  {
    if steps != [] {
      QuietFromStart(Apply(s, steps[0]), steps[1..], i);
      QuietBefore(s, steps[0], i);
    }
  }

  predicate SameRetries(before: Tasks, after: Tasks, i: Uuid) {
    i in before && i in after ==>
      after[i].retryCount == before[i].retryCount && after[i].maxRetries == before[i].maxRetries
  }

  predicate CompletesTask(s: Sys, step: Step, i: Uuid)
    requires Named(s, step)
  {
    Completing(s, step).Some? && Completing(s, step).value.id == i
  }

  lemma EditKeepsRetries(s: Sys, step: Step, i: Uuid)
    requires Named(s, step) && EditOf(s, step).Some? && !CompletesTask(s, step, i)
    ensures SameRetries(s.tasks, TasksAfter(s, step), i)
  {
  }

  lemma RoutingKeepsRetries(tasks: Tasks, router: Uuid, dependents: seq<Branching>, key: string, target: Uuid, now: int,
                            i: Uuid)
    ensures SameRetries(tasks, RouteTasks(tasks, router, dependents, key, now), i)
    ensures SameRetries(tasks, RouteByHand(tasks, router, target, now), i)
  {
  }

  lemma BulkKeepsRetries(tasks: Tasks, before: int, worker: string, id: Uuid, i: Uuid)
    ensures SameRetries(tasks, Reaped(tasks, before), i) && SameRetries(tasks, Reverted(tasks, worker), i)
    ensures SameRetries(tasks, DeleteRow(tasks, id), i) && SameRetries(tasks, CountFailure(tasks, id), i)
  {
  }

  lemma OthersFailureKeepsRetries(tasks: Tasks, id: Uuid, row: Task, now: int, i: Uuid)
    requires id != i
    ensures SameRetries(tasks, FailDispatch(tasks, id, row, now), i)
  {
  }

  /** Nothing but failures and completions writes the retry counter, and nothing writes its limit. */
  lemma OtherStepsKeepRetries(s: Sys, step: Step, i: Uuid)
    requires Enabled(s, step) && i in s.tasks && !Fails(s, step, i) && !CompletesTask(s, step, i)
    ensures SameRetries(s.tasks, TasksAfter(s, step), i)
  {
    if EditOf(s, step).Some? {
      EditKeepsRetries(s, step, i);
    } else {
      match step
      case RouterEnd(k, Choice(key)) =>
        RoutingKeepsRetries(s.tasks, s.routers[k].task, s.routers[k].dependents, key, NIL, s.now, i);
      case ManualRoute(source, target, _) => RoutingKeepsRetries(s.tasks, source, [], "", target, s.now, i);
      case Dispatch(k, Failed) =>
        OthersFailureKeepsRetries(s.tasks, s.flight.tokens[k].task, s.flight.tokens[k].row, s.now, i);
      case Finish(k, _) => BulkKeepsRetries(s.tasks, 0, "", s.flight.tokens[k].task, i);
      case Delete(id, _) => BulkKeepsRetries(s.tasks, 0, "", id, i);
      case Reap(before) => BulkKeepsRetries(s.tasks, before, "", NIL, i);
      case Revert(worker) => BulkKeepsRetries(s.tasks, 0, worker, NIL, i);
      case _ =>
    }
  }

  lemma OtherStepsKeepDeadLetters(s: Sys, step: Step, i: Uuid)
    requires Named(s, step) && !Fails(s, step, i)
    ensures DeadLetters(Apply(s, step), i) == DeadLetters(s, i)
  {
  }

  /** How many of the retry counts after `from` up to `to` exceed the limit. */
  function Beyond(from: int, to: int, limit: int): int {
    (if to > limit then to - limit else 0) - (if from > limit then from - limit else 0)
  }

  lemma FailureCounts(row: Task, now: int)
    requires 0 <= row.retryCount < MAX_INT
    ensures var s := FailAt(Failing(row, 0), now);
            && s.row.retryCount == row.retryCount + 1 && s.row.maxRetries == row.maxRetries
            && s.dlq == Beyond(row.retryCount, row.retryCount + 1, RetryLimit(row.maxRetries))
  {
  }

  /** From `before` to `after` the task has failed n times. */
  predicate Counted(before: Sys, after: Sys, n: nat, i: Uuid) {
    && i in before.tasks && i in after.tasks
    && var row, row' := before.tasks[i], after.tasks[i];
       && row'.maxRetries == row.maxRetries && row'.retryCount == row.retryCount + n
       && DeadLetters(after, i)
          == DeadLetters(before, i) + Beyond(row.retryCount, row'.retryCount, RetryLimit(row.maxRetries))
  }

  lemma CountsCompose(a: Sys, b: Sys, c: Sys, m: nat, n: nat, i: Uuid)
    requires Counted(a, b, m, i) && Counted(b, c, n, i)
    ensures Counted(a, c, m + n, i)
  {
  }

  lemma FailingStep(s: Sys, step: Step, i: Uuid)
    requires Snapshots(s, i) && Quiet(s, i) && Enabled(s, step) && Fails(s, step, i)
    requires 0 <= s.tasks[i].retryCount < MAX_INT
    ensures Counted(s, Apply(s, step), 1, i)
  {
    FailsOnItsRow(s, step, i);
    FailureCounts(s.tasks[i], s.now);
  }

  lemma OtherStep(s: Sys, step: Step, i: Uuid)
    requires Enabled(s, step) && i in s.tasks && i in TasksAfter(s, step)
    requires !Fails(s, step, i) && !CompletesTask(s, step, i)
    ensures Counted(s, Apply(s, step), 0, i)
  {
    OtherStepsKeepRetries(s, step, i);
    OtherStepsKeepDeadLetters(s, step, i);
  }

  lemma RetriesStep(s: Sys, step: Step, i: Uuid)
    requires Snapshots(s, i) && Quiet(s, i) && Enabled(s, step) && i in TasksAfter(s, step) && !CompletesTask(s, step, i)
    requires 0 <= s.tasks[i].retryCount && (Fails(s, step, i) ==> s.tasks[i].retryCount < MAX_INT)
    ensures Counted(s, Apply(s, step), if Fails(s, step, i) then 1 else 0, i)
  {
    if Fails(s, step, i) {
      FailingStep(s, step, i);
    } else {
      OtherStep(s, step, i);
    }
  }

  lemma {:induction false} RetriesAddUp(s: Sys, steps: seq<Step>, i: Uuid)
    requires Sound(s, i) && IsRun(s, steps) && NeverCompletes(s, steps, i) && Quiet(After(s, steps), i)
    requires 0 <= s.tasks[i].retryCount && s.tasks[i].retryCount + FailuresIn(s, steps, i) <= MAX_INT
    ensures Counted(s, After(s, steps), FailuresIn(s, steps, i), i)
    decreases |steps|
  {
    if steps != [] {
      var s', rest := Apply(s, steps[0]), steps[1..];
      QuietFromStart(s, steps, i);
      StaysSound(s, steps[0], i);
      RetriesStep(s, steps[0], i);
      RetriesAddUp(s', rest, i);
      CountsCompose(s, s', After(s', rest), if Fails(s, steps[0], i) then 1 else 0, FailuresIn(s', rest, i), i);
    }
  }

  /** In any run of the machine, from a state in which an undisturbed task has its whole budget M and for as long as it
      does not complete: the retry counter is the number n of its failed dispatches, and exactly n - M of them, those
      beyond the budget, are dead letters. */
  lemma BudgetInRuns(now: int, before: seq<Step>, steps: seq<Step>, i: Uuid)
    requires IsRun(Initial(now), before) && IsRun(After(Initial(now), before), steps)
    requires NeverCompletes(After(Initial(now), before), steps, i) && Quiet(After(After(Initial(now), before), steps), i)
    requires After(Initial(now), before).tasks[i].retryCount == 0
    requires Countable(After(Initial(now), before).tasks[i].maxRetries)
    requires FailuresIn(After(Initial(now), before), steps, i) <= MAX_INT
    ensures var s := After(Initial(now), before);
            var n, after, limit := FailuresIn(s, steps, i), After(s, steps), RetryLimit(s.tasks[i].maxRetries);
            && i in after.tasks && after.tasks[i].retryCount == n
            && DeadLetters(after, i) == DeadLetters(s, i) + (if n > limit then n - limit else 0)
  {
    AlwaysSound(now, before, i);
    RetriesAddUp(After(Initial(now), before), steps, i);
  }
}
