/** What repeated reaping does to one claimed row (scheduler.go, db/queries.sql). */
module Reaper {
  import opened Rows

  /** The reaper compares the due time of a processing row with the clock, never the time of the claim. */
  predicate Stuck(t: Task, now: int, threshold: int) {
    t.status == Processing && t.nextRun < now - threshold
  }

  /** A reap frees exactly the stuck rows and changes nothing else; afterwards none is stuck. */
  lemma ReapFreesTheStuck(tasks: Tasks, now: int, threshold: int, id: Uuid)
    requires id in tasks
    ensures var after := Reaped(tasks, now - threshold);
            && id in after && !Stuck(after[id], now, threshold)
            && (Stuck(tasks[id], now, threshold) ==> after[id] == tasks[id].(status := Active, lockedBy := None))
            && (after[id] != tasks[id] ==> Stuck(tasks[id], now, threshold))
            && after.Keys == tasks.Keys
  {
  }

  /** The table after reaps at these times, with no other statement in between. */
  function ReapAll(tasks: Tasks, times: seq<int>, threshold: int): Tasks {
    if times == [] then tasks
    else Reaped(ReapAll(tasks, times[..|times| - 1], threshold), times[|times| - 1] - threshold)
  }

  /** An abandoned row stays claimed exactly as long as every reap comes by its due time plus the threshold; the first
      later one makes it active again, and no further one changes it. */
  lemma {:induction false} AbandonedUntilThreshold(tasks: Tasks, times: seq<int>, threshold: int, id: Uuid)
    requires id in tasks && tasks[id].status == Processing
    ensures var after, last := ReapAll(tasks, times, threshold), tasks[id].nextRun + threshold;
            && id in after
            && after[id] == if forall k :: 0 <= k < |times| ==> times[k] <= last then tasks[id]
                            else tasks[id].(status := Active, lockedBy := None)
  {
    if times != [] {
      var before := times[..|times| - 1];
      AbandonedUntilThreshold(tasks, before, threshold, id);
      assert forall k :: 0 <= k < |times| ==> times[k] == if k < |before| then before[k] else times[|times| - 1];
    }
  }

  /** A row claimed `delay` after it was due keeps its lock against every reap of the next `threshold - delay`. */
  lemma ClaimKeepsLock(tasks: Tasks, id: Uuid, worker: string, delay: nat, threshold: int, times: seq<int>)
    requires id in tasks
    requires var claimed := tasks[id].nextRun + delay;
             forall k :: 0 <= k < |times| ==> claimed <= times[k] <= claimed + (threshold - delay)
    ensures var after := ReapAll(Update(tasks, id, Claim(worker)), times, threshold);
            id in after && after[id].status == Processing && after[id].lockedBy == Some(worker)
  {
    AbandonedUntilThreshold(Update(tasks, id, Claim(worker)), times, threshold, id);
  }

  /** No longer than that: a claim made more than the threshold after the due time is reaped at once. */
  lemma LateClaimReapedAtOnce(tasks: Tasks, id: Uuid, worker: string, now: int, threshold: int)
    requires id in tasks
    ensures var claimed := Update(tasks, id, Claim(worker));
            var after := Reaped(claimed, now - threshold);
            id in after && (after[id].status == Active <==> now - tasks[id].nextRun > threshold)
  {
  }
}
