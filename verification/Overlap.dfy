/**
 Exactly when a write from outside breaks what LifecycleSafety proves of undisturbed tasks, and when a connection
 samples an execution a second time.
 */
module Overlap {
  import opened Rows
  import opened Lifecycle
  import opened LifecycleSafety

  // ----- Exclusion -----

  /** Claims of a task that can happen: the scheduler's always, a webhook's only if the task has one. */
  predicate Claims(step: Step, i: Uuid, hooked: bool) {
    ClaimOf(step, i) && (step.ClaimByHook? ==> hooked)
  }

  /** One claim more, and two executions of the task are under way. */
  ghost predicate CanOverlap(s: Sys, i: Uuid, hooked: bool) {
    exists step :: Claims(step, i, hooked) && Enabled(s, step) && Outstanding(Apply(s, step).flight, i) >= 2
  }

  /** A task with a webhook can be claimed while it is active or paused; without one, when it is active and due. */
  predicate CanBeClaimed(t: Task, now: int, hooked: bool) {
    if hooked then t.status == Active || t.status == Paused else t.status == Active && t.nextRun <= now
  }

  lemma ClaimAddsOne(s: Sys, step: Step, i: Uuid, hooked: bool)
    requires Claims(step, i, hooked) && Enabled(s, step)
    ensures Outstanding(Apply(s, step).flight, i) == Outstanding(s.flight, i) + 1
    ensures CanBeClaimed(s.tasks[i], s.now, hooked)
  {
    match step
    case ClaimDue(id, worker) => LaunchMoves(s.flight, Notice(id, s.tasks[id].user, worker), i);
    case ClaimByHook(id, worker) => LaunchMoves(s.flight, Hook(id, Claim(worker).On(s.tasks[id])), i);
  }

  /** In any state: a second execution can be started next to one under way iff the row can be claimed: with a webhook,
      iff it is active or paused; without, iff it is active and due. */
  lemma OverlapIff(s: Sys, i: Uuid, hooked: bool)
    requires i in s.tasks && Outstanding(s.flight, i) >= 1
    ensures CanOverlap(s, i, hooked) <==> CanBeClaimed(s.tasks[i], s.now, hooked)
  {
    if CanBeClaimed(s.tasks[i], s.now, hooked) {
      ClaimAddsOne(s, if hooked then ClaimByHook(i, "") else ClaimDue(i, ""), i, hooked);
    }
    if CanOverlap(s, i, hooked) {
      var step :| Claims(step, i, hooked) && Enabled(s, step) && Outstanding(Apply(s, step).flight, i) >= 2;
      ClaimAddsOne(s, step, i, hooked);
    }
  }

  /** The step is a reap, a revert, a user's command, a parent's trigger, or a choice or a manual route that goes to i,
      and it writes row i. */
  predicate Hits(s: Sys, step: Step, i: Uuid)
    requires Named(s, step)
  {
    i in WrittenFromOutside(s, step) &&
    match step
    case RouterEnd(k, _) => s.routers[k].task != i
    case ManualRoute(source, _, _) => source != i
    case _ => true
  }

  /** Same approval and definition. */
  predicate SameApproval(a: Task, b: Task) {
    a.approval == b.approval && a.def == b.def
  }

  predicate Claimable(t: Task) {
    t.status == Active || t.status == Paused
  }

  lemma RoutedTarget(tasks: Tasks, router: Uuid, dependents: seq<Branching>, key: string, target: Uuid, now: int, i: Uuid)
    requires i in tasks && i != router
    ensures var k := RouteIndex(dependents, key);
            k < |dependents| && dependents[k].id == i ==>
              var after := RouteTasks(tasks, router, dependents, key, now);
              i in after && Claimable(after[i]) && SameApproval(tasks[i], after[i])
    ensures target == i ==>
              var after := RouteByHand(tasks, router, target, now);
              i in after && Claimable(after[i]) && SameApproval(tasks[i], after[i])
  {
  }

  lemma FreedRow(tasks: Tasks, before: int, worker: string, i: Uuid)
    requires i in tasks
    ensures var after := Reaped(tasks, before); after[i] == tasks[i] || (Claimable(after[i]) && SameApproval(tasks[i], after[i]))
    ensures var after := Reverted(tasks, worker); after[i] == tasks[i] || (Claimable(after[i]) && SameApproval(tasks[i], after[i]))
  {
  }

  /** Hits that keep the approval status of the row. */
  predicate KeepsApproval(step: Step) {
    !step.Approve? && !step.Deny?
  }

  /** A single UPDATE among the hits. */
  lemma HitByEdit(s: Sys, step: Step, i: Uuid)
    requires Named(s, step) && EditOf(s, step).Some? && Hits(s, step, i)
    ensures EditOf(s, step).value.id == i
    ensures match EditOf(s, step).value.statement
            case SetStatus(status) => status == Active || status == Paused
            case ResetFailures(status) => status == Active
            case SetNextRun(status, _) => status == Active
            case SetApproval(_, status) => !KeepsApproval(step) && (status == Active || status == Paused)
            case _ => false
  {
  }

  lemma HitRow(s: Sys, step: Step, i: Uuid)
    requires Named(s, step) && Hits(s, step, i) && i in s.tasks
    ensures i in TasksAfter(s, step) && Claimable(TasksAfter(s, step)[i])
    ensures KeepsApproval(step) ==> SameApproval(s.tasks[i], TasksAfter(s, step)[i])
  {
    if EditOf(s, step).Some? {
      HitByEdit(s, step, i);
    } else {
      match step
      case RouterEnd(k, Choice(key)) => RoutedTarget(s.tasks, s.routers[k].task, s.routers[k].dependents, key, NIL, s.now, i);
      case ManualRoute(source, target, _) => RoutedTarget(s.tasks, source, [], "", target, s.now, i);
      case Reap(before) => FreedRow(s.tasks, before, "", i);
      case Revert(worker) => FreedRow(s.tasks, 0, worker, i);
      case _ =>
    }
  }

  /** Whatever hits a row leaves it in a status from which it can be claimed, and its executions under way. */
  lemma HitRowsAreClaimable(s: Sys, step: Step, i: Uuid)
    requires Named(s, step) && Hits(s, step, i) && i in s.tasks
    ensures i in TasksAfter(s, step)
    ensures TasksAfter(s, step)[i].status == Active || TasksAfter(s, step)[i].status == Paused
    ensures FlightAfter(s, step) == s.flight
  {
    HitRow(s, step, i);
  }

  /** In every reachable state of an undisturbed task: a hit makes an overlap possible iff an execution is under way and
      the hit leaves the row one that can be claimed; with a webhook it always does. */
  lemma HitsOpenOverlap(now: int, steps: seq<Step>, step: Step, i: Uuid, hooked: bool)
    requires IsRun(Initial(now), steps) && Quiet(After(Initial(now), steps), i)
    requires Enabled(After(Initial(now), steps), step) && Hits(After(Initial(now), steps), step, i)
    requires i in TasksAfter(After(Initial(now), steps), step)
    ensures var s := After(Initial(now), steps);
            && (CanOverlap(Apply(s, step), i, hooked)
                <==> Outstanding(s.flight, i) > 0 && CanBeClaimed(TasksAfter(s, step)[i], Apply(s, step).now, hooked))
            && CanBeClaimed(TasksAfter(s, step)[i], Apply(s, step).now, true)
  {
    var s := After(Initial(now), steps);
    HitRowsAreClaimable(s, step, i);
    if Outstanding(s.flight, i) > 0 {
      OverlapIff(Apply(s, step), i, hooked);
    } else if CanOverlap(Apply(s, step), i, hooked) {
      var claim :| Claims(claim, i, hooked) && Enabled(Apply(s, step), claim)
                   && Outstanding(Apply(Apply(s, step), claim).flight, i) >= 2;
      ClaimAddsOne(Apply(s, step), claim, i, hooked);
    }
  }

  // ----- The approval gate -----

  /** The task's webhook claims the row, and its dispatch starts. */
  ghost function Reclaimed(s: Sys, i: Uuid, worker: string): Sys
    requires i in s.tasks
  {
    var claimed := Apply(s, ClaimByHook(i, worker));
    Apply(claimed, Accept(|s.flight.tokens|))
  }

  lemma ReclaimedCounts(s: Sys, i: Uuid, worker: string)
    requires i in s.tasks
    ensures var s' := Reclaimed(s, i, worker);
            && PastTheGate(s'.flight, i) == PastTheGate(s.flight, i) + (if GatePassed(s.tasks[i]) then 1 else 0)
            && s'.approvals == s.approvals && s'.completions == s.completions
  {
    var f, row := s.flight, Claim(worker).On(s.tasks[i]);
    var c := Apply(s, ClaimByHook(i, worker));
    assert c.flight == Launch(f, Hook(i, row));
    assert AcceptToken(c, |f.tokens|).tokens == f.tokens + [Job(i, row, Exec(i, c.now))];
    CountAppend(f.tokens, Job(i, row, Exec(i, c.now)), PastGate, i);
  }

  ghost predicate Covered(s: Sys, i: Uuid) {
    Get(s.completions, i) + PastTheGate(s.flight, i) <= Get(s.approvals, i)
  }

  /** In any state in which approvals still cover a task that can be claimed: its next claim breaks the bound iff the
      row is approved and no approval is to spare. */
  lemma ReclaimBreaksCoverIff(s: Sys, i: Uuid, worker: string)
    requires i in s.tasks && s.tasks[i].def.requiresApproval && Covered(s, i)
    requires s.tasks[i].status == Active || s.tasks[i].status == Paused
    ensures Enabled(s, ClaimByHook(i, worker)) && Enabled(Apply(s, ClaimByHook(i, worker)), Accept(|s.flight.tokens|))
    ensures !Covered(Reclaimed(s, i, worker), i)
            <==> s.tasks[i].approval == Approved
                 && Get(s.completions, i) + PastTheGate(s.flight, i) == Get(s.approvals, i)
  {
    ReclaimedCounts(s, i, worker);
  }

  /** In every reachable state of an undisturbed task that needs approval and has passed its gate: a hit other than an
      approval or a denial lets the next claim run on the same approval, and breaks the bound iff none is to spare. */
  lemma HitsReopenGate(now: int, steps: seq<Step>, step: Step, i: Uuid, worker: string)
    requires IsRun(Initial(now), steps) && Quiet(After(Initial(now), steps), i)
    requires After(Initial(now), steps).tasks[i].def.requiresApproval
    requires PastTheGate(After(Initial(now), steps).flight, i) > 0
    requires Enabled(After(Initial(now), steps), step) && Hits(After(Initial(now), steps), step, i) && KeepsApproval(step)
    ensures var s := After(Initial(now), steps);
            && i in Apply(s, step).tasks
            && PastTheGate(Reclaimed(Apply(s, step), i, worker).flight, i) == PastTheGate(s.flight, i) + 1
            && (!Covered(Reclaimed(Apply(s, step), i, worker), i)
                <==> Get(s.completions, i) + PastTheGate(s.flight, i) == Get(s.approvals, i))
  {
    var s := After(Initial(now), steps);
    AlwaysSafe(now, steps, i, Edge(i, i));
    KindsNest(s.flight.tokens, i);
    OneExecutionAtATime(now, steps, i);
    ApprovalPaysForExecution(now, steps, i);
    HitRowsAreClaimable(s, step, i);
    HitRow(s, step, i);
    ReclaimedCounts(Apply(s, step), i, worker);
  }

  // ----- Requests to the LLM -----

  /** What an attempt asks: a router all it has to, whatever the clock and the lock say; any other task once, and only if
      nobody holds the execution's lock. */
  function Asked(s: Sys, e: Exec, requests: nat): nat {
    if e.task !in s.tasks then 0
    else if IsRouter(s.tasks[e.task].def) then requests
    else if e in s.flight.locks && s.now < s.flight.locks[e] then 0
    else 1
  }

  lemma TakeAsks(f: Flight, e: Exec, now: int)
    ensures var f' := Take(f, e, now);
            && Get(f'.samplings, e.task) == Get(f.samplings, e.task) + (if e in f.locks && now < f.locks[e] then 0 else 1)
            && f'.published == f.published && f'.claims == f.claims
  {
  }

  lemma AttemptAsks(s: Sys, e: Exec, dependents: seq<Branching>, requests: nat)
    ensures var f := FlightAfter(s, Attempt(e, dependents, requests));
            && Get(f.samplings, e.task) == Get(s.flight.samplings, e.task) + Asked(s, e, requests)
            && f.published == s.flight.published && f.claims == s.flight.claims
  {
    if e.task in s.tasks && !IsRouter(s.tasks[e.task].def) {
      TakeAsks(s.flight, e, s.now);
    }
  }

  /** In every reachable state: an attempt on a sampled execution samples it again iff it comes at or after the lock's
      expiry, which is never before LOCK_TTL after the dispatch. */
  lemma SamplesAgainIff(now: int, steps: seq<Step>, e: Exec, dependents: seq<Branching>, requests: nat)
    requires IsRun(Initial(now), steps)
    requires var s := After(Initial(now), steps);
             && Enabled(s, Attempt(e, dependents, requests)) && e in s.flight.locks
             && e.task in s.tasks && !IsRouter(s.tasks[e.task].def)
    ensures var s := After(Initial(now), steps);
            var f := Apply(s, Attempt(e, dependents, requests)).flight;
            && (Get(f.samplings, e.task) == Get(s.flight.samplings, e.task) + 1 <==> s.now >= s.flight.locks[e])
            && (Get(f.samplings, e.task) == Get(s.flight.samplings, e.task) <==> s.now < s.flight.locks[e])
            && s.flight.locks[e] >= e.nanos + LOCK_TTL
  {
    AlwaysSafe(now, steps, e.task, Edge(e.task, e.task));
  }

  /** While the bound of samplings by messages holds, an attempt breaks it iff what it asks exceeds the messages not
      sampled yet. */
  lemma AttemptBreaksBoundIff(s: Sys, e: Exec, dependents: seq<Branching>, requests: nat)
    requires Enabled(s, Attempt(e, dependents, requests))
    requires Get(s.flight.samplings, e.task) <= Get(s.flight.published, e.task)
    ensures var f := Apply(s, Attempt(e, dependents, requests)).flight;
            Get(f.samplings, e.task) > Get(f.published, e.task)
            <==> Asked(s, e, requests) > Get(s.flight.published, e.task) - Get(s.flight.samplings, e.task)
  {
    AttemptAsks(s, e, dependents, requests);
  }

  /** For a decision router that is always so once fewer than four messages are left unsampled; from then on every
      attempt widens the gap by four, however soon it comes after the one before. */
  lemma DecisionRouterExceeds(s: Sys, e: Exec, dependents: seq<Branching>, requests: nat)
    requires Enabled(s, Attempt(e, dependents, requests))
    requires e.task in s.tasks && s.tasks[e.task].def.taskType == DecisionRouter
    ensures var f := Apply(s, Attempt(e, dependents, requests)).flight;
            && (Get(f.samplings, e.task) > Get(f.published, e.task)
                <==> Get(s.flight.samplings, e.task) + 4 > Get(s.flight.published, e.task))
            && Enabled(Apply(s, Attempt(e, dependents, requests)), Attempt(e, dependents, requests))
  {
    AttemptAsks(s, e, dependents, requests);
  }

  /** A late attempt breaks the bound iff the lock has expired and all messages were sampled. */
  lemma LateSamplingBreaksBoundIff(now: int, steps: seq<Step>, e: Exec, dependents: seq<Branching>, requests: nat)
    requires IsRun(Initial(now), steps)
    requires var s := After(Initial(now), steps);
             && Enabled(s, Attempt(e, dependents, requests)) && e in s.flight.locks
             && e.task in s.tasks && !IsRouter(s.tasks[e.task].def)
             && Get(s.flight.samplings, e.task) <= Get(s.flight.published, e.task)
    ensures var s := After(Initial(now), steps);
            var f := Apply(s, Attempt(e, dependents, requests)).flight;
            Get(f.samplings, e.task) > Get(f.published, e.task)
            <==> s.now >= s.flight.locks[e] && Get(s.flight.samplings, e.task) == Get(s.flight.published, e.task)
  {
    SamplesAgainIff(now, steps, e, dependents, requests);
  }
}
