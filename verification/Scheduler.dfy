/**
 The scheduler's and the connections' procedures, statement by statement (schema.sql, scheduler.go, session.go,
 api_handlers.go). Each is proved to have the effect of the machine's step, or of the function whose properties are
 proved elsewhere.
 */
module Scheduler {
  import opened Rows
  import opened Retry
  import opened Lifecycle
  import opened Database
  import opened Uuids
  import opened Routing
  import ClaimRace

  // ----- fn_claim_due_tasks -----

  /** What the claim may take: the rows of the WHERE clause that nobody holds. */
  ghost predicate Claimable(tasks: Tasks, now: int, locked: set<Uuid>, id: Uuid) {
    ClaimRace.Eligible(tasks, now, id) && id !in locked
  }

  /** The n earliest claimable rows, or all of them. */
  ghost predicate IsBatch(tasks: Tasks, now: int, locked: set<Uuid>, n: nat, claimed: seq<Uuid>) {
    && NoDuplicates(claimed) && |claimed| <= n
    && (forall id :: id in claimed ==> Claimable(tasks, now, locked, id))
    && (forall i, j :: 0 <= i < j < |claimed| && claimed[i] in tasks && claimed[j] in tasks ==>
          tasks[claimed[i]].nextRun <= tasks[claimed[j]].nextRun)
    && (forall id :: Claimable(tasks, now, locked, id) && id !in claimed ==>
          |claimed| == n && forall c :: c in claimed ==> c in tasks && tasks[c].nextRun <= tasks[id].nextRun)
  }

  function Notices(tasks: Tasks, claimed: seq<Uuid>, worker: string): seq<Token>
    requires forall id :: id in claimed ==> id in tasks
  {
    seq(|claimed|, k requires 0 <= k < |claimed| => Notice(claimed[k], tasks[claimed[k]].user, worker))
  }

  lemma {:induction false} EarliestExists(tasks: Tasks, among: set<Uuid>)
    requires among != {} && forall id :: id in among ==> id in tasks
    ensures exists id :: id in among && forall other :: other in among ==> tasks[id].nextRun <= tasks[other].nextRun
  {
    var x :| x in among;
    if among - {x} == {} {
      assert among == {x};
    } else {
      EarliestExists(tasks, among - {x});
      var y :| y in among - {x} && forall other :: other in among - {x} ==> tasks[y].nextRun <= tasks[other].nextRun;
      var first := if tasks[x].nextRun <= tasks[y].nextRun then x else y;
      assert forall other :: other in among ==> other == x || other in among - {x};
      assert first in among && forall other :: other in among ==> tasks[first].nextRun <= tasks[other].nextRun;
    }
  }

  /** Taken in order, and nothing left is earlier. */
  ghost predicate Sorted(tasks: Tasks, claimed: seq<Uuid>, left: set<Uuid>) {
    && NoDuplicates(claimed)
    && (forall id :: id in claimed ==> id in tasks && id !in left)
    && (forall id :: id in left ==> id in tasks)
    && (forall c, id :: c in claimed && id in left ==> tasks[c].nextRun <= tasks[id].nextRun)
    && (forall i, j :: 0 <= i < j < |claimed| ==> tasks[claimed[i]].nextRun <= tasks[claimed[j]].nextRun)
  }

  lemma TakeEarliest(tasks: Tasks, claimed: seq<Uuid>, left: set<Uuid>, id: Uuid)
    requires Sorted(tasks, claimed, left) && id in left
    requires forall other :: other in left ==> tasks[id].nextRun <= tasks[other].nextRun
    ensures Sorted(tasks, claimed + [id], left - {id})
  {
    assert forall c :: c in claimed + [id] ==> c in claimed || c == id;
  }

  /** ORDER BY next_run LIMIT n, without the rows in `locked`. */
  method SelectDue(tasks: Tasks, now: int, locked: set<Uuid>, n: nat) returns (claimed: seq<Uuid>)
    ensures IsBatch(tasks, now, locked, n, claimed)
  {
    claimed := [];
    var left := set id | id in tasks && id !in locked && ClaimRace.Eligible(tasks, now, id);
    while |claimed| < n && left != {}
      invariant |claimed| <= n && Sorted(tasks, claimed, left)
      invariant forall id :: Claimable(tasks, now, locked, id) <==> id in left || id in claimed
      decreases |left|
    {
      EarliestExists(tasks, left);
      var id :| id in left && forall other :: other in left ==> tasks[id].nextRun <= tasks[other].nextRun;
      TakeEarliest(tasks, claimed, left, id);
      assert forall c :: c in claimed + [id] <==> c in claimed || c == id;
      claimed, left := claimed + [id], left - {id};
    }
  }

  method ClaimDueTasks(db: TaskTable, worker: string, n: nat, now: int, locked: set<Uuid>)
    returns (claimed: seq<Uuid>, notices: seq<Token>)
    modifies db`tasks
    ensures IsBatch(old(db.tasks), now, locked, n, claimed)
    ensures db.tasks == ClaimRace.ClaimAll(old(db.tasks), claimed, worker)
    ensures (forall id :: id in claimed ==> id in old(db.tasks)) && notices == Notices(old(db.tasks), claimed, worker)
  {
    claimed := SelectDue(db.tasks, now, locked, n);
    ghost var before := db.tasks;
    notices := [];
    for k := 0 to |claimed|
      invariant forall id :: id in claimed ==> id in before
      invariant db.tasks == ClaimRace.ClaimAll(before, claimed[..k], worker)
      invariant |notices| == k && forall i :: 0 <= i < k ==> notices[i] == Notice(claimed[i], before[claimed[i]].user, worker)
    {
      assert claimed[..k + 1][..k] == claimed[..k];
      OthersUnclaimed(before, claimed, k, worker);
      notices := notices + [Notice(claimed[k], db.tasks[claimed[k]].user, worker)];
      db.Exec(claimed[k], Claim(worker));
    }
    assert claimed[..|claimed|] == claimed;
  }

  lemma OthersUnclaimed(tasks: Tasks, claimed: seq<Uuid>, k: nat, worker: string)
    requires NoDuplicates(claimed) && k < |claimed| && claimed[k] in tasks
    ensures var after := ClaimRace.ClaimAll(tasks, claimed[..k], worker);
            claimed[k] in after && after[claimed[k]] == tasks[claimed[k]]
  {
    assert claimed[k] !in claimed[..k];
    ClaimRace.ClaimAllRow(tasks, claimed[..k], worker, claimed[k]);
  }

  lemma ClaimStep(s: Sys, id: Uuid, worker: string)
    requires id in s.tasks && ClaimRace.Due(s.tasks[id], s.now)
    ensures Enabled(s, ClaimDue(id, worker))
    ensures var s' := Lifecycle.Apply(s, ClaimDue(id, worker));
            && s'.tasks == Update(s.tasks, id, Claim(worker)) && s'.now == s.now
            && s'.flight.tokens == s.flight.tokens + [Notice(id, s.tasks[id].user, worker)]
  {
  }

  lemma NoticesGrow(tokens: seq<Token>, tasks: Tasks, claimed: seq<Uuid>, worker: string, k: nat)
    requires k < |claimed| && forall id :: id in claimed ==> id in tasks
    ensures tokens + Notices(tasks, claimed, worker)[..k] + [Notice(claimed[k], tasks[claimed[k]].user, worker)]
            == tokens + Notices(tasks, claimed, worker)[..k + 1]
  {
  }

  /** A batch is a run of single claims of the machine: the same rows, and one notice for each. */
  lemma {:induction false} BatchIsARun(s: Sys, claimed: seq<Uuid>, worker: string, k: nat)
    returns (steps: seq<Step>)
    requires NoDuplicates(claimed) && k <= |claimed|
    requires forall id :: id in claimed ==> id in s.tasks && ClaimRace.Due(s.tasks[id], s.now)
    ensures IsRun(s, steps)
    ensures After(s, steps).tasks == ClaimRace.ClaimAll(s.tasks, claimed[..k], worker)
    ensures After(s, steps).flight.tokens == s.flight.tokens + Notices(s.tasks, claimed, worker)[..k]
    ensures After(s, steps).now == s.now
  {
    if k == 0 {
      steps := [];
    } else {
      var before := BatchIsARun(s, claimed, worker, k - 1);
      assert claimed[..k][..k - 1] == claimed[..k - 1];
      OthersUnclaimed(s.tasks, claimed, k - 1, worker);
      ClaimStep(After(s, before), claimed[k - 1], worker);
      Extend(s, before, ClaimDue(claimed[k - 1], worker));
      NoticesGrow(s.flight.tokens, s.tasks, claimed, worker, k - 1);
      steps := before + [ClaimDue(claimed[k - 1], worker)];
    }
  }

  // ----- Dispatch -----

  /** A system whose one token works on this row. */
  function Working(tasks: Tasks, token: Token, now: int): Sys {
    Initial(now).(tasks := tasks, flight := Initial(now).flight.(tokens := [token]))
  }

  method HandleTaskClaimNotification(db: TaskTable, id: Uuid, user: string, worker: string) returns (row: Option<Task>)
    ensures row.Some? <==> Dispatchable(Working(db.tasks, Notice(id, user, worker), 0), Notice(id, user, worker))
    ensures row.Some? ==> id in db.tasks && row == Some(db.tasks[id])
  {
    row := None;
    if Owns(db.tasks, user, id) {
      var t := db.tasks[id];
      if t.status == Processing && t.lockedBy == Some(worker) {
        row := Some(t);
      }
    }
  }

  /** What the world answers during a dispatch. */
  datatype World = World(online: bool, native: bool, delivered: bool, again: bool, next: Option<int>)

  function OutcomeOf(row: Task, w: World): Outcome {
    if !w.online then Offline(w.next)
    else if row.def.taskType == NativeAction then (if w.native then NativeDone(w.again, w.next) else Failed)
    else if w.delivered then Published
    else Failed
  }

  /** Two statements, or one and a dead letter. */
  method RecordFailure(db: TaskTable, id: Uuid, row: Task, now: int)
    modifies db
    ensures db.tasks == FailDispatch(old(db.tasks), id, row, now)
    ensures db.deadLetters == if Exhausts(row) then old(db.deadLetters) + [id] else old(db.deadLetters)
  {
    var failures, retry, max := Wrap32(row.failureCount + 1), Wrap32(row.retryCount + 1), row.maxRetries;
    if max == 0 {
      max := 3;
    }
    if retry > max {
      db.Exec(id, SetCounters(Error, failures, retry));
      db.MoveToDlq(id);
    } else {
      var minutes := retry * 2;
      if row.exponential {
        minutes := ShiftOne(if retry < 0 then 0 else retry);
      }
      db.Exec(id, SetCounters(Active, failures, retry));
      db.Exec(id, SetNextRun(Active, now + Wrap64(minutes * MINUTE)));
    }
  }

  /** `completed` says that completeTask was called, so that dependents are looked for. */
  method HandleDispatchTask(db: TaskTable, id: Uuid, row: Task, w: World, now: int) returns (completed: bool, published: bool)
    modifies db
    ensures var s, step := Working(old(db.tasks), Job(id, row, Exec(id, now)), now), Dispatch(0, OutcomeOf(row, w));
            && db.tasks == TasksAfter(s, step)
            && db.deadLetters == old(db.deadLetters) + DlqAfter(s, step)
            && completed == Completing(s, step).Some?
            && published == (FlightAfter(s, step).wire != {})
  {
    completed, published := false, false;
    ghost var s := Working(db.tasks, Job(id, row, Exec(id, now)), now);
    assert s.flight.tokens[0] == Job(id, row, Exec(id, now)) && Without(s.flight.tokens, 0) == [];
    if row.def.requiresApproval && row.approval != Approved {
      db.Exec(id, SetApproval(Pending, Paused));
      return;
    }
    if !w.online {
      if row.def.missedPolicy == RunImmediately {
        db.Exec(id, SetNextRun(Active, now + 1 * MINUTE));
        return;
      }
      if w.next.Some? {
        db.Exec(id, CompleteTask(w.next.value, Active, now));
        completed := true;
      }
      // otherwise the pausing UPDATE names no user and matches no row
      return;
    }
    if row.def.taskType == NativeAction {
      if !w.native {
        RecordFailure(db, id, row, now);
        return;
      }
      if w.again {
        db.Exec(id, CompleteTask(now, Active, now));
        completed := true;
        return;
      }
      if w.next.Some? {
        db.Exec(id, CompleteTask(w.next.value, Active, now));
        completed := true;
      }
      return;
    }
    if !w.delivered {
      RecordFailure(db, id, row, now);
      return;
    }
    published := true;
  }

  /** A connection after its sampling: the counted failure, or completion. */
  method FinishSampling(db: TaskTable, user: string, id: Uuid, exec: Exec, answer: Lifecycle.Answer, now: int)
    returns (completed: bool)
    requires id in db.tasks ==> db.tasks[id].user == user
    modifies db`tasks
    ensures var s, step := Working(old(db.tasks), Run(id, exec), now), Finish(0, answer);
            db.tasks == TasksAfter(s, step) && completed == Completing(s, step).Some?
  {
    completed := false;
    ghost var s := Working(db.tasks, Run(id, exec), now);
    assert s.flight.tokens[0] == Run(id, exec);
    match answer
    case SamplingFailed =>
      var failures := 0;
      if id in db.tasks && db.tasks[id].failureCount < MAX_INT {
        db.ExecOwned(user, id, IncrementFailures);
        failures := db.tasks[id].failureCount;
      }
      if failures >= 3 {
        db.ExecOwned(user, id, SetStatus(Error));
      } else {
        db.ExecOwned(user, id, SetStatus(Active));
      }
    case SamplingDone(again, isDate, next) =>
      if again {
        db.Exec(id, CompleteTask(now, Active, now));
        completed := true;
        return;
      }
      if isDate {
        db.Exec(id, CompleteTask(now, Completed, now));
        completed := true;
        return;
      }
      if next.None? {
        db.ExecOwned(user, id, SetStatus(Paused));
        return;
      }
      db.Exec(id, CompleteTask(next.value, Active, now));
      completed := true;
  }

  // ----- completeTask: the dependents -----

  function TriggerAll(tasks: Tasks, chosen: seq<Uuid>, now: int): Tasks {
    if chosen == [] then tasks
    else Update(TriggerAll(tasks, chosen[..|chosen| - 1], now), chosen[|chosen| - 1], SetNextRun(Active, now))
  }

  /** Whatever the order, each chosen row becomes due and free, and no other row changes. */
  lemma {:induction false} TriggeredRows(tasks: Tasks, chosen: seq<Uuid>, now: int, i: Uuid)
    ensures i in TriggerAll(tasks, chosen, now) <==> i in tasks
    ensures i in tasks ==>
              TriggerAll(tasks, chosen, now)[i]
              == if i in chosen then tasks[i].(status := Active, lockedBy := None, nextRun := now) else tasks[i]
  {
    if chosen != [] {
      var before, last := chosen[..|chosen| - 1], chosen[|chosen| - 1];
      assert chosen == before + [last];
      TriggeredRows(tasks, before, now, i);
    }
  }

  /** Any listing of what GetDependentTasksToTrigger selects. */
  ghost predicate ListsDependents(tasks: Tasks, parent: Uuid, listing: seq<Uuid>) {
    NoDuplicates(listing) && forall c :: c in listing <==> Triggerable(tasks, parent, c)
  }

  /** Exactly the active dependents that want to be triggered and whose branch condition the output meets. */
  method TriggerDependents(db: TaskTable, parent: Uuid, listing: seq<Uuid>, output: string, now: int)
    returns (chosen: seq<Uuid>)
    requires ListsDependents(db.tasks, parent, listing)
    modifies db`tasks
    ensures NoDuplicates(chosen)
    ensures forall c :: c in chosen <==> Triggerable(old(db.tasks), parent, c) && BranchMet(old(db.tasks)[c].def.branch, output)
    ensures db.tasks == TriggerAll(old(db.tasks), chosen, now)
  {
    ghost var before := db.tasks;
    var rows := db.tasks;
    chosen := [];
    for k := 0 to |listing|
      invariant NoDuplicates(chosen) && db.tasks == TriggerAll(before, chosen, now)
      invariant forall c :: c in chosen <==> c in listing[..k] && Triggerable(before, parent, c) && BranchMet(before[c].def.branch, output)
    {
      var child := listing[k];
      assert child in listing && child !in listing[..k];
      assert listing[..k + 1] == listing[..k] + [child];
      if !BranchMet(rows[child].def.branch, output) {
        continue;
      }
      db.Exec(child, SetNextRun(Active, now));
      assert (chosen + [child])[..|chosen|] == chosen;
      chosen := chosen + [child];
    }
    assert listing[..|listing|] == listing;
  }

  // ----- Routers -----

  /** The loop of both routers over the dependents read before the choice was made. */
  method RouteChoice(db: TaskTable, router: Uuid, dependents: seq<Branching>, choice: string, now: int) returns (found: bool)
    modifies db`tasks
    ensures db.tasks == RouteTasks(old(db.tasks), router, dependents, choice, now)
    ensures found <==> RouteIndex(dependents, choice) < |dependents|
  {
    found := false;
    ghost var before := db.tasks;
    if choice != "" {
      for k := 0 to |dependents|
        invariant !found && db.tasks == before && FirstMatch(dependents, choice) == k + FirstMatch(dependents[k..], choice)
      {
        assert dependents[k..][1..] == dependents[k + 1..];
        if KeyMatches(dependents[k].branch, choice) {
          db.Exec(dependents[k].id, SetNextRun(Active, now));
          found := true;
          break;
        }
      }
    }
    if found {
      db.Exec(router, SetStatusAndRun(Completed, now));
    } else {
      db.Exec(router, SetApprovalAndRun(NeedsRouting, Halted, now));
    }
  }

  method ApiManualRoute(db: TaskTable, user: string, path: string, body: string, now: int) returns (error: Option<RouteError>)
    modifies db`tasks
    ensures match ManuallyRouted(old(db.tasks), user, path, body, now)
            case Ok(after) => error == None && db.tasks == after
            case Err(e) => error == Some(e) && db.tasks == old(db.tasks)
  {
    var source, target := IdOf(path), IdOf(body);
    if source.None? || !Owns(db.tasks, user, source.value) {
      return Some(SourceNotFound);
    }
    if db.tasks[source.value].approval != NeedsRouting {
      return Some(NotWaiting);
    }
    if target.None? || !Owns(db.tasks, user, target.value) {
      return Some(TargetNotFound);
    }
    var parent := db.tasks[target.value].def.dependsOn;
    if parent.None? || Text(parent.value) != path {
      return Some(NotDependent);
    }
    db.Exec(target.value, SetNextRun(Active, now));
    db.ExecOwned(user, source.value, SetApprovalAndRun(ManualRouted, Completed, now));
    return None;
  }

  // ----- Users -----

  /** Requests of users; pausing and resuming come over REST and as tools. */
  datatype Command = DoPause | DoResume | DoPauseTool | DoResumeTool | DoApprove | DoDeny

  function StepOf(command: Command, id: Uuid, user: string): Step {
    match command
    case DoPause => Pause(id, user)
    case DoPauseTool => Pause(id, user)
    case DoResume => Resume(id, user)
    case DoResumeTool => ResumeTool(id, user)
    case DoApprove => Approve(id, user)
    case DoDeny => Deny(id, user)
  }

  /** The REST handlers for pausing and resuming do not look whether there is such a task. */
  predicate ChecksOwner(command: Command) {
    command != DoPause && command != DoResume
  }

  /** Approve, deny, pause and resume: the edit of the machine's step, on the row that the text names. `ok` is what the
      client is told. */
  method UserCommand(db: TaskTable, user: string, path: string, command: Command) returns (ok: bool)
    modifies db`tasks
    ensures var id := IdOf(path);
            var edit := if id.Some? then UserEdit(old(db.tasks), StepOf(command, id.value, user)) else None;
            && ok == (if ChecksOwner(command) then edit.Some? else id.Some?)
            && db.tasks == if edit.Some? then Update(old(db.tasks), edit.value.id, edit.value.statement) else old(db.tasks)
  {
    var id := IdOf(path);
    ok := id.Some? && (ChecksOwner(command) ==> Owns(db.tasks, user, id.value));
    if ok {
      match command {
        case DoPause => db.ExecOwned(user, id.value, SetStatus(Paused));
        case DoPauseTool => db.ExecOwned(user, id.value, SetStatus(Paused));
        case DoResume => db.ExecOwned(user, id.value, SetStatus(Active));
        case DoResumeTool => db.ExecOwned(user, id.value, ResetFailures(Active));
        case DoApprove => db.ExecOwned(user, id.value, SetApproval(Approved, Active));
        case DoDeny => db.ExecOwned(user, id.value, SetApproval(Denied, Paused));
      }
    }
  }

  // ----- Reaper and shutdown -----

  function StuckRows(tasks: Tasks, before: int): set<Uuid> {
    set i | i in tasks && tasks[i].status == Processing && tasks[i].nextRun < before
  }

  /** One UPDATE; `rows` is how many it matched. */
  method ReapStuckTasks(db: TaskTable, before: int) returns (rows: nat)
    modifies db`tasks
    ensures db.tasks == Reaped(old(db.tasks), before)
    ensures rows == |StuckRows(old(db.tasks), before)|
  {
    var stuck := StuckRows(db.tasks, before);
    rows := |stuck|;
    UnlockAll(db, stuck);
  }

  method RevertProcessingTasks(db: TaskTable, worker: string)
    modifies db`tasks
    ensures db.tasks == Reverted(old(db.tasks), worker)
  {
    var held := set i | i in db.tasks && db.tasks[i].lockedBy == Some(worker);
    UnlockAll(db, held);
  }

  method UnlockAll(db: TaskTable, ids: set<Uuid>)
    modifies db`tasks
    ensures db.tasks.Keys == old(db.tasks).Keys
    ensures forall i :: i in db.tasks ==> db.tasks[i] == if i in ids then Unlock.On(old(db.tasks)[i]) else old(db.tasks)[i]
  {
    var left := ids;
    while left != {}
      invariant left <= ids && db.tasks.Keys == old(db.tasks).Keys
      invariant forall i :: i in db.tasks ==>
                  db.tasks[i] == if i in ids && i !in left then Unlock.On(old(db.tasks)[i]) else old(db.tasks)[i]
      decreases |left|
    {
      var id :| id in left;
      db.Exec(id, Unlock);
      left := left - {id};
    }
  }
}
