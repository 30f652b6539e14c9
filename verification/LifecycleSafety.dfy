/** What every reachable state of the task protocol satisfies. */
module LifecycleSafety {
  import opened Rows
  import opened Retry
  import opened Lifecycle

  // ----- Counting executions -----

  lemma CountAppend(f: seq<Token>, t: Token, kind: Kind, id: Uuid)
    ensures Count(f + [t], kind, id) == Count(f, kind, id) + (if Matches(t, kind, id) then 1 else 0)
  {
    assert (f + [t])[..|f|] == f;
  }

  lemma WithoutEarlier<T>(q: seq<T>, k: nat)
    requires k < |q| - 1
    ensures Without(q, k) == Without(q[..|q| - 1], k) + [q[|q| - 1]]
  {
  }

  lemma {:induction false} CountWithout(f: seq<Token>, k: nat, kind: Kind, id: Uuid)
    requires k < |f|
    ensures Count(Without(f, k), kind, id) + (if Matches(f[k], kind, id) then 1 else 0) == Count(f, kind, id)
  {
    var n := |f| - 1;
    if k == n {
      assert Without(f, k) == f[..n];
    } else {
      CountWithout(f[..n], k, kind, id);
      WithoutEarlier(f, k);
      CountAppend(Without(f[..n], k), f[n], kind, id);
    }
  }

  lemma {:induction false} CountReplace(f: seq<Token>, k: nat, t: Token, kind: Kind, id: Uuid)
    requires k < |f|
    ensures Count(f[k := t], kind, id) + (if Matches(f[k], kind, id) then 1 else 0)
            == Count(f, kind, id) + (if Matches(t, kind, id) then 1 else 0)
  {
    var n := |f| - 1;
    if k == n {
      assert f[k := t][..n] == f[..n];
    } else {
      CountReplace(f[..n], k, t, kind, id);
      assert f[k := t][..n] == f[..n][k := t];
    }
  }

  lemma {:induction false} CountPositive(f: seq<Token>, k: nat, kind: Kind, id: Uuid)
    requires k < |f| && Matches(f[k], kind, id)
    ensures Count(f, kind, id) >= 1
  {
    CountWithout(f, k, kind, id);
  }

  lemma {:induction false} CountNone(f: seq<Token>, kind: Kind, id: Uuid)
    requires forall t :: t in f ==> t.task != id
    ensures Count(f, kind, id) == 0
  {
    if f != [] {
      CountNone(f[..|f| - 1], kind, id);
    }
  }

  lemma {:induction false} KindsNest(f: seq<Token>, id: Uuid)
    ensures Count(f, PastGate, id) <= Count(f, InFlight, id)
  {
    if f != [] {
      KindsNest(f[..|f| - 1], id);
    }
  }

  lemma ExecsOfInsert(execs: set<Exec>, e: Exec, id: Uuid)
    ensures |ExecsOf(execs + {e}, id)| == |ExecsOf(execs, id)| + (if e.task == id && e !in execs then 1 else 0)
  {
    if e.task == id && e !in execs {
      assert ExecsOf(execs + {e}, id) == ExecsOf(execs, id) + {e};
    } else {
      assert ExecsOf(execs + {e}, id) == ExecsOf(execs, id);
    }
  }

  lemma ExecsOfRemove(execs: set<Exec>, e: Exec, id: Uuid)
    ensures |ExecsOf(execs - {e}, id)| == |ExecsOf(execs, id)| - (if e.task == id && e in execs then 1 else 0)
  {
    if e in execs {
      assert execs - {e} + {e} == execs;
      ExecsOfInsert(execs - {e}, e, id);
    } else {
      assert execs - {e} == execs;
    }
  }

  lemma {:induction false} ExecsOfMonotone(small: set<Exec>, large: set<Exec>, id: Uuid)
    requires small <= large
    ensures |ExecsOf(small, id)| <= |ExecsOf(large, id)|
  {
    var rest := ExecsOf(large, id) - ExecsOf(small, id);
    assert ExecsOf(large, id) == ExecsOf(small, id) + rest;
  }

  // ----- Status and lock agree -----

  /** processing means locked; locked means processing or active; halted means waiting for a route. */
  predicate RowOk(t: Task) {
    && (t.status == Processing ==> t.lockedBy.Some?)
    && (t.lockedBy.Some? ==> t.status in {Processing, Active})
    && (t.status == Halted ==> t.approval == NeedsRouting)
  }

  ghost predicate RowsOk(tasks: Tasks) {
    forall i :: i in tasks ==> RowOk(tasks[i])
  }

  /** Every statement the server issues, with the arguments it passes. */
  predicate Issued(statement: Statement) {
    match statement
    case SetStatus(status) => status != Processing && status != Halted
    case SetStatusAndRun(status, _) => status != Processing && status != Halted
    case SetApproval(approval, status) => status != Processing && (status == Halted ==> approval == NeedsRouting)
    case SetApprovalAndRun(approval, status, _) => status != Processing && (status == Halted ==> approval == NeedsRouting)
    case SetNextRun(status, _) => status == Active
    case SetCounters(status, _, _) => status == Active || status == Error
    case ResetFailures(status) => status == Active
    case CompleteTask(_, status, _) => status == Active || status == Completed
    case _ => true
  }

  lemma UpdateKeepsRows(tasks: Tasks, id: Uuid, statement: Statement)
    requires RowsOk(tasks) && Issued(statement)
    ensures RowsOk(Update(tasks, id, statement))
  {
  }

  lemma FailureKeepsRows(tasks: Tasks, id: Uuid, snapshot: Task, now: int)
    requires RowsOk(tasks)
    ensures RowsOk(FailDispatch(tasks, id, snapshot, now)) && RowsOk(CountFailure(tasks, id))
  {
    UpdateKeepsRows(tasks, id, IncrementFailures);
  }

  lemma RoutingKeepsRows(tasks: Tasks, router: Uuid, dependents: seq<Branching>, key: string, target: Uuid, now: int)
    requires RowsOk(tasks)
    ensures RowsOk(RouteTasks(tasks, router, dependents, key, now)) && RowsOk(RouteByHand(tasks, router, target, now))
  {
    UpdateKeepsRows(tasks, target, SetNextRun(Active, now));
    UpdateKeepsRows(Update(tasks, target, SetNextRun(Active, now)), router, SetApprovalAndRun(ManualRouted, Completed, now));
    UpdateKeepsRows(tasks, router, SetApprovalAndRun(NeedsRouting, Halted, now));
    var k := RouteIndex(dependents, key);
    if k < |dependents| {
      UpdateKeepsRows(tasks, dependents[k].id, SetNextRun(Active, now));
      UpdateKeepsRows(Update(tasks, dependents[k].id, SetNextRun(Active, now)), router, SetStatusAndRun(Completed, now));
    }
  }

  lemma BulkKeepsRows(tasks: Tasks, before: int, worker: string, id: Uuid)
    requires RowsOk(tasks)
    ensures RowsOk(Reaped(tasks, before)) && RowsOk(Reverted(tasks, worker)) && RowsOk(DeleteRow(tasks, id))
  {
  }

  lemma EditsAreIssued(s: Sys, step: Step)
    requires Named(s, step) && EditOf(s, step).Some?
    ensures Issued(EditOf(s, step).value.statement)
  {
  }

  lemma RowsStayOk(s: Sys, step: Step)
    requires RowsOk(s.tasks) && Named(s, step)
    ensures RowsOk(TasksAfter(s, step))
  {
    if EditOf(s, step).Some? {
      EditsAreIssued(s, step);
      UpdateKeepsRows(s.tasks, EditOf(s, step).value.id, EditOf(s, step).value.statement);
    } else {
      match step
      case Dispatch(k, _) => FailureKeepsRows(s.tasks, s.flight.tokens[k].task, s.flight.tokens[k].row, s.now);
      case Finish(k, _) =>
        FailureKeepsRows(s.tasks, s.flight.tokens[k].task, Inserted(PLAIN, "", 0), s.now);
      case RouterEnd(k, Choice(key)) =>
        RoutingKeepsRows(s.tasks, s.routers[k].task, s.routers[k].dependents, key, NIL, s.now);
      case Reap(before) => BulkKeepsRows(s.tasks, before, "", NIL);
      case Revert(worker) => BulkKeepsRows(s.tasks, 0, worker, NIL);
      case Delete(id, user) => BulkKeepsRows(s.tasks, 0, "", id);
      case ManualRoute(source, target, _) => RoutingKeepsRows(s.tasks, source, [], "", target, s.now);
      case _ =>
    }
  }

  // ----- Every sampling is paid for by a claim -----

  /** Execution ids carry their task and are never from the future; a lock outlives its execution's first LOCK_TTL. */
  ghost predicate Timed(f: Flight, now: int) {
    && (forall t :: t in f.tokens ==> (t.Job? || t.Run? ==> t.exec.task == t.task && t.exec.nanos <= now))
    && (forall e :: e in f.wire ==> e.nanos <= now)
    && f.locks.Keys <= f.wire
    && (forall e :: e in f.locks ==> f.locks[e] >= e.nanos + LOCK_TTL)
  }

  /** Claims of a task cover its tokens that are not published yet and its publications, publications cover its
      execution ids, and the samplings of a task that was never late and never a router are its locked execution ids. */
  ghost predicate Conserved(f: Flight, i: Uuid) {
    && Count(f.tokens, BeforePublish, i) + Get(f.published, i) <= Get(f.claims, i)
    && |ExecsOf(f.wire, i)| <= Get(f.published, i)
    && (i !in f.late && i !in f.routed ==> Get(f.samplings, i) == |ExecsOf(f.locks.Keys, i)|)
  }

  lemma LaunchStaysTimed(f: Flight, t: Token, now: int)
    requires Timed(f, now) && (t.Notice? || t.Hook?)
    ensures Timed(Launch(f, t), now)
  {
    assert forall u :: u in Launch(f, t).tokens ==> u in f.tokens || u == t;
  }

  lemma LaunchConserves(f: Flight, t: Token, now: int, i: Uuid)
    requires Timed(f, now) && Conserved(f, i) && (t.Notice? || t.Hook?)
    ensures Timed(Launch(f, t), now) && Conserved(Launch(f, t), i)
  {
    LaunchStaysTimed(f, t, now);
    CountAppend(f.tokens, t, BeforePublish, i);
  }

  lemma DropConserves(f: Flight, k: nat, now: int, i: Uuid)
    requires Timed(f, now) && Conserved(f, i) && k < |f.tokens|
    ensures Timed(Drop(f, k), now) && Conserved(Drop(f, k), i)
  {
    CountWithout(f.tokens, k, BeforePublish, i);
  }

  lemma AcceptConserves(s: Sys, k: nat, i: Uuid)
    requires Timed(s.flight, s.now) && Conserved(s.flight, i) && Enabled(s, Accept(k))
    ensures Timed(AcceptToken(s, k), s.now) && Conserved(AcceptToken(s, k), i)
  {
    var f := s.flight;
    var id := f.tokens[k].task;
    if f.tokens[k].Hook? || Dispatchable(s, f.tokens[k]) {
      CountReplace(f.tokens, k, AcceptToken(s, k).tokens[k], BeforePublish, i);
    } else {
      DropConserves(f, k, s.now, i);
    }
  }

  lemma PublishConserves(f: Flight, k: nat, now: int, i: Uuid)
    requires Timed(f, now) && Conserved(f, i) && k < |f.tokens| && f.tokens[k].Job?
    ensures Timed(Publish(f, k), now) && Conserved(Publish(f, k), i)
  {
    CountWithout(f.tokens, k, BeforePublish, i);
    ExecsOfInsert(f.wire, f.tokens[k].exec, i);
    assert f.tokens[k] in f.tokens;
  }

  lemma TakeStaysTimed(f: Flight, e: Exec, now: int)
    requires Timed(f, now) && e in f.wire
    ensures Timed(Take(f, e, now), now)
  {
  }

  lemma TokensAfterTake(f: Flight, e: Exec, now: int, i: Uuid)
    ensures Count(Take(f, e, now).tokens, BeforePublish, i) == Count(f.tokens, BeforePublish, i)
  {
    CountAppend(f.tokens, Run(e.task, e), BeforePublish, i);
  }

  /** An execution sampled in time was not locked before. */
  lemma LocksAfterTake(f: Flight, e: Exec, now: int, i: Uuid)
    requires Timed(f, now) && i !in Take(f, e, now).late
    ensures var f' := Take(f, e, now);
            |ExecsOf(f'.locks.Keys, i)| - |ExecsOf(f.locks.Keys, i)| == Get(f'.samplings, i) - Get(f.samplings, i)
  {
    ExecsOfInsert(f.locks.Keys, e, i);
    assert f.locks[e := now + LOCK_TTL].Keys == f.locks.Keys + {e};
  }

  lemma TakeFrame(f: Flight, e: Exec, now: int)
    ensures var f' := Take(f, e, now);
            && f'.wire == f.wire && f'.claims == f.claims && f'.published == f.published && f'.routed == f.routed
            && f.late <= f'.late
  {
  }

  lemma TakeConserves(f: Flight, e: Exec, now: int, i: Uuid)
    requires Timed(f, now) && Conserved(f, i) && e in f.wire
    ensures Conserved(Take(f, e, now), i)
  {
    var f' := Take(f, e, now);
    TakeFrame(f, e, now);
    TokensAfterTake(f, e, now, i);
    assert Count(f'.tokens, BeforePublish, i) + Get(f'.published, i) <= Get(f'.claims, i);
    if i !in f'.late {
      LocksAfterTake(f, e, now, i);
    }
  }

  lemma FlightConserves(s: Sys, step: Step, i: Uuid)
    requires Timed(s.flight, s.now) && Conserved(s.flight, i) && Enabled(s, step)
    ensures Timed(FlightAfter(s, step), s.now) && Conserved(FlightAfter(s, step), i)
  {
    match step
    case ClaimDue(id, worker) => LaunchConserves(s.flight, Notice(id, s.tasks[id].user, worker), s.now, i);
    case ClaimByHook(id, worker) => LaunchConserves(s.flight, Hook(id, Claim(worker).On(s.tasks[id])), s.now, i);
    case Lose(k) => DropConserves(s.flight, k, s.now, i);
    case Accept(k) => AcceptConserves(s, k, i);
    case Dispatch(k, _) =>
      DropConserves(s.flight, k, s.now, i);
      PublishConserves(s.flight, k, s.now, i);
    case Attempt(e, _, _) =>
      TakeStaysTimed(s.flight, e, s.now);
      TakeConserves(s.flight, e, s.now, i);
    case Finish(k, _) => DropConserves(s.flight, k, s.now, i);
    case _ =>
  }

  lemma StaysConserved(s: Sys, step: Step, i: Uuid)
    requires Timed(s.flight, s.now) && Conserved(s.flight, i) && Enabled(s, step)
    ensures Timed(Apply(s, step).flight, Apply(s, step).now) && Conserved(Apply(s, step).flight, i)
  {
    FlightConserves(s, step, i);
  }

  // ----- One execution at a time, and none without an approval -----

  /** Nothing outside the task's own execution interfered with it. */
  ghost predicate Quiet(s: Sys, i: Uuid) {
    i in s.tasks && i !in s.flight.late && i !in s.disturbed && !IsRouter(s.tasks[i].def)
  }

  ghost predicate Exclusive(s: Sys, i: Uuid) {
    Quiet(s, i) ==>
      && Outstanding(s.flight, i) <= 1
      && (Outstanding(s.flight, i) == 1 ==> s.tasks[i].status == Processing)
      && (forall r :: r in s.routers ==> r.task != i)
  }

  ghost predicate Gated(s: Sys, i: Uuid) {
    Quiet(s, i) && s.tasks[i].def.requiresApproval ==>
      && (forall t :: t in s.flight.tokens && t.task == i && (t.Hook? || t.Job?) ==>
            t.row.def.requiresApproval && t.row.approval == s.tasks[i].approval)
      && (PastTheGate(s.flight, i) > 0 ==> s.tasks[i].approval == Approved)
      && Get(s.completions, i) + (if s.tasks[i].approval == Approved then 1 else 0) <= Get(s.approvals, i)
  }

  /** The executions that wait do not depend on the tokens. */
  lemma SameWaiting(f: Flight, f': Flight, i: Uuid)
    requires f'.wire == f.wire && f'.locks == f.locks
    ensures Outstanding(f', i) - Count(f'.tokens, InFlight, i) == Outstanding(f, i) - Count(f.tokens, InFlight, i)
    ensures PastTheGate(f', i) - Count(f'.tokens, PastGate, i) == PastTheGate(f, i) - Count(f.tokens, PastGate, i)
  {
    assert Waiting(f') == Waiting(f);
  }

  lemma DropMoves(f: Flight, k: nat, i: Uuid)
    requires k < |f.tokens|
    ensures Outstanding(Drop(f, k), i) == Outstanding(f, i) - (if f.tokens[k].task == i then 1 else 0)
    ensures PastTheGate(Drop(f, k), i) == PastTheGate(f, i) - (if Matches(f.tokens[k], PastGate, i) then 1 else 0)
  {
    SameWaiting(f, Drop(f, k), i);
    CountWithout(f.tokens, k, InFlight, i);
    CountWithout(f.tokens, k, PastGate, i);
  }

  lemma PublishMoves(f: Flight, k: nat, now: int, i: Uuid)
    requires Timed(f, now) && k < |f.tokens| && f.tokens[k].Job?
    ensures Outstanding(Publish(f, k), i) <= Outstanding(f, i)
    ensures GatePassed(f.tokens[k].row) ==> PastTheGate(Publish(f, k), i) <= PastTheGate(f, i)
  {
    var e := f.tokens[k].exec;
    assert f.tokens[k] in f.tokens;
    CountWithout(f.tokens, k, InFlight, i);
    CountWithout(f.tokens, k, PastGate, i);
    ExecsOfInsert(Waiting(f), e, i);
    ExecsOfMonotone(Waiting(Publish(f, k)), Waiting(f) + {e}, i);
  }

  lemma AcceptMoves(s: Sys, k: nat, i: Uuid)
    requires Enabled(s, Accept(k))
    ensures Outstanding(AcceptToken(s, k), i) <= Outstanding(s.flight, i)
    ensures s.flight.tokens[k].task != i ==> PastTheGate(AcceptToken(s, k), i) == PastTheGate(s.flight, i)
  {
    var f, f' := s.flight, AcceptToken(s, k);
    if f.tokens[k].Hook? || Dispatchable(s, f.tokens[k]) {
      SameWaiting(f, f', i);
      CountReplace(f.tokens, k, f'.tokens[k], InFlight, i);
      CountReplace(f.tokens, k, f'.tokens[k], PastGate, i);
    } else {
      DropMoves(f, k, i);
    }
  }

  lemma LaunchMoves(f: Flight, t: Token, i: Uuid)
    requires t.Notice? || t.Hook?
    ensures Outstanding(Launch(f, t), i) == Outstanding(f, i) + (if t.task == i then 1 else 0)
    ensures PastTheGate(Launch(f, t), i) == PastTheGate(f, i)
  {
    SameWaiting(f, Launch(f, t), i);
    CountAppend(f.tokens, t, InFlight, i);
    CountAppend(f.tokens, t, PastGate, i);
  }

  /** Unless it is late, an attempt only ever moves a waiting execution to a run. */
  lemma TakeMoves(f: Flight, e: Exec, now: int, i: Uuid)
    requires Timed(f, now) && e in f.wire && i !in Take(f, e, now).late
    ensures Outstanding(Take(f, e, now), i) == Outstanding(f, i)
    ensures PastTheGate(Take(f, e, now), i) == PastTheGate(f, i)
  {
    var f' := Take(f, e, now);
    if !(e in f.locks && now < f.locks[e]) {
      CountAppend(f.tokens, Run(e.task, e), InFlight, i);
      CountAppend(f.tokens, Run(e.task, e), PastGate, i);
      assert Waiting(f') == Waiting(f) - {e};
      ExecsOfRemove(Waiting(f), e, i);
    }
  }

  predicate ClaimOf(step: Step, i: Uuid) {
    (step.ClaimDue? || step.ClaimByHook?) && step.id == i
  }

  /** The task's own execution ends with this step and writes its row. */
  predicate OwnWrite(s: Sys, step: Step, i: Uuid)
    requires Named(s, step)
  {
    match step
    case Dispatch(k, outcome) =>
      s.flight.tokens[k].task == i && !(GatePassed(s.flight.tokens[k].row) && outcome.Published?)
    case Finish(k, _) => s.flight.tokens[k].task == i
    case _ => false
  }

  /** How one step changes the number of outstanding executions of a task. */
  lemma OutstandingAfter(s: Sys, step: Step, i: Uuid)
    requires Timed(s.flight, s.now) && Enabled(s, step) && i !in FlightAfter(s, step).late
    ensures Outstanding(FlightAfter(s, step), i)
            <= Outstanding(s.flight, i) + (if ClaimOf(step, i) then 1 else if OwnWrite(s, step, i) then -1 else 0)
    ensures !step.Accept? ==> PastTheGate(FlightAfter(s, step), i) <= PastTheGate(s.flight, i)
  {
    match step
    case ClaimDue(id, worker) => LaunchMoves(s.flight, Notice(id, s.tasks[id].user, worker), i);
    case ClaimByHook(id, worker) => LaunchMoves(s.flight, Hook(id, Claim(worker).On(s.tasks[id])), i);
    case Lose(k) => DropMoves(s.flight, k, i);
    case Accept(k) => AcceptMoves(s, k, i);
    case Dispatch(k, _) =>
      DropMoves(s.flight, k, i);
      PublishMoves(s.flight, k, s.now, i);
    case Attempt(e, _, _) =>
      if e.task in s.tasks && !IsRouter(s.tasks[e.task].def) { TakeMoves(s.flight, e, s.now, i); }
    case Finish(k, _) => DropMoves(s.flight, k, i);
    case _ =>
  }

  /** What the gate and the claim look at is unchanged. */
  predicate SameRow(a: Task, b: Task) {
    a.status == b.status && a.approval == b.approval && SameGate(a.def, b.def)
  }

  predicate Redefines(s: Sys, step: Step, i: Uuid) {
    step.Redefine? && step.id == i && Owns(s.tasks, step.user, i) && !SameGate(s.tasks[i].def, step.def)
  }

  lemma EditsAreAccounted(s: Sys, step: Step)
    requires Named(s, step) && EditOf(s, step).Some?
    ensures var id := EditOf(s, step).value.id;
            ClaimOf(step, id) || OwnWrite(s, step, id) || id in WrittenFromOutside(s, step)
  {
  }

  /** Only claims, the task's own execution, outside writes and re-definitions change what a row's gate depends on. */
  lemma RowFrame(s: Sys, step: Step, i: Uuid)
    requires Named(s, step) && i in s.tasks && i in TasksAfter(s, step) && !(step.Create? && step.id == i)
    requires !ClaimOf(step, i) && !OwnWrite(s, step, i) && i !in WrittenFromOutside(s, step)
    requires !Redefines(s, step, i)
    ensures SameRow(s.tasks[i], TasksAfter(s, step)[i])
  {
    if EditOf(s, step).Some? {
      EditsAreAccounted(s, step);
    }
  }

  /** On one row: the definition keeps its gate, and only an approval approves. */
  predicate Tame(before: Tasks, after: Tasks, i: Uuid, approves: bool) {
    i in before && i in after ==>
      && SameGate(before[i].def, after[i].def)
      && (after[i].approval == Approved ==> approves || before[i].approval == Approved)
  }

  predicate Approves(statement: Statement) {
    (statement.SetApproval? || statement.SetApprovalAndRun?) && statement.approval == Approved
  }

  lemma StatementsAreTame(statement: Statement, t: Task)
    ensures SameGate(t.def, statement.On(t).def)
    ensures statement.On(t).approval == Approved ==> Approves(statement) || t.approval == Approved
  {
  }

  lemma OnlyApprovalApproves(s: Sys, step: Step)
    requires Named(s, step) && EditOf(s, step).Some? && Approves(EditOf(s, step).value.statement)
    ensures step.Approve? && step.id == EditOf(s, step).value.id
  {
  }

  lemma EditsAreTame(s: Sys, step: Step, i: Uuid)
    requires Named(s, step) && EditOf(s, step).Some?
    ensures Tame(s.tasks, TasksAfter(s, step), i, step.Approve? && step.id == i)
  {
    var edit := EditOf(s, step).value;
    if i in s.tasks {
      StatementsAreTame(edit.statement, s.tasks[i]);
    }
    if Approves(edit.statement) {
      OnlyApprovalApproves(s, step);
    }
  }

  lemma RoutingIsTame(tasks: Tasks, router: Uuid, dependents: seq<Branching>, key: string, target: Uuid, now: int, i: Uuid)
    ensures Tame(tasks, RouteTasks(tasks, router, dependents, key, now), i, false)
    ensures Tame(tasks, RouteByHand(tasks, router, target, now), i, false)
  {
  }

  lemma BulkIsTame(tasks: Tasks, before: int, worker: string, id: Uuid, i: Uuid)
    ensures Tame(tasks, Reaped(tasks, before), i, false) && Tame(tasks, Reverted(tasks, worker), i, false)
    ensures Tame(tasks, DeleteRow(tasks, id), i, false)
  {
  }

  lemma FailureIsTame(tasks: Tasks, id: Uuid, snapshot: Task, now: int, i: Uuid)
    ensures Tame(tasks, FailDispatch(tasks, id, snapshot, now), i, false)
    ensures Tame(tasks, CountFailure(tasks, id), i, false)
  {
  }

  /** No statement edits the approval gate of a row, and only its approval approves it. */
  lemma StepsAreTame(s: Sys, step: Step, i: Uuid)
    requires Named(s, step) && !Redefines(s, step, i) && !(step.Create? && step.id == i)
    ensures Tame(s.tasks, TasksAfter(s, step), i, step.Approve? && step.id == i && Owns(s.tasks, step.user, i))
  {
    if EditOf(s, step).Some? {
      EditsAreTame(s, step, i);
    } else {
      match step
      case RouterEnd(k, Choice(key)) =>
        RoutingIsTame(s.tasks, s.routers[k].task, s.routers[k].dependents, key, NIL, s.now, i);
      case ManualRoute(source, target, _) => RoutingIsTame(s.tasks, source, [], "", target, s.now, i);
      case Dispatch(k, _) =>
        FailureIsTame(s.tasks, s.flight.tokens[k].task, s.flight.tokens[k].row, s.now, i);
      case Finish(k, _) => FailureIsTame(s.tasks, s.flight.tokens[k].task, Inserted(PLAIN, "", 0), s.now, i);
      case Delete(id, _) => BulkIsTame(s.tasks, 0, "", id, i);
      case Reap(before) => BulkIsTame(s.tasks, before, "", NIL, i);
      case Revert(worker) => BulkIsTame(s.tasks, 0, worker, NIL, i);
      case _ =>
    }
  }

  lemma OutsideDisturbs(s: Sys, step: Step, i: Uuid)
    requires Named(s, step)
    ensures s.disturbed <= DisturbedAfter(s, step) && s.flight.late <= FlightAfter(s, step).late
    ensures Redefines(s, step, i) ==> i in DisturbedAfter(s, step)
    ensures Outstanding(s.flight, i) > 0 && i in WrittenFromOutside(s, step) ==> i in DisturbedAfter(s, step)
  {
  }

  lemma QuietBefore(s: Sys, step: Step, i: Uuid)
    requires Enabled(s, step) && Quiet(Apply(s, step), i) && i in s.tasks
    ensures Quiet(s, i) && !Redefines(s, step, i)
    ensures Outstanding(s.flight, i) > 0 ==> i !in WrittenFromOutside(s, step)
    ensures SameGate(s.tasks[i].def, TasksAfter(s, step)[i].def)
  {
    OutsideDisturbs(s, step, i);
    StepsAreTame(s, step, i);
  }

  lemma FreshIsQuiet(s: Sys, step: Step, i: Uuid)
    requires Enabled(s, step) && i !in s.tasks && i in TasksAfter(s, step)
    ensures step.Create? && step.id == i && Outstanding(s.flight, i) == 0 && PastTheGate(s.flight, i) == 0
  {
    assert step.Create? && step.id == i;
    CountNone(s.flight.tokens, InFlight, i);
    CountNone(s.flight.tokens, PastGate, i);
    assert ExecsOf(Waiting(s.flight), i) == {};
  }

  lemma ClaimableBefore(s: Sys, step: Step, i: Uuid)
    requires Enabled(s, step) && ClaimOf(step, i)
    ensures s.tasks[i].status != Processing && TasksAfter(s, step)[i].status == Processing
    ensures TasksAfter(s, step)[i].approval == s.tasks[i].approval
  {
  }

  lemma StaysExclusive(s: Sys, step: Step, i: Uuid)
    requires Timed(s.flight, s.now) && Exclusive(s, i) && Enabled(s, step)
    ensures Exclusive(Apply(s, step), i)
  {
    var s' := Apply(s, step);
    if Quiet(s', i) {
      if i !in s.tasks {
        FreshIsQuiet(s, step, i);
      } else {
        QuietBefore(s, step, i);
        OutstandingAfter(s, step, i);
        if ClaimOf(step, i) {
          ClaimableBefore(s, step, i);
        } else if Outstanding(s'.flight, i) > 0 {
          RowFrame(s, step, i);
        }
      }
    }
  }

  lemma NoTokens(f: Flight, kind: Kind, i: Uuid)
    requires Outstanding(f, i) == 0
    ensures PastTheGate(f, i) == 0
    ensures forall t :: t in f.tokens ==> t.task != i
  {
    KindsNest(f.tokens, i);
    forall t | t in f.tokens
      ensures t.task != i
    {
      var k :| 0 <= k < |f.tokens| && f.tokens[k] == t;
      if t.task == i { CountPositive(f.tokens, k, InFlight, i); }
    }
  }

  /** The row snapshots that tokens of task i carry are the row's own as far as the gate goes. */
  ghost predicate Current(tokens: seq<Token>, row: Task, i: Uuid) {
    forall t :: t in tokens && t.task == i && (t.Hook? || t.Job?) ==>
      t.row.def.requiresApproval && t.row.approval == row.approval
  }

  lemma TokensOfDrop(f: Flight, k: nat, t: Token)
    requires k < |f.tokens| && t in Drop(f, k).tokens
    ensures t in f.tokens
  {
  }

  lemma TokensOfTake(f: Flight, e: Exec, now: int, t: Token)
    requires t in Take(f, e, now).tokens && !t.Run?
    ensures t in f.tokens
  {
  }

  lemma TokensOfAccept(s: Sys, k: nat, t: Token)
    requires k < |s.flight.tokens| && t in AcceptToken(s, k).tokens && !t.Run?
    ensures t in s.flight.tokens
            || (t.Job? && t.task in s.tasks && t.row == s.tasks[t.task])
            || (t.Job? && Hook(t.task, t.row) in s.flight.tokens)
  {
    if s.flight.tokens[k].Notice? && !Dispatchable(s, s.flight.tokens[k]) {
      TokensOfDrop(s.flight, k, t);
    } else {
      var i :| 0 <= i < |AcceptToken(s, k).tokens| && AcceptToken(s, k).tokens[i] == t;
      assert s.flight.tokens[i] in s.flight.tokens;
    }
  }

  lemma Origins(s: Sys, step: Step, t: Token)
    requires Named(s, step) && t in FlightAfter(s, step).tokens && (t.Hook? || t.Job?)
    ensures t in s.flight.tokens
            || (step.ClaimByHook? && t == Hook(step.id, Claim(step.worker).On(s.tasks[step.id])))
            || (step.Accept? && t.task in s.tasks && t.row == s.tasks[t.task])
            || (step.Accept? && Hook(t.task, t.row) in s.flight.tokens)
  {
    match step
    case Lose(k) => TokensOfDrop(s.flight, k, t);
    case Accept(k) => TokensOfAccept(s, k, t);
    case Dispatch(k, _) => TokensOfDrop(s.flight, k, t);
    case Attempt(e, _, _) =>
      if e.task in s.tasks && !IsRouter(s.tasks[e.task].def) { TokensOfTake(s.flight, e, s.now, t); }
    case Finish(k, _) => TokensOfDrop(s.flight, k, t);
    case _ =>
  }

  lemma CurrentAfter(s: Sys, step: Step, i: Uuid)
    requires Enabled(s, step) && i in s.tasks && i in TasksAfter(s, step)
    requires s.tasks[i].def.requiresApproval && Current(s.flight.tokens, s.tasks[i], i)
    requires s.tasks[i].approval == TasksAfter(s, step)[i].approval
    ensures Current(FlightAfter(s, step).tokens, TasksAfter(s, step)[i], i)
  {
    forall t | t in FlightAfter(s, step).tokens && t.task == i && (t.Hook? || t.Job?)
      ensures t.row.def.requiresApproval && t.row.approval == s.tasks[i].approval
    {
      Origins(s, step, t);
    }
  }

  lemma CompletionIsOwn(s: Sys, step: Step)
    requires Named(s, step) && Completing(s, step).Some?
    ensures OwnWrite(s, step, Completing(s, step).value.id)
    ensures Matches(s.flight.tokens[step.index], PastGate, Completing(s, step).value.id)
  {
  }

  lemma CompletionResets(s: Sys, step: Step)
    requires Named(s, step) && Completing(s, step).Some?
    ensures var i := Completing(s, step).value.id;
            i in s.tasks && s.tasks[i].def.requiresApproval ==> TasksAfter(s, step)[i].approval == Pending
  {
  }

  lemma AccountAfter(s: Sys, step: Step, i: Uuid)
    requires Named(s, step) && i in s.tasks && i in TasksAfter(s, step) && s.tasks[i].def.requiresApproval
    requires !Redefines(s, step, i) && !(step.Create? && step.id == i)
    requires PastTheGate(s.flight, i) > 0 ==> s.tasks[i].approval == Approved
    requires Get(s.completions, i) + (if s.tasks[i].approval == Approved then 1 else 0) <= Get(s.approvals, i)
    ensures var s' := Apply(s, step);
            Get(s'.completions, i) + (if s'.tasks[i].approval == Approved then 1 else 0) <= Get(s'.approvals, i)
  {
    StepsAreTame(s, step, i);
    if Completing(s, step).Some? && Completing(s, step).value.id == i {
      CompletionIsOwn(s, step);
      CompletionResets(s, step);
      CountPositive(s.flight.tokens, step.index, PastGate, i);
    }
  }

  lemma AcceptedIsApproved(s: Sys, k: nat, i: Uuid)
    requires k < |s.flight.tokens| && (s.flight.tokens[k].Notice? || s.flight.tokens[k].Hook?)
    requires i in s.tasks && s.tasks[i].def.requiresApproval
    requires Current(s.flight.tokens, s.tasks[i], i) && (PastTheGate(s.flight, i) > 0 ==> s.tasks[i].approval == Approved)
    ensures PastTheGate(AcceptToken(s, k), i) > 0 ==> s.tasks[i].approval == Approved
  {
    var f, f' := s.flight, AcceptToken(s, k);
    if f.tokens[k].Hook? || Dispatchable(s, f.tokens[k]) {
      assert f.tokens[k] in f.tokens;
      CountReplace(f.tokens, k, f'.tokens[k], PastGate, i);
    } else {
      DropMoves(f, k, i);
    }
  }

  lemma StaysGated(s: Sys, step: Step, i: Uuid)
    requires Timed(s.flight, s.now) && Exclusive(s, i) && Gated(s, i) && Enabled(s, step)
    ensures Gated(Apply(s, step), i)
  {
    var s' := Apply(s, step);
    if Quiet(s', i) && s'.tasks[i].def.requiresApproval {
      if i !in s.tasks {
        FreshIsQuiet(s, step, i);
      } else {
        QuietBefore(s, step, i);
        AccountAfter(s, step, i);
        OutstandingAfter(s, step, i);
        if Outstanding(s'.flight, i) == 0 {
          NoTokens(s'.flight, InFlight, i);
        } else if ClaimOf(step, i) {
          ClaimableBefore(s, step, i);
          NoTokens(s.flight, InFlight, i);
          CurrentAfter(s, step, i);
        } else {
          RowFrame(s, step, i);
          CurrentAfter(s, step, i);
          if step.Accept? { AcceptedIsApproved(s, step.index, i); }
        }
      }
    }
  }

  // ----- Every trigger is paid for by a completion of the parent -----

  /** Triggers done, triggers to come and selections to come never exceed the parent's completions. */
  ghost predicate Balanced(done: map<Edge, nat>, triggers: seq<Edge>, fanouts: seq<Uuid>, completions: Tally, edge: Edge) {
    Get(done, edge) + multiset(triggers)[edge] + multiset(fanouts)[edge.parent] <= Get(completions, edge.parent)
  }

  ghost predicate Paid(s: Sys, edge: Edge) {
    Balanced(s.triggered, s.triggers, s.fanouts, s.completions, edge)
  }

  lemma WithoutMultiset<T>(q: seq<T>, k: nat)
    requires k < |q|
    ensures multiset(Without(q, k)) == multiset(q) - multiset{q[k]}
  {
    assert q == q[..k] + [q[k]] + q[k + 1..];
  }

  lemma {:induction false} EdgesOnce(parent: Uuid, children: seq<Uuid>, edge: Edge)
    requires NoDuplicates(children)
    ensures multiset(EdgesFrom(parent, children))[edge] <= (if edge.parent == parent then 1 else 0)
  {
    if children != [] {
      var n := |children| - 1;
      EdgesOnce(parent, children[..n], edge);
      assert EdgesFrom(parent, children) == EdgesFrom(parent, children[..n]) + [Edge(parent, children[n])];
      assert Edge(parent, children[n]) !in EdgesFrom(parent, children[..n]);
    }
  }

  lemma SelectBalances(done: map<Edge, nat>, triggers: seq<Edge>, fanouts: seq<Uuid>, completions: Tally, edge: Edge,
                       k: nat, chosen: seq<Uuid>)
    requires Balanced(done, triggers, fanouts, completions, edge) && k < |fanouts| && NoDuplicates(chosen)
    ensures Balanced(done, triggers + EdgesFrom(fanouts[k], chosen), Without(fanouts, k), completions, edge)
  {
    EdgesOnce(fanouts[k], chosen, edge);
    WithoutMultiset(fanouts, k);
  }

  lemma TriggerBalances(done: map<Edge, nat>, triggers: seq<Edge>, fanouts: seq<Uuid>, completions: Tally, edge: Edge,
                        k: nat)
    requires Balanced(done, triggers, fanouts, completions, edge) && k < |triggers|
    ensures Balanced(Inc(done, triggers[k]), Without(triggers, k), fanouts, completions, edge)
  {
    WithoutMultiset(triggers, k);
  }

  lemma CompletionBalances(done: map<Edge, nat>, triggers: seq<Edge>, fanouts: seq<Uuid>, completions: Tally, edge: Edge,
                           id: Uuid)
    requires Balanced(done, triggers, fanouts, completions, edge)
    ensures Balanced(done, triggers, fanouts + [id], Inc(completions, id), edge)
  {
  }

  lemma StaysPaid(s: Sys, step: Step, edge: Edge)
    requires Paid(s, edge) && Named(s, step) && (step.Select? ==> NoDuplicates(step.chosen))
    ensures Paid(Apply(s, step), edge)
  {
    if step.Select? {
      SelectBalances(s.triggered, s.triggers, s.fanouts, s.completions, edge, step.index, step.chosen);
      assert TriggersAfter(s, step) == s.triggers + EdgesFrom(s.fanouts[step.index], step.chosen);
    } else if step.Trigger? {
      TriggerBalances(s.triggered, s.triggers, s.fanouts, s.completions, edge, step.index);
      assert TriggersAfter(s, step) == Without(s.triggers, step.index);
    } else {
      assert TriggersAfter(s, step) == s.triggers;
      if Completing(s, step).Some? {
        CompletionBalances(s.triggered, s.triggers, s.fanouts, s.completions, edge, Completing(s, step).value.id);
      }
    }
  }

  // ----- Whole runs -----

  ghost predicate Safe(s: Sys, i: Uuid, edge: Edge) {
    RowsOk(s.tasks) && Timed(s.flight, s.now) && Conserved(s.flight, i) && Exclusive(s, i) && Gated(s, i) && Paid(s, edge)
  }

  lemma StaysSafe(s: Sys, step: Step, i: Uuid, edge: Edge)
    requires Safe(s, i, edge) && Enabled(s, step)
    ensures Safe(Apply(s, step), i, edge)
  {
    RowsStayOk(s, step);
    StaysConserved(s, step, i);
    StaysExclusive(s, step, i);
    StaysGated(s, step, i);
    StaysPaid(s, step, edge);
  }

  lemma {:induction false} SafeThroughout(s: Sys, steps: seq<Step>, i: Uuid, edge: Edge)
    requires Safe(s, i, edge) && IsRun(s, steps)
    ensures Safe(After(s, steps), i, edge)
    decreases |steps|
  {
    if steps != [] {
      StaysSafe(s, steps[0], i, edge);
      SafeThroughout(Apply(s, steps[0]), steps[1..], i, edge);
    }
  }

  lemma AlwaysSafe(now: int, steps: seq<Step>, i: Uuid, edge: Edge)
    requires IsRun(Initial(now), steps)
    ensures Safe(After(Initial(now), steps), i, edge)
  {
    assert ExecsOf({}, i) == {};
    SafeThroughout(Initial(now), steps, i, edge);
  }

  /** In every run, the LLM is asked about a task at most once per message and per claim of it, as long as no connection
      acts on one of its messages later than LOCK_TTL after the dispatch, or while it is a router. */
  lemma SamplingsNeverExceedClaims(now: int, steps: seq<Step>, i: Uuid)
    requires IsRun(Initial(now), steps)
    ensures var f := After(Initial(now), steps).flight;
            && Get(f.published, i) <= Get(f.claims, i)
            && (i !in f.late && i !in f.routed ==> Get(f.samplings, i) <= Get(f.published, i))
  {
    AlwaysSafe(now, steps, i, Edge(i, i));
    var f := After(Initial(now), steps).flight;
    ExecsOfMonotone(f.locks.Keys, f.wire, i);
  }

  /** A task nobody interfered with during an execution never has two executions under way, and while it has one its
      row is processing. */
  lemma OneExecutionAtATime(now: int, steps: seq<Step>, i: Uuid)
    requires IsRun(Initial(now), steps) && Quiet(After(Initial(now), steps), i)
    ensures var s := After(Initial(now), steps);
            Outstanding(s.flight, i) <= 1 && (Outstanding(s.flight, i) == 1 ==> s.tasks[i].status == Processing)
  {
    AlwaysSafe(now, steps, i, Edge(i, i));
  }

  /** For such a task that needs approval, completions plus executions past the gate never exceed approvals. */
  lemma ApprovalPaysForExecution(now: int, steps: seq<Step>, i: Uuid)
    requires IsRun(Initial(now), steps) && Quiet(After(Initial(now), steps), i)
    requires After(Initial(now), steps).tasks[i].def.requiresApproval
    ensures var s := After(Initial(now), steps);
            Get(s.completions, i) + PastTheGate(s.flight, i) <= Get(s.approvals, i)
  {
    AlwaysSafe(now, steps, i, Edge(i, i));
    KindsNest(After(Initial(now), steps).flight.tokens, i);
  }

  /** Whoever writes the row of task i from outside its execution finds it not processing; its approval gate and its
      type are not edited, and no connection acts late on its messages. */
  ghost predicate WrittenAtRest(s: Sys, steps: seq<Step>, i: Uuid)
    requires IsRun(s, steps)
    decreases |steps|
  {
    && i !in s.flight.late && (i in s.tasks ==> !IsRouter(s.tasks[i].def))
    && (steps == [] ||
        (&& (i in WrittenFromOutside(s, steps[0]) ==> i in s.tasks && s.tasks[i].status != Processing)
         && !Redefines(s, steps[0], i)
         && WrittenAtRest(Apply(s, steps[0]), steps[1..], i)))
  }

  lemma RestingIsUndisturbed(s: Sys, step: Step, i: Uuid)
    requires Named(s, step) && Exclusive(s, i) && i !in s.disturbed && i !in s.flight.late && !Redefines(s, step, i)
    requires i in s.tasks ==> !IsRouter(s.tasks[i].def)
    requires i in WrittenFromOutside(s, step) ==> i in s.tasks && s.tasks[i].status != Processing
    ensures i !in DisturbedAfter(s, step)
  {
  }

  lemma {:induction false} NeverDisturbed(s: Sys, steps: seq<Step>, i: Uuid)
    requires Safe(s, i, Edge(i, i)) && i !in s.disturbed && IsRun(s, steps) && WrittenAtRest(s, steps, i)
    ensures i !in After(s, steps).disturbed && i !in After(s, steps).flight.late
    ensures i in After(s, steps).tasks ==> !IsRouter(After(s, steps).tasks[i].def)
    decreases |steps|
  {
    if steps != [] {
      RestingIsUndisturbed(s, steps[0], i);
      StaysSafe(s, steps[0], i, Edge(i, i));
      NeverDisturbed(Apply(s, steps[0]), steps[1..], i);
    }
  }

  /** If approvals, denials and all other outside writes reach a task only while it is not processing, each completion
      and each execution past the gate has its own approval, and executions never overlap. */
  lemma WritesAtRestKeepTheGate(now: int, steps: seq<Step>, i: Uuid)
    requires IsRun(Initial(now), steps) && WrittenAtRest(Initial(now), steps, i)
    requires i in After(Initial(now), steps).tasks
    ensures var s := After(Initial(now), steps);
            && Outstanding(s.flight, i) <= 1
            && (s.tasks[i].def.requiresApproval ==>
                  Get(s.completions, i) + PastTheGate(s.flight, i) <= Get(s.approvals, i))
  {
    AlwaysSafe(now, [], i, Edge(i, i));
    NeverDisturbed(Initial(now), steps, i);
    OneExecutionAtATime(now, steps, i);
    if After(Initial(now), steps).tasks[i].def.requiresApproval {
      ApprovalPaysForExecution(now, steps, i);
    }
  }

  /** processing implies locked, locked implies processing or active, halted implies that manual routing is open. */
  lemma StatusAndLockAgree(now: int, steps: seq<Step>, i: Uuid)
    requires IsRun(Initial(now), steps) && i in After(Initial(now), steps).tasks
    ensures RowOk(After(Initial(now), steps).tasks[i])
  {
    AlwaysSafe(now, steps, i, Edge(i, i));
  }

  /** Whatever the dependency graph, cycles included: a child is triggered at most once per completion of its parent. */
  lemma TriggersNeverExceedCompletions(now: int, steps: seq<Step>, edge: Edge)
    requires IsRun(Initial(now), steps)
    ensures var s := After(Initial(now), steps); Get(s.triggered, edge) <= Get(s.completions, edge.parent)
  {
    AlwaysSafe(now, steps, edge.parent, edge);
  }

  // ----- Every completion is paid for by a claim -----

  ghost predicate Spent(s: Sys, i: Uuid) {
    i !in s.flight.late ==> Get(s.completions, i) + Outstanding(s.flight, i) <= Get(s.flight.claims, i)
  }

  lemma ClaimsCounted(s: Sys, step: Step, i: Uuid)
    requires Named(s, step)
    ensures Get(FlightAfter(s, step).claims, i) == Get(s.flight.claims, i) + (if ClaimOf(step, i) then 1 else 0)
  {
  }

  lemma StaysSpent(s: Sys, step: Step, i: Uuid)
    requires Timed(s.flight, s.now) && Spent(s, i) && Enabled(s, step)
    ensures Spent(Apply(s, step), i)
  {
    ClaimsCounted(s, step, i);
    OutsideDisturbs(s, step, i);
    if i !in FlightAfter(s, step).late {
      OutstandingAfter(s, step, i);
      if Completing(s, step).Some? && Completing(s, step).value.id == i {
        CompletionIsOwn(s, step);
      }
    }
  }

  lemma {:induction false} SpentThroughout(s: Sys, steps: seq<Step>, i: Uuid)
    requires Safe(s, i, Edge(i, i)) && Spent(s, i) && IsRun(s, steps)
    ensures Spent(After(s, steps), i)
    decreases |steps|
  {
    if steps != [] {
      StaysSafe(s, steps[0], i, Edge(i, i));
      StaysSpent(s, steps[0], i);
      SpentThroughout(Apply(s, steps[0]), steps[1..], i);
    }
  }

  /** Unless a connection acted late on one of its messages, a task's completions and its executions under way never
      exceed its claims, whatever else writes its row. */
  lemma CompletionsNeverExceedClaims(now: int, steps: seq<Step>, i: Uuid)
    requires IsRun(Initial(now), steps) && i !in After(Initial(now), steps).flight.late
    ensures var s := After(Initial(now), steps);
            Get(s.completions, i) + Outstanding(s.flight, i) <= Get(s.flight.claims, i)
  {
    AlwaysSafe(now, [], i, Edge(i, i));
    assert ExecsOf({}, i) == {};
    SpentThroughout(Initial(now), steps, i);
  }

  predicate AtRest(status: Status) {
    status == Paused || status == Completed || status == Error || status == Halted
  }

  /** Scheduler claims, reaps, shutdown reverts and the triggering of a row that is still active. */
  predicate Engine(s: Sys, step: Step) {
    || step.ClaimDue? || step.Reap? || step.Revert?
    || (step.Trigger? && step.index < |s.triggers| && s.triggers[step.index].child in s.tasks
        && s.tasks[s.triggers[step.index].child].status == Active)
  }

  lemma RestersStay(s: Sys, step: Step, i: Uuid)
    requires Named(s, step) && Engine(s, step) && i in s.tasks && RowOk(s.tasks[i]) && AtRest(s.tasks[i].status)
    requires step.ClaimDue? ==> s.tasks[step.id].status == Active
    ensures TasksAfter(s, step)[i] == s.tasks[i]
  {
  }

  /** They move no paused, completed, failed or halted task, in any reachable state. */
  lemma TasksAtRestStay(now: int, steps: seq<Step>, step: Step, i: Uuid)
    requires IsRun(Initial(now), steps)
    requires var s := After(Initial(now), steps);
             Enabled(s, step) && Engine(s, step) && i in s.tasks && AtRest(s.tasks[i].status)
    ensures var s := After(Initial(now), steps); TasksAfter(s, step)[i] == s.tasks[i]
  {
    AlwaysSafe(now, steps, i, Edge(i, i));
    RestersStay(After(Initial(now), steps), step, i);
  }

  /** A selected child that is no longer active when its turn comes is started all the same. */
  lemma StaleTriggerMovesTask(s: Sys, k: nat)
    requires Enabled(s, Trigger(k)) && s.triggers[k].child in s.tasks
    ensures var i := s.triggers[k].child;
            TasksAfter(s, Trigger(k))[i].status == s.tasks[i].status <==> s.tasks[i].status == Active
  {
  }
}
