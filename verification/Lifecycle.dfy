/**
 The task protocol as a state machine: any number of workers, connections, reapers and users, any interleaving.
 A step is one statement, or one uninterrupted group of statements, of the server. A batch claim is the
 succession of its rows' claims.
 */
module Lifecycle {
  import opened Rows
  import opened Retry

  /** The life of the `lock:exec:` key. */
  const LOCK_TTL: int := 5 * MINUTE

  const FAILURE_LIMIT: int := 3

  /** An execution id, "<task>-<nanoseconds at dispatch>". */
  datatype Exec = Exec(task: Uuid, nanos: int)

  /** What one claim turns into on its way to one sampling. */
  datatype Token =
    | Notice(task: Uuid, user: string, worker: string)  // a NOTIFY payload not yet handled
    | Hook(task: Uuid, row: Task)                       // a row an inbound webhook claimed, not yet dispatched
    | Job(task: Uuid, row: Task, exec: Exec)            // handleDispatchTask working on the row it read
    | Run(task: Uuid, exec: Exec)                       // past the execution lock, waiting for the LLM

  /** A router run holds the dependents it read before it asked the LLM. */
  datatype Branching = Branching(id: Uuid, branch: Branch)

  datatype RouterRun = RouterRun(task: Uuid, dependents: seq<Branching>)

  datatype Edge = Edge(parent: Uuid, child: Uuid)

  type Tally = map<Uuid, nat>

  /** Executions on their way: tokens, published messages and execution locks, with what has happened so far. */
  datatype Flight = Flight(
    tokens: seq<Token>,
    wire: set<Exec>,            // executions published to the user's connections
    locks: map<Exec, int>,      // execution locks and when they expire
    claims: Tally,
    published: Tally,
    samplings: Tally,           // requests to the LLM
    late: set<Uuid>,            // some connection acted on a message of the task after the lock's lifetime
    routed: set<Uuid>)          // some connection acted on a message of the task while it was a router

  datatype Sys = Sys(
    now: int,
    tasks: Tasks,
    flight: Flight,
    routers: seq<RouterRun>,
    fanouts: seq<Uuid>,         // completed tasks whose dependents are not selected yet
    triggers: seq<Edge>,        // dependents selected for a parent, not yet made due
    dlq: seq<Uuid>,
    approvals: Tally,
    completions: Tally,
    triggered: map<Edge, nat>,
    disturbed: set<Uuid>)       // the row was overwritten from outside during an execution, or redefined

  function Initial(now: int): Sys {
    Sys(now, map[], Flight([], {}, map[], map[], map[], map[], {}, {}), [], [], [], [], map[], map[], map[], {})
  }

  /** What becomes of a dispatch that passed the approval gate; `next` is calculateNextRun's answer. */
  datatype Outcome =
    | Offline(next: Option<int>)
    | Failed
    | NativeDone(again: bool, next: Option<int>)
    | Published

  datatype Answer =
    | SamplingFailed
    | SamplingDone(again: bool, isDate: bool, next: Option<int>)

  datatype Verdict = Stuck | NoChoice | Choice(key: string)

  datatype Step =
    | Tick(elapsed: nat)
    | Create(id: Uuid, def: Definition, user: string, nextRun: int)
    | Delete(id: Uuid, user: string)
    | Redefine(id: Uuid, user: string, def: Definition)
    | ClaimDue(id: Uuid, worker: string)
    | ClaimByHook(id: Uuid, worker: string)
    | Lose(index: nat)
    | Accept(index: nat)
    | Dispatch(index: nat, outcome: Outcome)
    | Attempt(exec: Exec, dependents: seq<Branching>, requests: nat)  // the last two only matter to routers
    | Finish(index: nat, answer: Answer)
    | RouterEnd(index: nat, verdict: Verdict)
    | Select(index: nat, chosen: seq<Uuid>)
    | Trigger(index: nat)
    | Reap(before: int)
    | Revert(worker: string)
    | Pause(id: Uuid, user: string)
    | Resume(id: Uuid, user: string)
    | ResumeTool(id: Uuid, user: string)
    | Approve(id: Uuid, user: string)
    | Deny(id: Uuid, user: string)
    | ManualRoute(source: Uuid, target: Uuid, user: string)

  // ----- Executions in flight -----

  datatype Kind = BeforePublish | InFlight | PastGate

  predicate GatePassed(row: Task) {
    row.def.requiresApproval ==> row.approval == Approved
  }

  predicate Matches(t: Token, kind: Kind, id: Uuid) {
    t.task == id &&
    match kind
    case BeforePublish => !t.Run?
    case InFlight => true
    case PastGate => t.Run? || (t.Job? && GatePassed(t.row))
  }

  function Count(tokens: seq<Token>, kind: Kind, id: Uuid): nat {
    if tokens == [] then 0
    else Count(tokens[..|tokens| - 1], kind, id) + (if Matches(tokens[|tokens| - 1], kind, id) then 1 else 0)
  }

  function ExecsOf(execs: set<Exec>, id: Uuid): set<Exec> {
    set e | e in execs && e.task == id
  }

  /** Published, and no connection has taken it yet. */
  function Waiting(f: Flight): set<Exec> {
    f.wire - f.locks.Keys
  }

  /** Executions of one task that may still reach, or have reached, the LLM. */
  function Outstanding(f: Flight, id: Uuid): nat {
    Count(f.tokens, InFlight, id) + |ExecsOf(Waiting(f), id)|
  }

  /** Those of them that the approval gate let through. */
  function PastTheGate(f: Flight, id: Uuid): nat {
    Count(f.tokens, PastGate, id) + |ExecsOf(Waiting(f), id)|
  }

  function Without<T>(q: seq<T>, k: nat): seq<T>
    requires k < |q|
  {
    q[..k] + q[k + 1..]
  }

  /** A claim and its wake-up, in one transaction. */
  function Launch(f: Flight, t: Token): Flight {
    f.(tokens := f.tokens + [t], claims := Inc(f.claims, t.task))
  }

  function Drop(f: Flight, k: nat): Flight
    requires k < |f.tokens|
  {
    f.(tokens := Without(f.tokens, k))
  }

  function Publish(f: Flight, k: nat): Flight
    requires k < |f.tokens| && f.tokens[k].Job?
  {
    f.(tokens := Without(f.tokens, k),
       wire := f.wire + {f.tokens[k].exec},
       published := Inc(f.published, f.tokens[k].task))
  }

  /** `SET lock:exec:<id> NX EX 300`, and the sampling that follows when it succeeds. */
  function Take(f: Flight, e: Exec, now: int): Flight {
    var f' := if now >= e.nanos + LOCK_TTL then f.(late := f.late + {e.task}) else f;
    if e in f.locks && now < f.locks[e] then f'
    else f'.(tokens := f.tokens + [Run(e.task, e)],
             locks := f.locks[e := now + LOCK_TTL],
             samplings := Inc(f.samplings, e.task))
  }

  /** A router asks as often as it has to, without taking the lock. */
  function Ask(f: Flight, id: Uuid, requests: nat): Flight {
    f.(samplings := f.samplings[id := Get(f.samplings, id) + requests], routed := f.routed + {id})
  }

  /** The three personas and the judge of a decision router; a swarm asks its council, nobody when the council is empty
      or its configuration unreadable. */
  predicate AsksFor(def: Definition, requests: nat) {
    def.taskType == DecisionRouter ==> requests == 4
  }

  // ----- What a step writes, table by table -----

  predicate Dispatchable(s: Sys, notice: Token)
    requires notice.Notice?
  {
    && notice.task in s.tasks
    && s.tasks[notice.task].user == notice.user
    && s.tasks[notice.task].status == Processing
    && s.tasks[notice.task].lockedBy == Some(notice.worker)
  }

  predicate CanRoute(tasks: Tasks, source: Uuid, target: Uuid, user: string) {
    && Owns(tasks, user, source) && tasks[source].approval == NeedsRouting
    && Owns(tasks, user, target) && tasks[target].def.dependsOn == Some(source)
  }

  predicate IsDependent(tasks: Tasks, router: Uuid, d: Branching) {
    d.id in tasks && tasks[d.id].def.dependsOn == Some(router) && tasks[d.id].def.branch == d.branch
  }

  /** Never mentioned so far: what gen_random_uuid returns. */
  predicate Fresh(s: Sys, id: Uuid) {
    && id !in s.tasks && id !in s.completions && id !in s.flight.late && id !in s.disturbed
    && (forall t :: t in s.flight.tokens ==> t.task != id)
    && (forall e :: e in s.flight.wire ==> e.task != id)
    && (forall r :: r in s.routers ==> r.task != id)
  }

  /** What a step names exists. */
  predicate Named(s: Sys, step: Step) {
    var tokens := s.flight.tokens;
    match step
    case ClaimDue(id, _) => id in s.tasks
    case ClaimByHook(id, _) => id in s.tasks
    case Lose(k) => k < |tokens|
    case Accept(k) => k < |tokens|
    case Dispatch(k, _) => k < |tokens| && tokens[k].Job?
    case Finish(k, _) => k < |tokens| && tokens[k].Run?
    case RouterEnd(k, _) => k < |s.routers|
    case Select(k, _) => k < |s.fanouts|
    case Trigger(k) => k < |s.triggers|
    case _ => true
  }

  /** When a step can happen at all; the code checks everything else itself. */
  predicate Enabled(s: Sys, step: Step) {
    Named(s, step) &&
    match step
    case Create(id, _, _, _) => Fresh(s, id)
    case ClaimDue(id, _) => s.tasks[id].status == Active && s.tasks[id].nextRun <= s.now
    case ClaimByHook(id, _) => s.tasks[id].status == Active || s.tasks[id].status == Paused
    case Accept(k) => s.flight.tokens[k].Notice? || s.flight.tokens[k].Hook?
    case Dispatch(k, outcome) =>
      && (outcome.NativeDone? ==> s.flight.tokens[k].row.def.taskType == NativeAction)
      && (outcome.Published? ==> s.flight.tokens[k].row.def.taskType != NativeAction)
    case Attempt(e, dependents, requests) =>
      && e in s.flight.wire && (e.task in s.tasks ==> AsksFor(s.tasks[e.task].def, requests))
      && (forall k :: 0 <= k < |dependents| ==> IsDependent(s.tasks, e.task, dependents[k]))
    case Select(k, chosen) =>
      && NoDuplicates(chosen)
      && (forall c :: c in chosen ==> Triggerable(s.tasks, s.fanouts[k], c))
    case _ => true
  }

  /** A call of completeTask. */
  datatype Completion = Completion(id: Uuid, next: int, status: Status)

  /** The next run a successful execution gets; None when calculateNextRun fails. */
  function Reschedule(id: Uuid, again: bool, next: Option<int>, now: int): Option<Completion> {
    if again then Some(Completion(id, now, Active))
    else if next.Some? then Some(Completion(id, next.value, Active))
    else None
  }

  function Completing(s: Sys, step: Step): Option<Completion>
    requires Named(s, step)
  {
    match step
    case Dispatch(k, Offline(next)) =>
      var Job(id, row, _) := s.flight.tokens[k];
      if GatePassed(row) && row.def.missedPolicy == Skip then Reschedule(id, false, next, s.now) else None
    case Dispatch(k, NativeDone(again, next)) =>
      var Job(id, row, _) := s.flight.tokens[k];
      if GatePassed(row) then Reschedule(id, again, next, s.now) else None
    case Finish(k, SamplingDone(again, isDate, next)) =>
      var id := s.flight.tokens[k].task;
      if !again && isDate then Some(Completion(id, s.now, Completed)) else Reschedule(id, again, next, s.now)
    case _ => None
  }

  /** IncrementTaskFailureCount, then error at the limit or active below it; a refused increment counts as none. */
  function CountFailure(tasks: Tasks, id: Uuid): Tasks {
    var failures := if id in tasks && tasks[id].failureCount < MAX_INT then tasks[id].failureCount + 1 else 0;
    Update(Update(tasks, id, IncrementFailures), id, SetStatus(if failures >= FAILURE_LIMIT then Error else Active))
  }

  predicate KeyMatches(branch: Branch, key: string) {
    branch.Fields? && FieldOf(branch.fields, "key") == key
  }

  /** The first dependent whose `key` equals the choice. */
  function FirstMatch(dependents: seq<Branching>, key: string): (k: nat)
    ensures k <= |dependents|
  {
    if dependents == [] then 0
    else if KeyMatches(dependents[0].branch, key) then 0
    else 1 + FirstMatch(dependents[1..], key)
  }

  /** Where the match loop of a router stops; |dependents| when nothing is chosen or nothing matches. */
  function RouteIndex(dependents: seq<Branching>, key: string): (k: nat)
    ensures k <= |dependents|
  {
    if key == "" then |dependents| else FirstMatch(dependents, key)
  }

  function RouteTasks(tasks: Tasks, router: Uuid, dependents: seq<Branching>, key: string, now: int): Tasks {
    var k := RouteIndex(dependents, key);
    if k < |dependents| then
      Update(Update(tasks, dependents[k].id, SetNextRun(Active, now)), router, SetStatusAndRun(Completed, now))
    else
      Update(tasks, router, SetApprovalAndRun(NeedsRouting, Halted, now))
  }

  function RouteByHand(tasks: Tasks, source: Uuid, target: Uuid, now: int): Tasks {
    Update(Update(tasks, target, SetNextRun(Active, now)), source, SetApprovalAndRun(ManualRouted, Completed, now))
  }

  datatype Edit = Edit(id: Uuid, statement: Statement)

  /** The steps that issue one UPDATE on one row. */
  function EditOf(s: Sys, step: Step): Option<Edit>
    requires Named(s, step)
  {
    var completing := Completing(s, step);
    if completing.Some? then
      Some(Edit(completing.value.id, CompleteTask(completing.value.next, completing.value.status, s.now)))
    else match step
      case ClaimDue(id, worker) => Some(Edit(id, Claim(worker)))
      case ClaimByHook(id, worker) => Some(Edit(id, Claim(worker)))
      case Dispatch(k, outcome) =>
        var Job(id, row, _) := s.flight.tokens[k];
        if !GatePassed(row) then Some(Edit(id, SetApproval(Pending, Paused)))
        else if outcome.Offline? && row.def.missedPolicy == RunImmediately then
          Some(Edit(id, SetNextRun(Active, s.now + MINUTE)))
        else None  // under policy skip the pausing UPDATE names no user and matches no row
      case Finish(k, SamplingDone(_, _, _)) => Some(Edit(s.flight.tokens[k].task, SetStatus(Paused)))
      case RouterEnd(k, NoChoice) => Some(Edit(s.routers[k].task, SetApproval(NeedsRouting, Halted)))
      case Trigger(k) => Some(Edit(s.triggers[k].child, SetNextRun(Active, s.now)))
      case _ => UserEdit(s.tasks, step)
  }

  function UserEdit(tasks: Tasks, step: Step): Option<Edit> {
    match step
    case Pause(id, user) => if Owns(tasks, user, id) then Some(Edit(id, SetStatus(Paused))) else None
    case Resume(id, user) => if Owns(tasks, user, id) then Some(Edit(id, SetStatus(Active))) else None
    case ResumeTool(id, user) => if Owns(tasks, user, id) then Some(Edit(id, ResetFailures(Active))) else None
    case Approve(id, user) => if Owns(tasks, user, id) then Some(Edit(id, SetApproval(Approved, Active))) else None
    case Deny(id, user) => if Owns(tasks, user, id) then Some(Edit(id, SetApproval(Denied, Paused))) else None
    case _ => None
  }

  function TasksAfter(s: Sys, step: Step): Tasks
    requires Named(s, step)
  {
    var edit := EditOf(s, step);
    if edit.Some? then Update(s.tasks, edit.value.id, edit.value.statement)
    else match step
      case Create(id, def, user, nextRun) => s.tasks[id := Inserted(def, user, nextRun)]
      case Delete(id, user) => if Owns(s.tasks, user, id) then DeleteRow(s.tasks, id) else s.tasks
      case Redefine(id, user, def) =>
        if Owns(s.tasks, user, id) then s.tasks[id := s.tasks[id].(def := def)] else s.tasks
      case Dispatch(k, Failed) => FailDispatch(s.tasks, s.flight.tokens[k].task, s.flight.tokens[k].row, s.now)
      case Finish(k, SamplingFailed) => CountFailure(s.tasks, s.flight.tokens[k].task)
      case RouterEnd(k, Choice(key)) => RouteTasks(s.tasks, s.routers[k].task, s.routers[k].dependents, key, s.now)
      case Reap(before) => Reaped(s.tasks, before)
      case Revert(worker) => Reverted(s.tasks, worker)
      case ManualRoute(source, target, user) =>
        if CanRoute(s.tasks, source, target, user) then RouteByHand(s.tasks, source, target, s.now) else s.tasks
      case _ => s.tasks
  }

  /** A notice whose row is no longer this worker's is skipped; a webhook dispatches the row it claimed. */
  function AcceptToken(s: Sys, k: nat): Flight
    requires k < |s.flight.tokens|
  {
    var f := s.flight;
    match f.tokens[k]
    case Notice(id, _, _) =>
      if Dispatchable(s, f.tokens[k]) then f.(tokens := f.tokens[k := Job(id, s.tasks[id], Exec(id, s.now))])
      else Drop(f, k)
    case Hook(id, row) => f.(tokens := f.tokens[k := Job(id, row, Exec(id, s.now))])
    case _ => f
  }

  function FlightAfter(s: Sys, step: Step): Flight
    requires Named(s, step)
  {
    match step
    case ClaimDue(id, worker) => Launch(s.flight, Notice(id, s.tasks[id].user, worker))
    case ClaimByHook(id, worker) => Launch(s.flight, Hook(id, Claim(worker).On(s.tasks[id])))
    case Lose(k) => Drop(s.flight, k)
    case Accept(k) => AcceptToken(s, k)
    case Dispatch(k, outcome) =>
      if GatePassed(s.flight.tokens[k].row) && outcome.Published? then Publish(s.flight, k) else Drop(s.flight, k)
    case Attempt(e, _, requests) =>
      if e.task !in s.tasks then s.flight
      else if IsRouter(s.tasks[e.task].def) then Ask(s.flight, e.task, requests)
      else Take(s.flight, e, s.now)
    case Finish(k, _) => Drop(s.flight, k)
    case _ => s.flight
  }

  function RoutersAfter(s: Sys, step: Step): seq<RouterRun>
    requires Named(s, step)
  {
    match step
    case Attempt(e, dependents, requests) =>
      if e.task in s.tasks && IsRouter(s.tasks[e.task].def) && requests > 0 then s.routers + [RouterRun(e.task, dependents)]
      else s.routers
    case RouterEnd(k, _) => Without(s.routers, k)
    case _ => s.routers
  }

  function FanoutsAfter(s: Sys, step: Step): seq<Uuid>
    requires Named(s, step)
  {
    var completing := Completing(s, step);
    if completing.Some? then s.fanouts + [completing.value.id]
    else if step.Select? then Without(s.fanouts, step.index)
    else s.fanouts
  }

  function EdgesFrom(parent: Uuid, children: seq<Uuid>): seq<Edge> {
    seq(|children|, i requires 0 <= i < |children| => Edge(parent, children[i]))
  }

  function TriggersAfter(s: Sys, step: Step): seq<Edge>
    requires Named(s, step)
  {
    match step
    case Select(k, chosen) => s.triggers + EdgesFrom(s.fanouts[k], chosen)
    case Trigger(k) => Without(s.triggers, k)
    case _ => s.triggers
  }

  function DlqAfter(s: Sys, step: Step): seq<Uuid>
    requires Named(s, step)
  {
    match step
    case Dispatch(k, Failed) =>
      var Job(id, row, _) := s.flight.tokens[k];
      if GatePassed(row) && Exhausts(row) then s.dlq + [id] else s.dlq
    case _ => s.dlq
  }

  /** The rows a step writes from outside their own execution. */
  function WrittenFromOutside(s: Sys, step: Step): set<Uuid>
    requires Named(s, step)
  {
    match step
    case RouterEnd(k, NoChoice) => {s.routers[k].task}
    case RouterEnd(k, Choice(key)) =>
      var RouterRun(id, dependents) := s.routers[k];
      var m := RouteIndex(dependents, key);
      if m < |dependents| then {id, dependents[m].id} else {id}
    case Trigger(k) => {s.triggers[k].child}
    case Reap(before) => Changed(s.tasks, Reaped(s.tasks, before))
    case Revert(worker) => Changed(s.tasks, Reverted(s.tasks, worker))
    case ManualRoute(source, target, user) => if CanRoute(s.tasks, source, target, user) then {source, target} else {}
    case _ => if UserEdit(s.tasks, step).Some? then {UserEdit(s.tasks, step).value.id} else {}
  }

  function Changed(before: Tasks, after: Tasks): set<Uuid> {
    set i | i in before && i in after && before[i] != after[i]
  }

  /** An edit that leaves the approval gate and the kind of the task alone. */
  predicate SameGate(before: Definition, after: Definition) {
    before.requiresApproval == after.requiresApproval && before.taskType == after.taskType
  }

  function DisturbedAfter(s: Sys, step: Step): set<Uuid>
    requires Named(s, step)
  {
    if step.Redefine? then
      if Owns(s.tasks, step.user, step.id) && !SameGate(s.tasks[step.id].def, step.def) then s.disturbed + {step.id}
      else s.disturbed
    else
      s.disturbed + set i | i in WrittenFromOutside(s, step) && Outstanding(s.flight, i) > 0
  }

  function Apply(s: Sys, step: Step): Sys
    requires Named(s, step)
  {
    var completing := Completing(s, step);
    Sys(if step.Tick? then s.now + step.elapsed else s.now,
        TasksAfter(s, step),
        FlightAfter(s, step),
        RoutersAfter(s, step),
        FanoutsAfter(s, step),
        TriggersAfter(s, step),
        DlqAfter(s, step),
        if step.Approve? && Owns(s.tasks, step.user, step.id) then Inc(s.approvals, step.id) else s.approvals,
        if completing.Some? then Inc(s.completions, completing.value.id) else s.completions,
        if step.Trigger? then Inc(s.triggered, s.triggers[step.index]) else s.triggered,
        DisturbedAfter(s, step))
  }

  /** Every step can happen when its turn comes. */
  ghost predicate IsRun(s: Sys, steps: seq<Step>)
    decreases |steps|
  {
    steps == [] || (Enabled(s, steps[0]) && IsRun(Apply(s, steps[0]), steps[1..]))
  }

  ghost function After(s: Sys, steps: seq<Step>): Sys
    requires IsRun(s, steps)
    decreases |steps|
  {
    if steps == [] then s else After(Apply(s, steps[0]), steps[1..])
  }

  /** A run and one more step are a run. */
  lemma {:induction false} Extend(s: Sys, steps: seq<Step>, step: Step)
    requires IsRun(s, steps) && Enabled(After(s, steps), step)
    ensures IsRun(s, steps + [step]) && After(s, steps + [step]) == Apply(After(s, steps), step)
    decreases |steps|
  {
    if steps == [] {
      assert [step][1..] == [];
    } else {
      assert (steps + [step])[1..] == steps[1..] + [step];
      Extend(Apply(s, steps[0]), steps[1..], step);
    }
  }
}
