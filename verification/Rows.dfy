/** The rows of the `tasks` table, and the single-row effect of every UPDATE statement on it. */
module Rows {

  datatype Option<+T> = None | Some(value: T)

  datatype Result<+T, +E> = Ok(value: T) | Err(error: E)

  type Byte = n: nat | n < 256

  /** The 16 bytes of a `uuid` column. */
  type Uuid = b: seq<Byte> | |b| == 16 witness [0, 0, 0, 0, 0, 0, 0, 0, 0, 0, 0, 0, 0, 0, 0, 0]

  const NIL: Uuid := [0, 0, 0, 0, 0, 0, 0, 0, 0, 0, 0, 0, 0, 0, 0, 0]

  // One integer clock, in nanoseconds.
  const SECOND: int := 1_000_000_000
  const MINUTE: int := 60 * SECOND

  /** The largest value of an integer column: beyond it PostgreSQL refuses the statement. */
  const MAX_INT: int := 0x7fff_ffff

  /** The values the CHECK constraint on `status` admits. */
  datatype Status = Active | Paused | Processing | Completed | Error | Halted

  /** `last_approval_status`; `Unset` is NULL. */
  datatype Approval = Unset | Pending | Approved | Denied | NeedsRouting | ManualRouted

  datatype TriggerType = Cron | Interval | Date

  datatype Policy = Skip | RunImmediately

  datatype TaskType = McpSampling | NativeAction | DecisionRouter | SwarmRouter

  /** `branch_condition` after JSON decoding. */
  datatype Branch = NoBranch | Malformed(raw: string) | Fields(fields: map<string, string>)

  /** The fourteen columns that `task_versions` records. */
  datatype Definition = Definition(
    name: string,
    triggerType: TriggerType,
    triggerConfig: string,
    agentPrompt: string,
    missedPolicy: Policy,
    dependsOn: Option<Uuid>,
    requiresApproval: bool,
    triggerOnCompletion: bool,
    taskType: TaskType,
    nativeCode: Option<string>,
    branch: Branch,
    loopCondition: Option<string>,
    isBundleRoot: bool,
    swarmConfig: Option<string>)

  /** A task that asks for nothing special. */
  const PLAIN: Definition :=
    Definition("", Interval, "", "", RunImmediately, None, false, false, McpSampling, None, NoBranch, None, false, None)

  datatype Task = Task(
    def: Definition,
    user: string,
    status: Status,
    lockedBy: Option<string>,
    nextRun: int,
    lastRun: Option<int>,
    failureCount: int,
    retryCount: int,
    maxRetries: int,
    exponential: bool,
    approval: Approval,
    uiCoordinates: Option<string>)

  type Tasks = map<Uuid, Task>

  predicate IsRouter(def: Definition) {
    def.taskType == DecisionRouter || def.taskType == SwarmRouter
  }

  /** `WHERE id = $1 AND user_id = $2` */
  predicate Owns(tasks: Tasks, user: string, id: Uuid) {
    id in tasks && tasks[id].user == user
  }

  /** A column holding a Go map lookup `cond["key"]`: absent keys read as the empty string. */
  function FieldOf(fields: map<string, string>, key: string): string {
    if key in fields then fields[key] else ""
  }

  /** What `CreateTask` inserts: every column it does not name takes its default. */
  function Inserted(def: Definition, user: string, nextRun: int): Task {
    Task(def, user, Active, None, nextRun, None, 0, 0, 0, false, Unset, None)
  }

  /** The SET clauses of the UPDATE statements that touch one task row. */
  datatype Statement =
    | Claim(worker: string)                                      // fn_claim_due_tasks, ClaimTaskByID
    | SetStatus(status: Status)                                  // UpdateTaskStatus, UpdateTaskStatusByUserID
    | SetStatusAndRun(status: Status, at: int)                   // UpdateTaskStatusAndLastRun
    | SetApproval(approval: Approval, status: Status)            // UpdateTaskApprovalStatus
    | SetApprovalAndRun(approval: Approval, status: Status, at: int)  // UpdateTaskApprovalStatusAndLastRun
    | SetNextRun(status: Status, next: int)                      // UpdateTaskNextRun
    | SetCounters(status: Status, failures: int, retries: int)   // UpdateTaskStatusAndFailureCount
    | IncrementFailures                                          // IncrementTaskFailureCount
    | ResetFailures(status: Status)                              // ResetTaskFailureCount: the lock is not cleared
    | CompleteTask(next: int, status: Status, at: int)           // fn_complete_task
    | Unlock                                                     // ReapStuckTasks, RevertProcessingTasks
  {
    function On(t: Task): Task {
      match this
      case Claim(worker) => t.(status := Processing, lockedBy := Some(worker))
      case SetStatus(status) => t.(status := status, lockedBy := None)
      case SetStatusAndRun(status, at) => t.(status := status, lockedBy := None, lastRun := Some(at))
      case SetApproval(approval, status) => t.(approval := approval, status := status, lockedBy := None)
      case SetApprovalAndRun(approval, status, at) =>
        t.(approval := approval, status := status, lockedBy := None, lastRun := Some(at))
      case SetNextRun(status, next) => t.(status := status, lockedBy := None, nextRun := next)
      case SetCounters(status, failures, retries) =>
        t.(status := status, lockedBy := None, failureCount := failures, retryCount := retries)
      case IncrementFailures => if t.failureCount < MAX_INT then t.(failureCount := t.failureCount + 1) else t
      case ResetFailures(status) => t.(status := status, failureCount := 0)
      case CompleteTask(next, status, at) =>
        t.(status := status, lockedBy := None, lastRun := Some(at), failureCount := 0, retryCount := 0,
           nextRun := next, approval := if t.def.requiresApproval then Pending else t.approval)
      case Unlock => t.(status := Active, lockedBy := None)
    }
  }

  /** `UPDATE tasks SET ... WHERE id = $n`: no such row, no effect. */
  function Update(tasks: Tasks, id: Uuid, statement: Statement): Tasks {
    if id in tasks then tasks[id := statement.On(tasks[id])] else tasks
  }

  /** `... WHERE id = $n AND user_id = $m` */
  function UpdateOwned(tasks: Tasks, user: string, id: Uuid, statement: Statement): Tasks {
    if Owns(tasks, user, id) then Update(tasks, id, statement) else tasks
  }

  /** ReapStuckTasks */
  function Reaped(tasks: Tasks, before: int): Tasks {
    map i | i in tasks ::
      if tasks[i].status == Processing && tasks[i].nextRun < before then Unlock.On(tasks[i]) else tasks[i]
  }

  /** RevertProcessingTasks: it looks at the lock only, never at the status. */
  function Reverted(tasks: Tasks, worker: string): Tasks {
    map i | i in tasks :: if tasks[i].lockedBy == Some(worker) then Unlock.On(tasks[i]) else tasks[i]
  }

  /** Go's `int32` and `int64` addition and multiplication wrap around. */
  function Wrap32(x: int): int { (x + 0x8000_0000) % 0x1_0000_0000 - 0x8000_0000 }

  function Wrap64(x: int): int { (x + 0x8000_0000_0000_0000) % 0x1_0000_0000_0000_0000 - 0x8000_0000_0000_0000 }

  /** A foreign key with ON DELETE SET NULL: the row goes, and its children forget it. */
  function DeleteRow(tasks: Tasks, id: Uuid): Tasks {
    map j | j in tasks && j != id ::
      if tasks[j].def.dependsOn == Some(id) then tasks[j].(def := tasks[j].def.(dependsOn := None)) else tasks[j]
  }

  // What GetDependentTasksToTrigger selects for a completed parent.
  predicate Triggerable(tasks: Tasks, parent: Uuid, child: Uuid) {
    && parent in tasks && child in tasks
    && tasks[child].def.dependsOn == Some(parent)
    && tasks[child].def.triggerOnCompletion
    && tasks[child].status == Active
    && tasks[child].user == tasks[parent].user
  }

  predicate OccursAt(text: string, part: string, at: int) {
    0 <= at <= |text| - |part| && text[at..at + |part|] == part
  }

  predicate Contains(text: string, part: string) {
    exists at :: 0 <= at <= |text| && OccursAt(text, part, at)
  }

  /** `evaluateBranchCondition`: anything but a well-formed "contains" lets the child through. */
  predicate BranchMet(branch: Branch, parentOutput: string) {
    match branch
    case NoBranch => true
    case Malformed(_) => true
    case Fields(fields) =>
      if FieldOf(fields, "if") == "contains" then Contains(parentOutput, FieldOf(fields, "value")) else true
  }

  function Get<K>(tally: map<K, nat>, key: K): nat {
    if key in tally then tally[key] else 0
  }

  function Inc<K>(tally: map<K, nat>, key: K): map<K, nat> {
    tally[key := Get(tally, key) + 1]
  }

  predicate NoDuplicates<T(==)>(s: seq<T>) {
    forall i, j :: 0 <= i < j < |s| ==> s[i] != s[j]
  }
}
