/** Export and import of a user's tasks (task_transfer.go). */
module Transfer {
  import opened Rows
  import opened Database
  import opened Uuids

  datatype TransferTask = TransferTask(
    legacyId: string,
    name: string,
    triggerType: string,
    triggerConfig: string,
    agentPrompt: string,
    missedPolicy: string,
    requiresApproval: bool,
    dependsOn: string,
    triggerOnCompletion: bool,
    taskType: string,
    nativeCode: string,
    branch: Branch,
    isBundleRoot: bool,
    swarmConfig: Option<string>)

  // ----- Columns as text -----

  function TriggerText(t: TriggerType): string {
    match t case Cron => "cron" case Interval => "interval" case Date => "date"
  }

  function TriggerOf(s: string): Option<TriggerType> {
    if s == "cron" then Some(Cron) else if s == "interval" then Some(Interval) else if s == "date" then Some(Date) else None
  }

  function PolicyText(p: Policy): string {
    match p case Skip => "skip" case RunImmediately => "run_immediately"
  }

  /** An empty policy becomes the default; anything unknown is refused by the CHECK constraint. */
  function PolicyOf(s: string): Option<Policy> {
    if s == "" || s == "run_immediately" then Some(RunImmediately) else if s == "skip" then Some(Skip) else None
  }

  function TypeText(t: TaskType): string {
    match t
    case McpSampling => "mcp_sampling"
    case NativeAction => "native_action"
    case DecisionRouter => "decision_router"
    case SwarmRouter => "swarm_router"
  }

  function TypeOf(s: string): Option<TaskType> {
    if s == "" || s == "mcp_sampling" then Some(McpSampling)
    else if s == "native_action" then Some(NativeAction)
    else if s == "decision_router" then Some(DecisionRouter)
    else if s == "swarm_router" then Some(SwarmRouter)
    else None
  }

  function NullIfEmpty(s: string): Option<string> {
    if s == "" then None else Some(s)
  }

  function OrEmpty(s: Option<string>): string {
    if s.Some? then s.value else ""
  }

  // ----- Export -----

  function ExportOne(id: Uuid, def: Definition): TransferTask {
    TransferTask(Text(id), def.name, TriggerText(def.triggerType), def.triggerConfig, def.agentPrompt,
                 PolicyText(def.missedPolicy), def.requiresApproval,
                 if def.dependsOn.Some? then Text(def.dependsOn.value) else "",
                 def.triggerOnCompletion, TypeText(def.taskType), OrEmpty(def.nativeCode), def.branch,
                 def.isBundleRoot, def.swarmConfig)
  }

  function Export(tasks: Tasks, order: seq<Uuid>): (r: seq<TransferTask>)
    requires forall k :: 0 <= k < |order| ==> order[k] in tasks
    ensures |r| == |order| && forall k :: 0 <= k < |order| ==> r[k] == ExportOne(order[k], tasks[order[k]].def)
  {
    seq(|order|, k requires 0 <= k < |order| => ExportOne(order[k], tasks[order[k]].def))
  }

  /** The rows of one user in the order the database returns them. */
  ghost predicate IsListing(tasks: Tasks, user: string, order: seq<Uuid>) {
    NoDuplicates(order) && forall id :: id in order <==> Owns(tasks, user, id)
  }

  // ----- Import -----

  datatype ImportError =
    | NameRequired(index: nat)
    | TriggerRequired(index: nat)
    | BadSchedule(index: nat)     // trigger_config is no object, or calculateNextRun fails
    | CreateFailed(index: nat)    // a CHECK constraint
    | MissingDependency(dependsOn: string, legacyId: string)

  /** The row that CreateTask is asked for: dependency, loop condition and workspace are not passed. */
  function DefinitionOf(t: TransferTask): Option<Definition> {
    var trigger, policy, kind := TriggerOf(t.triggerType), PolicyOf(t.missedPolicy), TypeOf(t.taskType);
    if trigger.None? || policy.None? || kind.None? then None
    else Some(Definition(t.name, trigger.value, t.triggerConfig, t.agentPrompt, policy.value, None, t.requiresApproval,
                         t.triggerOnCompletion, kind.value, NullIfEmpty(t.nativeCode), t.branch, None, t.isBundleRoot,
                         t.swarmConfig))
  }

  /** Why entry `index` is refused; `next` is calculateNextRun's answer for it. */
  function Refusal(t: TransferTask, index: nat, next: Option<int>): Option<ImportError> {
    if t.name == "" then Some(NameRequired(index))
    else if t.triggerType == "" then Some(TriggerRequired(index))
    else if next.None? || TriggerOf(t.triggerType).None? then Some(BadSchedule(index))
    else if DefinitionOf(t).None? then Some(CreateFailed(index))
    else None
  }

  /** A bundle entry once it has been checked: the row it becomes, or why it is refused. */
  datatype Entry = Entry(legacyId: string, dependsOn: string, trigger: bool, row: Result<Task, ImportError>)

  function Check(t: TransferTask, user: string, index: nat, next: Option<int>): Entry {
    var refusal := Refusal(t, index, next);
    Entry(t.legacyId, t.dependsOn, t.triggerOnCompletion,
          if refusal.Some? then Err(refusal.value) else Ok(Inserted(DefinitionOf(t).value, user, next.value)))
  }

  function Checked(batch: seq<TransferTask>, user: string, nexts: seq<Option<int>>): (r: seq<Entry>)
    requires |batch| == |nexts|
    ensures |r| == |batch| && forall k :: 0 <= k < |batch| ==> r[k] == Check(batch[k], user, k, nexts[k])
  {
    seq(|batch|, k requires 0 <= k < |batch| => Check(batch[k], user, k, nexts[k]))
  }

  /** An import under way. */
  datatype Import = Import(tasks: Tasks, created: map<string, Uuid>, error: Option<ImportError>)

  function CreateOne(s: Import, e: Entry, id: Uuid): Import {
    if s.error.Some? then s
    else match e.row
      case Err(refusal) => s.(error := Some(refusal))
      case Ok(row) =>
        s.(tasks := s.tasks[id := row], created := if e.legacyId != "" then s.created[e.legacyId := id] else s.created)
  }

  /** After the first k entries of the first loop. */
  function Creating(tasks: Tasks, entries: seq<Entry>, ids: seq<Uuid>, k: nat): Import
    requires k <= |entries| == |ids|
  {
    if k == 0 then Import(tasks, map[], None)
    else CreateOne(Creating(tasks, entries, ids, k - 1), entries[k - 1], ids[k - 1])
  }

  predicate IsLinked(e: Entry) {
    e.legacyId != "" && e.dependsOn != ""
  }

  function LinkOne(s: Import, user: string, e: Entry): Import {
    if s.error.Some? || !IsLinked(e) || e.legacyId !in s.created then s
    else if e.dependsOn !in s.created then s.(error := Some(MissingDependency(e.dependsOn, e.legacyId)))
    else s.(tasks := LinkRow(s.tasks, user, s.created[e.legacyId], Some(s.created[e.dependsOn]), e.trigger))
  }

  /** After the first k entries of the second loop. */
  function Linking(s: Import, user: string, entries: seq<Entry>, k: nat): Import
    requires k <= |entries|
  {
    if k == 0 then s else LinkOne(Linking(s, user, entries, k - 1), user, entries[k - 1])
  }

  function Imported(tasks: Tasks, user: string, entries: seq<Entry>, ids: seq<Uuid>): Import
    requires |entries| == |ids|
  {
    Linking(Creating(tasks, entries, ids, |entries|), user, entries, |entries|)
  }

  function Answer(s: Import): Result<map<string, string>, ImportError> {
    match s.error
    case Some(e) => Err(e)
    case None => Ok(map legacy | legacy in s.created :: Text(s.created[legacy]))
  }

  /** What gen_random_uuid gives. */
  predicate FreshIds(tasks: Tasks, ids: seq<Uuid>) {
    NoDuplicates(ids) && forall k :: 0 <= k < |ids| ==> ids[k] !in tasks
  }

  // ----- The first loop -----

  predicate AllAccepted(entries: seq<Entry>, k: nat)
    requires k <= |entries|
  {
    forall i :: 0 <= i < k ==> entries[i].row.Ok?
  }

  function LegacyIds(entries: seq<Entry>): set<string> {
    (set e | e in entries :: e.legacyId) - {""}
  }

  /** The base table, and the rows of the first k entries. */
  ghost predicate HoldsRows(s: Import, tasks: Tasks, entries: seq<Entry>, ids: seq<Uuid>, k: nat)
    requires k <= |entries| == |ids| && AllAccepted(entries, k)
  {
    && s.error == None
    && (forall i :: i in s.tasks ==> i in tasks || i in ids[..k])
    && (forall i :: i in tasks ==> i in s.tasks && s.tasks[i] == tasks[i])
    && (forall i :: 0 <= i < k ==> ids[i] in s.tasks && s.tasks[ids[i]] == entries[i].row.value)
  }

  lemma CreateStep(s: Import, tasks: Tasks, entries: seq<Entry>, ids: seq<Uuid>, k: nat)
    requires k < |entries| == |ids| && FreshIds(tasks, ids) && AllAccepted(entries, k + 1)
    requires HoldsRows(s, tasks, entries, ids, k)
    ensures HoldsRows(CreateOne(s, entries[k], ids[k]), tasks, entries, ids, k + 1)
  {
    assert ids[..k + 1] == ids[..k] + [ids[k]];
  }

  /** Accepted entries are rows; nothing else changes. */
  lemma {:induction false} RowsCreated(tasks: Tasks, entries: seq<Entry>, ids: seq<Uuid>, k: nat)
    requires k <= |entries| == |ids| && FreshIds(tasks, ids) && AllAccepted(entries, k)
    ensures HoldsRows(Creating(tasks, entries, ids, k), tasks, entries, ids, k)
  {
    if k > 0 {
      RowsCreated(tasks, entries, ids, k - 1);
      CreateStep(Creating(tasks, entries, ids, k - 1), tasks, entries, ids, k - 1);
    }
  }

  lemma {:induction false} NoErrorYet(tasks: Tasks, entries: seq<Entry>, ids: seq<Uuid>, k: nat)
    requires k <= |entries| == |ids| && AllAccepted(entries, k)
    ensures Creating(tasks, entries, ids, k).error == None
  {
    if k > 0 {
      NoErrorYet(tasks, entries, ids, k - 1);
    }
  }

  lemma KeysGrow(s: Import, e: Entry, id: Uuid)
    requires s.error == None && e.row.Ok?
    ensures CreateOne(s, e, id).created.Keys == s.created.Keys + (if e.legacyId != "" then {e.legacyId} else {})
  {
  }

  lemma LegacyIdsGrow(entries: seq<Entry>, k: nat)
    requires k < |entries|
    ensures LegacyIds(entries[..k + 1])
            == LegacyIds(entries[..k]) + (if entries[k].legacyId != "" then {entries[k].legacyId} else {})
  {
    assert entries[..k + 1] == entries[..k] + [entries[k]];
  }

  lemma {:induction false} IdsRecorded(tasks: Tasks, entries: seq<Entry>, ids: seq<Uuid>, k: nat)
    requires k <= |entries| == |ids| && AllAccepted(entries, k)
    ensures Creating(tasks, entries, ids, k).created.Keys == LegacyIds(entries[..k])
  {
    if k > 0 {
      IdsRecorded(tasks, entries, ids, k - 1);
      NoErrorYet(tasks, entries, ids, k - 1);
      KeysGrow(Creating(tasks, entries, ids, k - 1), entries[k - 1], ids[k - 1]);
      LegacyIdsGrow(entries, k - 1);
    }
  }

  lemma {:induction false} ErrorsStay(tasks: Tasks, entries: seq<Entry>, ids: seq<Uuid>, j: nat, k: nat)
    requires j <= k <= |entries| == |ids| && Creating(tasks, entries, ids, j).error.Some?
    ensures Creating(tasks, entries, ids, k) == Creating(tasks, entries, ids, j)
  {
    if j < k {
      ErrorsStay(tasks, entries, ids, j, k - 1);
    }
  }

  lemma {:induction false} LinkErrorsStay(s: Import, user: string, entries: seq<Entry>, j: nat, k: nat)
    requires j <= k <= |entries| && Linking(s, user, entries, j).error.Some?
    ensures Linking(s, user, entries, k) == Linking(s, user, entries, j)
  {
    if j < k {
      LinkErrorsStay(s, user, entries, j, k - 1);
    }
  }

  lemma RefusalEnds(tasks: Tasks, user: string, entries: seq<Entry>, ids: seq<Uuid>, k: nat)
    requires k < |entries| == |ids| && AllAccepted(entries, k) && entries[k].row.Err?
    ensures Imported(tasks, user, entries, ids)
            == Creating(tasks, entries, ids, k).(error := Some(entries[k].row.error))
  {
    NoErrorYet(tasks, entries, ids, k);
    assert Creating(tasks, entries, ids, k + 1).error.Some?;
    ErrorsStay(tasks, entries, ids, k + 1, |entries|);
    LinkErrorsStay(Creating(tasks, entries, ids, |entries|), user, entries, 0, |entries|);
  }

  /** The first refused entry ends the import; the entries before it stay behind as rows that nobody linked. */
  lemma RefusedImportKeepsRows(tasks: Tasks, user: string, entries: seq<Entry>, ids: seq<Uuid>, k: nat)
    requires k < |entries| == |ids| && FreshIds(tasks, ids) && AllAccepted(entries, k) && entries[k].row.Err?
    ensures var s := Imported(tasks, user, entries, ids);
            && s.error == Some(entries[k].row.error)
            && HoldsRows(s.(error := None), tasks, entries, ids, k)
  {
    RefusalEnds(tasks, user, entries, ids, k);
    RowsCreated(tasks, entries, ids, k);
  }

  // ----- The second loop -----

  predicate DependencyIncluded(e: Entry, legacyIds: set<string>) {
    IsLinked(e) ==> e.dependsOn in legacyIds
  }

  lemma {:induction false} LinkingKeepsCreated(s: Import, user: string, entries: seq<Entry>, k: nat)
    requires k <= |entries|
    ensures Linking(s, user, entries, k).created == s.created
  {
    if k > 0 {
      LinkingKeepsCreated(s, user, entries, k - 1);
    }
  }

  lemma {:induction false} LinksSucceed(s: Import, user: string, entries: seq<Entry>, k: nat)
    requires k <= |entries| && s.error == None
    requires forall i :: 0 <= i < k ==> DependencyIncluded(entries[i], s.created.Keys)
    ensures Linking(s, user, entries, k).error == None
  {
    if k > 0 {
      LinksSucceed(s, user, entries, k - 1);
      LinkingKeepsCreated(s, user, entries, k - 1);
      assert DependencyIncluded(entries[k - 1], s.created.Keys);
    }
  }

  lemma LinkFails(s: Import, user: string, entries: seq<Entry>, i: nat)
    requires i < |entries| && entries[i].legacyId in s.created && !DependencyIncluded(entries[i], s.created.Keys)
    ensures Linking(s, user, entries, |entries|).error.Some?
  {
    LinkingKeepsCreated(s, user, entries, i);
    assert Linking(s, user, entries, i + 1).error.Some?;
    LinkErrorsStay(s, user, entries, i + 1, |entries|);
  }

  lemma {:induction false} FirstRefused(entries: seq<Entry>, n: nat) returns (k: nat)
    requires n <= |entries| && !AllAccepted(entries, n)
    ensures k < n && AllAccepted(entries, k) && entries[k].row.Err?
  {
    if AllAccepted(entries, n - 1) {
      k := n - 1;
    } else {
      k := FirstRefused(entries, n - 1);
    }
  }

  /** An import succeeds iff every entry is accepted and every entry that names a parent finds it in the bundle. */
  lemma ImportSucceedsIff(tasks: Tasks, user: string, entries: seq<Entry>, ids: seq<Uuid>)
    requires |entries| == |ids|
    ensures Answer(Imported(tasks, user, entries, ids)).Ok?
            <==> AllAccepted(entries, |entries|)
                 && forall i :: 0 <= i < |entries| ==> DependencyIncluded(entries[i], LegacyIds(entries))
  {
    if AllAccepted(entries, |entries|) {
      var s := Creating(tasks, entries, ids, |entries|);
      NoErrorYet(tasks, entries, ids, |entries|);
      IdsRecorded(tasks, entries, ids, |entries|);
      assert entries[..|entries|] == entries;
      if forall i :: 0 <= i < |entries| ==> DependencyIncluded(entries[i], LegacyIds(entries)) {
        LinksSucceed(s, user, entries, |entries|);
      } else {
        var i :| 0 <= i < |entries| && !DependencyIncluded(entries[i], LegacyIds(entries));
        assert entries[i] in entries;
        LinkFails(s, user, entries, i);
      }
    } else {
      var k := FirstRefused(entries, |entries|);
      RefusalEnds(tasks, user, entries, ids, k);
    }
  }

  // ----- Distinct legacy ids -----

  predicate DistinctLegacyIds(entries: seq<Entry>) {
    && (forall i :: 0 <= i < |entries| ==> entries[i].legacyId != "")
    && (forall i, j :: 0 <= i < j < |entries| ==> entries[i].legacyId != entries[j].legacyId)
  }

  lemma {:induction false} CreatedMap(tasks: Tasks, entries: seq<Entry>, ids: seq<Uuid>, k: nat)
    requires k <= |entries| == |ids| && AllAccepted(entries, k) && DistinctLegacyIds(entries)
    ensures var created := Creating(tasks, entries, ids, k).created;
            forall i :: 0 <= i < k ==> entries[i].legacyId in created && created[entries[i].legacyId] == ids[i]
  {
    if k > 0 {
      CreatedMap(tasks, entries, ids, k - 1);
      NoErrorYet(tasks, entries, ids, k - 1);
    }
  }

  /** The row an entry ends up as. */
  function FinalRow(e: Entry, created: map<string, Uuid>): Task
    requires e.row.Ok?
  {
    var t := e.row.value;
    if e.dependsOn == "" || e.dependsOn !in created then t
    else t.(def := t.def.(dependsOn := Some(created[e.dependsOn]), triggerOnCompletion := e.trigger))
  }

  /** What can be said of the k-th step of the second loop. */
  ghost predicate Linked(s: Import, base: Tasks, entries: seq<Entry>, ids: seq<Uuid>, t: Import, k: nat)
    requires |entries| == |ids| && AllAccepted(entries, |entries|)
  {
    && t.error == None && t.created == s.created
    && (forall i :: i in base ==> i in t.tasks && t.tasks[i] == base[i])
    && (forall i :: 0 <= i < |entries| ==> ids[i] in t.tasks)
    && (forall i :: 0 <= i < |entries| && i < k ==> t.tasks[ids[i]] == FinalRow(entries[i], s.created))
    && (forall i :: k <= i < |entries| ==> t.tasks[ids[i]] == entries[i].row.value)
  }

  lemma LinkedFinally(t: Import, user: string, e: Entry, id: Uuid, created: map<string, Uuid>)
    requires e.legacyId != "" && e.legacyId in created && created[e.legacyId] == id && t.created == created
    requires t.error == None && e.row.Ok? && e.row.value.user == user && id in t.tasks && t.tasks[id] == e.row.value
    requires e.dependsOn != "" ==> e.dependsOn in created
    ensures var t' := LinkOne(t, user, e);
            && t'.error == None && t'.created == created && t'.tasks == t.tasks[id := FinalRow(e, created)]
  {
  }

  lemma LinkStep(s: Import, base: Tasks, user: string, entries: seq<Entry>, ids: seq<Uuid>, t: Import, k: nat)
    requires k < |entries| == |ids| && FreshIds(base, ids) && AllAccepted(entries, |entries|)
    requires entries[k].dependsOn != "" ==> entries[k].dependsOn in s.created
    requires entries[k].legacyId != "" && entries[k].legacyId in s.created && s.created[entries[k].legacyId] == ids[k]
    requires entries[k].row.value.user == user && Linked(s, base, entries, ids, t, k)
    ensures Linked(s, base, entries, ids, LinkOne(t, user, entries[k]), k + 1)
  {
    LinkedFinally(t, user, entries[k], ids[k], s.created);
  }

  /** Every entry is on record under its own id. */
  ghost predicate Recorded(created: map<string, Uuid>, entries: seq<Entry>, ids: seq<Uuid>)
    requires |entries| == |ids|
  {
    forall i :: 0 <= i < |entries| ==>
      entries[i].legacyId != "" && entries[i].legacyId in created && created[entries[i].legacyId] == ids[i]
  }

  /** What the second loop starts from, when its first n entries find their parents. */
  ghost predicate Ready(s: Import, base: Tasks, user: string, entries: seq<Entry>, ids: seq<Uuid>, n: nat) {
    && |entries| == |ids| && FreshIds(base, ids) && AllAccepted(entries, |entries|) && n <= |entries|
    && Recorded(s.created, entries, ids)
    && (forall i :: 0 <= i < |entries| ==> entries[i].row.value.user == user)
    && (forall i :: 0 <= i < n && entries[i].dependsOn != "" ==> entries[i].dependsOn in s.created)
  }

  lemma LinkingStep(s: Import, base: Tasks, user: string, entries: seq<Entry>, ids: seq<Uuid>, n: nat, k: nat)
    requires Ready(s, base, user, entries, ids, n) && k < n
    requires Linked(s, base, entries, ids, Linking(s, user, entries, k), k)
    ensures Linked(s, base, entries, ids, Linking(s, user, entries, k + 1), k + 1)
  {
    LinkStep(s, base, user, entries, ids, Linking(s, user, entries, k), k);
  }

  lemma LinkingLinks(s: Import, base: Tasks, user: string, entries: seq<Entry>, ids: seq<Uuid>, n: nat)
    requires Ready(s, base, user, entries, ids, n) && Linked(s, base, entries, ids, s, 0)
    ensures Linked(s, base, entries, ids, Linking(s, user, entries, n), n)
  {
    assert Linking(s, user, entries, 0) == s;
    for k := 0 to n
      invariant Linked(s, base, entries, ids, Linking(s, user, entries, k), k)
    {
      LinkingStep(s, base, user, entries, ids, n, k);
    }
  }

  lemma RowsLinked(s: Import, base: Tasks, user: string, entries: seq<Entry>, ids: seq<Uuid>, n: nat)
    requires n <= |entries| == |ids| && FreshIds(base, ids) && AllAccepted(entries, |entries|)
    requires DistinctLegacyIds(entries) && s == Creating(base, entries, ids, |entries|)
    requires forall i :: 0 <= i < |entries| ==> entries[i].row.value.user == user
    requires forall i :: 0 <= i < n && entries[i].dependsOn != "" ==> entries[i].dependsOn in s.created
    ensures Linked(s, base, entries, ids, Linking(s, user, entries, n), n)
  {
    RowsCreated(base, entries, ids, |entries|);
    CreatedMap(base, entries, ids, |entries|);
    LinkingLinks(s, base, user, entries, ids, n);
  }

  /** The first parent that the bundle lacks ends the import; all rows stay behind, those before it linked, the others
      not. */
  lemma FailedLinkKeepsRows(base: Tasks, user: string, entries: seq<Entry>, ids: seq<Uuid>, k: nat)
    requires k < |entries| == |ids| && FreshIds(base, ids) && AllAccepted(entries, |entries|)
    requires DistinctLegacyIds(entries) && forall i :: 0 <= i < |entries| ==> entries[i].row.value.user == user
    requires forall i :: 0 <= i < k ==> DependencyIncluded(entries[i], LegacyIds(entries))
    requires !DependencyIncluded(entries[k], LegacyIds(entries))
    ensures var s, t := Creating(base, entries, ids, |entries|), Imported(base, user, entries, ids);
            && t.error == Some(MissingDependency(entries[k].dependsOn, entries[k].legacyId))
            && Linked(s, base, entries, ids, t.(error := None), k)
  {
    var s := Creating(base, entries, ids, |entries|);
    IdsRecorded(base, entries, ids, |entries|);
    CreatedMap(base, entries, ids, |entries|);
    assert entries[..|entries|] == entries;
    forall i | 0 <= i < k && entries[i].dependsOn != ""
      ensures entries[i].dependsOn in s.created
    {
      assert DependencyIncluded(entries[i], LegacyIds(entries));
    }
    RowsLinked(s, base, user, entries, ids, k);
    LinkEnds(s, user, entries, k);
  }

  lemma LinkEnds(s: Import, user: string, entries: seq<Entry>, k: nat)
    requires k < |entries| && Linking(s, user, entries, k).error == None
    requires entries[k].legacyId != "" && entries[k].legacyId in s.created && !DependencyIncluded(entries[k], s.created.Keys)
    ensures Linking(s, user, entries, |entries|)
            == Linking(s, user, entries, k).(error := Some(MissingDependency(entries[k].dependsOn, entries[k].legacyId)))
  {
    LinkingKeepsCreated(s, user, entries, k);
    assert Linking(s, user, entries, k + 1).error.Some?;
    LinkErrorsStay(s, user, entries, k + 1, |entries|);
  }

  // ----- Export, then import -----

  /** Every parent is exported as well. */
  predicate Closed(tasks: Tasks, order: seq<Uuid>) {
    forall k :: 0 <= k < |order| ==>
      order[k] in tasks && (tasks[order[k]].def.dependsOn.Some? ==> tasks[order[k]].def.dependsOn.value in order)
  }

  /** What travels: all but the loop condition, and empty native code reads as none. */
  function Carried(def: Definition, parent: Option<Uuid>): Definition {
    def.(dependsOn := parent, loopCondition := None, nativeCode := NullIfEmpty(OrEmpty(def.nativeCode)))
  }

  /** Names are never empty, and the schedules are still accepted. */
  predicate Importable(tasks: Tasks, order: seq<Uuid>, nexts: seq<Option<int>>) {
    |nexts| == |order| &&
    forall k :: 0 <= k < |order| ==> order[k] in tasks && tasks[order[k]].def.name != "" && nexts[k].Some?
  }

  /** The entries that an export is read back as. */
  function Bundle(source: Tasks, order: seq<Uuid>, user: string, nexts: seq<Option<int>>): seq<Entry>
    requires Importable(source, order, nexts)
  {
    Checked(Export(source, order), user, nexts)
  }

  function ParentText(parent: Option<Uuid>): string {
    if parent.Some? then Text(parent.value) else ""
  }

  lemma ExportedDefinition(id: Uuid, def: Definition)
    ensures DefinitionOf(ExportOne(id, def)) == Some(Carried(def, None))
  {
  }

  lemma ExportNotRefused(id: Uuid, def: Definition, index: nat, next: int)
    requires def.name != ""
    ensures Refusal(ExportOne(id, def), index, Some(next)) == None
  {
    ExportedDefinition(id, def);
  }

  lemma BundleEntry(source: Tasks, order: seq<Uuid>, user: string, nexts: seq<Option<int>>, k: nat)
    requires Importable(source, order, nexts) && k < |order|
    ensures var def := source[order[k]].def;
            Bundle(source, order, user, nexts)[k]
            == Entry(Text(order[k]), ParentText(def.dependsOn), def.triggerOnCompletion,
                     Ok(Inserted(Carried(def, None), user, nexts[k].value)))
  {
    ExportedDefinition(order[k], source[order[k]].def);
    ExportNotRefused(order[k], source[order[k]].def, k, nexts[k].value);
  }

  /** One premise for all that follows. */
  ghost predicate Transferable(source: Tasks, order: seq<Uuid>, target: Tasks, ids: seq<Uuid>, nexts: seq<Option<int>>) {
    && NoDuplicates(order) && Closed(source, order) && Importable(source, order, nexts)
    && |ids| == |order| && FreshIds(target, ids)
  }

  lemma BundleIsSound(source: Tasks, order: seq<Uuid>, target: Tasks, user: string, ids: seq<Uuid>, nexts: seq<Option<int>>)
    requires Transferable(source, order, target, ids, nexts)
    ensures var entries := Bundle(source, order, user, nexts);
            && |entries| == |order| && AllAccepted(entries, |entries|) && DistinctLegacyIds(entries)
            && (forall k :: 0 <= k < |entries| ==>
                  entries[k].row.value == Inserted(Carried(source[order[k]].def, None), user, nexts[k].value))
            && (forall k :: 0 <= k < |entries| ==>
                  entries[k].legacyId == Text(order[k])
                  && entries[k].dependsOn == ParentText(source[order[k]].def.dependsOn)
                  && entries[k].trigger == source[order[k]].def.triggerOnCompletion)
  {
    var entries := Bundle(source, order, user, nexts);
    forall k | 0 <= k < |entries|
      ensures entries[k] == Entry(Text(order[k]), ParentText(source[order[k]].def.dependsOn),
                                  source[order[k]].def.triggerOnCompletion,
                                  Ok(Inserted(Carried(source[order[k]].def, None), user, nexts[k].value)))
    {
      BundleEntry(source, order, user, nexts, k);
    }
    forall i, j | 0 <= i < j < |order|
      ensures Text(order[i]) != Text(order[j])
    {
      FormatInjective(order[i], order[j]);
    }
  }

  /** All of an import but its rows' parents. */
  ghost predicate Sound(s: Import, source: Tasks, order: seq<Uuid>, target: Tasks, user: string, ids: seq<Uuid>,
                        nexts: seq<Option<int>>)
    requires Importable(source, order, nexts) && |ids| == |order|
  {
    && s.error == None
    && (forall i :: i in target ==> i in s.tasks && s.tasks[i] == target[i])
    && (forall i :: 0 <= i < |order| ==> Text(order[i]) in s.created && s.created[Text(order[i])] == ids[i])
    && (forall i :: 0 <= i < |order| ==> ids[i] in s.tasks)
    && (forall i :: 0 <= i < |order| ==>
          var def := source[order[i]].def;
          && (def.dependsOn.Some? ==> Text(def.dependsOn.value) in s.created)
          && s.tasks[ids[i]] == Inserted(Carried(def, NewParent(def.dependsOn, s.created)), user, nexts[i].value))
  }

  function NewParent(parent: Option<Uuid>, created: map<string, Uuid>): Option<Uuid>
    requires parent.Some? ==> Text(parent.value) in created
  {
    if parent.Some? then Some(created[Text(parent.value)]) else None
  }

  lemma ParentsCreated(source: Tasks, order: seq<Uuid>, target: Tasks, user: string, ids: seq<Uuid>,
                       nexts: seq<Option<int>>)
    requires Transferable(source, order, target, ids, nexts)
    ensures var entries := Bundle(source, order, user, nexts);
            var s := Creating(target, entries, ids, |entries|);
            && (forall k :: 0 <= k < |order| ==> Text(order[k]) in s.created && s.created[Text(order[k])] == ids[k])
            && (forall k :: 0 <= k < |entries| && entries[k].dependsOn != "" ==> entries[k].dependsOn in s.created)
  {
    var entries := Bundle(source, order, user, nexts);
    BundleIsSound(source, order, target, user, ids, nexts);
    CreatedMap(target, entries, ids, |entries|);
    forall k | 0 <= k < |order|
      ensures Text(order[k]) in Creating(target, entries, ids, |entries|).created
      ensures Creating(target, entries, ids, |entries|).created[Text(order[k])] == ids[k]
    {
      assert entries[k].legacyId == Text(order[k]);
    }
    forall k | 0 <= k < |entries| && entries[k].dependsOn != ""
      ensures entries[k].dependsOn in Creating(target, entries, ids, |entries|).created
    {
      var j :| 0 <= j < |order| && order[j] == source[order[k]].def.dependsOn.value;
      assert entries[j].legacyId == entries[k].dependsOn;
    }
  }

  lemma LinkedRow(e: Entry, def: Definition, id: Uuid, user: string, next: int, created: map<string, Uuid>)
    requires e == Entry(Text(id), ParentText(def.dependsOn), def.triggerOnCompletion,
                        Ok(Inserted(Carried(def, None), user, next)))
    requires e.dependsOn != "" ==> e.dependsOn in created
    ensures def.dependsOn.Some? ==> Text(def.dependsOn.value) in created
    ensures FinalRow(e, created) == Inserted(Carried(def, NewParent(def.dependsOn, created)), user, next)
  {
  }

  lemma ImportIsSound(source: Tasks, order: seq<Uuid>, target: Tasks, user: string, ids: seq<Uuid>,
                      nexts: seq<Option<int>>)
    requires Transferable(source, order, target, ids, nexts)
    ensures Sound(Imported(target, user, Bundle(source, order, user, nexts), ids), source, order, target, user, ids, nexts)
  {
    var entries := Bundle(source, order, user, nexts);
    var s := Creating(target, entries, ids, |entries|);
    BundleIsSound(source, order, target, user, ids, nexts);
    ParentsCreated(source, order, target, user, ids, nexts);
    RowsLinked(s, target, user, entries, ids, |entries|);
    forall i | 0 <= i < |order|
      ensures var def := source[order[i]].def;
              && (def.dependsOn.Some? ==> Text(def.dependsOn.value) in s.created)
              && FinalRow(entries[i], s.created)
                 == Inserted(Carried(def, NewParent(def.dependsOn, s.created)), user, nexts[i].value)
    {
      BundleEntry(source, order, user, nexts, i);
      LinkedRow(entries[i], source[order[i]].def, order[i], user, nexts[i].value, s.created);
    }
  }

  /** Same definition as far as it is carried, and the same edges. */
  ghost predicate RowMatches(source: Tasks, order: seq<Uuid>, target: Tasks, ids: seq<Uuid>, i: nat)
    requires i < |order| == |ids| && order[i] in source
  {
    ids[i] in target &&
    var parent, parent' := source[order[i]].def.dependsOn, target[ids[i]].def.dependsOn;
    && target[ids[i]].def == Carried(source[order[i]].def, parent')
    && (parent.None? <==> parent'.None?)
    && (forall j :: 0 <= j < |order| ==> (parent == Some(order[j]) <==> parent' == Some(ids[j])))
  }

  lemma RowFollows(s: Import, source: Tasks, order: seq<Uuid>, target: Tasks, user: string, ids: seq<Uuid>,
                   nexts: seq<Option<int>>, i: nat)
    requires Transferable(source, order, target, ids, nexts) && i < |order|
    requires Sound(s, source, order, target, user, ids, nexts)
    ensures RowMatches(source, order, s.tasks, ids, i)
  {
    var parent := source[order[i]].def.dependsOn;
    if parent.Some? {
      var m :| 0 <= m < |order| && order[m] == parent.value;
      assert s.created[Text(order[m])] == ids[m];
      assert s.tasks[ids[i]].def.dependsOn == Some(ids[m]);
    }
  }

  /** Export of a closed set of tasks and import anywhere, under any user: accepted, isomorphic to the original under
      the returned map, and every other row untouched. */
  lemma ExportThenImport(source: Tasks, order: seq<Uuid>, target: Tasks, user: string, ids: seq<Uuid>,
                         nexts: seq<Option<int>>)
    requires Transferable(source, order, target, ids, nexts)
    ensures var s := Imported(target, user, Bundle(source, order, user, nexts), ids);
            && Answer(s).Ok?
            && (forall i :: 0 <= i < |order| ==>
                  Text(order[i]) in Answer(s).value && Answer(s).value[Text(order[i])] == Text(ids[i]))
            && (forall i :: 0 <= i < |order| ==> RowMatches(source, order, s.tasks, ids, i))
            && (forall i :: i in target ==> i in s.tasks && s.tasks[i] == target[i])
  {
    var s := Imported(target, user, Bundle(source, order, user, nexts), ids);
    ImportIsSound(source, order, target, user, ids, nexts);
    forall i | 0 <= i < |order|
      ensures RowMatches(source, order, s.tasks, ids, i)
    {
      RowFollows(s, source, order, target, user, ids, nexts, i);
    }
  }

  /** What a user exports is accepted iff it is closed: a parent that belongs to somebody else ends the import. */
  lemma ExportAcceptedIffClosed(source: Tasks, order: seq<Uuid>, target: Tasks, user: string, ids: seq<Uuid>,
                                nexts: seq<Option<int>>)
    requires Importable(source, order, nexts) && |ids| == |order|
    ensures Answer(Imported(target, user, Bundle(source, order, user, nexts), ids)).Ok? <==> Closed(source, order)
  {
    var entries := Bundle(source, order, user, nexts);
    forall k | 0 <= k < |order|
      ensures entries[k].row.Ok? && entries[k].legacyId == Text(order[k])
      ensures DependencyIncluded(entries[k], LegacyIds(entries))
              <==> (source[order[k]].def.dependsOn.Some? ==> source[order[k]].def.dependsOn.value in order)
    {
      BundleEntry(source, order, user, nexts, k);
      ParentIncluded(source, order, user, nexts, k);
    }
    ImportSucceedsIff(target, user, entries, ids);
  }

  lemma ParentIncluded(source: Tasks, order: seq<Uuid>, user: string, nexts: seq<Option<int>>, k: nat)
    requires Importable(source, order, nexts) && k < |order|
    ensures var parent := source[order[k]].def.dependsOn;
            var entries := Bundle(source, order, user, nexts);
            DependencyIncluded(entries[k], LegacyIds(entries)) <==> (parent.Some? ==> parent.value in order)
  {
    var parent, entries := source[order[k]].def.dependsOn, Bundle(source, order, user, nexts);
    BundleEntry(source, order, user, nexts, k);
    if parent.Some? {
      if parent.value in order {
        var j :| 0 <= j < |order| && order[j] == parent.value;
        BundleEntry(source, order, user, nexts, j);
        assert entries[j] in entries;
      }
      if Text(parent.value) in LegacyIds(entries) {
        var j :| 0 <= j < |entries| && entries[j].legacyId == Text(parent.value);
        BundleEntry(source, order, user, nexts, j);
        FormatInjective(order[j], parent.value);
      }
    }
  }

  /** A bundle entry under new ids. */
  function Renamed(t: TransferTask, names: map<string, string>): TransferTask {
    t.(legacyId := if t.legacyId in names then names[t.legacyId] else t.legacyId,
       dependsOn := if t.dependsOn in names then names[t.dependsOn] else t.dependsOn)
  }

  /** A further export equals the first one up to the renaming of ids. */
  lemma ReexportIsRenaming(source: Tasks, order: seq<Uuid>, target: Tasks, user: string, ids: seq<Uuid>,
                           nexts: seq<Option<int>>, i: nat)
    requires Transferable(source, order, target, ids, nexts) && i < |order|
    ensures var s := Imported(target, user, Bundle(source, order, user, nexts), ids);
            && Answer(s).Ok? && ids[i] in s.tasks
            && ExportOne(ids[i], s.tasks[ids[i]].def) == Renamed(ExportOne(order[i], source[order[i]].def), Answer(s).value)
  {
    var s := Imported(target, user, Bundle(source, order, user, nexts), ids);
    ExportThenImport(source, order, target, user, ids, nexts);
    assert RowMatches(source, order, s.tasks, ids, i);
    var parent := source[order[i]].def.dependsOn;
    if parent.Some? {
      var j :| 0 <= j < |order| && order[j] == parent.value;
      assert s.tasks[ids[i]].def.dependsOn == Some(ids[j]);
    } else {
      EmptyIsNoId(source, order, target, user, ids, nexts);
    }
  }

  lemma EmptyIsNoId(source: Tasks, order: seq<Uuid>, target: Tasks, user: string, ids: seq<Uuid>, nexts: seq<Option<int>>)
    requires Transferable(source, order, target, ids, nexts)
    ensures "" !in Imported(target, user, Bundle(source, order, user, nexts), ids).created
  {
    var entries := Bundle(source, order, user, nexts);
    var s := Creating(target, entries, ids, |entries|);
    BundleIsSound(source, order, target, user, ids, nexts);
    IdsRecorded(target, entries, ids, |entries|);
    LinkingKeepsCreated(s, user, entries, |entries|);
  }

  // ----- The code itself -----

  method ExportUserTasks(db: TaskTable, user: string, order: seq<Uuid>) returns (bundle: seq<TransferTask>)
    requires IsListing(db.tasks, user, order)
    ensures forall k :: 0 <= k < |order| ==> order[k] in db.tasks
    ensures bundle == Export(db.tasks, order)
  {
    bundle := [];
    assert forall k :: 0 <= k < |order| ==> order[k] in order;
    for k := 0 to |order|
      invariant |bundle| == k
      invariant forall i :: 0 <= i < |order| ==> order[i] in db.tasks
      invariant forall i :: 0 <= i < k ==> bundle[i] == ExportOne(order[i], db.tasks[order[i]].def)
    {
      var row := db.tasks[order[k]].def;
      var task := TransferTask(
        Text(order[k]), row.name, TriggerText(row.triggerType), row.triggerConfig, row.agentPrompt,
        PolicyText(row.missedPolicy), row.requiresApproval, "", row.triggerOnCompletion, TypeText(row.taskType),
        OrEmpty(row.nativeCode), row.branch, row.isBundleRoot, row.swarmConfig);
      if row.dependsOn.Some? {
        task := task.(dependsOn := Text(row.dependsOn.value));
      }
      bundle := bundle + [task];
    }
  }

  lemma FirstLoopEnds(tasks: Tasks, entries: seq<Entry>, ids: seq<Uuid>, created: map<string, Uuid>, before: Tasks, k: nat)
    requires k < |entries| == |ids| && entries[k].row.Err?
    requires Creating(before, entries, ids, k) == Import(tasks, created, None)
    ensures Creating(before, entries, ids, |entries|) == Import(tasks, created, Some(entries[k].row.error))
  {
    assert Creating(before, entries, ids, k + 1) == Import(tasks, created, Some(entries[k].row.error));
    ErrorsStay(before, entries, ids, k + 1, |entries|);
  }

  lemma FirstLoopGoesOn(tasks: Tasks, entries: seq<Entry>, ids: seq<Uuid>, created: map<string, Uuid>, before: Tasks,
                        k: nat)
    requires k < |entries| == |ids| && FreshIds(before, ids) && AllAccepted(entries, k) && entries[k].row.Ok?
    requires Creating(before, entries, ids, k) == Import(tasks, created, None)
    ensures ids[k] !in tasks
    ensures Creating(before, entries, ids, k + 1)
            == Import(tasks[ids[k] := entries[k].row.value],
                      if entries[k].legacyId != "" then created[entries[k].legacyId := ids[k]] else created, None)
  {
    RowsCreated(before, entries, ids, k);
  }

  /** A row as CreateTask inserts it. */
  predicate IsNewRow(row: Task, user: string) {
    row == Inserted(row.def, user, row.nextRun) && row.def.dependsOn.None?
  }

  lemma CheckedRowsAreNew(batch: seq<TransferTask>, user: string, nexts: seq<Option<int>>)
    requires |batch| == |nexts|
    ensures forall e :: e in Checked(batch, user, nexts) && e.row.Ok? ==> IsNewRow(e.row.value, user)
  {
  }

  /** The first loop. */
  method CreateRows(db: TaskTable, user: string, entries: seq<Entry>, ids: seq<Uuid>)
    returns (created: map<string, Uuid>, error: Option<ImportError>)
    requires |ids| == |entries| && FreshIds(db.tasks, ids)
    requires forall e :: e in entries && e.row.Ok? ==> IsNewRow(e.row.value, user)
    modifies db`tasks
    ensures var s := Creating(old(db.tasks), entries, ids, |entries|);
            db.tasks == s.tasks && error == s.error && created == s.created
  {
    ghost var before := db.tasks;
    created, error := map[], None;
    for k := 0 to |entries|
      invariant Creating(before, entries, ids, k) == Import(db.tasks, created, None) && AllAccepted(entries, k)
    {
      var e := entries[k];
      assert e in entries;
      if e.row.Err? {
        FirstLoopEnds(db.tasks, entries, ids, created, before, k);
        return created, Some(e.row.error);
      }
      FirstLoopGoesOn(db.tasks, entries, ids, created, before, k);
      db.CreateTask(ids[k], e.row.value.def, user, e.row.value.nextRun);
      if e.legacyId != "" {
        created := created[e.legacyId := ids[k]];
      }
    }
  }

  /** The second loop. */
  method LinkRows(db: TaskTable, user: string, entries: seq<Entry>, created: map<string, Uuid>)
    returns (error: Option<ImportError>)
    modifies db`tasks
    ensures var s := Linking(Import(old(db.tasks), created, None), user, entries, |entries|);
            db.tasks == s.tasks && error == s.error
  {
    ghost var start := Import(db.tasks, created, None);
    for k := 0 to |entries|
      invariant Linking(start, user, entries, k) == Import(db.tasks, created, None)
    {
      var e := entries[k];
      if e.legacyId == "" || e.dependsOn == "" || e.legacyId !in created {
        continue;
      }
      if e.dependsOn !in created {
        assert Linking(start, user, entries, k + 1).error == Some(MissingDependency(e.dependsOn, e.legacyId));
        LinkErrorsStay(start, user, entries, k + 1, |entries|);
        return Some(MissingDependency(e.dependsOn, e.legacyId));
      }
      db.LinkTaskDependency(user, created[e.legacyId], Some(created[e.dependsOn]), e.trigger);
    }
    return None;
  }

  /** Both loops; an error leaves the table as it stands. */
  method ImportUserTasks(db: TaskTable, user: string, batch: seq<TransferTask>, ids: seq<Uuid>, nexts: seq<Option<int>>)
    returns (answer: Result<map<string, string>, ImportError>)
    requires |ids| == |batch| == |nexts| && FreshIds(db.tasks, ids)
    modifies db`tasks
    ensures var s := Imported(old(db.tasks), user, Checked(batch, user, nexts), ids);
            db.tasks == s.tasks && answer == Answer(s)
  {
    var entries := Checked(batch, user, nexts);
    ghost var first := Creating(db.tasks, entries, ids, |entries|);
    CheckedRowsAreNew(batch, user, nexts);
    var created, error := CreateRows(db, user, entries, ids);
    if error.Some? {
      LinkErrorsStay(first, user, entries, 0, |entries|);
      return Err(error.value);
    }
    LinkingKeepsCreated(first, user, entries, |entries|);
    error := LinkRows(db, user, entries, created);
    if error.Some? {
      return Err(error.value);
    }
    return Ok(map legacy | legacy in created :: Text(created[legacy]));
  }
}
