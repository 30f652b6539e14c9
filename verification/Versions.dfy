/** Editing, linking and restoring tasks, and the version history (task_rest_handlers.go). */
module Versions {
  import opened Rows
  import opened Database
  import opened Uuids
  import Cascade

  datatype Version = Version(id: Uuid, task: Uuid, def: Definition)

  datatype Store = Store(tasks: Tasks, versions: seq<Version>)

  /** The body of an update request. */
  datatype Edit = Edit(
    agentPrompt: string,
    missedPolicy: string,
    uiCoordinates: Option<string>,
    dependsOn: string,
    triggerOnCompletion: bool,
    branch: Branch,
    loopCondition: Option<string>,
    swarmConfig: Option<string>)

  /** Requests carry ids as text; `version` is the id gen_random_uuid gives to the snapshot. */
  datatype Op =
    | Update(user: string, path: string, edit: Edit, version: Uuid)
    | Restore(user: string, path: string, versionPath: string, version: Uuid)
    | Link(user: string, path: string, dependsOn: string, trigger: bool)
    | Engine(id: Uuid, statement: Statement)   // a statement of the scheduler in between

  /** Here no default applies: an empty policy is refused like any other unknown one. */
  function StrictPolicy(s: string): Option<Policy> {
    if s == "skip" then Some(Skip) else if s == "run_immediately" then Some(RunImmediately) else None
  }

  function Edited(def: Definition, edit: Edit, policy: Policy): Definition {
    def.(agentPrompt := edit.agentPrompt, missedPolicy := policy, dependsOn := IdOf(edit.dependsOn),
         triggerOnCompletion := edit.triggerOnCompletion, branch := edit.branch, loopCondition := edit.loopCondition,
         swarmConfig := edit.swarmConfig)
  }

  /** The row of this user that the path names. */
  function Target(tasks: Tasks, user: string, path: string): Option<Uuid> {
    var id := IdOf(path);
    if id.Some? && Owns(tasks, user, id.value) then id else None
  }

  /** `WHERE id = $3 AND task_id = $1` */
  function FindVersion(versions: seq<Version>, id: Option<Uuid>, task: Uuid): Option<Definition> {
    if versions == [] then None
    else
      var v := versions[|versions| - 1];
      if Some(v.id) == id && v.task == task then Some(v.def) else FindVersion(versions[..|versions| - 1], id, task)
  }

  function Snapshot(s: Store, task: Uuid, version: Uuid): Store
    requires task in s.tasks
  {
    s.(versions := s.versions + [Version(version, task, s.tasks[task].def)])
  }

  /** Snapshot and edit commit together; an unknown task, policy or parent rolls both back. */
  function UpdateTask(s: Store, task: Option<Uuid>, edit: Edit, version: Uuid): Store
    requires task.Some? ==> task.value in s.tasks
  {
    var policy := StrictPolicy(edit.missedPolicy);
    if task.None? || policy.None? || !ParentExists(s.tasks, IdOf(edit.dependsOn)) then s
    else
      var t := s.tasks[task.value];
      Snapshot(s, task.value, version).(
        tasks := s.tasks[task.value := t.(def := Edited(t.def, edit, policy.value), uiCoordinates := edit.uiCoordinates)])
  }

  /** The snapshot stays even if there is no such version; a version whose parent is gone rolls it back. */
  function RestoreTask(s: Store, task: Option<Uuid>, wanted: Option<Uuid>, version: Uuid): Store
    requires task.Some? ==> task.value in s.tasks
  {
    if task.None? then s
    else
      var snapped := Snapshot(s, task.value, version);
      match FindVersion(snapped.versions, wanted, task.value)
      case None => snapped
      case Some(def) =>
        if ParentExists(s.tasks, def.dependsOn) then
          snapped.(tasks := s.tasks[task.value := s.tasks[task.value].(def := def)])
        else s
  }

  function Apply(s: Store, op: Op): Store {
    match op
    case Update(user, path, edit, version) => UpdateTask(s, Target(s.tasks, user, path), edit, version)
    case Restore(user, path, wanted, version) => RestoreTask(s, Target(s.tasks, user, path), IdOf(wanted), version)
    case Link(user, path, dependsOn, trigger) =>
      var id := IdOf(path);
      if id.None? || !ParentExists(s.tasks, IdOf(dependsOn)) then s
      else s.(tasks := LinkRow(s.tasks, user, id.value, IdOf(dependsOn), trigger))
    case Engine(id, statement) => s.(tasks := Rows.Update(s.tasks, id, statement))
  }

  function After(s: Store, ops: seq<Op>): Store {
    if ops == [] then s else Apply(After(s, ops[..|ops| - 1]), ops[|ops| - 1])
  }

  /** A malformed parent id is answered with an error, and yet the dependency is cleared. */
  lemma LinkClearsOrSets(s: Store, user: string, path: string, dependsOn: string, trigger: bool)
    requires Target(s.tasks, user, path).Some?
    ensures var id, after := Target(s.tasks, user, path).value, Apply(s, Link(user, path, dependsOn, trigger));
            id in after.tasks
            && match Parse(dependsOn)
               case Err(_) => after.tasks[id].def.dependsOn == None
               case Ok(p) => after.tasks[id].def.dependsOn == if p in s.tasks then Some(p) else s.tasks[id].def.dependsOn
  {
  }

  /** The definition an accepted operation gives to the task it names; None when it changes no definition. */
  function GivenDefinition(s: Store, op: Op): Option<Definition> {
    match op
    case Link(user, path, dependsOn, trigger) =>
      var id := Target(s.tasks, user, path);
      if id.None? || !ParentExists(s.tasks, IdOf(dependsOn)) then None
      else Some(s.tasks[id.value].def.(dependsOn := IdOf(dependsOn), triggerOnCompletion := trigger))
    case Update(user, path, edit, _) =>
      var id, policy := Target(s.tasks, user, path), StrictPolicy(edit.missedPolicy);
      if id.None? || policy.None? || !ParentExists(s.tasks, IdOf(edit.dependsOn)) then None
      else Some(Edited(s.tasks[id.value].def, edit, policy.value))
    case Restore(user, path, wanted, version) =>
      var id := Target(s.tasks, user, path);
      if id.None? then None
      else
        var def := FindVersion(Snapshot(s, id.value, version).versions, IdOf(wanted), id.value);
        if def.Some? && ParentExists(s.tasks, def.value.dependsOn) then def else None
    case Engine(_, _) => None
  }

  lemma GivenDefinitionIsWritten(s: Store, op: Op)
    requires !op.Engine?
    ensures var id, def := Target(s.tasks, op.user, op.path), GivenDefinition(s, op);
            if def.None? then Apply(s, op).tasks == s.tasks
            else
              id.Some? && id.value in s.tasks
              && var t := Apply(s, op).tasks[id.value];
                 t.def == def.value && t.user == s.tasks[id.value].user && Apply(s, op).tasks == s.tasks[id.value := t]
  {
  }

  /** An accepted link, update or restore puts its task on a cycle iff the parent it gives, if it triggers and belongs to
      the same user, is that task or below it already; and exactly then it makes an acyclic graph cyclic. */
  lemma EditClosesCycleIff(s: Store, op: Op)
    requires !op.Engine? && GivenDefinition(s, op).Some?
    ensures var id, def := Target(s.tasks, op.user, op.path), GivenDefinition(s, op).value;
            && id.Some? && id.value in s.tasks
            && var p := Cascade.ParentGiven(s.tasks, s.tasks[id.value].user, def);
            && (Cascade.OnCycle(Apply(s, op).tasks, id.value) <==> p.Some? && Cascade.Under(s.tasks, p.value, id.value))
            && (Cascade.Acyclic(s.tasks) ==>
                  (Cascade.Acyclic(Apply(s, op).tasks) <==> !(p.Some? && Cascade.Under(s.tasks, p.value, id.value))))
  {
    GivenDefinitionIsWritten(s, op);
    var id := Target(s.tasks, op.user, op.path).value;
    Cascade.DefinitionKeepsAcyclicIff(s.tasks, id, Apply(s, op).tasks[id]);
  }

  /** For a link, in terms of the request: it triggers, and the named parent is the user's own and below the task. */
  lemma LinkClosesCycleIff(s: Store, user: string, i: Uuid, p: Uuid, trigger: bool)
    requires Owns(s.tasks, user, i) && p in s.tasks
    ensures var after := Apply(s, Link(user, Text(i), Text(p), trigger)).tasks;
            && (Cascade.OnCycle(after, i) <==> trigger && s.tasks[p].user == user && Cascade.Under(s.tasks, p, i))
            && (Cascade.Acyclic(s.tasks) ==>
                  (Cascade.Acyclic(after) <==> !(trigger && s.tasks[p].user == user && Cascade.Under(s.tasks, p, i))))
  {
    ParseFormat(i);
    ParseFormat(p);
    EditClosesCycleIff(s, Link(user, Text(i), Text(p), trigger));
  }

  /** So nothing stops two links from closing a cycle, whose cascades never end (Cascade.BoundedIffOnNoCycle). */
  lemma LinksCanCloseACycle(s: Store, user: string, a: Uuid, b: Uuid)
    requires Owns(s.tasks, user, a) && Owns(s.tasks, user, b)
    ensures var once := Apply(s, Link(user, Text(a), Text(b), true));
            var twice := Apply(once, Link(user, Text(b), Text(a), true)).tasks;
            Cascade.OnCycle(twice, a) && Cascade.OnCycle(twice, b)
  {
    var once := Apply(s, Link(user, Text(a), Text(b), true));
    var twice := Apply(once, Link(user, Text(b), Text(a), true)).tasks;
    ParseFormat(a);
    ParseFormat(b);
    Cascade.UnderParent(once.tasks, a, b);
    LinkClosesCycleIff(once, user, b, a, true);
    Cascade.UnderParent(twice, b, a);
    Cascade.CyclesComeFromAbove(twice, b, a);
  }

  // ----- What edits leave alone -----

  /** Only the definition and the coordinates on the canvas may differ. */
  predicate SameExecution(a: Task, b: Task) {
    b == a.(def := b.def, uiCoordinates := b.uiCoordinates)
  }

  lemma {:induction false} EditsKeepExecution(s: Store, ops: seq<Op>)
    requires forall k :: 0 <= k < |ops| ==> !ops[k].Engine?
    ensures var after := After(s, ops);
            after.tasks.Keys == s.tasks.Keys && forall i :: i in s.tasks ==> SameExecution(s.tasks[i], after.tasks[i])
  {
    if ops != [] {
      EditsKeepExecution(s, ops[..|ops| - 1]);
    }
  }

  /** Statements of the scheduler, in turn, leave definitions and history alone. */
  lemma EngineKeepsDefinitions(s: Store, id: Uuid, statement: Statement, i: Uuid)
    requires i in s.tasks
    ensures var after := Apply(s, Engine(id, statement));
            i in after.tasks && after.tasks[i].def == s.tasks[i].def && after.versions == s.versions
  {
  }

  /** The operation edits, links or restores task i. */
  predicate Edits(s: Store, op: Op, i: Uuid) {
    !op.Engine? && Target(s.tasks, op.user, op.path) == Some(i) && GivenDefinition(s, op).Some?
  }

  /** A definition is what the last accepted operation on its task made it, whatever the scheduler and other edits did
      since. */
  lemma {:induction false} DefinitionStaysUntilEdited(s: Store, ops: seq<Op>, i: Uuid)
    requires i in s.tasks && forall k :: 0 <= k < |ops| ==> !Edits(After(s, ops[..k]), ops[k], i)
    ensures i in After(s, ops).tasks && After(s, ops).tasks[i].def == s.tasks[i].def
  {
    if ops != [] {
      var before, last := ops[..|ops| - 1], ops[|ops| - 1];
      forall k | 0 <= k < |before|
        ensures !Edits(After(s, before[..k]), before[k], i)
      {
        assert before[..k] == ops[..k] && before[k] == ops[k];
      }
      DefinitionStaysUntilEdited(s, before, i);
      assert !Edits(After(s, before), last, i);
      if last.Engine? {
        EngineKeepsDefinitions(After(s, before), last.id, last.statement, i);
      } else {
        GivenDefinitionIsWritten(After(s, before), last);
      }
    }
  }

  // ----- The history -----

  /** The operation added a version. */
  predicate Records(s: Store, op: Op) {
    Apply(s, op).versions != s.versions
  }

  function TaskOf(tasks: Tasks, op: Op): Option<Uuid> {
    if op.Update? || op.Restore? then Target(tasks, op.user, op.path) else None
  }

  /** Which operations record a version, and what: the fourteen columns as they were just before. */
  lemma RecordedVersion(s: Store, op: Op)
    ensures Records(s, op) ==>
              && (op.Update? || op.Restore?)
              && TaskOf(s.tasks, op).Some? && TaskOf(s.tasks, op).value in s.tasks
              && Apply(s, op).versions
                 == s.versions + [Version(op.version, TaskOf(s.tasks, op).value, s.tasks[TaskOf(s.tasks, op).value].def)]
    ensures op.Update? ==>
              (Records(s, op) <==> TaskOf(s.tasks, op).Some? && StrictPolicy(op.edit.missedPolicy).Some?
                                   && ParentExists(s.tasks, IdOf(op.edit.dependsOn)))
    ensures !Records(s, op) && (op.Update? || op.Restore?) ==> Apply(s, op) == s
  {
  }

  /** The positions of the recording operations. */
  function Recording(s: Store, ops: seq<Op>): seq<nat> {
    if ops == [] then []
    else
      var before := ops[..|ops| - 1];
      Recording(s, before) + (if Records(After(s, before), ops[|ops| - 1]) then [|before|] else [])
  }

  predicate Ascending(at: seq<nat>, bound: nat) {
    && (forall n :: 0 <= n < |at| ==> at[n] < bound)
    && (forall m, n :: 0 <= m < n < |at| ==> at[m] < at[n])
  }

  lemma {:induction false} RecordingAscends(s: Store, ops: seq<Op>)
    ensures Ascending(Recording(s, ops), |ops|)
  {
    if ops != [] {
      RecordingAscends(s, ops[..|ops| - 1]);
    }
  }

  /** None is missing. */
  lemma {:induction false} RecordingIsComplete(s: Store, ops: seq<Op>, k: nat)
    requires k < |ops|
    ensures k in Recording(s, ops) <==> Records(After(s, ops[..k]), ops[k])
  {
    var before := ops[..|ops| - 1];
    if k < |before| {
      RecordingIsComplete(s, before, k);
      assert before[..k] == ops[..k] && before[k] == ops[k];
    } else {
      RecordingAscends(s, before);
    }
  }

  /** The entry that the operation at position k records. */
  function EntryAt(s: Store, ops: seq<Op>, k: nat): Option<Version>
    requires k < |ops|
  {
    var was, op := After(s, ops[..k]), ops[k];
    var task := TaskOf(was.tasks, op);
    if (op.Update? || op.Restore?) && task.Some? && task.value in was.tasks then
      Some(Version(op.version, task.value, was.tasks[task.value].def))
    else None
  }

  /** The history only grows, by one entry for each recording operation: its n-th new entry holds what the n-th of
      these operations found. */
  lemma {:induction false} HistoryIsATrace(s: Store, ops: seq<Op>)
    ensures var at, versions := Recording(s, ops), After(s, ops).versions;
            && |versions| == |s.versions| + |at| && versions[..|s.versions|] == s.versions
            && (forall n :: 0 <= n < |at| ==> at[n] < |ops| && EntryAt(s, ops, at[n]) == Some(versions[|s.versions| + n]))
  {
    if ops != [] {
      var before, last := ops[..|ops| - 1], |ops| - 1;
      HistoryIsATrace(s, before);
      RecordedVersion(After(s, before), ops[last]);
      forall k | 0 <= k < last
        ensures EntryAt(s, before, k) == EntryAt(s, ops, k)
      {
        assert before[..k] == ops[..k] && before[k] == ops[k];
      }
    }
  }

  // ----- Going back -----

  /** The foreign key. */
  ghost predicate ParentsExist(tasks: Tasks) {
    forall i :: i in tasks ==> ParentExists(tasks, tasks[i].def.dependsOn)
  }

  /** The database's own constraints: primary key and foreign key. */
  ghost predicate Consistent(s: Store) {
    && (forall i, j :: 0 <= i < j < |s.versions| ==> s.versions[i].id != s.versions[j].id)
    && ParentsExist(s.tasks)
  }

  /** Snapshots get ids never used before. */
  ghost predicate NewVersion(s: Store, op: Op) {
    (op.Update? || op.Restore?) ==> forall v :: v in s.versions ==> v.id != op.version
  }

  ghost predicate IsRun(s: Store, ops: seq<Op>) {
    forall k :: 0 <= k < |ops| ==> NewVersion(After(s, ops[..k]), ops[k])
  }

  lemma {:induction false} FoundVersion(versions: seq<Version>, v: Version)
    requires v in versions
    requires forall i, j :: 0 <= i < j < |versions| ==> versions[i].id != versions[j].id
    ensures FindVersion(versions, Some(v.id), v.task) == Some(v.def)
  {
    var last := versions[|versions| - 1];
    if v != last {
      assert v in versions[..|versions| - 1];
      FoundVersion(versions[..|versions| - 1], v);
    }
  }

  lemma RowsStay(s: Store, op: Op)
    ensures Apply(s, op).tasks.Keys == s.tasks.Keys
    ensures forall i :: i in s.tasks ==> Apply(s, op).tasks[i].user == s.tasks[i].user
  {
  }

  lemma OneRowWritten(tasks: Tasks, id: Uuid, t: Task)
    requires ParentsExist(tasks) && id in tasks && ParentExists(tasks, t.def.dependsOn)
    ensures ParentsExist(tasks[id := t])
  {
    var after := tasks[id := t];
    forall i | i in after
      ensures ParentExists(after, after[i].def.dependsOn)
    {
      assert ParentExists(tasks, if i == id then t.def.dependsOn else tasks[i].def.dependsOn);
    }
  }

  lemma UpdateKeepsParents(s: Store, task: Option<Uuid>, edit: Edit, version: Uuid)
    requires ParentsExist(s.tasks) && (task.Some? ==> task.value in s.tasks)
    ensures ParentsExist(UpdateTask(s, task, edit, version).tasks)
  {
    var after := UpdateTask(s, task, edit, version);
    if after != s {
      OneRowWritten(s.tasks, task.value, after.tasks[task.value]);
    }
  }

  lemma RestoreKeepsParents(s: Store, task: Option<Uuid>, wanted: Option<Uuid>, version: Uuid)
    requires ParentsExist(s.tasks) && (task.Some? ==> task.value in s.tasks)
    ensures ParentsExist(RestoreTask(s, task, wanted, version).tasks)
  {
    var after := RestoreTask(s, task, wanted, version);
    if after.tasks != s.tasks {
      OneRowWritten(s.tasks, task.value, after.tasks[task.value]);
    }
  }

  lemma LinkKeepsParents(tasks: Tasks, user: string, id: Uuid, parent: Option<Uuid>, trigger: bool)
    requires ParentsExist(tasks) && ParentExists(tasks, parent)
    ensures ParentsExist(LinkRow(tasks, user, id, parent, trigger))
  {
    if Owns(tasks, user, id) {
      OneRowWritten(tasks, id, LinkRow(tasks, user, id, parent, trigger)[id]);
    }
  }

  lemma EngineKeepsParents(tasks: Tasks, id: Uuid, statement: Statement)
    requires ParentsExist(tasks)
    ensures ParentsExist(Rows.Update(tasks, id, statement))
  {
    if id in tasks {
      assert ParentExists(tasks, tasks[id].def.dependsOn);
      OneRowWritten(tasks, id, statement.On(tasks[id]));
    }
  }

  lemma ParentsStay(s: Store, op: Op)
    requires ParentsExist(s.tasks)
    ensures ParentsExist(Apply(s, op).tasks)
  {
    match op {
      case Update(user, path, edit, version) => UpdateKeepsParents(s, Target(s.tasks, user, path), edit, version);
      case Restore(user, path, wanted, version) =>
        RestoreKeepsParents(s, Target(s.tasks, user, path), IdOf(wanted), version);
      case Link(user, path, dependsOn, trigger) =>
        var id := IdOf(path);
        if id.Some? && ParentExists(s.tasks, IdOf(dependsOn)) {
          LinkKeepsParents(s.tasks, user, id.value, IdOf(dependsOn), trigger);
        }
      case Engine(id, statement) => EngineKeepsParents(s.tasks, id, statement);
    }
  }

  lemma StaysConsistent(s: Store, op: Op)
    requires Consistent(s) && NewVersion(s, op)
    ensures Consistent(Apply(s, op))
  {
    ParentsStay(s, op);
    RecordedVersion(s, op);
  }

  lemma {:induction false} ConsistentThroughout(s: Store, ops: seq<Op>)
    requires Consistent(s) && IsRun(s, ops)
    ensures Consistent(After(s, ops)) && After(s, ops).tasks.Keys == s.tasks.Keys
    ensures forall i :: i in s.tasks ==> After(s, ops).tasks[i].user == s.tasks[i].user
  {
    if ops != [] {
      var before := ops[..|ops| - 1];
      assert forall k :: 0 <= k < |before| ==> before[..k] == ops[..k] && before[k] == ops[k];
      ConsistentThroughout(s, before);
      StaysConsistent(After(s, before), ops[|ops| - 1]);
      RowsStay(After(s, before), ops[|ops| - 1]);
    }
  }

  /** However much was edited, linked, restored and executed since: restoring the snapshot of any update or restore
      brings back the definition from just before it. */
  lemma RestoreGoesBack(s: Store, ops: seq<Op>, k: nat, task: Uuid, user: string, version: Uuid)
    requires Consistent(s) && IsRun(s, ops) && k < |ops| && Records(After(s, ops[..k]), ops[k])
    requires TaskOf(After(s, ops[..k]).tasks, ops[k]) == Some(task) && Owns(s.tasks, user, task)
    requires NewVersion(After(s, ops), Restore(user, Text(task), Text(ops[k].version), version))
    ensures var was := After(s, ops[..k]).tasks;
            var back := Apply(After(s, ops), Restore(user, Text(task), Text(ops[k].version), version)).tasks;
            task in was && task in back && back[task].def == was[task].def
  {
    var was := After(s, ops[..k]);
    ConsistentThroughout(s, ops);
    PrefixIsRun(s, ops, k);
    ConsistentThroughout(s, ops[..k]);
    SnapshotKept(s, ops, k, task);
    assert ParentExists(was.tasks, was.tasks[task].def.dependsOn);
    RestoreFinds(After(s, ops), Version(ops[k].version, task, was.tasks[task].def), user, version);
  }

  lemma RestoreFinds(s: Store, v: Version, user: string, version: Uuid)
    requires v in s.versions && Owns(s.tasks, user, v.task) && Consistent(s) && ParentExists(s.tasks, v.def.dependsOn)
    requires forall w :: w in s.versions ==> w.id != version
    ensures Apply(s, Restore(user, Text(v.task), Text(v.id), version)).tasks
            == s.tasks[v.task := s.tasks[v.task].(def := v.def)]
  {
    ParseFormat(v.task);
    ParseFormat(v.id);
    FoundAfterSnapshot(s, v, version);
  }

  lemma PrefixIsRun(s: Store, ops: seq<Op>, k: nat)
    requires IsRun(s, ops) && k <= |ops|
    ensures IsRun(s, ops[..k])
  {
    assert forall j :: 0 <= j < k ==> ops[..k][..j] == ops[..j] && ops[..k][j] == ops[j];
  }

  lemma SnapshotKept(s: Store, ops: seq<Op>, k: nat, task: Uuid)
    requires k < |ops| && Records(After(s, ops[..k]), ops[k])
    requires TaskOf(After(s, ops[..k]).tasks, ops[k]) == Some(task)
    ensures (ops[k].Update? || ops[k].Restore?) && task in After(s, ops[..k]).tasks
    ensures Version(ops[k].version, task, After(s, ops[..k]).tasks[task].def) in After(s, ops).versions
  {
    RecordedVersion(After(s, ops[..k]), ops[k]);
    RecordingIsComplete(s, ops, k);
    HistoryIsATrace(s, ops);
    assert k in Recording(s, ops);
    var n :| 0 <= n < |Recording(s, ops)| && Recording(s, ops)[n] == k;
    assert After(s, ops).versions[|s.versions| + n] in After(s, ops).versions;
  }

  lemma FoundAfterSnapshot(s: Store, v: Version, version: Uuid)
    requires v in s.versions && v.task in s.tasks && Consistent(s)
    requires forall w :: w in s.versions ==> w.id != version
    ensures FindVersion(Snapshot(s, v.task, version).versions, Some(v.id), v.task) == Some(v.def)
  {
    FoundVersion(s.versions, v);
    assert Snapshot(s, v.task, version).versions[..|s.versions|] == s.versions;
  }

  /** A restore writes nothing but the definition of its task. */
  lemma OnlyDefinitionRestored(s: Store, user: string, task: Uuid, wanted: string, version: Uuid)
    requires Owns(s.tasks, user, task)
    ensures var after := Apply(s, Restore(user, Text(task), wanted, version)).tasks;
            task in after && after == s.tasks[task := s.tasks[task].(def := after[task].def)]
  {
    ParseFormat(task);
  }

  lemma RecordedByRestore(s: Store, user: string, task: Uuid, wanted: string, version: Uuid)
    requires Owns(s.tasks, user, task) && Records(s, Restore(user, Text(task), wanted, version))
    ensures Apply(s, Restore(user, Text(task), wanted, version)).versions
            == s.versions + [Version(version, task, s.tasks[task].def)]
  {
    ParseFormat(task);
    RecordedVersion(s, Restore(user, Text(task), wanted, version));
  }

  /** Restoring a version, then the snapshot this made, is as if nothing had been restored. */
  lemma RestoreUndone(s: Store, user: string, task: Uuid, wanted: string, first: Uuid, second: Uuid)
    requires Consistent(s) && Owns(s.tasks, user, task) && first != second
    requires forall v :: v in s.versions ==> v.id != first && v.id != second
    requires Records(s, Restore(user, Text(task), wanted, first))
    ensures Apply(Apply(s, Restore(user, Text(task), wanted, first)), Restore(user, Text(task), Text(first), second)).tasks
            == s.tasks
  {
    var op, v := Restore(user, Text(task), wanted, first), Version(first, task, s.tasks[task].def);
    var mid := Apply(s, op);
    OnlyDefinitionRestored(s, user, task, wanted, first);
    RecordedByRestore(s, user, task, wanted, first);
    StaysConsistent(s, op);
    assert v in mid.versions && ParentExists(mid.tasks, v.def.dependsOn);
    RestoreFinds(mid, v, user, second);
  }

  // ----- The handlers -----

  class VersionedTable {
    var tasks: Tasks
    var versions: seq<Version>

    function State(): Store
      reads this
    {
      Store(tasks, versions)
    }

    /** CreateTaskVersion: nothing is selected, nothing is inserted. */
    method CreateTaskVersion(task: Option<Uuid>, user: string, version: Uuid)
      modifies this`versions
      ensures versions == if task.Some? && Owns(tasks, user, task.value)
                          then old(versions) + [Version(version, task.value, tasks[task.value].def)] else old(versions)
    {
      if task.Some? && Owns(tasks, user, task.value) {
        versions := versions + [Version(version, task.value, tasks[task.value].def)];
      }
    }

    /** In a transaction; `ok` is false for an unknown task and for a refused one. */
    method ApiUpdateTask(user: string, path: string, edit: Edit, version: Uuid) returns (ok: bool)
      modifies this
      ensures State() == Apply(old(State()), Update(user, path, edit, version))
      ensures ok == Records(old(State()), Update(user, path, edit, version))
    {
      var task, before := IdOf(path), versions;
      CreateTaskVersion(task, user, version);
      var policy, parent := StrictPolicy(edit.missedPolicy), IdOf(edit.dependsOn);
      if task.None? || !Owns(tasks, user, task.value) || policy.None? || !ParentExists(tasks, parent) {
        versions := before;
        return false;
      }
      var t := tasks[task.value];
      tasks := tasks[task.value := t.(def := Edited(t.def, edit, policy.value), uiCoordinates := edit.uiCoordinates)];
      return true;
    }

    method ApiRestoreTaskVersion(user: string, path: string, wanted: string, version: Uuid) returns (ok: bool)
      modifies this
      ensures State() == Apply(old(State()), Restore(user, path, wanted, version))
      ensures ok <==> Target(old(tasks), user, path).None? || Records(old(State()), Restore(user, path, wanted, version))
    {
      var task, before := IdOf(path), versions;
      CreateTaskVersion(task, user, version);
      if task.None? || !Owns(tasks, user, task.value) {
        return true;
      }
      var found := FindVersion(versions, IdOf(wanted), task.value);
      if found.Some? {
        if !ParentExists(tasks, found.value.dependsOn) {
          versions := before;
          return false;
        }
        tasks := tasks[task.value := tasks[task.value].(def := found.value)];
      }
      return true;
    }

    method ApiLinkTask(user: string, path: string, dependsOn: string, trigger: bool) returns (ok: bool)
      modifies this`tasks
      ensures State() == Apply(old(State()), Link(user, path, dependsOn, trigger))
      ensures ok <==> Target(tasks, user, path).None? || ParentExists(tasks, IdOf(dependsOn))
    {
      var task, parent := IdOf(path), IdOf(dependsOn);
      if task.None? || !Owns(tasks, user, task.value) {
        return true;
      }
      if !ParentExists(tasks, parent) {
        return false;
      }
      tasks := LinkRow(tasks, user, task.value, parent, trigger);
      return true;
    }
  }
}
