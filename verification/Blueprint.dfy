/** Deploying a blueprint (template_handlers.go). Prompts are taken after their variables have been filled in. */
module Blueprint {
  import opened Rows
  import opened Database
  import opened Transfer
  import opened Cascade

  datatype BlueprintTask = BlueprintTask(
    id: string,
    name: string,
    triggerType: string,
    triggerConfig: string,
    agentPrompt: string,
    missedPolicy: string,
    requiresApproval: bool,
    dependsOn: string,
    triggerOnCompletion: bool,
    taskType: string,
    nativeCode: string,
    branch: Branch,
    isBundleRoot: bool,
    swarmConfig: Option<string>)

  /** A blueprint task and the row it asks for, without parent; None when a CHECK constraint refuses it. */
  datatype Plan = Plan(id: string, dependsOn: string, row: Option<Definition>)

  function PlanOf(t: BlueprintTask): Plan {
    var trigger, policy, kind := TriggerOf(t.triggerType), PolicyOf(t.missedPolicy), TypeOf(t.taskType);
    Plan(t.id, t.dependsOn,
         if trigger.None? || policy.None? || kind.None? then None
         else Some(Definition(t.name, trigger.value, t.triggerConfig, t.agentPrompt, policy.value, None, t.requiresApproval,
                              t.triggerOnCompletion, kind.value, NullIfEmpty(t.nativeCode), t.branch, None,
                              t.isBundleRoot, t.swarmConfig)))
  }

  function PlansOf(blueprint: seq<BlueprintTask>): (r: seq<Plan>)
    ensures |r| == |blueprint| && forall k :: 0 <= k < |r| ==> r[k] == PlanOf(blueprint[k])
  {
    seq(|blueprint|, k requires 0 <= k < |blueprint| => PlanOf(blueprint[k]))
  }

  predicate AllPlanned(plans: seq<Plan>, k: nat)
    requires k <= |plans|
  {
    forall i :: 0 <= i < k ==> plans[i].row.Some?
  }

  // ----- What a deployment is meant to be -----

  /** The last task before the k-th that goes by this id. */
  function LastBefore(plans: seq<Plan>, id: string, k: nat): (j: Option<nat>)
    requires k <= |plans|
    ensures j.Some? ==> j.value < k && plans[j.value].id == id
    ensures forall i :: 0 <= i < k && plans[i].id == id ==> j.Some? && i <= j.value
  {
    if k == 0 then None else if plans[k - 1].id == id then Some(k - 1) else LastBefore(plans, id, k - 1)
  }

  /** References to ids that are unknown or come later are dropped. */
  function ParentOf(plans: seq<Plan>, ids: seq<Uuid>, k: nat): Option<Uuid>
    requires k < |plans| == |ids|
  {
    if plans[k].dependsOn == "" then None
    else match LastBefore(plans, plans[k].dependsOn, k)
      case None => None
      case Some(j) => Some(ids[j])
  }

  function RowOf(plans: seq<Plan>, ids: seq<Uuid>, user: string, now: int, k: nat): Task
    requires k < |plans| == |ids| && plans[k].row.Some?
  {
    Inserted(plans[k].row.value.(dependsOn := ParentOf(plans, ids, k)), user, now)
  }

  /** The table with the rows of the first k tasks. */
  function Deployed(tasks: Tasks, plans: seq<Plan>, ids: seq<Uuid>, user: string, now: int, k: nat): Tasks
    requires k <= |plans| == |ids| && AllPlanned(plans, k)
  {
    if k == 0 then tasks
    else Deployed(tasks, plans, ids, user, now, k - 1)[ids[k - 1] := RowOf(plans, ids, user, now, k - 1)]
  }

  /** The table as it was, and the rows of the first k tasks. */
  ghost predicate HasRows(after: Tasks, tasks: Tasks, plans: seq<Plan>, ids: seq<Uuid>, user: string, now: int, k: nat)
    requires k <= |plans| == |ids| && AllPlanned(plans, k)
  {
    && (forall i :: i in after ==> i in tasks || i in ids[..k])
    && (forall i :: i in tasks ==> i in after && after[i] == tasks[i])
    && (forall i :: 0 <= i < k ==> ids[i] in after && after[ids[i]] == RowOf(plans, ids, user, now, i))
  }

  lemma OneMoreRow(after: Tasks, tasks: Tasks, plans: seq<Plan>, ids: seq<Uuid>, user: string, now: int, k: nat)
    requires k < |plans| == |ids| && AllPlanned(plans, k + 1) && FreshIds(tasks, ids)
    requires HasRows(after, tasks, plans, ids, user, now, k)
    ensures HasRows(after[ids[k] := RowOf(plans, ids, user, now, k)], tasks, plans, ids, user, now, k + 1)
  {
    assert ids[..k + 1] == ids[..k] + [ids[k]];
  }

  lemma {:induction false} DeployedRows(tasks: Tasks, plans: seq<Plan>, ids: seq<Uuid>, user: string, now: int, k: nat)
    requires k <= |plans| == |ids| && AllPlanned(plans, k) && FreshIds(tasks, ids)
    ensures HasRows(Deployed(tasks, plans, ids, user, now, k), tasks, plans, ids, user, now, k)
  {
    if k > 0 {
      DeployedRows(tasks, plans, ids, user, now, k - 1);
      OneMoreRow(Deployed(tasks, plans, ids, user, now, k - 1), tasks, plans, ids, user, now, k - 1);
    }
  }

  // ----- What holds of every deployment -----

  /** Whatever ids the blueprint uses, a task's parent was created before it. */
  lemma ParentsComeFirst(tasks: Tasks, plans: seq<Plan>, ids: seq<Uuid>, user: string, now: int, k: nat)
    requires k < |plans| == |ids| && AllPlanned(plans, |plans|) && FreshIds(tasks, ids)
    ensures var after := Deployed(tasks, plans, ids, user, now, |plans|);
            && ids[k] in after
            && (after[ids[k]].def.dependsOn.Some? ==> after[ids[k]].def.dependsOn.value in ids[..k])
  {
    DeployedRows(tasks, plans, ids, user, now, |plans|);
    var after := Deployed(tasks, plans, ids, user, now, |plans|);
    if after[ids[k]].def.dependsOn.Some? {
      var j := LastBefore(plans, plans[k].dependsOn, k).value;
      assert ids[j] == ids[..k][j];
    }
  }

  /** n dependencies up, whether or not they trigger. */
  function Upward(tasks: Tasks, i: Uuid, n: nat): Option<Uuid>
    decreases n
  {
    if n == 0 then Some(i)
    else if i !in tasks || tasks[i].def.dependsOn.None? then None
    else Upward(tasks, tasks[i].def.dependsOn.value, n - 1)
  }

  lemma {:induction false} AncestorsAreUpward(tasks: Tasks, i: Uuid, n: nat)
    ensures Ancestor(tasks, i, n).Some? ==> Upward(tasks, i, n) == Ancestor(tasks, i, n)
    decreases n
  {
    if n > 0 && TriggeringParent(tasks, i).Some? {
      AncestorsAreUpward(tasks, TriggeringParent(tasks, i).value, n - 1);
    }
  }

  lemma {:induction false} UpwardCameEarlier(tasks: Tasks, plans: seq<Plan>, ids: seq<Uuid>, user: string, now: int,
                                             k: nat, n: nat)
    requires k < |plans| == |ids| && AllPlanned(plans, |plans|) && FreshIds(tasks, ids) && n > 0
    ensures var a := Upward(Deployed(tasks, plans, ids, user, now, |plans|), ids[k], n); a.Some? ==> a.value in ids[..k]
    decreases n
  {
    var after := Deployed(tasks, plans, ids, user, now, |plans|);
    ParentsComeFirst(tasks, plans, ids, user, now, k);
    var p := after[ids[k]].def.dependsOn;
    if p.Some? {
      var j :| 0 <= j < k && ids[..k][j] == p.value;
      assert Upward(after, ids[k], n) == Upward(after, ids[j], n - 1);
      if n > 1 {
        UpwardCameEarlier(tasks, plans, ids, user, now, j, n - 1);
        assert ids[..j] == ids[..k][..j];
      }
    }
  }

  /** No blueprint deploys a cycle of dependencies, so what it deploys cannot trigger itself for ever. */
  lemma DeployedIsAcyclic(tasks: Tasks, plans: seq<Plan>, ids: seq<Uuid>, user: string, now: int, k: nat, n: nat,
                          run: seq<Completion>)
    requires k < |plans| == |ids| && AllPlanned(plans, |plans|) && FreshIds(tasks, ids)
    ensures var after := Deployed(tasks, plans, ids, user, now, |plans|);
            && (n > 0 ==> Upward(after, ids[k], n) != Some(ids[k]))
            && !OnCycle(after, ids[k])
            && (IsRun(after, From(ids[k]), run) ==> |run| <= |Subtree(after, ids[k])|)
  {
    var after := Deployed(tasks, plans, ids, user, now, |plans|);
    ParentsComeFirst(tasks, plans, ids, user, now, k);
    if n > 0 {
      UpwardCameEarlier(tasks, plans, ids, user, now, k, n);
    }
    if OnCycle(after, ids[k]) {
      var m: nat :| m > 0 && Ancestor(after, ids[k], m) == Some(ids[k]);
      UpwardCameEarlier(tasks, plans, ids, user, now, k, m);
      AncestorsAreUpward(after, ids[k], m);
    }
    if IsRun(after, From(ids[k]), run) {
      CascadeStops(after, ids[k], run);
    }
  }

  predicate DistinctIds(plans: seq<Plan>) {
    && (forall i :: 0 <= i < |plans| ==> plans[i].id != "")
    && (forall i, j :: 0 <= i < j < |plans| ==> plans[i].id != plans[j].id)
  }

  predicate IsEdge(plans: seq<Plan>, child: nat, parent: nat)
    requires child < |plans| && parent < |plans|
  {
    plans[child].dependsOn == plans[parent].id
  }

  /** Every task comes after the one it names. */
  predicate Topological(plans: seq<Plan>) {
    forall j, k :: 0 <= j < |plans| && 0 <= k < |plans| && IsEdge(plans, k, j) ==> j < k
  }

  /** The same edges, task by task. */
  ghost predicate SameGraph(plans: seq<Plan>, after: Tasks, ids: seq<Uuid>)
    requires |plans| == |ids|
  {
    forall j, k :: 0 <= j < |plans| && 0 <= k < |plans| ==>
      ids[k] in after && (IsEdge(plans, k, j) <==> after[ids[k]].def.dependsOn == Some(ids[j]))
  }

  lemma EdgeDeployed(plans: seq<Plan>, ids: seq<Uuid>, j: nat, k: nat)
    requires |plans| == |ids| && j < |plans| && k < |plans| && DistinctIds(plans) && NoDuplicates(ids)
    ensures ParentOf(plans, ids, k) == Some(ids[j]) <==> IsEdge(plans, k, j) && j < k
  {
    if ParentOf(plans, ids, k).Some? {
      var i := LastBefore(plans, plans[k].dependsOn, k).value;
      assert ids[i] == ids[j] <==> i == j;
    }
  }

  /** With distinct ids the deployed graph is the blueprint's exactly if the blueprint is in topological order. */
  lemma SameGraphIffTopological(tasks: Tasks, plans: seq<Plan>, ids: seq<Uuid>, user: string, now: int)
    requires |plans| == |ids| && AllPlanned(plans, |plans|) && FreshIds(tasks, ids) && DistinctIds(plans)
    ensures SameGraph(plans, Deployed(tasks, plans, ids, user, now, |plans|), ids) <==> Topological(plans)
  {
    var after := Deployed(tasks, plans, ids, user, now, |plans|);
    DeployedRows(tasks, plans, ids, user, now, |plans|);
    forall j, k | 0 <= j < |plans| && 0 <= k < |plans|
      ensures ids[k] in after
      ensures after[ids[k]].def.dependsOn == Some(ids[j]) <==> IsEdge(plans, k, j) && j < k
    {
      EdgeDeployed(plans, ids, j, k);
    }
  }

  // ----- The handler -----

  /** idMap after k tasks: the last task of each id. */
  ghost predicate Maps(idMap: map<string, Uuid>, plans: seq<Plan>, ids: seq<Uuid>, k: nat)
    requires k <= |plans| == |ids|
  {
    forall id :: id != "" ==>
      match LastBefore(plans, id, k)
      case None => id !in idMap
      case Some(j) => id in idMap && idMap[id] == ids[j]
  }

  lemma MapGrows(idMap: map<string, Uuid>, plans: seq<Plan>, ids: seq<Uuid>, k: nat)
    requires k < |plans| == |ids| && Maps(idMap, plans, ids, k)
    ensures Maps(if plans[k].id != "" then idMap[plans[k].id := ids[k]] else idMap, plans, ids, k + 1)
  {
  }

  lemma MapFindsParent(idMap: map<string, Uuid>, plans: seq<Plan>, ids: seq<Uuid>, k: nat)
    requires k < |plans| == |ids| && Maps(idMap, plans, ids, k)
    ensures ParentOf(plans, ids, k)
            == if plans[k].dependsOn != "" && plans[k].dependsOn in idMap then Some(idMap[plans[k].dependsOn]) else None
  {
    var j := LastBefore(plans, plans[k].dependsOn, k);
  }

  lemma DeployNext(tasks: Tasks, plans: seq<Plan>, ids: seq<Uuid>, user: string, now: int, k: nat)
    requires k < |plans| == |ids| && AllPlanned(plans, k) && plans[k].row.Some? && FreshIds(tasks, ids)
    ensures AllPlanned(plans, k + 1)
    ensures var current, def := Deployed(tasks, plans, ids, user, now, k), plans[k].row.value;
            && ids[k] !in current && ParentExists(current, ParentOf(plans, ids, k))
            && Deployed(tasks, plans, ids, user, now, k + 1)
               == current[ids[k] := Inserted(def.(dependsOn := ParentOf(plans, ids, k)), user, now)]
  {
    DeployedRows(tasks, plans, ids, user, now, k);
  }

  /** One transaction: all tasks are created, or none. */
  method DeployPlans(db: TaskTable, user: string, plans: seq<Plan>, ids: seq<Uuid>, now: int)
    returns (created: Option<seq<Uuid>>)
    requires |ids| == |plans| && FreshIds(db.tasks, ids)
    modifies db`tasks
    ensures if AllPlanned(plans, |plans|) then
              created == Some(ids) && db.tasks == Deployed(old(db.tasks), plans, ids, user, now, |plans|)
            else
              created == None && db.tasks == old(db.tasks)
  {
    var before := db.tasks;
    var idMap: map<string, Uuid> := map[];
    var done: seq<Uuid> := [];
    for k := 0 to |plans|
      invariant AllPlanned(plans, k) && done == ids[..k]
      invariant db.tasks == Deployed(before, plans, ids, user, now, k)
      invariant Maps(idMap, plans, ids, k)
    {
      var plan := plans[k];
      var parent: Option<Uuid> := None;
      if plan.dependsOn != "" && plan.dependsOn in idMap {
        parent := Some(idMap[plan.dependsOn]);
      }
      if plan.row.None? {
        db.tasks := before;
        return None;
      }
      MapFindsParent(idMap, plans, ids, k);
      MapGrows(idMap, plans, ids, k);
      DeployNext(before, plans, ids, user, now, k);
      db.CreateTask(ids[k], plan.row.value.(dependsOn := parent), user, now);
      if plan.id != "" {
        idMap := idMap[plan.id := ids[k]];
      }
      done := done + [ids[k]];
      assert ids[..k + 1] == ids[..k] + [ids[k]];
    }
    assert ids[..|ids|] == ids;
    return Some(done);
  }

  method DeployBlueprint(db: TaskTable, user: string, blueprint: seq<BlueprintTask>, ids: seq<Uuid>, now: int)
    returns (created: Option<seq<Uuid>>)
    requires |ids| == |blueprint| && FreshIds(db.tasks, ids)
    modifies db`tasks
    ensures var plans := PlansOf(blueprint);
            if AllPlanned(plans, |plans|) then
              created == Some(ids) && db.tasks == Deployed(old(db.tasks), plans, ids, user, now, |plans|)
            else
              created == None && db.tasks == old(db.tasks)
  {
    created := DeployPlans(db, user, PlansOf(blueprint), ids, now);
  }
}
