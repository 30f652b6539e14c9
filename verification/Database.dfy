/** The task table as the server's statements change it (db/queries.sql). */
module Database {
  import opened Rows

  /** LinkTaskDependency: two columns of one row of the user. */
  function LinkRow(tasks: Tasks, user: string, id: Uuid, parent: Option<Uuid>, trigger: bool): Tasks {
    if Owns(tasks, user, id) then
      tasks[id := tasks[id].(def := tasks[id].def.(dependsOn := parent, triggerOnCompletion := trigger))]
    else tasks
  }

  /** The foreign key on depends_on_task_id. */
  predicate ParentExists(tasks: Tasks, parent: Option<Uuid>) {
    parent.Some? ==> parent.value in tasks
  }

  class TaskTable {
    var tasks: Tasks
    var deadLetters: seq<Uuid>

    method Exec(id: Uuid, statement: Statement)
      modifies this`tasks
      ensures tasks == Update(old(tasks), id, statement)
    {
      if id in tasks {
        tasks := tasks[id := statement.On(tasks[id])];
      }
    }

    method ExecOwned(user: string, id: Uuid, statement: Statement)
      modifies this`tasks
      ensures tasks == UpdateOwned(old(tasks), user, id, statement)
    {
      if Owns(tasks, user, id) {
        tasks := tasks[id := statement.On(tasks[id])];
      }
    }

    method MoveToDlq(id: Uuid)
      modifies this`deadLetters
      ensures deadLetters == old(deadLetters) + [id]
    {
      deadLetters := deadLetters + [id];
    }

    method CreateTask(id: Uuid, def: Definition, user: string, nextRun: int)
      requires id !in tasks && ParentExists(tasks, def.dependsOn)
      modifies this`tasks
      ensures tasks == old(tasks)[id := Inserted(def, user, nextRun)]
    {
      tasks := tasks[id := Inserted(def, user, nextRun)];
    }

    method LinkTaskDependency(user: string, id: Uuid, parent: Option<Uuid>, trigger: bool)
      modifies this`tasks
      ensures tasks == LinkRow(old(tasks), user, id, parent, trigger)
    {
      tasks := LinkRow(tasks, user, id, parent, trigger);
    }
  }
}
