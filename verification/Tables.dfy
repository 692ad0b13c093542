/** What the SQL statements of the task and worker tables do, as functions on the tables. */
module Tables {
  import opened Types

  type Tasks = map<TaskId, Task>
  type Workers = map<Name, Worker>

  // ---- task statements ----

  /** UpdateTask keeps the row's username and createdAt. */
  function Overwrite(row: Task, t: Task): Task {
    row.(details := t.details, status := t.status, workerName := t.workerName, priority := t.priority)
  }

  function UpdateTask(tasks: Tasks, t: Task): Tasks {
    if t.id in tasks then tasks[t.id := Overwrite(tasks[t.id], t)] else tasks
  }

  function SetStatus(tasks: Tasks, id: TaskId, status: Status): Tasks {
    if id in tasks then tasks[id := tasks[id].(status := status)] else tasks
  }

  /** SetTasksWorkerPending: the worker's running tasks become pending and keep its name. */
  function Requeue(tasks: Tasks, name: Name): Tasks {
    map id | id in tasks ::
      if tasks[id].workerName == name && tasks[id].status == Running
      then tasks[id].(status := Pending) else tasks[id]
  }

  function ClearName(tasks: Tasks, name: Name): Tasks {
    map id | id in tasks :: if tasks[id].workerName == name then tasks[id].(workerName := "") else tasks[id]
  }

  function ReplaceStatus(tasks: Tasks, from: Status, to: Status): Tasks {
    map id | id in tasks :: if tasks[id].status == from then tasks[id].(status := to) else tasks[id]
  }

  function WithStatus(tasks: Tasks, status: Status): set<TaskId> {
    set id | id in tasks && tasks[id].status == status
  }

  // ---- worker statements ----

  function SetUp(workers: Workers, name: Name, up: bool): Workers {
    if name in workers then workers[name := workers[name].(up := up)] else workers
  }

  function SubtractIddle(workers: Workers, name: Name): Workers {
    if name in workers
    then workers[name := workers[name].(
                   iddleThreads := if workers[name].iddleThreads > 0 then workers[name].iddleThreads - 1 else 0)]
    else workers
  }

  function IddleNames(workers: Workers): set<Name> {
    set n | n in workers && workers[n].up && workers[n].iddleThreads > 0
  }

  // ---- RmWorkerName on both tables ----

  datatype Db = Db(tasks: Tasks, workers: Workers)

  function RmWorkerName(db: Db, name: Name): Db {
    if name in db.workers
    then Db(ClearName(Requeue(db.tasks, name), name), db.workers - {name})
    else db
  }

  // ---- properties ----

  /** All rows of the one status, and no others, move to the other. */
  lemma ReplacementMoves(tasks: Tasks, from: Status, to: Status)
    ensures WithStatus(ReplaceStatus(tasks, from, to), to) == WithStatus(tasks, to) + WithStatus(tasks, from)
    ensures from != to ==> WithStatus(ReplaceStatus(tasks, from, to), from) == {}
  {
  }

  /** What one task row goes through when its worker is removed. */
  function Detached(t: Task, name: Name): Task {
    if t.workerName != name then t
    else t.(workerName := "", status := if t.status == Running then Pending else t.status)
  }

  /** Removing a worker leaves no task with its name; only its running tasks change status, to pending;
      everybody else's tasks and rows are untouched. */
  lemma RemovalDetaches(db: Db, name: Name)
    requires name in db.workers && name != ""
    ensures var after := RmWorkerName(db, name);
            && after.workers == (map n | n in db.workers && n != name :: db.workers[n])
            && after.tasks.Keys == db.tasks.Keys
            && (forall id | id in db.tasks :: after.tasks[id] == Detached(db.tasks[id], name))
            && (forall id | id in db.tasks :: after.tasks[id].workerName != name)
  {
    assert RmWorkerName(db, name).workers == (map n | n in db.workers && n != name :: db.workers[n]);
  }

  /** The tick requeues before RmWorkerName requeues again: the second time changes nothing. */
  lemma DoubleRequeue(db: Db, name: Name)
    ensures Requeue(Requeue(db.tasks, name), name) == Requeue(db.tasks, name)
    ensures name in db.workers
            ==> RmWorkerName(db.(tasks := Requeue(db.tasks, name)), name) == RmWorkerName(db, name)
  {
    assert Requeue(Requeue(db.tasks, name), name) == Requeue(db.tasks, name);
  }

  /** When the worker has no running task, removing it changes no status at all. */
  lemma RemovalKeepsStatuses(db: Db, name: Name)
    requires forall id | id in db.tasks && db.tasks[id].workerName == name :: db.tasks[id].status != Running
    ensures RmWorkerName(db, name).tasks.Keys == db.tasks.Keys
    ensures forall id | id in db.tasks :: RmWorkerName(db, name).tasks[id].status == db.tasks[id].status
  {
  }
}
