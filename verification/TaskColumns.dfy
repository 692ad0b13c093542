/** Who may write which column of a task row, and when: the step machine against a column-by-column reference that
    knows nothing of handlers and statements. */
module TaskColumns {
  import opened Types
  import opened Tables
  import opened Connections
  import opened Handlers
  import opened TaskDatabase
  import opened Protocol
  import opened Conservation

  // ---- what may happen to a row ----

  /** The scheduler has sent the fetched copy of the task and marks the row. */
  predicate Sent(s: World, step: Step, id: TaskId) {
    && step.Sends? && step.ok && s.batch != [] && s.batch[0].id == id
    && step.name in s.m.db.workers && step.name in s.m.sockets
  }

  /** The manager handles a result or a refusal of the task. */
  predicate HearsOf(s: World, step: Step, id: TaskId) {
    && step.Delivers? && step.conn in s.m.conns && s.m.conns[step.conn].toManager != []
    && Settles(s.m.conns[step.conn].toManager[0]) && s.m.conns[step.conn].toManager[0].task.id == id
  }

  /** A result of the task arrives. */
  predicate Returned(s: World, step: Step, id: TaskId) {
    HearsOf(s, step, id) && s.m.conns[step.conn].toManager[0].Callback?
  }

  /** A worker has refused to start the task. */
  predicate Refused(s: World, step: Step, id: TaskId) {
    HearsOf(s, step, id) && s.m.conns[step.conn].toManager[0].FailedAddTask?
  }

  /** The user deletes the task; for a running one the worker must have been told. */
  predicate DeletedBy(s: World, step: Step, row: Task) {
    && step.Deletes? && step.id == row.id
    && (row.status == Running && row.workerName in s.m.db.workers ==> row.workerName in s.m.sockets && step.ok)
  }

  /** The row of worker w goes: over the API, by its own message, or by the tick that ends its countdown. */
  predicate Dismissed(s: World, step: Step, w: Name) {
    && w in s.m.db.workers
    && (|| (step.RemovesRow? && step.name == w)
        || (&& step.Delivers? && step.conn in s.m.conns && s.m.conns[step.conn].toManager != []
            && s.m.conns[step.conn].toManager[0].DeleteWorker? && s.m.conns[step.conn].toManager[0].worker.name == w)
        || (step.Ticks? && w !in s.m.sockets && s.m.db.workers[w].downCount + 1 >= s.m.checkDown))
  }

  /** The manager cleans up after a connection that had announced w. */
  predicate LosesTouch(s: World, step: Step, w: Name) {
    step.CleansUp? && step.conn in s.m.conns && s.m.conns[step.conn].announced == Some(w)
  }

  // ---- the reference: one function a column ----

  function StatusAfter(s: World, step: Step, row: Task): Status {
    if Sent(s, step, row.id) then Running
    else if Returned(s, step, row.id) then s.m.conns[step.conn].toManager[0].task.status
    else if Refused(s, step, row.id) then Pending
    else if DeletedBy(s, step, row) then Deleted
    else if row.status == Running
            && (step.Restarts? || Dismissed(s, step, row.workerName) || LosesTouch(s, step, row.workerName))
    then Pending
    else row.status
  }

  function WorkerNameAfter(s: World, step: Step, row: Task): Name {
    if Sent(s, step, row.id) then step.name
    else if Returned(s, step, row.id) then s.m.conns[step.conn].toManager[0].task.workerName
    else if Dismissed(s, step, row.workerName) then ""
    else row.workerName
  }

  function DetailsAfter(s: World, step: Step, row: Task): Details {
    if Sent(s, step, row.id) then s.batch[0].details
    else if Returned(s, step, row.id) then s.m.conns[step.conn].toManager[0].task.details
    else row.details
  }

  function PriorityAfter(s: World, step: Step, row: Task): int {
    if Sent(s, step, row.id) then s.batch[0].priority
    else if Returned(s, step, row.id) then s.m.conns[step.conn].toManager[0].task.priority
    else row.priority
  }

  /** The id, the user and the time of creation are never written again. */
  function RowAfter(s: World, step: Step, row: Task): Task {
    Task(row.id, DetailsAfter(s, step, row), StatusAfter(s, step, row), WorkerNameAfter(s, step, row),
         row.username, PriorityAfter(s, step, row), row.createdAt)
  }

  predicate PostedNow(s: World, step: Step, id: TaskId) {
    && step.Posts? && step.id == id && id !in s.m.db.tasks
    && (step.request.workerName == "" || step.request.workerName in s.m.db.workers)
  }

  // ---- each kind of step meets the reference ----

  predicate Meets(s: World, step: Step, tasks: Tasks) {
    && (forall id | id in tasks :: id in s.m.db.tasks || PostedNow(s, step, id))
    && (forall id | id in s.m.db.tasks ::
          if step.Trims? && id in step.ids then id !in tasks
          else id in tasks && tasks[id] == RowAfter(s, step, s.m.db.tasks[id]))
    && (step.Posts? && PostedNow(s, step, step.id) ==>
          && step.id in tasks
          && tasks[step.id] == Task(step.id, step.request.details, Pending, step.request.workerName,
                                    step.username, step.request.priority, step.now))
  }

  lemma SendMeets(s: World, w: Name, ok: bool)
    requires KeyedRows(s.m.db) && s.batch != []
    ensures Meets(s, Sends(w, ok), TasksAfter(s, Sends(w, ok)))
  {
    var t := s.batch[0];
    assert TasksAfter(s, Sends(w, ok))
        == if w in s.m.db.workers && w in s.m.sockets && ok
           then UpdateTask(s.m.db.tasks, t.(status := Running, workerName := w)) else s.m.db.tasks;
  }

  lemma DeleteMeets(s: World, id: TaskId, ok: bool)
    requires KeyedRows(s.m.db)
    ensures Meets(s, Deletes(id, ok), TasksAfter(s, Deletes(id, ok)))
  {
  }

  lemma RemovalMeets(s: World, n: Name)
    requires KeyedRows(s.m.db)
    ensures Meets(s, RemovesRow(n), TasksAfter(s, RemovesRow(n)))
  {
  }

  lemma TickMeets(s: World)
    requires KeyedRows(s.m.db)
    ensures Meets(s, Ticks, TasksAfter(s, Ticks))
  {
  }

  lemma CleanupMeets(s: World, c: ConnId)
    requires KeyedRows(s.m.db) && c in s.m.conns
    ensures Meets(s, CleansUp(c), TasksAfter(s, CleansUp(c)))
  {
  }

  lemma ReadTables(m: Mgr, c: ConnId)
    requires c in m.conns && m.conns[c].toManager != []
    ensures ReadMessage(m, c).db.tasks
         == match m.conns[c].toManager[0]
            case Callback(t) => UpdateTask(m.db.tasks, t)
            case FailedAddTask(t) => SetStatus(m.db.tasks, t.id, Pending)
            case DeleteWorker(w) => RmWorkerName(m.db, w.name).tasks
            case _ => m.db.tasks
  {
  }

  lemma ResultMeets(s: World, c: ConnId)
    requires KeyedRows(s.m.db) && c in s.m.conns && s.m.conns[c].toManager != []
    requires Settles(s.m.conns[c].toManager[0])
    ensures Meets(s, Delivers(c), TasksAfter(s, Delivers(c)))
  {
    ReadTables(s.m, c);
  }

  lemma RetirementMeets(s: World, c: ConnId)
    requires KeyedRows(s.m.db) && c in s.m.conns && s.m.conns[c].toManager != []
    requires !Settles(s.m.conns[c].toManager[0])
    ensures Meets(s, Delivers(c), TasksAfter(s, Delivers(c)))
  {
    ReadTables(s.m, c);
  }

  lemma PostMeets(s: World, request: Task, id: TaskId, username: string, now: int)
    ensures Meets(s, Posts(request, id, username, now), TasksAfter(s, Posts(request, id, username, now)))
  {
  }

  lemma TrimMeets(s: World, max: int, ids: set<TaskId>)
    ensures Meets(s, Trims(max, ids), TasksAfter(s, Trims(max, ids)))
  {
  }

  lemma RestartMeets(s: World)
    ensures Meets(s, Restarts, TasksAfter(s, Restarts))
  {
  }

  /** The remaining steps write no task row. */
  predicate WritesNoTask(step: Step) {
    Remote(step) || step.AddsRow? || step.Fetches? || step.Rereads? || step.Skips?
  }

  lemma OtherKeeps(s: World, step: Step)
    requires WritesNoTask(step)
    ensures TasksAfter(s, step) == s.m.db.tasks
  {
  }

  lemma RowKept(s: World, step: Step, row: Task)
    requires WritesNoTask(step)
    ensures RowAfter(s, step, row) == row
  {
  }

  lemma OtherMeets(s: World, step: Step)
    requires WritesNoTask(step)
    ensures Meets(s, step, s.m.db.tasks)
  {
    forall id | id in s.m.db.tasks ensures s.m.db.tasks[id] == RowAfter(s, step, s.m.db.tasks[id]) {
      RowKept(s, step, s.m.db.tasks[id]);
    }
  }

  /** Every step writes exactly what the reference says: no column of any row changes otherwise, rows appear only by
      an accepted post and go only by the trim. */
  lemma TaskRowsMeetReference(s: World, step: Step)
    requires KeyedRows(s.m.db) && Enabled(s, step)
    ensures Meets(s, step, Next(s, step).m.db.tasks)
  {
    NextTasks(s, step);
    if step.Sends? {
      SendMeets(s, step.name, step.ok);
    } else if step.Deletes? {
      DeleteMeets(s, step.id, step.ok);
    } else if step.RemovesRow? {
      RemovalMeets(s, step.name);
    } else if step.Ticks? {
      TickMeets(s);
    } else if step.CleansUp? {
      CleanupMeets(s, step.conn);
    } else if step.Delivers? {
      if Settles(s.m.conns[step.conn].toManager[0]) {
        ResultMeets(s, step.conn);
      } else {
        RetirementMeets(s, step.conn);
      }
    } else if step.Posts? {
      PostMeets(s, step.request, step.id, step.username, step.now);
    } else if step.Trims? {
      TrimMeets(s, step.maxEntries, step.ids);
    } else if step.Restarts? {
      RestartMeets(s);
    } else {
      OtherKeeps(s, step);
      OtherMeets(s, step);
    }
  }

  /** A row that exists after the step was there before and is what the reference says, or is new and pending. */
  lemma NextRow(s: World, step: Step, id: TaskId)
    requires KeyedRows(s.m.db) && Enabled(s, step) && id in Next(s, step).m.db.tasks
    ensures if id in s.m.db.tasks then Next(s, step).m.db.tasks[id] == RowAfter(s, step, s.m.db.tasks[id])
            else Next(s, step).m.db.tasks[id].status == Pending
  {
    TaskRowsMeetReference(s, step);
  }
}
