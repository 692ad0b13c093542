/** Who may write which column of a worker row, which connection stands for which name, and when: the step machine
    against a column-by-column reference that knows nothing of handlers and statements. */
module WorkerColumns {
  import opened Types
  import opened Tables
  import opened Connections
  import opened Handlers
  import opened TaskDatabase
  import opened Protocol
  import opened TaskColumns

  /** The manager hears a status of w. */
  predicate Reported(s: World, step: Step, w: Name) {
    && step.Delivers? && step.conn in s.m.conns && s.m.conns[step.conn].toManager != []
    && s.m.conns[step.conn].toManager[0].StatusReply? && s.m.conns[step.conn].toManager[0].name == w
  }

  /** w registers over its connection. */
  predicate RegistersNow(s: World, step: Step, w: Name) {
    && step.Delivers? && step.conn in s.m.conns && s.m.conns[step.conn].toManager != []
    && s.m.conns[step.conn].toManager[0].AddWorker? && s.m.conns[step.conn].toManager[0].worker.name == w
  }

  /** The row a registration, over the connection or over the API, brings along. */
  function Brought(s: World, step: Step, w: Name): Option<Worker> {
    if step.AddsRow? && step.worker.name == w then Some(step.worker)
    else if RegistersNow(s, step, w) then Some(s.m.conns[step.conn].toManager[0].worker)
    else None
  }

  // ---- the reference: one function a column ----

  function UpAfter(s: World, step: Step, w: Name, row: Worker): bool {
    if Reported(s, step, w) then true
    else if LosesTouch(s, step, w) || (step.Ticks? && w !in s.m.sockets) then false
    else row.up
  }

  function DownCountAfter(s: World, step: Step, w: Name, row: Worker): int {
    if Reported(s, step, w) then 0
    else if step.Ticks? && w !in s.m.sockets then row.downCount + 1
    else row.downCount
  }

  function IddleAfter(s: World, step: Step, w: Name, row: Worker): int {
    if Reported(s, step, w) then s.m.conns[step.conn].toManager[0].iddleThreads
    else if step.Sends? && step.name == w then if row.iddleThreads > 0 then row.iddleThreads - 1 else 0
    else row.iddleThreads
  }

  /** The name and the number of threads are never written again. */
  function WorkerAfter(s: World, step: Step, w: Name, row: Worker): Worker {
    Worker(row.name, row.defaultThreads, IddleAfter(s, step, w, row), UpAfter(s, step, w, row),
           DownCountAfter(s, step, w, row))
  }

  ghost predicate MeetsWorkers(s: World, step: Step, workers: Workers) {
    && (forall w | w in workers :: w in s.m.db.workers || Brought(s, step, w).Some?)
    && (forall w | w in s.m.db.workers ::
          if Dismissed(s, step, w) then w !in workers
          else w in workers && workers[w] == WorkerAfter(s, step, w, s.m.db.workers[w]))
    && (forall w | Brought(s, step, w).Some? && w !in s.m.db.workers ::
          w in workers && workers[w] == Brought(s, step, w).value)
  }

  lemma SendMeets(s: World, w: Name, ok: bool)
    requires s.batch != []
    ensures MeetsWorkers(s, Sends(w, ok), SendAddTask(s.m, w, s.batch[0], ok).db.workers)
  {
  }

  lemma TickMeets(s: World)
    ensures MeetsWorkers(s, Ticks, Tick(s.m).db.workers)
  {
  }

  lemma CleanupMeets(s: World, c: ConnId)
    requires c in s.m.conns
    ensures MeetsWorkers(s, CleansUp(c), HandleConnectionError(s.m, c).db.workers)
  {
  }

  lemma ReadMeets(s: World, c: ConnId)
    requires c in s.m.conns && s.m.conns[c].toManager != []
    ensures MeetsWorkers(s, Delivers(c), ReadMessage(s.m, c).db.workers)
  {
    var workers := ReadMessage(s.m, c).db.workers;
    match s.m.conns[c].toManager[0]
    case AddWorker(w) => assert workers == HandleWorkerPost(s.m, w).db.workers;
    case DeleteWorker(w) => assert workers == RmWorkerName(s.m.db, w.name).workers;
    case StatusReply(w, iddle) => assert workers == HandleWorkerStatus(s.m, w, iddle).db.workers;
    case _ => assert workers == s.m.db.workers;
  }

  lemma RowMeets(s: World, step: Step)
    requires Enabled(s, step) && (step.AddsRow? || step.RemovesRow?)
    ensures MeetsWorkers(s, step, Next(s, step).m.db.workers)
  {
  }

  predicate WritesNoWorker(step: Step) {
    || Remote(step) || step.Posts? || step.Deletes? || step.Fetches? || step.Rereads? || step.Skips? || step.Trims?
    || step.Restarts?
  }

  lemma OtherKeeps(s: World, step: Step)
    requires Enabled(s, step) && WritesNoWorker(step)
    ensures Next(s, step).m.db.workers == s.m.db.workers
  {
  }

  lemma OtherMeets(s: World, step: Step)
    requires WritesNoWorker(step)
    ensures MeetsWorkers(s, step, s.m.db.workers)
  {
  }

  /** Every step writes exactly what the reference says: a row appears only by a registration under a new name and
      goes exactly by a dismissal; a second registration, a send or a cleanup touches only its own column. */
  lemma WorkerRowsMeetReference(s: World, step: Step)
    requires Enabled(s, step)
    ensures MeetsWorkers(s, step, Next(s, step).m.db.workers)
  {
    if WritesNoWorker(step) {
      OtherKeeps(s, step);
      OtherMeets(s, step);
    } else if step.Sends? {
      SendMeets(s, step.name, step.ok);
    } else if step.Ticks? {
      TickMeets(s);
    } else if step.CleansUp? {
      CleanupMeets(s, step.conn);
    } else if step.Delivers? {
      ReadMeets(s, step.conn);
    } else {
      RowMeets(s, step);
    }
  }

  // ---- what follows ----

  /** A worker that shuts down in order is removed: exactly its row goes, its running tasks become pending, its other
      tasks keep their status, none keeps its name, and nothing else changes in the tables. */
  lemma ShutdownRemoves(s: World, c: ConnId, w: Worker)
    requires KeyedRows(s.m.db) && "" !in s.m.db.workers && w.name in s.m.db.workers
    requires Enabled(s, Delivers(c)) && s.m.conns[c].toManager[0] == DeleteWorker(w)
    ensures var db := Next(s, Delivers(c)).m.db;
            && db.workers == (map n | n in s.m.db.workers && n != w.name :: s.m.db.workers[n])
            && db.tasks.Keys == s.m.db.tasks.Keys
            && (forall id | id in db.tasks && s.m.db.tasks[id].workerName != w.name :: db.tasks[id] == s.m.db.tasks[id])
            && (forall id | id in db.tasks && s.m.db.tasks[id].workerName == w.name ::
                  db.tasks[id] == s.m.db.tasks[id].(
                    workerName := "",
                    status := if s.m.db.tasks[id].status == Running then Pending else s.m.db.tasks[id].status))
  {
    WorkerRowsMeetReference(s, Delivers(c));
    TaskRowsMeetReference(s, Delivers(c));
  }

  /** A row goes exactly when its worker is dismissed. */
  lemma RowGoes(s: World, step: Step, w: Name)
    requires Enabled(s, step) && w in s.m.db.workers
    ensures w !in Next(s, step).m.db.workers <==> Dismissed(s, step, w)
  {
    WorkerRowsMeetReference(s, step);
  }

  /** After a tick only connected workers are up, so a select of idle workers offers no other. */
  lemma TickMarksDown(s: World, w: Name)
    requires w in Next(s, Ticks).m.db.workers
    ensures w in s.m.db.workers
    ensures Next(s, Ticks).m.db.workers[w].up <==> w in s.m.sockets && s.m.db.workers[w].up
    ensures w in IddleNames(Next(s, Ticks).m.db.workers) ==> w in s.m.sockets
  {
    WorkerRowsMeetReference(s, Ticks);
  }
}
