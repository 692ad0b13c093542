/** The manager: its handlers work in place on the database, the WebSockets map and the connections.
    Each method is proved equal to the function of Handlers with the same name. */
module Manager {
  import opened Types
  import opened Tables
  import opened Sums
  import opened Connections
  import opened Handlers
  import opened TaskDatabase

  const DEFAULT_STATUS_CHECK_DOWN := 360

  datatype StatusTask = StatusTask(pending: nat, running: nat, done: nat, failed: nat, deleted: nat)

  function SumThreads(list: seq<Worker>): int {
    if list == [] then 0 else SumThreads(list[..|list| - 1]) + list[|list| - 1].defaultThreads
  }

  /** Summing the rows of a select does not depend on their order. */
  lemma {:induction false} SumIsTotal(list: seq<Worker>, threads: map<Name, int>)
    requires forall i, j | 0 <= i < j < |list| :: list[i].name != list[j].name
    requires forall i | 0 <= i < |list| :: list[i].name in threads && threads[list[i].name] == list[i].defaultThreads
    requires forall n | n in threads :: exists i :: 0 <= i < |list| && list[i].name == n
    ensures SumThreads(list) == Total(threads)
  {
    if list == [] {
      assert threads == map[];
    } else {
      var n := |list| - 1;
      TotalPick(threads, list[n].name);
      SumIsTotal(list[..n], threads - {list[n].name});
    }
  }

  class Manager {
    const db: Database
    const checkDown: int
    var webSockets: map<Name, ConnId>
    var conns: Conns

    ghost function View(): Mgr
      reads this, db
    {
      Mgr(db.Rows(), webSockets, conns, checkDown)
    }

    /** StartManager: StatusCheckDown is made positive, the WebSockets map is new and the tasks an earlier
        manager left running become pending.  earlier: connections workers still hold to that manager. */
    constructor (db: Database, statusCheckDown: int, earlier: Conns)
      modifies db
      ensures this.db == db && checkDown > 0
      ensures checkDown == if statusCheckDown > 0 then statusCheckDown else 360
      ensures forall sockets :: View() == Start(Mgr(old(db.Rows()), sockets, earlier, checkDown))
    {
      this.db := db;
      checkDown := if statusCheckDown <= 0 then DEFAULT_STATUS_CHECK_DOWN else statusCheckDown;
      webSockets := map[];
      conns := map c | c in earlier :: earlier[c].(broken := true, handled := true, toManager := []);
      new;
      db.SetTasksStatusIfStatus(Running, Pending);
    }

    // ---- workerRequest.go ----

    method SendMessage(c: ConnId, msg: ToWorker) returns (ok: bool)
      modifies this`conns
      ensures !ok ==> c in conns && conns[c].broken
      ensures conns == if ok then Push(old(conns), c, msg) else old(conns)
    {
      ok := true;
      if c in conns && conns[c].broken {
        ok := *;
      } else {
        conns := Push(conns, c, msg);
      }
    }

    /** The task is passed by pointer: sent is what the caller's variable holds afterwards. */
    method SendAddTask(worker: Worker, task: Task) returns (sent: Task, err: Option<Error>, ghost ok: bool)
      modifies this`conns, db
      ensures WriteOutcome(old(View()), worker.name, ok)
      ensures View() == Handlers.SendAddTask(old(View()), worker.name, task, ok)
      ensures err == SendAddTaskError(old(View()), worker.name, task, ok)
      ensures err == None <==> && worker.name in old(db.workers) && worker.name in webSockets && ok
                               && task.id in old(db.tasks)
      ensures sent == if worker.name !in old(db.workers) || worker.name !in webSockets then task
                      else task.(workerName := worker.name, status := if ok then Running else task.status)
    {
      ok, sent := true, task;
      err := db.SubtractWorkerIddleThreads1(worker.name);
      if err.Some? {
        return;
      }
      if worker.name !in webSockets {
        err := Some(NoWebSocket);
        return;
      }
      sent := sent.(workerName := worker.name);
      var written := SendMessage(webSockets[worker.name], AddTask(sent));
      ok := written;
      if !written {
        err := Some(WriteFailed);
        return;
      }
      sent := sent.(status := Running, workerName := worker.name);
      err := db.UpdateTask(sent);
    }

    method SendDeleteTask(worker: Worker, task: Task) returns (err: Option<Error>)
      modifies this`conns, db`tasks
      ensures worker.name !in webSockets ==> err == Some(NoWebSocket) && View() == old(View())
      ensures err == Some(WriteFailed) ==> WriteOutcome(old(View()), worker.name, false) && View() == old(View())
      ensures worker.name in webSockets && err != Some(WriteFailed)
              ==> && View() == old(View()).(
                       conns := Push(old(conns), webSockets[worker.name], DeleteTask(task)),
                       db := old(db.Rows()).(tasks := SetStatus(old(db.tasks), task.id, Deleted)))
                  && err == (if task.id in old(db.tasks) then None else Some(NotFound))
    {
      if worker.name !in webSockets {
        return Some(NoWebSocket);
      }
      var written := SendMessage(webSockets[worker.name], DeleteTask(task));
      if !written {
        return Some(WriteFailed);
      }
      err := db.SetTaskStatus(task.id, Deleted);
    }

    method WorkerDisconnected(worker: Name)
      modifies this, db
      ensures View() == Handlers.WorkerDisconnected(old(View()), worker)
    {
      if worker in webSockets {
        conns := Close(conns, webSockets[worker]);
      }
      webSockets := webSockets - {worker};
      var _ := db.SetWorkerUPto(worker, false);
      db.SetTasksWorkerPending(worker);
    }

    method HandleMissingWebSocket(worker: Worker) returns (err: Option<Error>)
      requires worker.name !in webSockets
      modifies this`webSockets, db
      ensures View() == Handlers.HandleMissingWebSocket(old(View()), worker.name)
      ensures err == if worker.name in old(db.workers) then None else Some(NotFound)
    {
      webSockets := webSockets - {worker.name};
      err := db.SetWorkerUPto(worker.name, false);
      if worker.name !in db.workers {
        return Some(NotFound);
      }
      var downCount := db.workers[worker.name].downCount;
      err := db.AddWorkerDownCount(worker.name);
      if downCount + 1 >= checkDown {
        db.SetTasksWorkerPending(worker.name);
        err := db.RmWorkerName(worker.name);
      }
    }

    method VerifyWorker(worker: Worker) returns (err: Option<Error>)
      modifies this, db
      ensures View() == Handlers.VerifyWorker(old(View()), worker.name)
    {
      if worker.name !in webSockets {
        err := HandleMissingWebSocket(worker);
      } else {
        var written := SendMessage(webSockets[worker.name], StatusRequest);
        err := if written then None else Some(WriteFailed);
      }
    }

    /** The loop over a snapshot of the worker table, in any order, is one row-by-row tick. */
    method VerifyWorkers()
      requires db.Keyed() && "" !in db.workers && OneNamePerConn(View())
      modifies this, db
      ensures View() == Tick(old(View()))
    {
      var workers := db.GetWorkers();
      TickNothing(View());
      ghost var names: set<Name> := {};
      for i := 0 to |workers|
        invariant names == set w | w in workers[..i] :: w.name
        invariant View() == TickOn(old(View()), names)
      {
        assert workers[i].name !in names;
        TickOneMore(old(View()), names, workers[i].name);
        var _ := VerifyWorker(workers[i]);
        assert workers[..i + 1] == workers[..i] + [workers[i]];
        names := names + {workers[i].name};
      }
      assert workers[..|workers|] == workers;
      assert names == old(db.workers).Keys by {
        forall n | n in old(db.workers) ensures n in names {
          assert old(db.workers)[n] in workers;
        }
      }
    }

    method GetWorkersThreads() returns (threads: int)
      requires db.Keyed()
      ensures threads == Total(map n | n in db.workers && db.workers[n].up :: db.workers[n].defaultThreads)
    {
      var workers := db.GetWorkerUP();
      threads := 0;
      for i := 0 to |workers|
        invariant threads == SumThreads(workers[..i])
      {
        assert workers[..i + 1][..i] == workers[..i];
        threads := threads + workers[i].defaultThreads;
      }
      assert workers[..|workers|] == workers;
      forall n | n in UpThreads(db.workers) ensures exists j :: 0 <= j < |workers| && workers[j].name == n {
        assert db.workers[n] in workers;
      }
      SumIsTotal(workers, UpThreads(db.workers));
    }

    // ---- handleErrors.go and addWorker ----

    /** Only a bare duplicate-entry error resets the worker; the database layer always wraps it. */
    method HandleAddWorkerError(err: Error, worker: Worker) returns (result: Option<Error>)
      modifies db
      ensures !err.MySQL? ==> result == None && db.Rows() == old(db.Rows())
      ensures err.MySQL? && err.number != 1062 ==> result == Some(err) && db.Rows() == old(db.Rows())
      ensures err == MySQL(1062) && worker.name !in old(db.workers)
              ==> && result == Some(NotFound)
                  && db.tasks == Requeue(old(db.tasks), worker.name) && db.workers == old(db.workers)
      ensures err == MySQL(1062) && worker.name in old(db.workers)
              ==> && result == None
                  && db.tasks == Requeue(old(db.tasks), worker.name)
                  && db.workers == old(db.workers)[worker.name := worker.(downCount := 0)]
    {
      if err.MySQL? {
        if err.number == DUPLICATE_ENTRY {
          db.SetTasksWorkerPending(worker.name);
          result := db.UpdateWorker(worker);
          if result.Some? {
            return;
          }
          result := db.SetWorkerDownCount(worker.name, 0);
          return;
        }
        return Some(err);
      }
      return None;
    }

    /** A second registration of a name is reported as a success and changes neither table. */
    method AddWorker(worker: Worker) returns (err: Option<Error>)
      modifies db
      ensures err == None
      ensures View() == HandleWorkerPost(old(View()), worker)
    {
      err := db.AddWorker(worker);
      if err.Some? {
        err := HandleAddWorkerError(err.value, worker);
      }
    }

    // ---- websockets.go ----

    method HandleAddWorker(c: ConnId, worker: Worker)
      modifies this, db
      ensures View() == Handlers.HandleAddWorker(old(View()), c, worker)
    {
      conns := Connections.Announce(conns, c, worker.name);
      webSockets := webSockets[worker.name := c];
      var _ := AddWorker(worker);
    }

    method HandleWorkerStatus(name: Name, iddleThreads: int)
      modifies db
      ensures View() == Handlers.HandleWorkerStatus(old(View()), name, iddleThreads)
    {
      if name !in db.workers {
        return;
      }
      var before := db.workers[name];
      var _ := db.SetWorkerUPto(name, true);
      var _ := db.SetWorkerDownCount(name, 0);
      if iddleThreads != before.iddleThreads {
        var _ := db.SetIddleThreadsTo(name, iddleThreads);
      }
    }

    method HandleMessage(c: ConnId, msg: ToManager)
      modifies this, db
      ensures View() == Handlers.HandleMessage(old(View()), c, msg)
    {
      match msg
      case AddWorker(w) =>
        HandleAddWorker(c, w);
      case DeleteWorker(w) =>
        conns := Connections.Announce(conns, c, w.name);
        var _ := db.RmWorkerName(w.name);
      case Callback(t) =>
        var _ := db.UpdateTask(t);
      case StatusReply(name, iddle) =>
        HandleWorkerStatus(name, iddle);
      case FailedAddTask(t) =>
        var _ := db.SetTaskStatus(t.id, Pending);
      case OkAddTask(_) =>
      case OkDeleteTask(_) =>
      case FailedDeleteTask(_) =>
    }

    /** One turn of the read loop of a connection that has a message. */
    method ReadMessage(c: ConnId)
      modifies this, db
      ensures View() == Handlers.ReadMessage(old(View()), c)
    {
      if c in conns && conns[c].toManager != [] {
        var msg := conns[c].toManager[0];
        conns := conns[c := conns[c].(toManager := conns[c].toManager[1..])];
        HandleMessage(c, msg);
      }
    }

    /** The read loop of a connection ends with an error. */
    method HandleConnectionError(c: ConnId)
      modifies this, db
      ensures View() == Handlers.HandleConnectionError(old(View()), c)
    {
      if c in conns {
        conns := conns[c := conns[c].(handled := true)];
        if conns[c].announced.Some? {
          WorkerDisconnected(conns[c].announced.value);
        }
      }
    }

    // ---- APItask.go ----

    method HandleTaskPost(request: Task, id: TaskId, username: string, now: int) returns (ok: bool)
      modifies db
      ensures ok == PostAccepted(old(View()), request, id)
      ensures View() == Handlers.HandleTaskPost(old(View()), request, id, username, now)
    {
      var task := request.(id := id);
      task := task.(status := Pending, username := username);
      if task.workerName != "" && task.workerName !in db.workers {
        return false;
      }
      var err := db.AddTask(task, now);
      ok := err == None;
    }

    method HandleTaskDelete(id: TaskId) returns (ok: bool, ghost written: bool)
      requires db.Keyed()
      modifies this`conns, db`tasks
      ensures id in old(db.tasks) ==> WriteOutcome(old(View()), old(db.tasks[id].workerName), written)
      ensures View() == Handlers.HandleTaskDelete(old(View()), id, written)
      ensures ok <==> id in old(db.tasks) && db.tasks[id].status == Deleted
    {
      written := true;
      if id !in db.tasks {
        return false, written;
      }
      var task := db.tasks[id];
      if task.workerName in db.workers {
        if task.status == Running {
          var err := SendDeleteTask(db.workers[task.workerName], task);
          if err.Some? {
            written := err != Some(WriteFailed);
            return false, written;
          }
        }
      }
      var _ := db.SetTaskStatus(id, Deleted);
      ok := true;
    }

    // ---- stats.go ----

    method GetStatusTask() returns (s: StatusTask)
      ensures s == StatusTask(|WithStatus(db.tasks, Pending)|, |WithStatus(db.tasks, Running)|,
                              |WithStatus(db.tasks, Done)|, |WithStatus(db.tasks, Failed)|,
                              |WithStatus(db.tasks, Deleted)|)
    {
      s := StatusTask(0, 0, 0, 0, 0);
      var pending := db.GetCountByStatus(Pending);
      s := s.(pending := pending);
      var running := db.GetCountByStatus(Running);
      s := s.(running := running);
      var done := db.GetCountByStatus(Done);
      s := s.(done := done);
      var failed := db.GetCountByStatus(Failed);
      s := s.(failed := failed);
      var deleted := db.GetCountByStatus(Deleted);
      s := s.(deleted := deleted);
    }
  }
}
