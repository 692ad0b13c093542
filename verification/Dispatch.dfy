/** One round of ManageTasks: the pending tasks are offered, in order, to the idle workers. */
module Dispatch {
  import opened Types
  import opened Tables
  import opened Sums
  import opened Handlers
  import opened TaskDatabase
  import opened Manager

  /** One call of sendAddTask. */
  datatype Attempt = Attempt(worker: Name, err: Option<Error>)

  predicate DistinctNames(workers: seq<Worker>) {
    forall i, j | 0 <= i < j < |workers| :: workers[i].name != workers[j].name
  }

  // ---- the specification of a round that nobody disturbs ----

  /** Task t was offered in state m, which became m'. */
  ghost predicate Turn(m: Mgr, t: Task, attempts: seq<Attempt>, m': Mgr) {
    && IddleNames(m.db.workers) != {}
    && |attempts| <= 1
    && (attempts == [] ==> m' == m && forall w | w in IddleNames(m.db.workers) :: !Matches(t, w))
    && (attempts != [] ==>
          var w, err := attempts[0].worker, attempts[0].err;
          var ok := err != Some(WriteFailed);
          && w in IddleNames(m.db.workers) && Matches(t, w) && WriteOutcome(m, w, ok)
          && err == SendAddTaskError(m, w, t, ok) && m' == SendAddTask(m, w, t, ok))
  }

  /** turns are the manager's states before each offer and after the last. */
  ghost predicate Round(turns: seq<Mgr>, tasks: seq<Task>, log: seq<seq<Attempt>>) {
    && Turns(turns, tasks, log)
    && PendingPrefix(turns[0].db.tasks, Total(UpThreads(turns[0].db.workers)), tasks)
    && (|log| == |tasks| || IddleNames(turns[|log|].db.workers) == {})
  }

  ghost predicate Turns(turns: seq<Mgr>, tasks: seq<Task>, log: seq<seq<Attempt>>) {
    && |turns| == |log| + 1 && |log| <= |tasks|
    && (forall i | 0 <= i < |log| :: Turn(turns[i], tasks[i], log[i], turns[i + 1]))
  }

  lemma TurnsAppend(turns: seq<Mgr>, tasks: seq<Task>, log: seq<seq<Attempt>>, attempts: seq<Attempt>, m: Mgr)
    requires Turns(turns, tasks, log) && |log| < |tasks| && Turn(turns[|log|], tasks[|log|], attempts, m)
    ensures Turns(turns + [m], tasks, log + [attempts])
  {
  }

  /** Each fetched task was sent at most once, a pinned one only to its own worker. */
  predicate SentOnce(tasks: seq<Task>, log: seq<seq<Attempt>>) {
    && |log| <= |tasks|
    && forall i | 0 <= i < |log| ::
         && |log[i]| <= 1
         && forall a | a in log[i] :: tasks[i].workerName == "" || tasks[i].workerName == a.worker
  }

  predicate Named(workers: seq<Worker>) {
    DistinctNames(workers) && forall i | 0 <= i < |workers| :: workers[i].name != ""
  }

  // ---- the loops ----

  /** Other goroutines change tables and connections in any way, within the primary keys. */
  method Interfere(mgr: Manager)
    requires mgr.db.Keyed() && "" !in mgr.db.workers
    modifies mgr, mgr.db
    ensures mgr.db.Keyed() && "" !in mgr.db.workers
  {
    var tasks: Tasks := *;
    var workers: Workers := *;
    if forall id | id in tasks :: tasks[id].id == id {
      mgr.db.tasks := tasks;
    }
    if "" !in workers && forall n | n in workers :: workers[n].name == n {
      mgr.db.workers := workers;
    }
    mgr.webSockets := *;
    mgr.conns := *;
  }

  /** The body of the inner loop for a worker that matches. */
  method SendOne(mgr: Manager, worker: Worker, task: Task) returns (sent: Task, attempt: Attempt)
    requires mgr.db.Keyed() && "" !in mgr.db.workers && Matches(task, worker.name)
    modifies mgr`conns, mgr.db
    ensures mgr.db.Keyed() && "" !in mgr.db.workers
    ensures attempt.worker == worker.name && (attempt.err == None ==> sent.workerName == worker.name)
    ensures worker.name in IddleNames(old(mgr.db.workers)) ==> Turn(old(mgr.View()), task, [attempt], mgr.View())
  {
    var err;
    ghost var ok;
    sent, err, ok := mgr.SendAddTask(worker, task);
    attempt := Attempt(worker.name, err);
  }

  /** The inner loop does not stop after a success: sendAddTask writes the name into the loop's task, and
      as names are distinct no later worker matches it. */
  method OfferTask(mgr: Manager, pending: Task, workers: seq<Worker>, interfere: bool) returns (attempts: seq<Attempt>)
    requires mgr.db.Keyed() && "" !in mgr.db.workers
    requires Named(workers) && workers != []
    modifies mgr, mgr.db
    ensures mgr.db.Keyed() && "" !in mgr.db.workers
    ensures |attempts| <= 1
    ensures forall a | a in attempts :: pending.workerName == "" || pending.workerName == a.worker
    ensures !interfere && RowsOf(old(mgr.db.workers), IddleNames(old(mgr.db.workers)), workers)
            ==> Turn(old(mgr.View()), pending, attempts, mgr.View())
  {
    attempts := [];
    var task := pending;
    ghost var before := mgr.View();
    ghost var calm := !interfere && RowsOf(before.db.workers, IddleNames(before.db.workers), workers);
    assert calm ==> workers[0].name in IddleNames(before.db.workers);
    for i := 0 to |workers|
      invariant mgr.db.Keyed() && "" !in mgr.db.workers
      invariant attempts == [] ==> task == pending && forall j | 0 <= j < i :: !Matches(pending, workers[j].name)
      invariant attempts != [] ==> |attempts| == 1 && exists j :: 0 <= j < i && task.workerName == workers[j].name
      invariant forall a | a in attempts :: Matches(pending, a.worker)
      invariant calm && attempts == [] ==> mgr.View() == before
      invariant calm && attempts != [] ==> Turn(before, pending, attempts, mgr.View())
    {
      if interfere {
        Interfere(mgr);
      }
      if task.workerName == "" || task.workerName == workers[i].name {
        assert attempts == [];
        var attempt;
        task, attempt := SendOne(mgr, workers[i], task);
        attempts := attempts + [attempt];
        if attempt.err.Some? {
          break;
        }
      }
    }
    assert calm && attempts == [] ==> forall w | w in IddleNames(before.db.workers) :: before.db.workers[w] in workers;
  }

  /** One iteration of the outer loop: offer the task, then read the idle workers again. */
  method OfferAndReread(mgr: Manager, pending: Task, workers: seq<Worker>, interfere: bool)
    returns (attempts: seq<Attempt>, idle: seq<Worker>)
    requires mgr.db.Keyed() && "" !in mgr.db.workers
    requires Named(workers) && workers != []
    modifies mgr, mgr.db
    ensures mgr.db.Keyed() && "" !in mgr.db.workers
    ensures |attempts| <= 1
    ensures forall a | a in attempts :: pending.workerName == "" || pending.workerName == a.worker
    ensures Named(idle) && RowsOf(mgr.db.workers, IddleNames(mgr.db.workers), idle)
    ensures !interfere && RowsOf(old(mgr.db.workers), IddleNames(old(mgr.db.workers)), workers)
            ==> Turn(old(mgr.View()), pending, attempts, mgr.View())
  {
    attempts := OfferTask(mgr, pending, workers, interfere);
    if interfere {
      Interfere(mgr);
    }
    idle := mgr.db.GetWorkerIddle();
  }

  /** The three selects that begin a round. */
  method Fetch(mgr: Manager, interfere: bool) returns (tasks: seq<Task>, idle: seq<Worker>)
    requires mgr.db.Keyed() && "" !in mgr.db.workers
    modifies mgr, mgr.db
    ensures mgr.db.Keyed() && "" !in mgr.db.workers
    ensures DistinctIds(tasks) && Named(idle) && RowsOf(mgr.db.workers, IddleNames(mgr.db.workers), idle)
    ensures !interfere ==> && mgr.View() == old(mgr.View())
                           && PendingPrefix(mgr.db.tasks, Total(UpThreads(mgr.db.workers)), tasks)
  {
    var threads := mgr.GetWorkersThreads();
    if interfere {
      Interfere(mgr);
    }
    tasks := mgr.db.GetTasksPending(threads);
    if interfere {
      Interfere(mgr);
    }
    idle := mgr.db.GetWorkerIddle();
  }

  method DispatchRound(mgr: Manager, interfere: bool)
    returns (tasks: seq<Task>, log: seq<seq<Attempt>>, ghost turns: seq<Mgr>)
    requires mgr.db.Keyed() && "" !in mgr.db.workers
    modifies mgr, mgr.db
    ensures mgr.db.Keyed() && "" !in mgr.db.workers
    ensures DistinctIds(tasks) && SentOnce(tasks, log)
    ensures !interfere ==> Round(turns, tasks, log) && turns[0] == old(mgr.View()) && turns[|log|] == mgr.View()
  {
    var workers;
    tasks, workers := Fetch(mgr, interfere);
    log, turns := [], [mgr.View()];
    if |tasks| > 0 && |workers| > 0 {
      var i := 0;
      while i < |tasks|
        invariant 0 <= i <= |tasks| && |log| == i && |turns| == i + 1
        invariant mgr.db.Keyed() && "" !in mgr.db.workers
        invariant workers != [] && Named(workers) && SentOnce(tasks, log)
        invariant !interfere ==> turns[0] == old(mgr.View()) && turns[i] == mgr.View() && Turns(turns, tasks, log)
        invariant !interfere ==> RowsOf(mgr.db.workers, IddleNames(mgr.db.workers), workers)
      {
        var attempts;
        attempts, workers := OfferAndReread(mgr, tasks[i], workers, interfere);
        if !interfere {
          TurnsAppend(turns, tasks, log, attempts, mgr.View());
        }
        log, turns := log + [attempts], turns + [mgr.View()];
        i := i + 1;
        if |workers| == 0 {
          assert !interfere ==> IddleNames(mgr.db.workers) == {};
          break;
        }
      }
    }
  }
}
