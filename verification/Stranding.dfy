/** When a pending task is left to a worker that does not exist any more. */
module Stranding {
  import opened Types
  import opened Tables
  import opened Connections
  import opened Handlers
  import opened Protocol

  predicate Stranded(tasks: Tasks, workers: Workers, id: TaskId) {
    id in tasks && tasks[id].status == Pending && tasks[id].workerName != "" && tasks[id].workerName !in workers
  }

  /** Every pinned pending task names a worker with a row. */
  ghost predicate NoneStranded(s: World) {
    forall id | id in s.m.db.tasks :: !Stranded(s.m.db.tasks, s.m.db.workers, id)
  }

  /** The step makes a row pending whose worker has been removed: a refusal that arrives after the removal and
      after a result has written the worker's name back. */
  ghost predicate Strands(s: World, step: Step)
    requires Enabled(s, step)
  {
    step.Delivers?
    && var msg, tasks := s.m.conns[step.conn].toManager[0], s.m.db.tasks;
       && msg.FailedAddTask? && msg.task.id in tasks
       && tasks[msg.task.id].workerName != "" && tasks[msg.task.id].workerName !in s.m.db.workers
  }

  // ---- one lemma for each kind of step ----

  lemma RunningHasRow(s: World)
    requires Inv(s)
    ensures forall id | id in s.m.db.tasks && s.m.db.tasks[id].status == Running ::
              s.m.db.tasks[id].workerName in s.m.db.workers
  {
    forall id | id in s.m.db.tasks && s.m.db.tasks[id].status == Running
      ensures s.m.db.tasks[id].workerName in s.m.db.workers
    {
      assert id in WithStatus(s.m.db.tasks, Running) && RunningOk(s, id);
    }
  }

  /** Which refusals strand, on the tables alone. */
  lemma RefusalStrands(db: Db, id: TaskId)
    requires forall i | i in db.tasks :: !Stranded(db.tasks, db.workers, i)
    ensures (forall i | i in db.tasks :: !Stranded(SetStatus(db.tasks, id, Pending), db.workers, i))
            <==> !(id in db.tasks && db.tasks[id].workerName != "" && db.tasks[id].workerName !in db.workers)
  {
    if id in db.tasks {
      assert forall i | i in db.tasks && i != id :: SetStatus(db.tasks, id, Pending)[i] == db.tasks[i];
      assert SetStatus(db.tasks, id, Pending)[id] == db.tasks[id].(status := Pending);
    }
  }

  lemma ReadRefusal(s: World, c: ConnId)
    requires NoneStranded(s) && Enabled(s, Delivers(c)) && s.m.conns[c].toManager[0].FailedAddTask?
    ensures NoneStranded(s.(m := ReadMessage(s.m, c))) <==> !Strands(s, Delivers(c))
  {
    var t := s.m.conns[c].toManager[0].task;
    assert ReadMessage(s.m, c).db == s.m.db.(tasks := SetStatus(s.m.db.tasks, t.id, Pending));
    RefusalStrands(s.m.db, t.id);
  }

  lemma ReadResult(s: World, c: ConnId)
    requires Inv(s) && NoneStranded(s) && Enabled(s, Delivers(c)) && s.m.conns[c].toManager[0].Callback?
    ensures NoneStranded(s.(m := ReadMessage(s.m, c)))
  {
    var t := s.m.conns[c].toManager[0].task;
    assert ConnOk(s, c);
    assert ReadMessage(s.m, c).db == s.m.db.(tasks := UpdateTask(s.m.db.tasks, t)) && Finished(t.status);
  }

  lemma ReadOther(s: World, c: ConnId)
    requires NoneStranded(s) && Enabled(s, Delivers(c)) && !Settles(s.m.conns[c].toManager[0])
    ensures NoneStranded(s.(m := ReadMessage(s.m, c)))
  {
    var msg, db := s.m.conns[c].toManager[0], ReadMessage(s.m, c).db;
    if msg.DeleteWorker? {
      assert db == RmWorkerName(s.m.db, msg.worker.name);
    } else {
      assert db.tasks == s.m.db.tasks && s.m.db.workers.Keys <= db.workers.Keys;
    }
  }

  lemma SendStrandsNone(s: World, w: Name, ok: bool)
    requires NoneStranded(s) && s.batch != []
    ensures NoneStranded(AfterSend(s, w, ok))
  {
  }

  lemma DisconnectStrandsNone(s: World, c: ConnId)
    requires Inv(s) && NoneStranded(s) && c in s.m.conns
    ensures NoneStranded(s.(m := HandleConnectionError(s.m, c)))
  {
    RunningHasRow(s);
  }

  lemma TickStrandsNone(s: World)
    requires NoneStranded(s)
    ensures NoneStranded(s.(m := Tick(s.m)))
  {
  }

  lemma RestartStrandsNone(s: World)
    requires Inv(s) && NoneStranded(s)
    ensures NoneStranded(Next(s, Restarts))
  {
    RunningHasRow(s);
  }

  lemma RemoteStrandsNone(s: World, step: Step)
    requires NoneStranded(s) && Enabled(s, step) && Remote(step)
    ensures NoneStranded(Next(s, step))
  {
    assert Next(s, step).m.db == s.m.db;
  }

  lemma OthersStrandNone(s: World, step: Step)
    requires NoneStranded(s) && Enabled(s, step) && !Remote(step) && "" !in s.m.db.workers
    requires !step.Delivers? && !step.Sends? && !step.CleansUp? && !step.Ticks? && !step.Restarts?
    ensures NoneStranded(Next(s, step))
  {
  }

  lemma ManagerStrandsNone(s: World, step: Step)
    requires Inv(s) && NoneStranded(s) && Enabled(s, step) && !Remote(step) && !step.Delivers?
    ensures NoneStranded(Next(s, step))
  {
    if step.Sends? {
      SendStrandsNone(s, step.name, step.ok);
    } else if step.CleansUp? {
      DisconnectStrandsNone(s, step.conn);
    } else if step.Ticks? {
      TickStrandsNone(s);
    } else if step.Restarts? {
      RestartStrandsNone(s);
    } else {
      OthersStrandNone(s, step);
    }
  }

  /** A step strands a task exactly when it handles a refusal for a row whose worker has no row any more. */
  lemma StepStrands(s: World, step: Step)
    requires Inv(s) && NoneStranded(s) && Enabled(s, step)
    ensures NoneStranded(Next(s, step)) <==> !Strands(s, step)
  {
    if Remote(step) {
      RemoteStrandsNone(s, step);
    } else if !step.Delivers? {
      ManagerStrandsNone(s, step);
    } else if s.m.conns[step.conn].toManager[0].FailedAddTask? {
      ReadRefusal(s, step.conn);
    } else if s.m.conns[step.conn].toManager[0].Callback? {
      ReadResult(s, step.conn);
    } else {
      ReadOther(s, step.conn);
    }
  }
}
