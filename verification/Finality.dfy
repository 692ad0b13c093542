/** When a task keeps its status: `done`, `failed` and `deleted` are final exactly as long as no copy of the task
    is in flight. */
module Finality {
  import opened Types
  import opened Tables
  import opened Connections
  import opened Handlers
  import opened TaskDatabase
  import opened WorkerProcesses
  import opened Protocol
  import opened Safety
  import opened Conservation

  predicate KeepsStatus(before: Tasks, after: Tasks, id: TaskId)
    requires id in before
  {
    id in after && after[id].status == before[id].status
  }

  // ---- one step ----

  /** The message changes the status of a row that is not running. */
  predicate MessageOverwrites(row: Task, msg: ToManager) {
    || (msg.Callback? && msg.task.id == row.id && msg.task.status != row.status)
    || (msg.FailedAddTask? && msg.task.id == row.id && row.status != Pending)
  }

  /** The step deletes or trims the row: what the users and the history limit ask for. */
  predicate Discards(row: Task, step: Step) {
    || (step.Deletes? && step.id == row.id && row.status != Deleted)
    || (step.Trims? && row.id in step.ids)
  }

  /** The step changes the status of a row that is not running, or removes the row. */
  ghost predicate Overwrites(s: World, row: Task, step: Step)
    requires Enabled(s, step)
  {
    || Discards(row, step)
    || (step.Sends? && step.ok && s.batch[0].id == row.id && step.name in s.m.db.workers && step.name in s.m.sockets)
    || (step.Delivers? && MessageOverwrites(row, s.m.conns[step.conn].toManager[0]))
  }

  lemma ReadKeepsStatus(m: Mgr, c: ConnId, id: TaskId)
    requires KeyedRows(m.db) && id in m.db.tasks && m.db.tasks[id].status != Running
    requires c in m.conns && m.conns[c].toManager != []
    ensures KeepsStatus(m.db.tasks, ReadMessage(m, c).db.tasks, id)
            <==> !MessageOverwrites(m.db.tasks[id], m.conns[c].toManager[0])
  {
    var tasks := ReadMessage(m, c).db.tasks;
    match m.conns[c].toManager[0]
    case Callback(t) => assert tasks == UpdateTask(m.db.tasks, t);
    case FailedAddTask(t) => assert tasks == SetStatus(m.db.tasks, t.id, Pending);
    case DeleteWorker(w) => assert tasks == RmWorkerName(m.db, w.name).tasks;
    case _ => assert tasks == m.db.tasks;
  }

  lemma OthersKeepStatus(s: World, step: Step, id: TaskId)
    requires Enabled(s, step) && !step.Delivers? && !step.Sends?
    requires KeyedRows(s.m.db) && id in s.m.db.tasks && s.m.db.tasks[id].status != Running
    ensures KeepsStatus(s.m.db.tasks, TasksAfter(s, step), id) <==> !Discards(s.m.db.tasks[id], step)
  {
  }

  /** A step changes the status of a task that is not running, or removes its row, exactly when it sends a copy
      from the scheduler's snapshot, handles a result or refusal that says otherwise, deletes it or trims it. */
  lemma StepKeepsStatus(s: World, step: Step, id: TaskId)
    requires Enabled(s, step) && KeyedRows(s.m.db)
    requires id in s.m.db.tasks && s.m.db.tasks[id].status != Running
    ensures KeepsStatus(s.m.db.tasks, Next(s, step).m.db.tasks, id) <==> !Overwrites(s, s.m.db.tasks[id], step)
  {
    NextTasks(s, step);
    if step.Delivers? {
      ReadKeepsStatus(s.m, step.conn, id);
    } else if !step.Sends? {
      OthersKeepStatus(s, step, id);
    }
  }

  // ---- whole runs ----

  /** No copy of the task is in the scheduler's snapshot, in a queue somebody reads, or executing. */
  ghost predicate NoCopy(s: World, id: TaskId) {
    && (forall t | t in s.batch :: t.id != id)
    && (forall c | c in s.m.conns :: id !in Requested(s.m.conns[c].toWorker))
    && (forall c | c in s.m.conns && !s.m.conns[c].handled :: id !in Settled(s.m.conns[c].toManager))
    && (forall p | p in s.procs :: id !in ExecIds(s.procs[p].execs))
  }

  lemma NoCopyAfterRead(s: World, c: ConnId, id: TaskId)
    requires NoCopy(s, id) && Enabled(s, Delivers(c))
    ensures NoCopy(s.(m := ReadMessage(s.m, c)), id)
  {
    DeliversConn(s.m, c);
    SettledPop(s.m.conns[c].toManager);
    assert ReadMessage(s.m, c).conns[c].toWorker == s.m.conns[c].toWorker;
    assert ReadMessage(s.m, c).conns[c].handled == s.m.conns[c].handled;
  }

  /** Connection c and process p change, and carry no copy afterwards. */
  lemma NoCopyLocal(s: World, s': World, c: ConnId, p: ProcId, id: TaskId)
    requires NoCopy(s, id) && s' == s.(m := s.m.(conns := s'.m.conns), procs := s'.procs)
    requires c in s'.m.conns && s'.m.conns == s.m.conns[c := s'.m.conns[c]]
    requires p in s'.procs && s'.procs == s.procs[p := s'.procs[p]]
    requires id !in Requested(s'.m.conns[c].toWorker) && id !in ExecIds(s'.procs[p].execs)
    requires id !in Settled(s'.m.conns[c].toManager) || s'.m.conns[c].handled
    ensures NoCopy(s', id)
  {
  }

  /** What c and p carry after p has read its next message. */
  lemma NothingReceived(conn: Conn, p: Proc, killed: bool, id: TaskId)
    requires conn.toWorker != [] && id !in Requested(conn.toWorker) && id !in ExecIds(p.execs)
    ensures var msg := conn.toWorker[0];
            var response := Response(p, msg, killed);
            && id !in Requested(conn.toWorker[1..]) && id !in ExecIds(AfterMessage(p, msg).execs)
            && (response.Some? && Settles(response.value) ==> response.value.task.id != id)
  {
    var msg := conn.toWorker[0];
    RequestedPop(conn.toWorker);
    if msg.AddTask? {
      ExecIdsAdd(p.execs, msg.task);
    }
  }

  lemma NoCopyAfterReceive(s: World, p: ProcId, killed: bool, id: TaskId)
    requires NoCopy(s, id) && Enabled(s, Receives(p, killed))
    ensures NoCopy(AfterReceive(s, p, killed), id)
  {
    var c := s.procs[p].conn.value;
    var conn, msg := s.m.conns[c], s.m.conns[c].toWorker[0];
    var response := Response(s.procs[p], msg, killed);
    NothingReceived(conn, s.procs[p], killed, id);
    var read := s.(m := s.m.(conns := s.m.conns[c := conn.(toWorker := conn.toWorker[1..])]),
                   procs := s.procs[p := AfterMessage(s.procs[p], msg)]);
    NoCopyLocal(s, read, c, p, id);
    if response.Some? {
      assert AfterReceive(s, p, killed) == Tell(read, p, response.value);
      NoCopyAfterTell(read, p, response.value, id);
    }
  }

  lemma NoCopyAfterTell(s: World, p: ProcId, msg: ToManager, id: TaskId)
    requires NoCopy(s, id) && Connected(s, p) && (Settles(msg) ==> msg.task.id != id)
    ensures NoCopy(Tell(s, p, msg), id)
  {
    SettledPush(s.m.conns[s.procs[p].conn.value].toManager, msg);
    NoCopyLocal(s, Tell(s, p, msg), s.procs[p].conn.value, p, id);
  }

  lemma NoCopyAfterFinish(s: World, p: ProcId, t: Task, result: Details, status: Status, id: TaskId)
    requires NoCopy(s, id) && Connected(s, p) && t in s.procs[p].execs
    ensures NoCopy(AfterFinish(s, p, t, result, status), id)
  {
    var told := Tell(s, p, Callback(t.(details := result, status := status)));
    assert t.id in ExecIds(s.procs[p].execs);
    NoCopyAfterTell(s, p, Callback(t.(details := result, status := status)), id);
    ExecIdsRemove(s.procs[p].execs, t);
    NoCopyLocal(told, AfterFinish(s, p, t, result, status), s.procs[p].conn.value, p, id);
  }

  lemma NoCopyAfterPush(s: World, c: ConnId, msg: ToWorker, id: TaskId)
    requires NoCopy(s, id) && (msg.AddTask? ==> msg.task.id != id)
    ensures NoCopy(s.(m := s.m.(conns := Push(s.m.conns, c, msg))), id)
  {
    if c in s.m.conns {
      RequestedPush(s.m.conns[c].toWorker, msg);
    }
  }

  lemma NoCopyAfterSend(s: World, w: Name, ok: bool, id: TaskId)
    requires NoCopy(s, id) && Enabled(s, Sends(w, ok))
    ensures NoCopy(AfterSend(s, w, ok), id)
  {
    var t := s.batch[0];
    assert t in s.batch && forall x | x in s.batch[1..] :: x in s.batch;
    if w in s.m.db.workers && w in s.m.sockets && ok {
      NoCopyAfterPush(s, s.m.sockets[w], AddTask(t.(workerName := w)), id);
    }
  }

  lemma NoCopyAfterTick(s: World, id: TaskId)
    requires NoCopy(s, id)
    ensures NoCopy(Next(s, Ticks), id)
  {
    forall c | c in s.m.conns ensures id !in Requested(Next(s, Ticks).m.conns[c].toWorker) {
      RequestedPush(s.m.conns[c].toWorker, StatusRequest);
    }
  }

  lemma NoCopyAfterDelete(s: World, i: TaskId, ok: bool, id: TaskId)
    requires NoCopy(s, id)
    ensures NoCopy(s.(m := HandleTaskDelete(s.m, i, ok)), id)
  {
    if i in s.m.db.tasks && s.m.db.tasks[i].workerName in s.m.sockets {
      NoCopyAfterPush(s, s.m.sockets[s.m.db.tasks[i].workerName], DeleteTask(s.m.db.tasks[i]), id);
    }
  }

  /** Only a fetch makes copies from the table, and only of pending tasks. */
  lemma NoCopyAfterFetch(s: World, limit: int, list: seq<Task>, id: TaskId)
    requires NoCopy(s, id) && Enabled(s, Fetches(limit, list))
    requires id in s.m.db.tasks ==> s.m.db.tasks[id].status != Pending
    ensures NoCopy(Next(s, Fetches(limit, list)), id)
  {
  }

  lemma NoCopyAfterClose(s: World, c: ConnId, id: TaskId)
    requires NoCopy(s, id)
    ensures NoCopy(s.(m := s.m.(conns := Close(s.m.conns, c))), id)
  {
  }

  lemma NoCopyAfterDial(s: World, p: ProcId, c: ConnId, id: TaskId)
    requires NoCopy(s, id) && p in s.procs
    ensures NoCopy(AfterDial(s, p, c), id)
  {
    if s.procs[p].conn.Some? {
      NoCopyAfterClose(s, s.procs[p].conn.value, id);
    }
  }

  lemma NoCopyAfterCrash(s: World, p: ProcId, id: TaskId)
    requires NoCopy(s, id) && p in s.procs
    ensures NoCopy(AfterCrash(s, p), id)
  {
    if s.procs[p].conn.Some? {
      NoCopyAfterClose(s, s.procs[p].conn.value, id);
    }
  }

  lemma NoCopyAfterRemote(s: World, step: Step, id: TaskId)
    requires NoCopy(s, id) && Enabled(s, step) && Remote(step)
    ensures NoCopy(Next(s, step), id)
  {
    match step
    case Breaks(c) => NoCopyAfterClose(s, c, id);
    case Dials(p, c) => NoCopyAfterDial(s, p, c, id);
    case Crashes(p) => NoCopyAfterCrash(s, p, id);
    case KillsItself(p) => NoCopyAfterCrash(s, p, id);
    case Announces(p) => NoCopyAfterTell(s, p, AddWorker(Registration(s.procs[p])), id);
    case Retires(p) => NoCopyAfterTell(s, p, DeleteWorker(Retirement(s.procs[p])), id);
    case Receives(p, killed) => NoCopyAfterReceive(s, p, killed, id);
    case Finishes(p, t, result, status) => NoCopyAfterFinish(s, p, t, result, status, id);
    case Registers(_, _, _) =>
    case Unregisters(_, _) =>
  }

  /** The remaining steps of the manager leave queues and executions alone, or empty them. */
  lemma NoCopyAfterTables(s: World, step: Step, id: TaskId)
    requires NoCopy(s, id) && Enabled(s, step) && !Remote(step)
    requires !step.Delivers? && !step.Sends? && !step.Ticks? && !step.Deletes? && !step.Fetches?
    ensures NoCopy(Next(s, step), id)
  {
  }

  lemma NoCopyAfterManager(s: World, step: Step, id: TaskId)
    requires NoCopy(s, id) && Enabled(s, step) && !Remote(step)
    requires id in s.m.db.tasks ==> s.m.db.tasks[id].status != Pending
    ensures NoCopy(Next(s, step), id)
  {
    if step.Delivers? {
      NoCopyAfterRead(s, step.conn, id);
    } else if step.Sends? {
      NoCopyAfterSend(s, step.name, step.ok, id);
    } else if step.Ticks? {
      NoCopyAfterTick(s, id);
    } else if step.Deletes? {
      NoCopyAfterDelete(s, step.id, step.ok, id);
    } else if step.Fetches? {
      NoCopyAfterFetch(s, step.limit, step.list, id);
    } else {
      NoCopyAfterTables(s, step, id);
    }
  }

  /** No step makes a copy of a task that is not pending and has none. */
  lemma NoCopyStays(s: World, step: Step, id: TaskId)
    requires NoCopy(s, id) && Enabled(s, step) && (id in s.m.db.tasks ==> s.m.db.tasks[id].status != Pending)
    ensures NoCopy(Next(s, step), id)
  {
    if Remote(step) {
      NoCopyAfterRemote(s, step, id);
    } else {
      NoCopyAfterManager(s, step, id);
    }
  }

  /** Without a copy in flight, a step overwrites a settled task only by deleting or trimming it. */
  lemma NoCopyNoOverwrite(s: World, step: Step, id: TaskId)
    requires NoCopy(s, id) && Enabled(s, step) && KeyedRows(s.m.db) && id in s.m.db.tasks
    ensures Overwrites(s, s.m.db.tasks[id], step) <==> Discards(s.m.db.tasks[id], step)
  {
    if step.Sends? {
      assert s.batch[0] in s.batch;
    } else if step.Delivers? {
      SettledPop(s.m.conns[step.conn].toManager);
    }
  }

  lemma KeptOneMore(s: World, step: Step, id: TaskId)
    requires Inv(s) && NoCopy(s, id) && Enabled(s, step)
    requires id in s.m.db.tasks && s.m.db.tasks[id].status !in {Pending, Running}
    requires !Discards(s.m.db.tasks[id], step)
    ensures Inv(Next(s, step)) && NoCopy(Next(s, step), id)
    ensures KeepsStatus(s.m.db.tasks, Next(s, step).m.db.tasks, id)
  {
    StepKeepsInv(s, step);
    NoCopyStays(s, step, id);
    NoCopyNoOverwrite(s, step, id);
    StepKeepsStatus(s, step, id);
  }

  /** Up to the first step that discards the row, nothing changes its status and nothing copies it. */
  lemma {:induction false} KeptUntilDiscarded(states: seq<World>, steps: seq<Step>, id: TaskId, k: nat)
    requires IsRun(states, steps) && Inv(states[0]) && NoCopy(states[0], id) && k <= |steps|
    requires id in states[0].m.db.tasks && states[0].m.db.tasks[id].status !in {Pending, Running}
    requires forall i | 0 <= i < k :: !Discards(states[0].m.db.tasks[id], steps[i])
    ensures Inv(states[k]) && NoCopy(states[k], id)
    ensures KeepsStatus(states[0].m.db.tasks, states[k].m.db.tasks, id)
  {
    if k > 0 {
      KeptUntilDiscarded(states, steps, id, k - 1);
      KeptOneMore(states[k - 1], steps[k - 1], id);
    }
  }

  /** `done`, `failed` and `deleted` are final once no copy of the task is in flight: over any run the status is
      kept exactly when no step deletes or trims the task. */
  lemma FinalWithoutCopies(states: seq<World>, steps: seq<Step>, id: TaskId)
    requires IsRun(states, steps) && Inv(states[0]) && NoCopy(states[0], id)
    requires id in states[0].m.db.tasks && states[0].m.db.tasks[id].status !in {Pending, Running}
    ensures (forall k | 0 <= k <= |steps| :: KeepsStatus(states[0].m.db.tasks, states[k].m.db.tasks, id))
            <==> (forall i | 0 <= i < |steps| :: !Discards(states[0].m.db.tasks[id], steps[i]))
  {
    var rows := states[0].m.db.tasks;
    if forall i | 0 <= i < |steps| :: !Discards(rows[id], steps[i]) {
      forall k | 0 <= k <= |steps| ensures KeepsStatus(rows, states[k].m.db.tasks, id) {
        KeptUntilDiscarded(states, steps, id, k);
      }
    } else {
      var i :| 0 <= i < |steps| && Discards(rows[id], steps[i]);
      InvAlong(states, steps, i);
      if KeepsStatus(rows, states[i].m.db.tasks, id) {
        StepKeepsStatus(states[i], steps[i], id);
        assert !KeepsStatus(rows, states[i + 1].m.db.tasks, id);
      }
    }
  }
}
