/** What the verify ticks do to a worker that has gone, and to the tasks it was running. */
module Recovery {
  import opened Types
  import opened Tables
  import opened Connections
  import opened Handlers
  import opened Protocol
  import opened Safety

  function TickCount(steps: seq<Step>): nat {
    if steps == [] then 0
    else TickCount(steps[..|steps| - 1]) + if steps[|steps| - 1] == Ticks then 1 else 0
  }

  // ---- the down count ----

  ghost predicate DownCountOk(s: World) {
    && (forall n | n in s.m.db.workers :: 0 <= s.m.db.workers[n].downCount < s.m.checkDown)
    && (forall c | c in s.m.conns ::
          forall msg | msg in s.m.conns[c].toManager :: msg.AddWorker? ==> msg.worker.downCount == 0)
  }

  /** Rows added over the API start with downCount 0, as the workers' own registrations do. */
  predicate FreshRow(step: Step) {
    step.AddsRow? ==> step.worker.downCount == 0
  }

  lemma ReadKeepsDownCount(s: World, c: ConnId)
    requires DownCountOk(s) && s.m.checkDown > 0 && c in s.m.conns && s.m.conns[c].toManager != []
    ensures DownCountOk(s.(m := ReadMessage(s.m, c)))
  {
    var s', q := s.(m := ReadMessage(s.m, c)), s.m.conns[c].toManager;
    assert q[0] in q && forall msg | msg in q[1..] :: msg in q;
    DeliversConn(s.m, c);
  }

  /** A message that leaves the worker's queue may only be a registration with downCount 0. */
  lemma ConnsKeepDownCount(s: World, s': World)
    requires DownCountOk(s) && s'.m.db.workers == s.m.db.workers && s'.m.checkDown == s.m.checkDown
    requires forall c | c in s'.m.conns :: forall msg | msg in s'.m.conns[c].toManager ::
               (c in s.m.conns && msg in s.m.conns[c].toManager) || (msg.AddWorker? ==> msg.worker.downCount == 0)
    ensures DownCountOk(s')
  {
  }

  lemma KeepsCheckDown(s: World, step: Step)
    requires Enabled(s, step)
    ensures Next(s, step).m.checkDown == s.m.checkDown
  {
  }

  lemma LossKeepsDownCount(s: World, step: Step)
    requires DownCountOk(s) && Enabled(s, step)
    requires step.Dials? || step.Crashes? || step.KillsItself? || step.Breaks?
    ensures DownCountOk(Next(s, step))
  {
    ConnsKeepDownCount(s, Next(s, step));
  }

  lemma TellKeepsDownCount(s: World, p: ProcId, msg: ToManager)
    requires DownCountOk(s) && Connected(s, p) && (msg.AddWorker? ==> msg.worker.downCount == 0)
    ensures DownCountOk(Tell(s, p, msg))
  {
    ConnsKeepDownCount(s, Tell(s, p, msg));
  }

  lemma RemoteKeepsDownCount(s: World, step: Step)
    requires DownCountOk(s) && Enabled(s, step) && Remote(step)
    ensures DownCountOk(Next(s, step))
  {
    if step.Dials? || step.Crashes? || step.KillsItself? || step.Breaks? {
      LossKeepsDownCount(s, step);
      return;
    }
    match step
    case Receives(p, killed) => ConnsKeepDownCount(s, AfterReceive(s, p, killed));
    case Finishes(p, t, result, status) =>
      TellKeepsDownCount(s, p, Callback(t.(details := result, status := status)));
    case Announces(p) => TellKeepsDownCount(s, p, AddWorker(Registration(s.procs[p])));
    case Retires(p) => TellKeepsDownCount(s, p, DeleteWorker(Retirement(s.procs[p])));
    case Registers(_, _, _) =>
    case Unregisters(_, _) =>
  }

  lemma SweepKeepsDownCount(s: World, step: Step)
    requires s.m.checkDown > 0 && DownCountOk(s) && Enabled(s, step)
    requires step.Ticks? || step.CleansUp? || step.Restarts?
    ensures DownCountOk(Next(s, step))
  {
  }

  /** Every row keeps 0 <= downCount < StatusCheckDown. */
  lemma StepKeepsDownCount(s: World, step: Step)
    requires s.m.checkDown > 0 && DownCountOk(s) && Enabled(s, step) && FreshRow(step)
    ensures DownCountOk(Next(s, step)) && Next(s, step).m.checkDown == s.m.checkDown
  {
    if Remote(step) {
      RemoteKeepsDownCount(s, step);
    } else if step.Delivers? {
      ReadKeepsDownCount(s, step.conn);
    } else if step.Ticks? || step.CleansUp? || step.Restarts? {
      SweepKeepsDownCount(s, step);
    }
    KeepsCheckDown(s, step);
  }

  // ---- a vanished worker ----

  /** w has a row but no connection, and tasks are pinned to it, also in the scheduler's snapshot. */
  ghost predicate Vanished(s: World, w: Name, downCount: int, tasks: set<TaskId>) {
    && w in s.m.db.workers && w !in s.m.sockets && s.m.db.workers[w].downCount == downCount
    && (forall id | id in tasks ::
          id in s.m.db.tasks && s.m.db.tasks[id].status == Pending && s.m.db.tasks[id].workerName == w)
    && (forall t | t in s.batch :: t.id in tasks ==> t.workerName == w)
  }

  ghost predicate Recovered(s: World, w: Name, tasks: set<TaskId>) {
    && w !in s.m.db.workers
    && (forall id | id in tasks ::
          id in s.m.db.tasks && s.m.db.tasks[id].status == Pending && s.m.db.tasks[id].workerName == "")
  }

  /** No message from w, no result and no deletion of the tasks, and nobody removes the row over the API. */
  ghost predicate Quiet(s: World, step: Step, w: Name, tasks: set<TaskId>)
    requires Enabled(s, step)
  {
    match step
    case Delivers(c) =>
      var msg := s.m.conns[c].toManager[0];
      && (msg.AddWorker? || msg.DeleteWorker? ==> msg.worker.name != w)
      && (msg.StatusReply? ==> msg.name != w)
      && (msg.Callback? ==> msg.task.id !in tasks)
    case Deletes(id, _) => id !in tasks
    case RemovesRow(n) => n != w
    case _ => true
  }

  lemma QuietDelivery(s: World, c: ConnId, w: Name, d: int, tasks: set<TaskId>)
    requires Enabled(s, Delivers(c)) && Vanished(s, w, d, tasks) && Quiet(s, Delivers(c), w, tasks)
    ensures Vanished(s.(m := ReadMessage(s.m, c)), w, d, tasks)
  {
  }

  /** The scheduler may offer one of the tasks only to w, which has no connection. */
  lemma QuietSend(s: World, n: Name, ok: bool, w: Name, d: int, tasks: set<TaskId>)
    requires Enabled(s, Sends(n, ok)) && Vanished(s, w, d, tasks) && w != ""
    ensures Vanished(AfterSend(s, n, ok), w, d, tasks)
  {
  }

  /** Workers and network reach neither the tables, nor WebSockets, nor the scheduler. */
  lemma QuietRemote(s: World, step: Step, w: Name, d: int, tasks: set<TaskId>)
    requires Enabled(s, step) && Remote(step) && Vanished(s, w, d, tasks)
    ensures Vanished(Next(s, step), w, d, tasks)
  {
    assert Next(s, step).m.db == s.m.db && Next(s, step).m.sockets == s.m.sockets && Next(s, step).batch == s.batch;
  }

  lemma QuietCleanup(s: World, c: ConnId, w: Name, d: int, tasks: set<TaskId>)
    requires Vanished(s, w, d, tasks)
    ensures Vanished(s.(m := HandleConnectionError(s.m, c)), w, d, tasks)
  {
  }

  lemma QuietManager(s: World, step: Step, w: Name, d: int, tasks: set<TaskId>)
    requires "" !in s.m.db.workers && Enabled(s, step) && Vanished(s, w, d, tasks) && Quiet(s, step, w, tasks)
    requires !Remote(step) && !step.Delivers? && !step.Sends? && !step.CleansUp? && !step.Ticks?
    ensures Vanished(Next(s, step), w, d, tasks)
  {
  }

  lemma QuietStep(s: World, step: Step, w: Name, d: int, tasks: set<TaskId>)
    requires "" !in s.m.db.workers && Enabled(s, step) && Vanished(s, w, d, tasks) && Quiet(s, step, w, tasks)
    requires step != Ticks
    ensures Vanished(Next(s, step), w, d, tasks)
  {
    if step.Delivers? {
      QuietDelivery(s, step.conn, w, d, tasks);
    } else if step.Sends? {
      QuietSend(s, step.name, step.ok, w, d, tasks);
    } else if step.CleansUp? {
      QuietCleanup(s, step.conn, w, d, tasks);
    } else if Remote(step) {
      QuietRemote(s, step, w, d, tasks);
    } else {
      QuietManager(s, step, w, d, tasks);
    }
  }

  lemma TickStep(s: World, w: Name, d: int, tasks: set<TaskId>)
    requires Inv(s) && Vanished(s, w, d, tasks)
    ensures if d + 1 < s.m.checkDown then Vanished(Next(s, Ticks), w, d + 1, tasks)
            else Recovered(Next(s, Ticks), w, tasks)
  {
  }

  function RunningOn(tasks: Tasks, w: Name): set<TaskId> {
    set id | id in WithStatus(tasks, Running) && tasks[id].workerName == w
  }

  /** The cleanup of w's connection requeues exactly what w was running. */
  lemma CleanupStarts(s: World, c: ConnId, w: Name)
    requires Inv(s) && Enabled(s, CleansUp(c)) && s.m.conns[c].announced == Some(w) && w in s.m.db.workers
    ensures Vanished(Next(s, CleansUp(c)), w, s.m.db.workers[w].downCount,
                     RunningOn(s.m.db.tasks, w))
  {
  }

  lemma VanishedOneMore(s: World, step: Step, w: Name, d: int, tasks: set<TaskId>)
    requires Inv(s) && Enabled(s, step) && Vanished(s, w, d, tasks) && Quiet(s, step, w, tasks)
    requires d + (if step == Ticks then 1 else 0) < s.m.checkDown
    ensures Inv(Next(s, step)) && Next(s, step).m.checkDown == s.m.checkDown
    ensures Vanished(Next(s, step), w, d + if step == Ticks then 1 else 0, tasks)
  {
    StepKeepsInv(s, step);
    KeepsCheckDown(s, step);
    if step == Ticks {
      TickStep(s, w, d, tasks);
    } else {
      QuietStep(s, step, w, d, tasks);
    }
  }

  ghost predicate QuietRun(states: seq<World>, steps: seq<Step>, w: Name, tasks: set<TaskId>)
    requires IsRun(states, steps)
  {
    forall i | 0 <= i < |steps| :: Quiet(states[i], steps[i], w, tasks)
  }

  lemma VanishedNext(states: seq<World>, steps: seq<Step>, n: nat, w: Name, d: int, tasks: set<TaskId>)
    requires IsRun(states, steps) && QuietRun(states, steps, w, tasks) && n < |steps|
    requires Inv(states[n]) && Vanished(states[n], w, d, tasks)
    requires d + (if steps[n] == Ticks then 1 else 0) < states[n].m.checkDown
    ensures Inv(states[n + 1]) && states[n + 1].m.checkDown == states[n].m.checkDown
    ensures Vanished(states[n + 1], w, d + if steps[n] == Ticks then 1 else 0, tasks)
  {
    assert Quiet(states[n], steps[n], w, tasks);
    VanishedOneMore(states[n], steps[n], w, d, tasks);
  }

  /** Until the countdown is over, the row stays and its downCount counts the ticks. */
  lemma {:induction false} StillVanished(states: seq<World>, steps: seq<Step>, w: Name, d: int, tasks: set<TaskId>)
    requires IsRun(states, steps) && Inv(states[0]) && Vanished(states[0], w, d, tasks)
    requires QuietRun(states, steps, w, tasks) && d + TickCount(steps) < states[0].m.checkDown
    ensures var last := states[|steps|];
            Inv(last) && Vanished(last, w, d + TickCount(steps), tasks) && last.m.checkDown == states[0].m.checkDown
    decreases |steps|
  {
    if steps != [] {
      var n := |steps| - 1;
      RunPrefix(states, steps, n);
      StillVanished(states[..n + 1], steps[..n], w, d, tasks);
      VanishedNext(states, steps, n, w, d + TickCount(steps[..n]), tasks);
    }
  }

  /** After k steps the row still counts down, or the last of them was the tick that removed it. */
  ghost predicate CountsDown(states: seq<World>, steps: seq<Step>, k: nat, w: Name, d: int, tasks: set<TaskId>)
    requires IsRun(states, steps) && k <= |steps|
  {
    && (d + TickCount(steps[..k]) < states[0].m.checkDown
        ==> Vanished(states[k], w, d + TickCount(steps[..k]), tasks))
    && (k > 0 && steps[k - 1] == Ticks && d + TickCount(steps[..k]) == states[0].m.checkDown
        ==> Recovered(states[k], w, tasks))
  }

  lemma RecoveryAt(states: seq<World>, steps: seq<Step>, k: nat, w: Name, d: int, tasks: set<TaskId>)
    requires IsRun(states, steps) && Inv(states[0]) && Vanished(states[0], w, d, tasks)
    requires QuietRun(states, steps, w, tasks) && k <= |steps| && d < states[0].m.checkDown
    ensures CountsDown(states, steps, k, w, d, tasks)
  {
    if d + TickCount(steps[..k]) < states[0].m.checkDown {
      RunPrefix(states, steps, k);
      StillVanished(states[..k + 1], steps[..k], w, d, tasks);
    } else if k > 0 && steps[k - 1] == Ticks && d + TickCount(steps[..k]) == states[0].m.checkDown {
      assert steps[..k][..k - 1] == steps[..k - 1];
      RunPrefix(states, steps, k - 1);
      StillVanished(states[..k], steps[..k - 1], w, d, tasks);
      TickStep(states[k - 1], w, d + TickCount(steps[..k - 1]), tasks);
    }
  }

  /** After the cleanup of w's connection, in a run that is quiet about w: the row survives every tick
      but the (StatusCheckDown - downCount)-th, which removes it and frees every task w was running. */
  lemma VanishedWorkerRecovery(s: World, c: ConnId, w: Name, states: seq<World>, steps: seq<Step>)
    requires Inv(s) && DownCountOk(s) && Enabled(s, CleansUp(c))
    requires s.m.conns[c].announced == Some(w) && w in s.m.db.workers
    requires IsRun(states, steps) && states[0] == Next(s, CleansUp(c))
    requires QuietRun(states, steps, w, RunningOn(s.m.db.tasks, w))
    ensures states[0].m.checkDown == s.m.checkDown
    ensures forall k | 0 <= k <= |steps| ::
              CountsDown(states, steps, k, w, s.m.db.workers[w].downCount, RunningOn(s.m.db.tasks, w))
  {
    CleanupStarts(s, c, w);
    StepKeepsInv(s, CleansUp(c));
    KeepsCheckDown(s, CleansUp(c));
    forall k | 0 <= k <= |steps|
      ensures CountsDown(states, steps, k, w, s.m.db.workers[w].downCount, RunningOn(s.m.db.tasks, w))
    {
      RecoveryAt(states, steps, k, w, s.m.db.workers[w].downCount, RunningOn(s.m.db.tasks, w));
    }
  }

  /** The down-count invariant holds in every run whose rows start from zero. */
  lemma {:induction false} RunsKeepDownCount(states: seq<World>, steps: seq<Step>)
    requires IsRun(states, steps) && states[0].m.checkDown > 0 && DownCountOk(states[0])
    requires forall i | 0 <= i < |steps| :: FreshRow(steps[i])
    ensures forall i | 0 <= i < |states| :: DownCountOk(states[i]) && states[i].m.checkDown == states[0].m.checkDown
    decreases |steps|
  {
    if steps != [] {
      var n := |steps| - 1;
      RunPrefix(states, steps, n);
      RunsKeepDownCount(states[..n + 1], steps[..n]);
      StepKeepsDownCount(states[n], steps[n]);
      assert forall i | 0 <= i <= n :: states[i] == states[..n + 1][i];
    }
  }

  /** A status message that arrives starts the countdown again and marks the worker up. */
  lemma StatusRestartsCountdown(s: World, c: ConnId, w: Name)
    requires Enabled(s, Delivers(c)) && s.m.conns[c].toManager[0].StatusReply?
    requires s.m.conns[c].toManager[0].name == w && w in s.m.db.workers
    ensures var row := Next(s, Delivers(c)).m.db.workers[w];
            row.downCount == 0 && row.up && row.iddleThreads == s.m.conns[c].toManager[0].iddleThreads
    ensures forall n | n in s.m.db.workers && n != w :: Next(s, Delivers(c)).m.db.workers[n] == s.m.db.workers[n]
  {
  }

  /** The row of w is removed by a message or over the API. */
  ghost predicate Removes(s: World, step: Step, w: Name)
    requires Enabled(s, step)
  {
    || step == RemovesRow(w)
    || (step.Delivers? && var msg := s.m.conns[step.conn].toManager[0]; msg.DeleteWorker? && msg.worker.name == w)
  }

  ghost predicate CountsUpTo(s: World, w: Name, d: int) {
    w in s.m.db.workers && s.m.db.workers[w].downCount <= d
  }

  lemma ReadKeepsRow(s: World, c: ConnId, w: Name, d: int)
    requires Enabled(s, Delivers(c)) && !Removes(s, Delivers(c), w) && CountsUpTo(s, w, d) && d >= 0
    ensures CountsUpTo(s.(m := ReadMessage(s.m, c)), w, d)
  {
  }

  lemma RemoteKeepsRow(s: World, step: Step, w: Name, d: int)
    requires Enabled(s, step) && Remote(step) && CountsUpTo(s, w, d)
    ensures CountsUpTo(Next(s, step), w, d)
  {
    assert Next(s, step).m.db == s.m.db;
  }

  lemma ManagerKeepsRow(s: World, step: Step, w: Name, d: int)
    requires Enabled(s, step) && !Remote(step) && !step.Delivers? && !Removes(s, step, w) && CountsUpTo(s, w, d)
    requires d + (if step == Ticks then 1 else 0) < s.m.checkDown
    ensures CountsUpTo(Next(s, step), w, d + if step == Ticks then 1 else 0)
  {
  }

  lemma StepKeepsRow(s: World, step: Step, w: Name, d: int)
    requires Enabled(s, step) && !Removes(s, step, w) && CountsUpTo(s, w, d) && d >= 0
    requires d + (if step == Ticks then 1 else 0) < s.m.checkDown
    ensures CountsUpTo(Next(s, step), w, d + if step == Ticks then 1 else 0)
    ensures Next(s, step).m.checkDown == s.m.checkDown
  {
    KeepsCheckDown(s, step);
    if Remote(step) {
      RemoteKeepsRow(s, step, w, d);
    } else if step.Delivers? {
      ReadKeepsRow(s, step.conn, w, d);
    } else {
      ManagerKeepsRow(s, step, w, d);
    }
  }

  lemma {:induction false} RowKept(states: seq<World>, steps: seq<Step>, k: nat, w: Name)
    requires IsRun(states, steps) && CountsUpTo(states[0], w, 0) && k <= |steps|
    requires forall i | 0 <= i < k :: !Removes(states[i], steps[i], w)
    requires TickCount(steps[..k]) < states[0].m.checkDown
    ensures CountsUpTo(states[k], w, TickCount(steps[..k])) && states[k].m.checkDown == states[0].m.checkDown
  {
    if k > 0 {
      assert steps[..k][..k - 1] == steps[..k - 1];
      RowKept(states, steps, k - 1, w);
      StepKeepsRow(states[k - 1], steps[k - 1], w, TickCount(steps[..k - 1]));
    }
  }

  /** After a status message of w its row survives the next StatusCheckDown - 1 ticks, whether w stays connected
      or not, unless a message or the API removes it. */
  lemma StatusKeepsRow(s: World, c: ConnId, w: Name, states: seq<World>, steps: seq<Step>, k: nat)
    requires Enabled(s, Delivers(c)) && s.m.conns[c].toManager[0].StatusReply?
    requires s.m.conns[c].toManager[0].name == w && w in s.m.db.workers
    requires IsRun(states, steps) && states[0] == Next(s, Delivers(c)) && k <= |steps|
    requires forall i | 0 <= i < k :: !Removes(states[i], steps[i], w)
    requires TickCount(steps[..k]) < s.m.checkDown
    ensures w in states[k].m.db.workers && states[k].m.db.workers[w].downCount <= TickCount(steps[..k])
  {
    StatusRestartsCountdown(s, c, w);
    KeepsCheckDown(s, Delivers(c));
    RowKept(states, steps, k, w);
  }
}
