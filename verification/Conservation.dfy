/** What whole runs conserve: rows, requests, owners and the five counters. */
module Conservation {
  import opened Types
  import opened Tables
  import opened Connections
  import opened Handlers
  import opened WorkerProcesses
  import opened Protocol
  import opened Safety

  // ---- the task table alone ----

  function TasksAfter(s: World, step: Step): Tasks
    requires step.Sends? ==> s.batch != []
  {
    match step
    case Posts(request, id, username, now) => HandleTaskPost(s.m, request, id, username, now).db.tasks
    case Deletes(id, ok) => HandleTaskDelete(s.m, id, ok).db.tasks
    case RemovesRow(n) => RmWorkerName(s.m.db, n).tasks
    case Sends(w, ok) => SendAddTask(s.m, w, s.batch[0], ok).db.tasks
    case Ticks => TickTasks(s.m.db.tasks, Expired(s.m, s.m.db.workers.Keys))
    case Trims(_, ids) => s.m.db.tasks - ids
    case Restarts => ReplaceStatus(s.m.db.tasks, Running, Pending)
    case Delivers(c) => ReadMessage(s.m, c).db.tasks
    case CleansUp(c) => HandleConnectionError(s.m, c).db.tasks
    case _ => s.m.db.tasks
  }

  lemma NextTasks(s: World, step: Step)
    requires Enabled(s, step)
    ensures Next(s, step).m.db.tasks == TasksAfter(s, step)
    ensures Next(s, step).used == s.used + if step.Posts? then {step.id} else {}
  {
  }

  // ---- rows ----

  ghost function Added(s: World, step: Step): set<TaskId> {
    if step.Posts? && PostAccepted(s.m, step.request, step.id) then {step.id} else {}
  }

  ghost function Removed(step: Step): set<TaskId> {
    if step.Trims? then step.ids else {}
  }

  /** Only a post adds a row, under a new id; only the trim removes rows, and only done ones. */
  lemma StepConservesRows(s: World, step: Step)
    requires Enabled(s, step) && s.m.db.tasks.Keys <= s.used
    ensures var ids, ids' := s.m.db.tasks.Keys, Next(s, step).m.db.tasks.Keys;
            && ids' == ids + Added(s, step) - Removed(step)
            && Added(s, step) !! ids && Removed(step) <= WithStatus(s.m.db.tasks, Done)
    ensures Next(s, step).m.db.tasks.Keys <= Next(s, step).used && s.used <= Next(s, step).used
  {
    NextTasks(s, step);
    TasksAfterRows(s, step);
  }

  lemma TasksAfterRows(s: World, step: Step)
    requires step.Sends? ==> s.batch != []
    ensures TasksAfter(s, step).Keys == s.m.db.tasks.Keys + Added(s, step) - Removed(step)
  {
  }

  lemma StepConservesCount(s: World, step: Step)
    requires Enabled(s, step) && s.m.db.tasks.Keys <= s.used
    ensures |Next(s, step).m.db.tasks| == |s.m.db.tasks| + |Added(s, step)| - |Removed(step)|
  {
    StepConservesRows(s, step);
    SizeAfter(s.m.db.tasks, Next(s, step).m.db.tasks, Added(s, step), Removed(step));
  }

  lemma SizeAfter(before: Tasks, after: Tasks, added: set<TaskId>, removed: set<TaskId>)
    requires after.Keys == before.Keys + added - removed
    requires added !! before.Keys && removed <= before.Keys
    ensures |after| == |before| + |added| - |removed|
  {
    assert |after.Keys| == |before.Keys| + |added| - |removed|;
    assert |after| == |after.Keys| && |before| == |before.Keys|;
  }

  /** Tasks posted in the first k steps. */
  ghost function RowsPosted(states: seq<World>, steps: seq<Step>, k: nat): nat
    requires k <= |steps| < |states|
  {
    if k == 0 then 0 else RowsPosted(states, steps, k - 1) + |Added(states[k - 1], steps[k - 1])|
  }

  /** Rows trimmed in the first k steps. */
  ghost function RowsTrimmed(steps: seq<Step>, k: nat): nat
    requires k <= |steps|
  {
    if k == 0 then 0 else RowsTrimmed(steps, k - 1) + |Removed(steps[k - 1])|
  }

  /** Rows that neither a post nor a trim accounts for. */
  ghost function Balance(states: seq<World>, steps: seq<Step>, k: nat): int
    requires k <= |steps| < |states|
  {
    |states[k].m.db.tasks| - RowsPosted(states, steps, k) + RowsTrimmed(steps, k)
  }

  lemma BalanceKept(states: seq<World>, steps: seq<Step>, i: nat)
    requires IsRun(states, steps) && i < |steps| && states[i].m.db.tasks.Keys <= states[i].used
    ensures Balance(states, steps, i + 1) == Balance(states, steps, i)
    ensures states[i + 1].m.db.tasks.Keys <= states[i + 1].used
  {
    assert Enabled(states[i], steps[i]);
    StepConservesRows(states[i], steps[i]);
    StepConservesCount(states[i], steps[i]);
  }

  lemma {:induction false} BalanceAlong(states: seq<World>, steps: seq<Step>, k: nat)
    requires IsRun(states, steps) && states[0].m.db.tasks.Keys <= states[0].used && k <= |steps|
    ensures Balance(states, steps, k) == Balance(states, steps, 0)
    ensures states[k].m.db.tasks.Keys <= states[k].used
  {
    if k > 0 {
      BalanceAlong(states, steps, k - 1);
      BalanceKept(states, steps, k - 1);
    }
  }

  /** At any point of a run the rows are the rows at the start plus tasks posted minus rows trimmed. */
  lemma RowsConserved(states: seq<World>, steps: seq<Step>, k: nat)
    requires IsRun(states, steps) && states[0].m.db.tasks.Keys <= states[0].used && k <= |steps|
    ensures |states[k].m.db.tasks| == |states[0].m.db.tasks| + RowsPosted(states, steps, k) - RowsTrimmed(steps, k)
  {
    BalanceAlong(states, steps, k);
  }

  // ---- requests ----

  /** b is a copy of a that differs only in what the system itself writes. */
  predicate Origin(a: Task, b: Task) {
    && a.id == b.id && a.username == b.username && a.priority == b.priority && a.createdAt == b.createdAt
    && SameRequest(a.details, b.details)
  }

  ghost predicate TrueCopy(s: World, t: Task) {
    t.id in s.used && (t.id in s.m.db.tasks ==> Origin(s.m.db.tasks[t.id], t))
  }

  /** Every copy of a task in flight still carries its row's request. */
  ghost predicate Faithful(s: World) {
    && s.m.db.tasks.Keys <= s.used
    && (forall t | t in s.batch :: TrueCopy(s, t))
    && (forall c | c in s.m.conns ::
          && (forall msg | msg in s.m.conns[c].toWorker :: msg.AddTask? ==> TrueCopy(s, msg.task))
          && (forall msg | msg in s.m.conns[c].toManager :: msg.Callback? ==> TrueCopy(s, msg.task)))
    && (forall p | p in s.procs :: forall t | t in s.procs[p].execs :: TrueCopy(s, t))
  }

  /** After a start all copies are true if the executions left over from before hold true ones. */
  lemma InitiallyFaithful(s: World)
    requires Initial(s)
    ensures Faithful(s) <==> forall p | p in s.procs :: forall t | t in s.procs[p].execs :: TrueCopy(s, t)
  {
  }

  ghost predicate SameRequests(before: Tasks, after: Tasks) {
    forall id | id in after :: id in before && Origin(before[id], after[id])
  }

  /** Rows keep their request and new rows have new ids. */
  ghost predicate RequestsKept(s: World, s': World) {
    && s.used <= s'.used
    && forall id | id in s'.m.db.tasks ::
         if id in s.m.db.tasks then Origin(s.m.db.tasks[id], s'.m.db.tasks[id]) else id !in s.used
  }

  lemma CopiesStayTrue(s: World, s': World)
    requires RequestsKept(s, s')
    ensures forall t | TrueCopy(s, t) :: TrueCopy(s', t)
  {
  }

  lemma ReadKeepsRequests(m: Mgr, c: ConnId)
    requires c in m.conns && m.conns[c].toManager != []
    requires var msg := m.conns[c].toManager[0];
             msg.Callback? && msg.task.id in m.db.tasks ==> Origin(m.db.tasks[msg.task.id], msg.task)
    ensures SameRequests(m.db.tasks, ReadMessage(m, c).db.tasks)
  {
    var tasks := ReadMessage(m, c).db.tasks;
    match m.conns[c].toManager[0]
    case Callback(t) => assert tasks == UpdateTask(m.db.tasks, t);
    case FailedAddTask(t) => assert tasks == SetStatus(m.db.tasks, t.id, Pending);
    case DeleteWorker(w) => assert tasks == RmWorkerName(m.db, w.name).tasks;
    case _ => assert tasks == m.db.tasks;
  }

  lemma SendKeepsRequests(m: Mgr, w: Name, t: Task, ok: bool)
    requires t.id in m.db.tasks ==> Origin(m.db.tasks[t.id], t)
    ensures SameRequests(m.db.tasks, SendAddTask(m, w, t, ok).db.tasks)
  {
  }

  lemma StepKeepsRequests(s: World, step: Step)
    requires Faithful(s) && Enabled(s, step)
    ensures RequestsKept(s, Next(s, step))
  {
    NextTasks(s, step);
    if step.Delivers? {
      assert s.m.conns[step.conn].toManager[0] in s.m.conns[step.conn].toManager;
      ReadKeepsRequests(s.m, step.conn);
    } else if step.Sends? {
      assert s.batch[0] in s.batch;
      SendKeepsRequests(s.m, step.name, s.batch[0], step.ok);
    } else {
      OthersKeepRequests(s, step);
    }
  }

  ghost predicate RequestsAfter(s: World, step: Step)
    requires step.Sends? ==> s.batch != []
  {
    forall id | id in TasksAfter(s, step) ::
      if id in s.m.db.tasks then Origin(s.m.db.tasks[id], TasksAfter(s, step)[id]) else step.Posts? && id == step.id
  }

  lemma DetachingKeepsRequests(s: World, step: Step)
    requires step.RemovesRow? || step.Ticks?
    ensures RequestsAfter(s, step)
  {
  }

  lemma CleanupKeepsRequests(s: World, c: ConnId)
    ensures RequestsAfter(s, CleansUp(c))
  {
  }

  lemma OthersKeepRequests(s: World, step: Step)
    requires !step.Delivers? && !step.Sends?
    ensures RequestsAfter(s, step)
  {
    if step.RemovesRow? || step.Ticks? {
      DetachingKeepsRequests(s, step);
    } else if step.CleansUp? {
      CleanupKeepsRequests(s, step.conn);
    }
  }

  // ---- copies ----

  lemma ReadKeepsCopies(s: World, c: ConnId)
    requires Faithful(s) && Enabled(s, Delivers(c))
    ensures Faithful(s.(m := ReadMessage(s.m, c)))
  {
    var s', q := s.(m := ReadMessage(s.m, c)), s.m.conns[c].toManager;
    assert q[0] in q;
    ReadKeepsRequests(s.m, c);
    assert RequestsKept(s, s');
    CopiesStayTrue(s, s');
    DeliversConn(s.m, c);
    assert forall msg | msg in q[1..] :: msg in q;
  }

  lemma SendKeepsCopies(s: World, w: Name, ok: bool)
    requires Faithful(s) && Enabled(s, Sends(w, ok))
    ensures Faithful(AfterSend(s, w, ok))
  {
    var s', t := AfterSend(s, w, ok), s.batch[0];
    assert t in s.batch;
    SendKeepsRequests(s.m, w, t, ok);
    assert RequestsKept(s, s');
    CopiesStayTrue(s, s');
    assert forall x | x in s.batch[1..] :: x in s.batch;
    assert TrueCopy(s, t.(workerName := w));
  }

  /** Only connection c and process p change, and they hold true copies of the same rows. */
  lemma LocalCopies(s: World, s': World, c: ConnId, p: ProcId)
    requires Faithful(s) && s' == s.(m := s.m.(conns := s'.m.conns), procs := s'.procs)
    requires c in s.m.conns && c in s'.m.conns && s'.m.conns == s.m.conns[c := s'.m.conns[c]]
    requires p in s.procs && p in s'.procs && s'.procs == s.procs[p := s'.procs[p]]
    requires forall msg | msg in s'.m.conns[c].toWorker :: msg in s.m.conns[c].toWorker
    requires forall msg | msg in s'.m.conns[c].toManager :: msg.Callback? ==> TrueCopy(s, msg.task)
    requires forall t | t in s'.procs[p].execs :: TrueCopy(s, t)
    ensures Faithful(s')
  {
    assert forall t | TrueCopy(s, t) :: TrueCopy(s', t);
  }

  lemma ReceiveKeepsCopies(s: World, p: ProcId, killed: bool)
    requires Faithful(s) && Enabled(s, Receives(p, killed))
    ensures Faithful(AfterReceive(s, p, killed))
  {
    var s', c := AfterReceive(s, p, killed), s.procs[p].conn.value;
    var conn, msg := s.m.conns[c], s.m.conns[c].toWorker[0];
    assert msg in conn.toWorker && forall x | x in conn.toWorker[1..] :: x in conn.toWorker;
    forall t | t in s'.procs[p].execs ensures TrueCopy(s, t) {
      assert t in s.procs[p].execs || AddTask(t) in conn.toWorker;
    }
    LocalCopies(s, s', c, p);
  }

  lemma FinishKeepsCopies(s: World, p: ProcId, t: Task, result: Details, status: Status)
    requires Faithful(s) && Connected(s, p) && t in s.procs[p].execs && SameRequest(t.details, result)
    ensures Faithful(AfterFinish(s, p, t, result, status))
  {
    var s', c := AfterFinish(s, p, t, result, status), s.procs[p].conn.value;
    assert TrueCopy(s, t) && TrueCopy(s, t.(details := result, status := status));
    forall x | x in s'.procs[p].execs ensures TrueCopy(s, x) {
      assert x in s.procs[p].execs;
    }
    assert s'.m.conns == s.m.conns[c := s'.m.conns[c]];
    LocalCopies(s, s', c, p);
  }

  lemma FetchKeepsCopies(s: World, limit: int, list: seq<Task>)
    requires Faithful(s) && Enabled(s, Fetches(limit, list))
    ensures Faithful(Next(s, Fetches(limit, list)))
  {
  }

  predicate Copies(step: Step) {
    step.Delivers? || step.Sends? || step.Receives? || step.Finishes? || step.Fetches?
  }

  /** Steps that change many connections, or create or close one. */
  predicate Sweeps(step: Step) {
    step.Ticks? || step.Restarts? || step.CleansUp? || step.Dials? || step.Crashes? || step.KillsItself? || step.Breaks?
  }

  lemma TickKeepsCopies(s: World)
    requires Faithful(s)
    ensures Faithful(Next(s, Ticks))
  {
    StepKeepsRequests(s, Ticks);
    CopiesStayTrue(s, Next(s, Ticks));
  }

  lemma DisconnectKeepsCopies(s: World, w: Name)
    requires Faithful(s)
    ensures Faithful(s.(m := WorkerDisconnected(s.m, w)))
  {
    CopiesStayTrue(s, s.(m := WorkerDisconnected(s.m, w)));
  }

  lemma CleanupKeepsCopies(s: World, c: ConnId)
    requires Faithful(s) && c in s.m.conns
    ensures Faithful(s.(m := HandleConnectionError(s.m, c)))
  {
    var s1 := s.(m := s.m.(conns := s.m.conns[c := s.m.conns[c].(handled := true)]));
    CopiesStayTrue(s, s1);
    if s.m.conns[c].announced.Some? {
      DisconnectKeepsCopies(s1, s.m.conns[c].announced.value);
    }
  }

  lemma SweepKeepsCopies(s: World, step: Step)
    requires Faithful(s) && Enabled(s, step) && Sweeps(step) && !step.Ticks? && !step.CleansUp?
    ensures Faithful(Next(s, step))
  {
    StepKeepsRequests(s, step);
    CopiesStayTrue(s, Next(s, step));
  }

  lemma TellKeepsCopies(s: World, p: ProcId, msg: ToManager)
    requires Faithful(s) && Connected(s, p) && !msg.Callback?
    ensures Faithful(Tell(s, p, msg))
  {
    CopiesStayTrue(s, Tell(s, p, msg));
  }

  lemma RemoteKeepsCopies(s: World, step: Step)
    requires Faithful(s) && Enabled(s, step) && Remote(step) && !Copies(step) && !Sweeps(step)
    ensures Faithful(Next(s, step))
  {
    match step
    case Announces(p) => TellKeepsCopies(s, p, AddWorker(Registration(s.procs[p])));
    case Retires(p) => TellKeepsCopies(s, p, DeleteWorker(Retirement(s.procs[p])));
    case Registers(_, _, _) => CopiesStayTrue(s, Next(s, step));
    case Unregisters(_, _) => CopiesStayTrue(s, Next(s, step));
  }

  lemma PushKeepsCopies(s: World, c: ConnId, msg: ToWorker)
    requires Faithful(s) && !msg.AddTask?
    ensures Faithful(s.(m := s.m.(conns := Push(s.m.conns, c, msg))))
  {
    CopiesStayTrue(s, s.(m := s.m.(conns := Push(s.m.conns, c, msg))));
  }

  lemma DeleteKeepsCopies(s: World, id: TaskId, ok: bool)
    requires Faithful(s)
    ensures Faithful(s.(m := HandleTaskDelete(s.m, id, ok)))
  {
    var s1 := s.(m := s.m.(db := s.m.db.(tasks := SetStatus(s.m.db.tasks, id, Deleted))));
    CopiesStayTrue(s, s1);
    if id in s.m.db.tasks && s.m.db.tasks[id].workerName in s.m.sockets {
      PushKeepsCopies(s1, s.m.sockets[s.m.db.tasks[id].workerName], DeleteTask(s.m.db.tasks[id]));
    }
  }

  lemma ManagerKeepsCopies(s: World, step: Step)
    requires Faithful(s) && Enabled(s, step) && !Remote(step) && !Copies(step) && !Sweeps(step) && !step.Deletes?
    ensures Faithful(Next(s, step))
  {
    StepKeepsRequests(s, step);
    CopiesStayTrue(s, Next(s, step));
  }

  lemma CopyingKeepsCopies(s: World, step: Step)
    requires Faithful(s) && Enabled(s, step) && Copies(step)
    ensures Faithful(Next(s, step))
  {
    match step
    case Delivers(c) => ReadKeepsCopies(s, c);
    case Sends(w, ok) => SendKeepsCopies(s, w, ok);
    case Receives(p, killed) => ReceiveKeepsCopies(s, p, killed);
    case Finishes(p, t, result, status) => FinishKeepsCopies(s, p, t, result, status);
    case Fetches(limit, list) => FetchKeepsCopies(s, limit, list);
  }

  lemma StepKeepsCopies(s: World, step: Step)
    requires Faithful(s) && Enabled(s, step)
    ensures Faithful(Next(s, step))
  {
    if Copies(step) {
      CopyingKeepsCopies(s, step);
    } else if step.Ticks? {
      TickKeepsCopies(s);
    } else if step.CleansUp? {
      CleanupKeepsCopies(s, step.conn);
    } else if Sweeps(step) {
      SweepKeepsCopies(s, step);
    } else if Remote(step) {
      RemoteKeepsCopies(s, step);
    } else if step.Deletes? {
      DeleteKeepsCopies(s, step.id, step.ok);
    } else {
      ManagerKeepsCopies(s, step);
    }
  }

  /** In a run every row keeps the request, the owner, the priority and the creation time it was posted with,
      whatever stale copies UpdateTask overwrites it with. */
  lemma {:induction false} RunsKeepRequests(states: seq<World>, steps: seq<Step>, id: TaskId)
    requires IsRun(states, steps) && Faithful(states[0]) && id in states[0].m.db.tasks
    ensures var last := states[|steps|];
            Faithful(last) && id in last.used
            && (id in last.m.db.tasks ==> Origin(states[0].m.db.tasks[id], last.m.db.tasks[id]))
    decreases |steps|
  {
    if steps != [] {
      var n := |steps| - 1;
      RunPrefix(states, steps, n);
      RunsKeepRequests(states[..n + 1], steps[..n], id);
      StepKeepsRequests(states[n], steps[n]);
      StepKeepsCopies(states[n], steps[n]);
    }
  }

  // ---- from the post to the execution ----

  /** A post is accepted unless it names an unknown worker; its row is pending and belongs to its user. */
  lemma PostStartsPending(s: World, request: Task, id: TaskId, username: string, now: int)
    requires Enabled(s, Posts(request, id, username, now)) && s.m.db.tasks.Keys <= s.used
    ensures var tasks := Next(s, Posts(request, id, username, now)).m.db.tasks;
            && (id in tasks <==> request.workerName == "" || request.workerName in s.m.db.workers)
            && (id in tasks ==> && tasks[id].status == Pending && tasks[id].username == username
                                && tasks[id].createdAt == now && tasks[id].details == request.details
                                && tasks[id].workerName == request.workerName && tasks[id].priority == request.priority)
            && forall i | i in s.m.db.tasks :: i in tasks && tasks[i] == s.m.db.tasks[i]
  {
  }

  lemma SuffixRun(states: seq<World>, steps: seq<Step>, k: nat)
    requires IsRun(states, steps) && 1 <= k <= |steps|
    ensures IsRun(states[1..k + 1], steps[1..k])
  {
    forall i | 0 <= i < k - 1
      ensures Enabled(states[1..k + 1][i], steps[1..k][i])
      ensures states[1..k + 1][i + 1] == Next(states[1..k + 1][i], steps[1..k][i])
    {
      assert Enabled(states[i + 1], steps[i + 1]) && states[i + 2] == Next(states[i + 1], steps[i + 1]);
    }
  }

  /** Whatever happens after an accepted post, as long as the row exists it holds what the user posted, and so does
      every copy that a worker executes. */
  lemma ExecutesWhatWasPosted(states: seq<World>, steps: seq<Step>, k: nat,
                              request: Task, id: TaskId, username: string, now: int)
    requires IsRun(states, steps) && Faithful(states[0]) && 1 <= k <= |steps|
    requires steps[0] == Posts(request, id, username, now)
    requires request.workerName == "" || request.workerName in states[0].m.db.workers
    requires id in states[k].m.db.tasks
    ensures var posted := Posted(request, id, username, now);
            && Origin(posted, states[k].m.db.tasks[id])
            && forall p | p in states[k].procs ::
                 forall t | t in states[k].procs[p].execs && t.id == id :: Origin(posted, t)
  {
    assert Enabled(states[0], steps[0]);
    PostStartsPending(states[0], request, id, username, now);
    StepKeepsCopies(states[0], steps[0]);
    SuffixRun(states, steps, k);
    RunsKeepRequests(states[1..k + 1], steps[1..k], id);
  }

  // ---- the five counters ----

  ghost predicate FiveStatuses(tasks: Tasks) {
    forall id | id in tasks :: !tasks[id].status.Other?
  }

  lemma StepKeepsStatuses(s: World, step: Step)
    requires Shape(s) && FiveStatuses(s.m.db.tasks) && Enabled(s, step)
    ensures FiveStatuses(Next(s, step).m.db.tasks)
  {
    NextTasks(s, step);
    if step.Delivers? {
      assert ConnOk(s, step.conn);
      assert s.m.conns[step.conn].toManager[0] in s.m.conns[step.conn].toManager;
    }
    TasksAfterStatuses(s, step);
  }

  lemma TasksAfterStatuses(s: World, step: Step)
    requires FiveStatuses(s.m.db.tasks) && (step.Sends? ==> s.batch != [])
    requires step.Delivers? && step.conn in s.m.conns && s.m.conns[step.conn].toManager != [] ==>
               var msg := s.m.conns[step.conn].toManager[0]; msg.Callback? ==> Finished(msg.task.status)
    ensures FiveStatuses(TasksAfter(s, step))
  {
  }

  function CountersTotal(tasks: Tasks): nat {
    |WithStatus(tasks, Pending)| + |WithStatus(tasks, Running)| + |WithStatus(tasks, Done)|
    + |WithStatus(tasks, Failed)| + |WithStatus(tasks, Deleted)|
  }

  function Among(tasks: Tasks, statuses: set<Status>): set<TaskId> {
    set id | id in tasks && tasks[id].status in statuses
  }

  lemma CountOneMore(tasks: Tasks, statuses: set<Status>, status: Status)
    requires status !in statuses
    ensures |Among(tasks, statuses + {status})| == |Among(tasks, statuses)| + |WithStatus(tasks, status)|
  {
    assert Among(tasks, statuses + {status}) == Among(tasks, statuses) + WithStatus(tasks, status);
    assert Among(tasks, statuses) !! WithStatus(tasks, status);
  }

  lemma CountFive(tasks: Tasks)
    ensures |Among(tasks, {Pending, Running, Done, Failed, Deleted})| == CountersTotal(tasks)
  {
    CountOneMore(tasks, {}, Pending);
    CountOneMore(tasks, {Pending}, Running);
    CountOneMore(tasks, {Pending, Running}, Done);
    CountOneMore(tasks, {Pending, Running, Done}, Failed);
    CountOneMore(tasks, {Pending, Running, Done, Failed}, Deleted);
    assert Among(tasks, {}) == {};
    assert {} + {Pending} == {Pending};
    assert {Pending} + {Running} == {Pending, Running};
    assert {Pending, Running} + {Done} == {Pending, Running, Done};
    assert {Pending, Running, Done} + {Failed} == {Pending, Running, Done, Failed};
    assert {Pending, Running, Done, Failed} + {Deleted} == {Pending, Running, Done, Failed, Deleted};
  }

  /** The five counters of the status page account for every row exactly when no row has another status. */
  lemma CountersSum(tasks: Tasks)
    ensures CountersTotal(tasks) <= |tasks|
    ensures CountersTotal(tasks) == |tasks| <==> FiveStatuses(tasks)
  {
    CountFive(tasks);
    var five := set id | id in tasks && !tasks[id].status.Other?;
    assert Among(tasks, {Pending, Running, Done, Failed, Deleted}) == five;
    SubsetSize(five, tasks.Keys);
    assert |tasks| == |tasks.Keys| && (five == tasks.Keys <==> FiveStatuses(tasks));
  }

  lemma SubsetSize(part: set<TaskId>, whole: set<TaskId>)
    requires part <= whole
    ensures |part| <= |whole| && (|part| == |whole| <==> part == whole)
  {
    assert whole == part + (whole - part);
    assert |whole| == |part| + |whole - part|;
  }

  /** In every reachable state the five counters sum to the row count. */
  lemma {:induction false} RunsKeepCounters(states: seq<World>, steps: seq<Step>)
    requires IsRun(states, steps) && Inv(states[0]) && FiveStatuses(states[0].m.db.tasks)
    ensures var last := states[|steps|];
            Inv(last) && FiveStatuses(last.m.db.tasks) && CountersTotal(last.m.db.tasks) == |last.m.db.tasks|
    decreases |steps|
  {
    if steps != [] {
      var n := |steps| - 1;
      RunPrefix(states, steps, n);
      RunsKeepCounters(states[..n + 1], steps[..n]);
      StepKeepsInv(states[n], steps[n]);
      StepKeepsStatuses(states[n], steps[n]);
    }
    CountersSum(states[|steps|].m.db.tasks);
  }
}
