/** The part of the state space with one worker of one thread and a healthy connection, written without maps:
    what each step does there, and how it is reached.  The counterexamples are runs inside it. */
module OneWorker {
  import opened Types
  import opened Tables
  import opened Connections
  import opened Handlers
  import opened TaskDatabase
  import opened WorkerProcesses
  import opened Protocol

  const W: Name := "w"

  datatype Solo = Solo(
    tasks: Tasks, iddle: int, toWorker: seq<ToWorker>, toManager: seq<ToManager>,
    execs: multiset<Task>, working: map<TaskId, int>,
    batch: seq<Task>, offers: set<Name>, sentOn: map<TaskId, ConnId>, used: set<TaskId>)

  function Self(x: Solo): Proc {
    Proc(W, 1, Some(0), x.execs, x.working)
  }

  function Full(x: Solo): World {
    World(Mgr(Db(x.tasks, map[W := Worker(W, 1, x.iddle, true, 0)]), map[W := 0],
              map[0 := Conn(0, Some(W), x.toWorker, x.toManager, false, false)], 360),
          map[0 := Self(x)], x.batch, x.offers, x.sentOn, x.used)
  }

  function Offers(iddle: int): set<Name> {
    if iddle > 0 then {W} else {}
  }

  lemma OffersAre(x: Solo)
    ensures IddleNames(Full(x).m.db.workers) == Offers(x.iddle)
  {
  }

  // ---- the start: the manager restarts, w connects and registers ----

  function Registered(tasks: Tasks, execs: multiset<Task>): Solo {
    Solo(tasks, 1, [], [], execs, map[], [], {}, map[], tasks.Keys)
  }

  function Restarted(tasks: Tasks, execs: multiset<Task>): World {
    World(Mgr(Db(tasks, map[]), map[], map[], 360), map[0 := Proc(W, 1, None, execs, map[])], [], {}, map[], tasks.Keys)
  }

  function Dialled(tasks: Tasks, execs: multiset<Task>, queue: seq<ToManager>): World {
    Restarted(tasks, execs).(
      m := Restarted(tasks, execs).m.(conns := map[0 := Conn(0, None, [], queue, false, false)]),
      procs := map[0 := Proc(W, 1, Some(0), execs, map[])])
  }

  const REGISTRATION: ToManager := AddWorker(Worker(W, 1, 1, true, 0))

  lemma DialsIn(tasks: Tasks, execs: multiset<Task>)
    ensures Enabled(Restarted(tasks, execs), Dials(0, 0))
    ensures Next(Restarted(tasks, execs), Dials(0, 0)) == Dialled(tasks, execs, [])
  {
  }

  lemma AnnouncesIn(tasks: Tasks, execs: multiset<Task>)
    ensures Enabled(Dialled(tasks, execs, []), Announces(0))
    ensures Next(Dialled(tasks, execs, []), Announces(0)) == Dialled(tasks, execs, [REGISTRATION])
  {
    assert [] + [REGISTRATION] == [REGISTRATION];
  }

  lemma RegistersIn(tasks: Tasks, execs: multiset<Task>)
    ensures Enabled(Dialled(tasks, execs, [REGISTRATION]), Delivers(0))
    ensures Next(Dialled(tasks, execs, [REGISTRATION]), Delivers(0)) == Full(Registered(tasks, execs))
  {
    var m := ReadMessage(Dialled(tasks, execs, [REGISTRATION]).m, 0);
    assert m.conns[0] == Conn(0, Some(W), [], [], false, false);
    assert m.conns == Full(Registered(tasks, execs)).m.conns;
    assert m.db.workers == Full(Registered(tasks, execs)).m.db.workers;
  }

  /** execs: what w was executing for an earlier manager. */
  lemma Starts(tasks: Tasks, execs: multiset<Task>)
    requires (forall id | id in tasks :: tasks[id].id == id) && WithStatus(tasks, Running) == {}
    requires forall t | t in execs :: t.workerName == W
    ensures Reachable(Full(Registered(tasks, execs)))
  {
    var s := Restarted(tasks, execs);
    assert KeyedRows(s.m.db);
    InitialReachable(s);
    DialsIn(tasks, execs);
    NextReachable(s, Dials(0, 0));
    AnnouncesIn(tasks, execs);
    NextReachable(Dialled(tasks, execs, []), Announces(0));
    RegistersIn(tasks, execs);
    NextReachable(Dialled(tasks, execs, [REGISTRATION]), Delivers(0));
  }

  // ---- the steps ----

  /** The step leads from x to y. */
  ghost predicate Leads(x: Solo, step: Step, y: Solo) {
    Enabled(Full(x), step) && Next(Full(x), step) == Full(y)
  }

  lemma Go(x: Solo, step: Step, y: Solo)
    requires Reachable(Full(x)) && Leads(x, step, y)
    ensures Reachable(Full(y))
  {
    NextReachable(Full(x), step);
  }

  function AfterFetch(x: Solo, list: seq<Task>): Solo {
    x.(batch := list, offers := Offers(x.iddle))
  }

  lemma FetchLeads(x: Solo, limit: int, list: seq<Task>)
    requires PendingPrefix(x.tasks, limit, list)
    ensures Leads(x, Fetches(limit, list), AfterFetch(x, list))
  {
    OffersAre(x);
  }

  lemma FetchReaches(x: Solo, limit: int, list: seq<Task>)
    requires Reachable(Full(x)) && PendingPrefix(x.tasks, limit, list)
    ensures Reachable(Full(AfterFetch(x, list)))
  {
    FetchLeads(x, limit, list);
    Go(x, Fetches(limit, list), AfterFetch(x, list));
  }

  function AfterOffer(x: Solo): Solo
    requires x.batch != []
  {
    var t := x.batch[0].(workerName := W);
    var iddle := if x.iddle > 0 then x.iddle - 1 else 0;
    x.(tasks := UpdateTask(x.tasks, t.(status := Running)), iddle := iddle, toWorker := x.toWorker + [AddTask(t)],
       batch := x.batch[1..], offers := Offers(iddle), sentOn := x.sentOn[t.id := 0])
  }

  lemma SentConns(x: Solo, t: Task)
    ensures Push(Full(x).m.conns, 0, AddTask(t)) == Full(x.(toWorker := x.toWorker + [AddTask(t)])).m.conns
  {
  }

  lemma PaidWorkers(x: Solo, iddle: int)
    requires iddle == if x.iddle > 0 then x.iddle - 1 else 0
    ensures SubtractIddle(Full(x).m.db.workers, W) == Full(x.(iddle := iddle)).m.db.workers
  {
  }

  lemma SendLeads(x: Solo)
    requires x.batch != [] && W in x.offers && Matches(x.batch[0], W) && x.batch[0].id in x.tasks
    ensures Leads(x, Sends(W, true), AfterOffer(x))
  {
    OffersAre(AfterOffer(x));
    SentConns(x, x.batch[0].(workerName := W));
    PaidWorkers(x, AfterOffer(x).iddle);
  }

  lemma SendReaches(x: Solo)
    requires Reachable(Full(x))
    requires x.batch != [] && W in x.offers && Matches(x.batch[0], W) && x.batch[0].id in x.tasks
    ensures Reachable(Full(AfterOffer(x)))
  {
    SendLeads(x);
    Go(x, Sends(W, true), AfterOffer(x));
  }

  function AfterRead(x: Solo, killed: bool): Solo
    requires x.toWorker != []
  {
    var response := Response(Self(x), x.toWorker[0], killed);
    x.(toWorker := x.toWorker[1..],
       toManager := if response.Some? then x.toManager + [response.value] else x.toManager,
       execs := AfterMessage(Self(x), x.toWorker[0]).execs)
  }

  lemma ReceivedConns(x: Solo, killed: bool)
    requires x.toWorker != []
    ensures AfterReceive(Full(x), 0, killed).m.conns == Full(AfterRead(x, killed)).m.conns
  {
    assert AfterReceive(Full(x), 0, killed).m.conns[0] == Full(AfterRead(x, killed)).m.conns[0];
  }

  lemma ReceivedProcs(x: Solo, killed: bool)
    requires x.toWorker != []
    ensures AfterReceive(Full(x), 0, killed).procs == Full(AfterRead(x, killed)).procs
  {
    assert AfterReceive(Full(x), 0, killed).procs[0] == Self(AfterRead(x, killed));
  }

  lemma ReceiveLeads(x: Solo, killed: bool)
    requires x.toWorker != [] && !KillsWorker(Self(x), x.toWorker[0])
    ensures Leads(x, Receives(0, killed), AfterRead(x, killed))
  {
    ReceivedConns(x, killed);
    ReceivedProcs(x, killed);
  }

  lemma ReceiveReaches(x: Solo, killed: bool)
    requires Reachable(Full(x)) && x.toWorker != [] && !KillsWorker(Self(x), x.toWorker[0])
    ensures Reachable(Full(AfterRead(x, killed)))
  {
    ReceiveLeads(x, killed);
    Go(x, Receives(0, killed), AfterRead(x, killed));
  }

  /** Messages that are not about the connection itself. */
  function AfterHandling(x: Solo, msg: ToManager): Solo {
    match msg
    case Callback(t) => x.(tasks := UpdateTask(x.tasks, t))
    case FailedAddTask(t) => x.(tasks := SetStatus(x.tasks, t.id, Pending))
    case StatusReply(n, iddle) => if n == W then x.(iddle := iddle) else x
    case _ => x
  }

  function AfterDelivery(x: Solo): Solo
    requires x.toManager != []
  {
    AfterHandling(x.(toManager := x.toManager[1..]), x.toManager[0])
  }

  lemma Popped(x: Solo)
    requires x.toManager != []
    ensures ReadMessage(Full(x).m, 0)
         == HandleMessage(Full(x.(toManager := x.toManager[1..])).m, 0, x.toManager[0])
  {
    var conn := Full(x).m.conns[0];
    assert Full(x).m.conns[0 := conn.(toManager := conn.toManager[1..])]
        == Full(x.(toManager := x.toManager[1..])).m.conns;
  }

  lemma StatusHandled(x: Solo, n: Name, iddle: int)
    ensures HandleWorkerStatus(Full(x).m, n, iddle) == Full(AfterHandling(x, StatusReply(n, iddle))).m
  {
    if n == W {
      assert HandleWorkerStatus(Full(x).m, n, iddle).db.workers == map[W := Worker(W, 1, iddle, true, 0)];
    }
  }

  lemma MessageHandled(x: Solo, msg: ToManager)
    requires !msg.AddWorker? && !msg.DeleteWorker?
    ensures HandleMessage(Full(x).m, 0, msg) == Full(AfterHandling(x, msg)).m
  {
    match msg
    case StatusReply(n, iddle) => StatusHandled(x, n, iddle);
    case _ =>
  }

  lemma DeliverLeads(x: Solo)
    requires x.toManager != [] && !x.toManager[0].AddWorker? && !x.toManager[0].DeleteWorker?
    ensures Leads(x, Delivers(0), AfterDelivery(x))
  {
    var y := AfterDelivery(x);
    Popped(x);
    MessageHandled(x.(toManager := x.toManager[1..]), x.toManager[0]);
    assert Full(x).(m := Full(y).m) == Full(y);
  }

  lemma DeliverReaches(x: Solo)
    requires Reachable(Full(x))
    requires x.toManager != [] && !x.toManager[0].AddWorker? && !x.toManager[0].DeleteWorker?
    ensures Reachable(Full(AfterDelivery(x)))
  {
    DeliverLeads(x);
    Go(x, Delivers(0), AfterDelivery(x));
  }

  function AfterPoll(x: Solo): Solo {
    x.(toWorker := x.toWorker + [StatusRequest])
  }

  lemma PolledConns(x: Solo)
    ensures Polled(Full(x).m, {W}) == {0}
    ensures TickConns(Full(x).m.conns, {0}) == Full(AfterPoll(x)).m.conns
  {
    assert W in {W} && W in Full(x).m.sockets;
  }

  lemma PolledTables(x: Solo)
    ensures Expired(Full(x).m, {W}) == {}
    ensures TickWorkers(Full(x).m, {W}) == Full(x).m.db.workers
    ensures TickTasks(x.tasks, {}) == x.tasks
  {
  }

  lemma Ticked(x: Solo)
    ensures Tick(Full(x).m) == Full(AfterPoll(x)).m
  {
    PolledConns(x);
    PolledTables(x);
    assert Full(x).m.db.workers.Keys == {W};
  }

  lemma TickIs(s: World, m: Mgr)
    requires Tick(s.m) == m
    ensures Enabled(s, Ticks) && Next(s, Ticks) == s.(m := m)
  {
  }

  lemma TickLeads(x: Solo)
    ensures Leads(x, Ticks, AfterPoll(x))
  {
    Ticked(x);
    TickIs(Full(x), Full(AfterPoll(x)).m);
  }

  lemma TickReaches(x: Solo)
    requires Reachable(Full(x))
    ensures Reachable(Full(AfterPoll(x)))
  {
    TickLeads(x);
    Go(x, Ticks, AfterPoll(x));
  }

  function AfterDeletion(x: Solo, id: TaskId): Solo
    requires id in x.tasks
  {
    var t := x.tasks[id];
    x.(tasks := SetStatus(x.tasks, id, Deleted),
       toWorker := if t.status == Running && t.workerName == W then x.toWorker + [DeleteTask(t)] else x.toWorker)
  }

  lemma DeleteLeads(x: Solo, id: TaskId)
    requires id in x.tasks
    ensures Leads(x, Deletes(id, true), AfterDeletion(x, id))
  {
    assert HandleTaskDelete(Full(x).m, id, true).conns == Full(AfterDeletion(x, id)).m.conns;
  }

  lemma DeleteReaches(x: Solo, id: TaskId)
    requires Reachable(Full(x)) && id in x.tasks
    ensures Reachable(Full(AfterDeletion(x, id)))
  {
    DeleteLeads(x, id);
    Go(x, Deletes(id, true), AfterDeletion(x, id));
  }

  function AfterEnd(x: Solo, t: Task, status: Status): Solo {
    x.(execs := x.execs - multiset{t}, toManager := x.toManager + [Callback(t.(status := status))])
  }

  lemma AnsweredConns(x: Solo, msg: ToManager)
    ensures Answer(Full(x).m.conns, 0, msg) == Full(x.(toManager := x.toManager + [msg])).m.conns
  {
  }

  lemma FinishedConns(x: Solo, t: Task, status: Status)
    ensures AfterFinish(Full(x), 0, t, t.details, status).m.conns == Full(AfterEnd(x, t, status)).m.conns
  {
    AnsweredConns(x, Callback(t.(status := status)));
  }

  lemma FinishedProcs(x: Solo, t: Task, status: Status)
    ensures AfterFinish(Full(x), 0, t, t.details, status).procs == Full(AfterEnd(x, t, status)).procs
  {
  }

  lemma FinishLeads(x: Solo, t: Task, status: Status)
    requires t in x.execs && t.id !in x.working && status in {Done, Failed}
    ensures Leads(x, Finishes(0, t, t.details, status), AfterEnd(x, t, status))
  {
    FinishedConns(x, t, status);
    FinishedProcs(x, t, status);
  }

  lemma FinishReaches(x: Solo, t: Task, status: Status)
    requires Reachable(Full(x))
    requires t in x.execs && t.id !in x.working && status in {Done, Failed}
    ensures Reachable(Full(AfterEnd(x, t, status)))
  {
    FinishLeads(x, t, status);
    Go(x, Finishes(0, t, t.details, status), AfterEnd(x, t, status));
  }

  lemma RegisterLeads(x: Solo, id: TaskId, pid: int)
    requires id in ExecIds(x.execs) && (pid == STARTING || pid > 0)
    ensures Leads(x, Registers(0, id, pid), x.(working := x.working[id := pid]))
  {
  }

  lemma RegisterReaches(x: Solo, id: TaskId, pid: int)
    requires Reachable(Full(x)) && id in ExecIds(x.execs) && (pid == STARTING || pid > 0)
    ensures Reachable(Full(x.(working := x.working[id := pid])))
  {
    RegisterLeads(x, id, pid);
    Go(x, Registers(0, id, pid), x.(working := x.working[id := pid]));
  }

  lemma UnregisterReaches(x: Solo, id: TaskId)
    requires Reachable(Full(x)) && id in x.working
    ensures Reachable(Full(x.(working := x.working - {id})))
  {
    Go(x, Unregisters(0, id), x.(working := x.working - {id}));
  }

  function AfterRequest(x: Solo, t: Task): Solo {
    x.(tasks := x.tasks[t.id := t], used := x.used + {t.id})
  }

  lemma PostLeads(x: Solo, t: Task)
    requires t.id !in x.used && t.id !in x.tasks && t.status == Pending && t.workerName == ""
    ensures Leads(x, Posts(t, t.id, t.username, t.createdAt), AfterRequest(x, t))
  {
  }

  lemma PostReaches(x: Solo, t: Task)
    requires Reachable(Full(x))
    requires t.id !in x.used && t.id !in x.tasks && t.status == Pending && t.workerName == ""
    ensures Reachable(Full(AfterRequest(x, t)))
  {
    PostLeads(x, t);
    Go(x, Posts(t, t.id, t.username, t.createdAt), AfterRequest(x, t));
  }
}
