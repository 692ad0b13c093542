/** What each manager handler does to the tables, the WebSockets map and the connections.
    Every handler is one atomic step, also sendAddTask: the message and the `running` mark go together. */
module Handlers {
  import opened Types
  import opened Tables
  import opened Connections

  /** checkDown is config.StatusCheckDown. */
  datatype Mgr = Mgr(db: Db, sockets: map<Name, ConnId>, conns: Conns, checkDown: int)

  // ---- workerRequest.go ----

  /** Whether a write to the worker returned no error.  Only a broken connection makes a write fail,
      but a write to a broken connection may still be reported as done. */
  predicate WriteOutcome(m: Mgr, w: Name, ok: bool) {
    !ok ==> w in m.sockets && m.sockets[w] in m.conns && m.conns[m.sockets[w]].broken
  }

  /** The scheduler offers a task without a worker to anybody, a pinned one only to its worker. */
  predicate Matches(t: Task, w: Name) {
    t.workerName == "" || t.workerName == w
  }

  function SendAddTask(m: Mgr, w: Name, t: Task, ok: bool): Mgr {
    if w !in m.db.workers then m
    else
      var m := m.(db := m.db.(workers := SubtractIddle(m.db.workers, w)));
      if w !in m.sockets || !ok then m
      else m.(conns := Push(m.conns, m.sockets[w], AddTask(t.(workerName := w))),
              db := m.db.(tasks := UpdateTask(m.db.tasks, t.(status := Running, workerName := w))))
  }

  function SendAddTaskError(m: Mgr, w: Name, t: Task, ok: bool): Option<Error> {
    if w !in m.db.workers then Some(NotFound)
    else if w !in m.sockets then Some(NoWebSocket)
    else if !ok then Some(WriteFailed)
    else if t.id !in m.db.tasks then Some(NotFound)
    else None
  }

  function WorkerDisconnected(m: Mgr, w: Name): Mgr {
    Mgr(Db(Requeue(m.db.tasks, w), SetUp(m.db.workers, w, false)),
        m.sockets - {w},
        if w in m.sockets then Close(m.conns, m.sockets[w]) else m.conns,
        m.checkDown)
  }

  function MissingRow(row: Worker): Worker {
    row.(up := false, downCount := row.downCount + 1)
  }

  predicate Expires(m: Mgr, w: Name) {
    w in m.db.workers && w !in m.sockets && m.db.workers[w].downCount + 1 >= m.checkDown
  }

  function HandleMissingWebSocket(m: Mgr, w: Name): Mgr {
    if w !in m.db.workers then m
    else
      var db := m.db.(workers := m.db.workers[w := MissingRow(m.db.workers[w])]);
      m.(db := if Expires(m, w) then RmWorkerName(db.(tasks := Requeue(db.tasks, w)), w) else db)
  }

  function VerifyWorker(m: Mgr, w: Name): Mgr {
    if w in m.sockets then m.(conns := Push(m.conns, m.sockets[w], StatusRequest))
    else HandleMissingWebSocket(m, w)
  }

  function Expired(m: Mgr, names: set<Name>): set<Name> {
    set w | w in names && Expires(m, w)
  }

  function TickTasks(tasks: Tasks, expired: set<Name>): Tasks {
    map id | id in tasks ::
      if tasks[id].workerName in expired then Detached(tasks[id], tasks[id].workerName) else tasks[id]
  }

  function TickWorkers(m: Mgr, names: set<Name>): Workers {
    map w | w in m.db.workers && w !in Expired(m, names) ::
      if w in names && w !in m.sockets then MissingRow(m.db.workers[w]) else m.db.workers[w]
  }

  function Polled(m: Mgr, names: set<Name>): set<ConnId> {
    set w | w in names && w in m.sockets :: m.sockets[w]
  }

  function TickConns(conns: Conns, polled: set<ConnId>): Conns {
    map c | c in conns ::
      if c in polled && !conns[c].broken
      then conns[c].(toWorker := conns[c].toWorker + [StatusRequest]) else conns[c]
  }

  /** One verify tick, row by row, restricted to the given names: connected workers are asked for their
      status, the others count down, and a row whose countdown is over goes away with its name. */
  function TickOn(m: Mgr, names: set<Name>): Mgr {
    m.(db := Db(TickTasks(m.db.tasks, Expired(m, names)), TickWorkers(m, names)),
       conns := TickConns(m.conns, Polled(m, names)))
  }

  function Tick(m: Mgr): Mgr {
    TickOn(m, m.db.workers.Keys)
  }

  // ---- websockets.go ----

  function HandleConnectionError(m: Mgr, c: ConnId): Mgr {
    if c !in m.conns then m
    else
      var m := m.(conns := m.conns[c := m.conns[c].(handled := true)]);
      if m.conns[c].announced.Some? then WorkerDisconnected(m, m.conns[c].announced.value) else m
  }

  function HandleAddWorker(m: Mgr, c: ConnId, w: Worker): Mgr {
    m.(conns := Connections.Announce(m.conns, c, w.name),
       sockets := m.sockets[w.name := c],
       db := if w.name in m.db.workers then m.db else m.db.(workers := m.db.workers[w.name := w]))
  }

  function HandleDeleteWorker(m: Mgr, c: ConnId, w: Worker): Mgr {
    m.(conns := Connections.Announce(m.conns, c, w.name), db := RmWorkerName(m.db, w.name))
  }

  function HandleWorkerStatus(m: Mgr, w: Name, iddle: int): Mgr {
    if w !in m.db.workers then m
    else m.(db := m.db.(workers :=
              m.db.workers[w := m.db.workers[w].(up := true, downCount := 0, iddleThreads := iddle)]))
  }

  function HandleMessage(m: Mgr, c: ConnId, msg: ToManager): Mgr {
    match msg
    case AddWorker(w) => HandleAddWorker(m, c, w)
    case DeleteWorker(w) => HandleDeleteWorker(m, c, w)
    case Callback(t) => m.(db := m.db.(tasks := UpdateTask(m.db.tasks, t)))
    case StatusReply(w, iddle) => HandleWorkerStatus(m, w, iddle)
    case FailedAddTask(t) => m.(db := m.db.(tasks := SetStatus(m.db.tasks, t.id, Pending)))
    case OkAddTask(_) => m
    case OkDeleteTask(_) => m
    case FailedDeleteTask(_) => m
  }

  /** The reader takes the next message of the connection and handles it. */
  function ReadMessage(m: Mgr, c: ConnId): Mgr {
    if c !in m.conns || m.conns[c].toManager == [] then m
    else
      var conn := m.conns[c];
      HandleMessage(m.(conns := m.conns[c := conn.(toManager := conn.toManager[1..])]), c, conn.toManager[0])
  }

  // ---- the API ----

  predicate PostAccepted(m: Mgr, request: Task, id: TaskId) {
    (request.workerName != "" ==> request.workerName in m.db.workers) && id !in m.db.tasks
  }

  function Posted(request: Task, id: TaskId, username: string, now: int): Task {
    request.(id := id, status := Pending, username := username, createdAt := now)
  }

  function HandleTaskPost(m: Mgr, request: Task, id: TaskId, username: string, now: int): Mgr {
    if PostAccepted(m, request, id)
    then m.(db := m.db.(tasks := m.db.tasks[id := Posted(request, id, username, now)]))
    else m
  }

  function HandleTaskDelete(m: Mgr, id: TaskId, ok: bool): Mgr {
    if id !in m.db.tasks then m
    else
      var t := m.db.tasks[id];
      var deleted := m.(db := m.db.(tasks := SetStatus(m.db.tasks, id, Deleted)));
      if t.workerName in m.db.workers && t.status == Running then
        if t.workerName !in m.sockets || !ok then m
        else deleted.(conns := Push(m.conns, m.sockets[t.workerName], DeleteTask(t)))
      else deleted
  }

  function HandleWorkerPost(m: Mgr, w: Worker): Mgr {
    if w.name in m.db.workers then m else m.(db := m.db.(workers := m.db.workers[w.name := w]))
  }

  // ---- manager.go ----

  /** The manager starts on the given tables: connections of an earlier manager have no reader any more. */
  function Start(m: Mgr): Mgr {
    m.(db := m.db.(tasks := ReplaceStatus(m.db.tasks, Running, Pending)),
       sockets := map[],
       conns := map c | c in m.conns :: m.conns[c].(broken := true, handled := true, toManager := []))
  }

  // ---- lemmas about the tick ----

  /** No two names share a connection. */
  ghost predicate OneNamePerConn(m: Mgr) {
    forall v, w | v in m.sockets && w in m.sockets && m.sockets[v] == m.sockets[w] :: v == w
  }

  lemma TickNothing(m: Mgr)
    ensures TickOn(m, {}) == m
  {
    assert TickTasks(m.db.tasks, {}) == m.db.tasks;
    assert Expired(m, {}) == {};
    assert TickWorkers(m, {}) == m.db.workers;
    assert TickConns(m.conns, {}) == m.conns;
  }

  lemma TickTasksOneMore(tasks: Tasks, expired: set<Name>, w: Name)
    requires w !in expired && w != "" && "" !in expired
    ensures ClearName(Requeue(TickTasks(tasks, expired), w), w) == TickTasks(tasks, expired + {w})
  {
  }

  lemma TickConnsOneMore(conns: Conns, polled: set<ConnId>, c: ConnId)
    requires c !in polled
    ensures Push(TickConns(conns, polled), c, StatusRequest) == TickConns(conns, polled + {c})
  {
  }

  /** Verifying one more worker extends the row-by-row description: the order of the workers is irrelevant. */
  lemma TickOneMore(m: Mgr, names: set<Name>, w: Name)
    requires OneNamePerConn(m) && "" !in m.db.workers
    requires names <= m.db.workers.Keys && w in m.db.workers.Keys - names
    ensures VerifyWorker(TickOn(m, names), w) == TickOn(m, names + {w})
  {
    var before := TickOn(m, names);
    assert before.db.workers[w] == m.db.workers[w];
    if w in m.sockets {
      assert Expired(m, names + {w}) == Expired(m, names);
      assert Polled(m, names + {w}) == Polled(m, names) + {m.sockets[w]};
      assert m.sockets[w] !in Polled(m, names);
      TickConnsOneMore(m.conns, Polled(m, names), m.sockets[w]);
      assert TickWorkers(m, names + {w}) == TickWorkers(m, names);
    } else {
      assert Expires(before, w) == Expires(m, w);
      assert Polled(m, names + {w}) == Polled(m, names);
      if Expires(m, w) {
        TickExpiresOneMore(m, names, w);
      } else {
        assert Expired(m, names + {w}) == Expired(m, names);
        assert TickWorkers(m, names + {w}) == before.db.workers[w := MissingRow(m.db.workers[w])];
      }
    }
  }

  lemma TickExpiresOneMore(m: Mgr, names: set<Name>, w: Name)
    requires "" !in m.db.workers
    requires names <= m.db.workers.Keys && w in m.db.workers.Keys - names && Expires(m, w)
    ensures HandleMissingWebSocket(TickOn(m, names), w).db == TickOn(m, names + {w}).db
  {
    var before := TickOn(m, names);
    var db := before.db.(workers := before.db.workers[w := MissingRow(m.db.workers[w])]);
    assert before.db.workers[w] == m.db.workers[w];
    assert Expired(m, names + {w}) == Expired(m, names) + {w};
    DoubleRequeue(db, w);
    TickTasksOneMore(m.db.tasks, Expired(m, names), w);
    assert TickWorkers(m, names + {w}) == db.workers - {w};
  }
}
