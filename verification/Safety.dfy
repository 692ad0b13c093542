/** Every step keeps the invariant of the protocol. */
module Safety {
  import opened Types
  import opened Tables
  import opened Connections
  import opened Handlers
  import opened TaskDatabase
  import opened WorkerProcesses
  import opened Protocol

  // ---- what a step may do to the running tasks and their carriers ----

  /** No reader disappears and none forgets its worker. */
  ghost predicate SameReaders(s: World, s': World) {
    forall c | c in s.m.conns ::
      && c in s'.m.conns && s'.m.conns[c].handled == s.m.conns[c].handled
      && (s.m.conns[c].announced.Some? ==> s'.m.conns[c].announced == s.m.conns[c].announced)
  }

  ghost predicate StillCarried(s: World, s': World, settled: set<TaskId>) {
    forall id, c | Carried(s, id, c) && id !in settled :: Carried(s', id, c)
  }

  ghost predicate NoNewRunning(s: World, s': World, settled: set<TaskId>) {
    forall id | id in WithStatus(s'.m.db.tasks, Running) ::
      && id !in settled && id in WithStatus(s.m.db.tasks, Running)
      && s'.m.db.tasks[id].workerName == s.m.db.tasks[id].workerName
      && s.m.db.tasks[id].workerName in s'.m.db.workers && s.m.db.tasks[id].workerName in s'.m.sockets
      && id in s'.sentOn && (id in s.sentOn ==> s'.sentOn[id] == s.sentOn[id])
  }

  lemma Transfer(s: World, s': World, settled: set<TaskId>)
    requires NoTaskLost(s)
    requires SameReaders(s, s') && StillCarried(s, s', settled) && NoNewRunning(s, s', settled)
    ensures NoTaskLost(s')
  {
    forall id | id in WithStatus(s'.m.db.tasks, Running) ensures RunningOk(s', id) {
      assert RunningOk(s, id);
      assert Carried(s, id, s.sentOn[id]);
    }
  }

  // ---- steps that only change the tables ----

  /** The tables start no task, move no running task and remove no row of a running task's worker. */
  ghost predicate RunningKept(before: Db, after: Db) {
    forall id | id in after.tasks && after.tasks[id].status == Running ::
      && id in before.tasks && before.tasks[id].status == Running
      && after.tasks[id].workerName == before.tasks[id].workerName
      && (before.tasks[id].workerName in before.workers ==> before.tasks[id].workerName in after.workers)
  }

  lemma TablesOnly(s: World, db: Db)
    requires Inv(s) && KeyedRows(db) && "" !in db.workers && RunningKept(s.m.db, db)
    ensures Inv(s.(m := s.m.(db := db)))
  {
    var s' := s.(m := s.m.(db := db));
    assert forall id | id in WithStatus(db.tasks, Running) ::
             id in WithStatus(s.m.db.tasks, Running) && RunningOk(s, id);
    Transfer(s, s', {});
    assert forall c | c in s'.m.conns :: ConnOk(s, c) ==> ConnOk(s', c);
  }

  lemma PostsOk(s: World, request: Task, id: TaskId, username: string, now: int)
    requires Inv(s)
    ensures Inv(AfterPost(s, request, id, username, now))
  {
    var s' := AfterPost(s, request, id, username, now);
    var t := s.(m := s'.m);
    TablesOnly(s, s'.m.db);
    assert forall c | c in s'.m.conns :: ConnOk(t, c) ==> ConnOk(s', c);
    assert forall id | id in WithStatus(t.m.db.tasks, Running) :: RunningOk(t, id);
    Transfer(t, s', {});
  }

  lemma AddsRowOk(s: World, w: Worker)
    requires Inv(s) && w.name != ""
    ensures Inv(s.(m := HandleWorkerPost(s.m, w)))
  {
    TablesOnly(s, HandleWorkerPost(s.m, w).db);
  }

  lemma RemovesRowOk(s: World, n: Name)
    requires Inv(s)
    ensures Inv(s.(m := s.m.(db := RmWorkerName(s.m.db, n))))
  {
    TablesOnly(s, RmWorkerName(s.m.db, n));
  }

  lemma TrimsOk(s: World, ids: set<TaskId>)
    requires Inv(s) && ids <= WithStatus(s.m.db.tasks, Done)
    ensures Inv(s.(m := s.m.(db := s.m.db.(tasks := s.m.db.tasks - ids))))
  {
    TablesOnly(s, s.m.db.(tasks := s.m.db.tasks - ids));
  }

  // ---- the scheduler ----

  lemma SnapshotOnly(s: World, batch: seq<Task>, offers: set<Name>)
    requires Inv(s) && "" !in offers
    requires DistinctIds(batch) && Ids(batch) !! WithStatus(s.m.db.tasks, Running)
    ensures Inv(s.(batch := batch, offers := offers))
  {
    var s' := s.(batch := batch, offers := offers);
    assert forall id | id in WithStatus(s.m.db.tasks, Running) :: RunningOk(s, id);
    Transfer(s, s', {});
    assert forall c | c in s'.m.conns :: ConnOk(s, c) ==> ConnOk(s', c);
  }

  lemma PaysOk(s: World, w: Name)
    requires Inv(s)
    ensures Inv(s.(m := s.m.(db := s.m.db.(workers := SubtractIddle(s.m.db.workers, w)))))
  {
    TablesOnly(s, s.m.db.(workers := SubtractIddle(s.m.db.workers, w)));
  }

  lemma TakeFirst(s: World)
    requires Inv(s) && s.batch != []
    ensures Inv(s.(batch := s.batch[1..])) && s.batch[0].id !in Ids(s.batch[1..])
  {
    SnapshotOnly(s, s.batch[1..], s.offers);
  }

  function SentOn(s: World, w: Name, t: Task, ok: bool): map<TaskId, ConnId> {
    if SendAddTaskError(s.m, w, t, ok) == None then s.sentOn[t.id := s.m.sockets[w]] else s.sentOn
  }

  lemma TriesOk(s: World, w: Name, t: Task, ok: bool)
    requires Inv(s) && t.id !in Ids(s.batch)
    ensures Inv(s.(m := SendAddTask(s.m, w, t, ok), sentOn := SentOn(s, w, t, ok)))
  {
    if w in s.m.db.workers {
      PaysOk(s, w);
      if w in s.m.sockets && ok {
        SendMarks(s.(m := s.m.(db := s.m.db.(workers := SubtractIddle(s.m.db.workers, w)))), w, t);
      }
    }
  }

  function Tried(s: World, w: Name, t: Task, ok: bool): World {
    s.(m := SendAddTask(s.m, w, t, ok), sentOn := SentOn(s, w, t, ok))
  }

  lemma SentAfterTried(s: World, w: Name, ok: bool)
    requires s.batch != []
    ensures AfterSend(s, w, ok)
         == Tried(s.(batch := s.batch[1..]), w, s.batch[0], ok).(
              offers := IddleNames(SendAddTask(s.m, w, s.batch[0], ok).db.workers))
  {
  }

  lemma OffersOk(s: World, workers: Workers)
    requires Inv(s) && "" !in workers
    ensures Inv(s.(offers := IddleNames(workers)))
  {
    SnapshotOnly(s, s.batch, IddleNames(workers));
  }

  lemma SendsOk(s: World, w: Name, ok: bool)
    requires Inv(s) && s.batch != []
    ensures Inv(AfterSend(s, w, ok))
  {
    var popped := s.(batch := s.batch[1..]);
    TakeFirst(s);
    TriesOk(popped, w, s.batch[0], ok);
    OffersOk(Tried(popped, w, s.batch[0], ok), SendAddTask(s.m, w, s.batch[0], ok).db.workers);
    SentAfterTried(s, w, ok);
  }

  /** The message is queued and the task marked: it is carried by the connection it was sent on. */
  lemma SendMarks(s: World, w: Name, t: Task)
    requires Inv(s) && w in s.m.db.workers && w in s.m.sockets && t.id !in Ids(s.batch)
    ensures var m := s.m.(conns := Push(s.m.conns, s.m.sockets[w], AddTask(t.(workerName := w))),
                          db := s.m.db.(tasks := UpdateTask(s.m.db.tasks, t.(status := Running, workerName := w))));
            Inv(s.(m := m, sentOn := if t.id in s.m.db.tasks then s.sentOn[t.id := s.m.sockets[w]] else s.sentOn))
  {
    var c := s.m.sockets[w];
    PushOk(s, c, AddTask(t.(workerName := w)));
    var s1 := s.(m := s.m.(conns := Push(s.m.conns, c, AddTask(t.(workerName := w)))));
    assert Carried(s1, t.id, c) by {
      RequestedPush(s.m.conns[c].toWorker, AddTask(t.(workerName := w)));
    }
    MarkRunning(s1, w, t);
  }

  lemma MarkRunning(s: World, w: Name, t: Task)
    requires Inv(s) && w in s.m.db.workers && w in s.m.sockets && t.id !in Ids(s.batch)
    requires Carried(s, t.id, s.m.sockets[w])
    ensures var tasks := UpdateTask(s.m.db.tasks, t.(status := Running, workerName := w));
            Inv(s.(m := s.m.(db := s.m.db.(tasks := tasks)),
                   sentOn := if t.id in s.m.db.tasks then s.sentOn[t.id := s.m.sockets[w]] else s.sentOn))
  {
    var tasks := UpdateTask(s.m.db.tasks, t.(status := Running, workerName := w));
    var s' := s.(m := s.m.(db := s.m.db.(tasks := tasks)),
                 sentOn := if t.id in s.m.db.tasks then s.sentOn[t.id := s.m.sockets[w]] else s.sentOn);
    assert forall c | c in s'.m.conns :: ConnOk(s, c) ==> ConnOk(s', c);
    forall id | id in WithStatus(tasks, Running) ensures RunningOk(s', id) {
      if id != t.id {
        assert id in WithStatus(s.m.db.tasks, Running);
        assert RunningOk(s, id);
      }
    }
  }

  // ---- steps that touch one connection ----

  /** Whatever was carried by c is carried by its new value, but for the settled tasks. */
  ghost predicate KeepsLoad(p: Proc, before: Conn, p': Proc, after: Conn, settled: set<TaskId>) {
    && after.owner == before.owner && after.handled == before.handled
    && (before.broken ==> after.broken)
    && (before.announced.Some? ==> after.announced == before.announced)
    && (!after.broken ==>
          Requested(before.toWorker) + Settled(before.toManager) + ExecIds(p.execs)
          <= Requested(after.toWorker) + Settled(after.toManager) + ExecIds(p'.execs) + settled)
  }

  /** s' differs from s, among connections and processes, only in c and its owner. */
  ghost predicate Touches(s: World, s': World, c: ConnId) {
    && c in s.m.conns && c in s'.m.conns && s'.m.conns == s.m.conns[c := s'.m.conns[c]]
    && s'.m.conns[c].owner == s.m.conns[c].owner
    && s'.procs.Keys == s.procs.Keys
    && (forall p | p in s.procs ::
          && s'.procs[p].name == s.procs[p].name && s'.procs[p].conn == s.procs[p].conn
          && (s'.procs[p] == s.procs[p] || (p == s.m.conns[c].owner && s.procs[p].conn == Some(c))))
  }

  lemma OneConnCarried(s: World, s': World, c: ConnId, settled: set<TaskId>, id: TaskId, d: ConnId)
    requires Touches(s, s', c) && s.m.conns[c].owner in s.procs && d in s.m.conns && ConnOk(s, d)
    requires var p := s.m.conns[c].owner; KeepsLoad(s.procs[p], s.m.conns[c], s'.procs[p], s'.m.conns[c], settled)
    requires Carried(s, id, d) && id !in settled
    ensures Carried(s', id, d)
  {
  }

  lemma OneConn(s: World, s': World, c: ConnId, settled: set<TaskId>)
    requires Shape(s) && NoTaskLost(s) && Touches(s, s', c)
    requires ConnOk(s, c) && s.m.conns[c].owner in s.procs
    requires var p := s.m.conns[c].owner; KeepsLoad(s.procs[p], s.m.conns[c], s'.procs[p], s'.m.conns[c], settled)
    requires NoNewRunning(s, s', settled)
    ensures NoTaskLost(s')
  {
    forall id, d | Carried(s, id, d) && id !in settled ensures Carried(s', id, d) {
      OneConnCarried(s, s', c, settled, id, d);
    }
    Transfer(s, s', settled);
  }

  lemma ShapeOneConn(s: World, s': World, c: ConnId)
    requires Shape(s) && Touches(s, s', c) && ConnOk(s', c)
    requires KeyedRows(s'.m.db) && "" !in s'.m.db.workers && "" !in s'.offers && s'.m.checkDown > 0
    ensures Shape(s')
  {
    forall d | d in s'.m.conns ensures ConnOk(s', d) {
      assert d != c ==> ConnOk(s, d);
    }
  }

  /** A step that leaves the tables alone and touches only one connection and its owner. */
  lemma LocalOk(s: World, s': World, c: ConnId, settled: set<TaskId>)
    requires Inv(s) && s' == s.(m := s.m.(conns := s'.m.conns), procs := s'.procs)
    requires Touches(s, s', c) && ConnOk(s', c) && settled !! WithStatus(s.m.db.tasks, Running)
    requires var p := s.m.conns[c].owner;
             p in s.procs && KeepsLoad(s.procs[p], s.m.conns[c], s'.procs[p], s'.m.conns[c], settled)
    ensures Inv(s')
  {
    assert ConnOk(s, c);
    assert forall id | id in WithStatus(s.m.db.tasks, Running) :: RunningOk(s, id);
    ShapeOneConn(s, s', c);
    OneConn(s, s', c, settled);
  }

  lemma PushOk(s: World, c: ConnId, msg: ToWorker)
    requires Inv(s)
    ensures Inv(s.(m := s.m.(conns := Push(s.m.conns, c, msg))))
  {
    if c in s.m.conns && !s.m.conns[c].broken {
      assert ConnOk(s, c);
      RequestedPush(s.m.conns[c].toWorker, msg);
      LocalOk(s, s.(m := s.m.(conns := Push(s.m.conns, c, msg))), c, {});
    }
  }

  lemma TellOk(s: World, p: ProcId, msg: ToManager)
    requires Inv(s) && Connected(s, p) && Names(msg, s.procs[p].name) && !msg.Callback?
    ensures Inv(Tell(s, p, msg))
  {
    var c := s.procs[p].conn.value;
    assert ConnOk(s, c);
    SettledPush(s.m.conns[c].toManager, msg);
    if !s.m.conns[c].broken {
      LocalOk(s, Tell(s, p, msg), c, {});
    }
  }

  lemma CloseOk(s: World, c: ConnId)
    requires Inv(s)
    ensures Inv(s.(m := s.m.(conns := Close(s.m.conns, c))))
  {
    if c in s.m.conns {
      assert ConnOk(s, c);
      LocalOk(s, s.(m := s.m.(conns := Close(s.m.conns, c))), c, {});
    }
  }

  lemma DeletesOk(s: World, id: TaskId, ok: bool)
    requires Inv(s)
    ensures Inv(s.(m := HandleTaskDelete(s.m, id, ok)))
  {
    if id in s.m.db.tasks {
      var t := s.m.db.tasks[id];
      var s' := s.(m := s.m.(db := s.m.db.(tasks := SetStatus(s.m.db.tasks, id, Deleted))));
      TablesOnly(s, s'.m.db);
      if t.workerName in s.m.sockets {
        PushOk(s', s.m.sockets[t.workerName], DeleteTask(t));
      }
    }
  }

  // ---- the manager reads a message: handling it and dropping it from the queue commute ----

  lemma DeliversConn(m: Mgr, c: ConnId)
    requires c in m.conns && m.conns[c].toManager != []
    ensures var conn, conns := m.conns[c], ReadMessage(m, c).conns;
            && c in conns && conns == m.conns[c := conns[c]] && conns[c].toManager == conn.toManager[1..]
  {
  }

  function Pop(m: Mgr, c: ConnId): Mgr
    requires c in m.conns && m.conns[c].toManager != []
  {
    m.(conns := m.conns[c := m.conns[c].(toManager := m.conns[c].toManager[1..])])
  }

  lemma HandleThenPop(m: Mgr, c: ConnId)
    requires c in m.conns && m.conns[c].toManager != []
    ensures var h := HandleMessage(m, c, m.conns[c].toManager[0]);
            c in h.conns && h.conns[c].toManager == m.conns[c].toManager && ReadMessage(m, c) == Pop(h, c)
  {
    var msg := m.conns[c].toManager[0];
    assert ReadMessage(m, c) == HandleMessage(Pop(m, c), c, msg);
    if msg.AddWorker? || msg.DeleteWorker? {
      var name := msg.worker.name;
      assert Connections.Announce(Pop(m, c).conns, c, name)
          == Pop(m.(conns := Connections.Announce(m.conns, c, name)), c).conns;
    }
  }

  lemma PopConn(s: World, c: ConnId)
    requires c in s.m.conns && ConnOk(s, c) && s.m.conns[c].toManager != []
    ensures var s', p, msg := s.(m := Pop(s.m, c)), s.m.conns[c].owner, s.m.conns[c].toManager[0];
            && Touches(s, s', c) && ConnOk(s', c)
            && KeepsLoad(s.procs[p], s.m.conns[c], s.procs[p], s'.m.conns[c],
                         if Settles(msg) then {msg.task.id} else {})
  {
    var q := s.m.conns[c].toManager;
    SettledPop(q);
    assert forall x | x in q[1..] :: x in q;
  }

  lemma PopOk(s: World, c: ConnId)
    requires Inv(s) && c in s.m.conns && s.m.conns[c].toManager != []
    requires var msg := s.m.conns[c].toManager[0]; Settles(msg) ==> msg.task.id !in WithStatus(s.m.db.tasks, Running)
    ensures Inv(s.(m := Pop(s.m, c)))
  {
    var msg := s.m.conns[c].toManager[0];
    assert ConnOk(s, c);
    PopConn(s, c);
    LocalOk(s, s.(m := Pop(s.m, c)), c, if Settles(msg) then {msg.task.id} else {});
  }

  lemma AnnounceOk(s: World, c: ConnId, name: Name)
    requires Inv(s) && c in s.m.conns && ConnOk(s, c) && name == s.procs[s.m.conns[c].owner].name
    ensures Inv(s.(m := s.m.(conns := Connections.Announce(s.m.conns, c, name))))
  {
    LocalOk(s, s.(m := s.m.(conns := Connections.Announce(s.m.conns, c, name))), c, {});
  }

  lemma SocketOk(s: World, c: ConnId, name: Name)
    requires Inv(s) && c in s.m.conns && !s.m.conns[c].handled && s.m.conns[c].announced == Some(name)
    ensures Inv(s.(m := s.m.(sockets := s.m.sockets[name := c])))
  {
    var s' := s.(m := s.m.(sockets := s.m.sockets[name := c]));
    assert forall id | id in WithStatus(s.m.db.tasks, Running) :: RunningOk(s, id);
    Transfer(s, s', {});
    assert forall c | c in s'.m.conns :: ConnOk(s, c) ==> ConnOk(s', c);
  }

  lemma AddWorkerOk(s: World, c: ConnId, w: Worker)
    requires Inv(s) && c in s.m.conns && !s.m.conns[c].handled && AddWorker(w) in s.m.conns[c].toManager
    ensures Inv(s.(m := HandleAddWorker(s.m, c, w)))
  {
    assert ConnOk(s, c) && Names(AddWorker(w), s.procs[s.m.conns[c].owner].name);
    AnnounceOk(s, c, w.name);
    var s1 := s.(m := s.m.(conns := Connections.Announce(s.m.conns, c, w.name)));
    SocketOk(s1, c, w.name);
    TablesOnly(s1.(m := s1.m.(sockets := s1.m.sockets[w.name := c])), HandleAddWorker(s.m, c, w).db);
  }

  lemma DeleteWorkerOk(s: World, c: ConnId, w: Worker)
    requires Inv(s) && c in s.m.conns && DeleteWorker(w) in s.m.conns[c].toManager
    ensures Inv(s.(m := HandleDeleteWorker(s.m, c, w)))
  {
    assert ConnOk(s, c) && Names(DeleteWorker(w), s.procs[s.m.conns[c].owner].name);
    AnnounceOk(s, c, w.name);
    TablesOnly(s.(m := s.m.(conns := Connections.Announce(s.m.conns, c, w.name))), RmWorkerName(s.m.db, w.name));
  }

  lemma CallbackOk(s: World, c: ConnId, t: Task)
    requires Inv(s) && c in s.m.conns && Callback(t) in s.m.conns[c].toManager
    ensures Inv(s.(m := s.m.(db := s.m.db.(tasks := UpdateTask(s.m.db.tasks, t)))))
  {
    assert ConnOk(s, c) && Finished(t.status);
    TablesOnly(s, s.m.db.(tasks := UpdateTask(s.m.db.tasks, t)));
  }

  lemma StatusOk(s: World, w: Name, iddle: int)
    requires Inv(s)
    ensures Inv(s.(m := HandleWorkerStatus(s.m, w, iddle)))
  {
    TablesOnly(s, HandleWorkerStatus(s.m, w, iddle).db);
  }

  lemma RefusalOk(s: World, id: TaskId)
    requires Inv(s)
    ensures Inv(s.(m := s.m.(db := s.m.db.(tasks := SetStatus(s.m.db.tasks, id, Pending)))))
  {
    TablesOnly(s, s.m.db.(tasks := SetStatus(s.m.db.tasks, id, Pending)));
  }

  lemma HandlesOk(s: World, c: ConnId, msg: ToManager)
    requires Inv(s) && c in s.m.conns && !s.m.conns[c].handled && msg in s.m.conns[c].toManager
    ensures Inv(s.(m := HandleMessage(s.m, c, msg)))
  {
    match msg
    case AddWorker(w) => AddWorkerOk(s, c, w);
    case DeleteWorker(w) => DeleteWorkerOk(s, c, w);
    case Callback(t) => CallbackOk(s, c, t);
    case StatusReply(w, iddle) => StatusOk(s, w, iddle);
    case FailedAddTask(t) => RefusalOk(s, t.id);
    case OkAddTask(_) =>
    case OkDeleteTask(_) =>
    case FailedDeleteTask(_) =>
  }

  lemma DeliversOk(s: World, c: ConnId)
    requires Inv(s) && c in s.m.conns && !s.m.conns[c].handled && s.m.conns[c].toManager != []
    ensures Inv(s.(m := ReadMessage(s.m, c)))
  {
    var msg := s.m.conns[c].toManager[0];
    var h := HandleMessage(s.m, c, msg);
    assert msg in s.m.conns[c].toManager;
    HandleThenPop(s.m, c);
    assert Settles(msg) ==> msg.task.id !in WithStatus(h.db.tasks, Running) by {
      assert ConnOk(s, c);
    }
    HandlesOk(s, c, msg);
    PopOk(s.(m := h), c);
  }

  // ---- a worker reads a message, or ends an execution ----

  /** c is the connection its owner p currently uses. */
  ghost predicate Current(s: World, p: ProcId, c: ConnId) {
    p in s.procs && s.procs[p].conn == Some(c) && c in s.m.conns && s.m.conns[c].owner == p && ConnOk(s, c)
  }

  lemma ReceivesShape(s: World, p: ProcId, c: ConnId, killed: bool)
    requires HasRequest(s, p) && s.procs[p].conn == Some(c)
    ensures var s', conn := AfterReceive(s, p, killed), s.m.conns[c];
            var response := Response(s.procs[p], conn.toWorker[0], killed);
            && c in s'.m.conns && s'.m.conns == s.m.conns[c := s'.m.conns[c]]
            && s'.m.conns[c] == conn.(
                 toWorker := conn.toWorker[1..],
                 toManager := if response.Some? && !conn.broken
                              then conn.toManager + [response.value] else conn.toManager)
  {
  }

  lemma ReceivesTouches(s: World, p: ProcId, c: ConnId, killed: bool)
    requires Current(s, p, c) && s.m.conns[c].toWorker != []
    ensures Touches(s, AfterReceive(s, p, killed), c)
    ensures AfterReceive(s, p, killed).procs == s.procs[p := AfterMessage(s.procs[p], s.m.conns[c].toWorker[0])]
  {
    ReceivesShape(s, p, c, killed);
  }

  lemma ReceivedConnOk(s: World, p: ProcId, c: ConnId, killed: bool)
    requires Current(s, p, c) && s.m.conns[c].toWorker != []
    ensures ConnOk(AfterReceive(s, p, killed), c)
  {
    ReceivesShape(s, p, c, killed);
  }

  lemma ReceivesConn(s: World, p: ProcId, c: ConnId, killed: bool)
    requires Current(s, p, c) && s.m.conns[c].toWorker != []
    ensures var s' := AfterReceive(s, p, killed);
            Touches(s, s', c) && ConnOk(s', c) && KeepsLoad(s.procs[p], s.m.conns[c], s'.procs[p], s'.m.conns[c], {})
  {
    ReceivesShape(s, p, c, killed);
    ReceivesLoad(s.m.conns[c], s.procs[p], killed);
    ReceivesTouches(s, p, c, killed);
    ReceivedConnOk(s, p, c, killed);
  }

  lemma ReceivesLoad(conn: Conn, p: Proc, killed: bool)
    requires conn.toWorker != []
    ensures var msg := conn.toWorker[0];
            var response := Response(p, msg, killed);
            var answered := if response.Some? && !conn.broken
                            then conn.toManager + [response.value] else conn.toManager;
            KeepsLoad(p, conn, AfterMessage(p, msg), conn.(toWorker := conn.toWorker[1..], toManager := answered), {})
  {
    var msg := conn.toWorker[0];
    var response := Response(p, msg, killed);
    RequestedPop(conn.toWorker);
    if response.Some? {
      SettledPush(conn.toManager, response.value);
    }
    if msg.AddTask? {
      ExecIdsAdd(p.execs, msg.task);
    }
  }

  lemma FinishesConn(s: World, p: ProcId, c: ConnId, t: Task, result: Details, status: Status)
    requires Current(s, p, c) && Finished(status)
    ensures var s' := AfterFinish(s, p, t, result, status);
            Touches(s, s', c) && ConnOk(s', c) && KeepsLoad(s.procs[p], s.m.conns[c], s'.procs[p], s'.m.conns[c], {})
  {
    SettledPush(s.m.conns[c].toManager, Callback(t.(details := result, status := status)));
    ExecIdsRemove(s.procs[p].execs, t);
  }

  lemma ReceivesOk(s: World, p: ProcId, killed: bool)
    requires Inv(s) && Connected(s, p) && s.m.conns[s.procs[p].conn.value].toWorker != []
    ensures Inv(AfterReceive(s, p, killed))
  {
    var c := s.procs[p].conn.value;
    assert ConnOk(s, c);
    ReceivesConn(s, p, c, killed);
    LocalOk(s, AfterReceive(s, p, killed), c, {});
  }

  lemma FinishesOk(s: World, p: ProcId, t: Task, result: Details, status: Status)
    requires Inv(s) && Connected(s, p) && Finished(status)
    ensures Inv(AfterFinish(s, p, t, result, status))
  {
    var c := s.procs[p].conn.value;
    assert ConnOk(s, c);
    FinishesConn(s, p, c, t, result, status);
    LocalOk(s, AfterFinish(s, p, t, result, status), c, {});
  }

  lemma WorkingShape(s: World, p: ProcId, working: map<TaskId, int>)
    requires Shape(s) && p in s.procs
    ensures Shape(s.(procs := s.procs[p := s.procs[p].(working := working)]))
  {
    var s' := s.(procs := s.procs[p := s.procs[p].(working := working)]);
    assert forall c | c in s'.m.conns :: ConnOk(s, c) ==> ConnOk(s', c);
  }

  lemma WorkingOk(s: World, p: ProcId, working: map<TaskId, int>)
    requires Inv(s) && p in s.procs
    ensures Inv(s.(procs := s.procs[p := s.procs[p].(working := working)]))
  {
    WorkingShape(s, p, working);
    assert forall id | id in WithStatus(s.m.db.tasks, Running) :: RunningOk(s, id);
    Transfer(s, s.(procs := s.procs[p := s.procs[p].(working := working)]), {});
  }

  // ---- a worker loses its connection or dies ----

  /** The connection p used is broken, so p may change connection and drop its executions. */
  lemma LeavesOk(s: World, p: ProcId)
    requires Inv(s) && p in s.procs
    requires s.procs[p].conn.Some? ==> s.m.conns[s.procs[p].conn.value].broken
    ensures Inv(s.(procs := s.procs[p := Ended(s.procs[p])]))
  {
    var s' := s.(procs := s.procs[p := Ended(s.procs[p])]);
    forall c | c in s.m.conns ensures ConnOk(s', c) && (s.m.conns[c].owner == p ==> s.m.conns[c].broken) {
      assert ConnOk(s, c);
    }
    assert forall id | id in WithStatus(s.m.db.tasks, Running) :: RunningOk(s, id);
    Transfer(s, s', {});
  }

  lemma CrashesOk(s: World, p: ProcId)
    requires Inv(s) && p in s.procs
    ensures Inv(AfterCrash(s, p))
  {
    if s.procs[p].conn.Some? {
      CloseOk(s, s.procs[p].conn.value);
    }
    LeavesOk(s.(m := s.m.(conns := BreakOf(s.m.conns, s.procs[p].conn))), p);
  }

  lemma DialsOk(s: World, p: ProcId, c: ConnId)
    requires Inv(s) && p in s.procs && c !in s.m.conns
    ensures Inv(AfterDial(s, p, c))
  {
    if s.procs[p].conn.Some? {
      CloseOk(s, s.procs[p].conn.value);
    }
    FreshConnOk(s.(m := s.m.(conns := BreakOf(s.m.conns, s.procs[p].conn))), p, c);
  }

  function FreshConn(s: World, p: ProcId, c: ConnId): World
    requires p in s.procs
  {
    s.(m := s.m.(conns := s.m.conns[c := Conn(p, None, [], [], false, false)]),
       procs := s.procs[p := s.procs[p].(conn := Some(c))])
  }

  lemma FreshConnShape(s: World, p: ProcId, c: ConnId)
    requires Shape(s) && p in s.procs && c !in s.m.conns
    requires s.procs[p].conn.Some? ==> s.m.conns[s.procs[p].conn.value].broken
    ensures Shape(FreshConn(s, p, c))
  {
    forall d | d in s.m.conns ensures ConnOk(FreshConn(s, p, c), d) {
      assert ConnOk(s, d);
    }
  }

  lemma FreshConnOk(s: World, p: ProcId, c: ConnId)
    requires Inv(s) && p in s.procs && c !in s.m.conns
    requires s.procs[p].conn.Some? ==> s.m.conns[s.procs[p].conn.value].broken
    ensures Inv(FreshConn(s, p, c))
  {
    FreshConnShape(s, p, c);
    assert forall id | id in WithStatus(s.m.db.tasks, Running) :: RunningOk(s, id);
    Transfer(s, FreshConn(s, p, c), {});
  }

  // ---- the manager loses a connection, ticks or restarts ----

  /** Dropping a name from WebSockets is safe once its running tasks are requeued. */
  lemma DropSocketOk(s: World, w: Name)
    requires Inv(s)
    requires forall id | id in WithStatus(s.m.db.tasks, Running) :: s.m.db.tasks[id].workerName != w
    ensures Inv(s.(m := s.m.(sockets := s.m.sockets - {w})))
  {
    var s' := s.(m := s.m.(sockets := s.m.sockets - {w}));
    assert forall id | id in WithStatus(s.m.db.tasks, Running) :: RunningOk(s, id);
    Transfer(s, s', {});
    assert forall c | c in s'.m.conns :: ConnOk(s, c) ==> ConnOk(s', c);
  }

  lemma DisconnectsOk(s: World, w: Name)
    requires Inv(s)
    ensures Inv(s.(m := WorkerDisconnected(s.m, w)))
  {
    var db := Db(Requeue(s.m.db.tasks, w), SetUp(s.m.db.workers, w, false));
    TablesOnly(s, db);
    var s1 := s.(m := s.m.(db := db));
    DropSocketOk(s1, w);
    if w in s.m.sockets {
      CloseOk(s1.(m := s1.m.(sockets := s1.m.sockets - {w})), s.m.sockets[w]);
    }
  }

  /** A reader may go when no running task and no name depends on its connection. */
  lemma RetireReaderOk(s: World, c: ConnId)
    requires Inv(s) && c in s.m.conns && s.m.conns[c].broken
    requires var a := s.m.conns[c].announced;
             a.Some? ==> && a.value !in s.m.sockets
                         && forall id | id in WithStatus(s.m.db.tasks, Running) ::
                              s.m.db.tasks[id].workerName != a.value
    ensures Inv(s.(m := s.m.(conns := s.m.conns[c := s.m.conns[c].(handled := true)])))
  {
    var s' := s.(m := s.m.(conns := s.m.conns[c := s.m.conns[c].(handled := true)]));
    assert ConnOk(s, c);
    ShapeOneConn(s, s', c);
    forall id | id in WithStatus(s.m.db.tasks, Running) ensures RunningOk(s', id) {
      assert RunningOk(s, id);
    }
  }

  /** Marking the reader as gone and disconnecting its worker commute. */
  lemma DisconnectThenRetire(m: Mgr, c: ConnId)
    requires c in m.conns && m.conns[c].announced.Some?
    ensures var d := WorkerDisconnected(m, m.conns[c].announced.value);
            && c in d.conns && d.conns[c].announced == m.conns[c].announced && (m.conns[c].broken ==> d.conns[c].broken)
            && HandleConnectionError(m, c) == d.(conns := d.conns[c := d.conns[c].(handled := true)])
  {
    var d := WorkerDisconnected(m, m.conns[c].announced.value);
    assert HandleConnectionError(m, c).conns == d.conns[c := d.conns[c].(handled := true)];
  }

  lemma CleansUpOk(s: World, c: ConnId)
    requires Inv(s) && c in s.m.conns && s.m.conns[c].broken
    ensures Inv(s.(m := HandleConnectionError(s.m, c)))
  {
    var a := s.m.conns[c].announced;
    if a.Some? {
      DisconnectsOk(s, a.value);
      DisconnectThenRetire(s.m, c);
      RetireReaderOk(s.(m := WorkerDisconnected(s.m, a.value)), c);
    } else {
      RetireReaderOk(s, c);
    }
  }

  lemma TickConnsCarried(s: World, s': World, polled: set<ConnId>, id: TaskId, c: ConnId)
    requires s' == s.(m := s.m.(conns := TickConns(s.m.conns, polled)))
    requires Carried(s, id, c)
    ensures Carried(s', id, c)
  {
    RequestedPush(s.m.conns[c].toWorker, StatusRequest);
  }

  lemma TickConnShape(s: World, polled: set<ConnId>, c: ConnId)
    requires c in s.m.conns && ConnOk(s, c)
    ensures ConnOk(s.(m := s.m.(conns := TickConns(s.m.conns, polled))), c)
  {
  }

  lemma TickConnsShape(s: World, polled: set<ConnId>)
    requires Shape(s)
    ensures Shape(s.(m := s.m.(conns := TickConns(s.m.conns, polled))))
  {
    forall c | c in s.m.conns ensures ConnOk(s.(m := s.m.(conns := TickConns(s.m.conns, polled))), c) {
      TickConnShape(s, polled, c);
    }
  }

  lemma TickConnsOk(s: World, polled: set<ConnId>)
    requires Inv(s)
    ensures Inv(s.(m := s.m.(conns := TickConns(s.m.conns, polled))))
  {
    var s' := s.(m := s.m.(conns := TickConns(s.m.conns, polled)));
    TickConnsShape(s, polled);
    forall id | id in WithStatus(s.m.db.tasks, Running) ensures RunningOk(s', id) {
      assert RunningOk(s, id);
      TickConnsCarried(s, s', polled, id, s.sentOn[id]);
    }
  }

  lemma TicksOk(s: World)
    requires Inv(s)
    ensures Inv(s.(m := Tick(s.m)))
  {
    var db := Tick(s.m).db;
    assert forall id | id in WithStatus(s.m.db.tasks, Running) :: RunningOk(s, id);
    assert RunningKept(s.m.db, db);
    TablesOnly(s, db);
    TickConnsOk(s.(m := s.m.(db := db)), Polled(s.m, s.m.db.workers.Keys));
  }

  /** A restart re-establishes the running-task clauses from any tables. */
  lemma RestartsOk(s: World)
    requires KeyedRows(s.m.db) && "" !in s.m.db.workers
    ensures var s' := s.(m := Start(s.m), batch := [], offers := {}); SocketsOk(s') && NoTaskLost(s') && BatchOk(s')
    ensures Shape(s) ==> Inv(s.(m := Start(s.m), batch := [], offers := {}))
  {
    var s' := s.(m := Start(s.m), batch := [], offers := {});
    if Shape(s) {
      assert forall c | c in s'.m.conns :: ConnOk(s, c) ==> ConnOk(s', c);
    }
  }

  // ---- every step, every run ----

  lemma StepKeepsInv(s: World, step: Step)
    requires Inv(s) && Enabled(s, step)
    ensures Inv(Next(s, step))
  {
    match step
    case Posts(request, id, username, now) => PostsOk(s, request, id, username, now);
    case Deletes(id, ok) => DeletesOk(s, id, ok);
    case AddsRow(w) => AddsRowOk(s, w);
    case RemovesRow(n) => RemovesRowOk(s, n);
    case Fetches(_, list) => SnapshotOnly(s, list, IddleNames(s.m.db.workers));
    case Rereads => SnapshotOnly(s, s.batch, IddleNames(s.m.db.workers));
    case Skips => SnapshotOnly(s, s.batch[1..], IddleNames(s.m.db.workers));
    case Sends(w, ok) => SendsOk(s, w, ok);
    case Ticks => TicksOk(s);
    case Trims(_, ids) => TrimsOk(s, ids);
    case Restarts => RestartsOk(s);
    case Delivers(c) => DeliversOk(s, c);
    case CleansUp(c) => CleansUpOk(s, c);
    case Breaks(c) => CloseOk(s, c);
    case Dials(p, c) => DialsOk(s, p, c);
    case Announces(p) => TellOk(s, p, AddWorker(Registration(s.procs[p])));
    case Retires(p) => TellOk(s, p, DeleteWorker(Retirement(s.procs[p])));
    case Crashes(p) => CrashesOk(s, p);
    case Receives(p, killed) => ReceivesOk(s, p, killed);
    case KillsItself(p) => CrashesOk(s, p);
    case Registers(p, id, pid) => WorkingOk(s, p, s.procs[p].working[id := pid]);
    case Unregisters(p, id) => WorkingOk(s, p, s.procs[p].working - {id});
    case Finishes(p, t, result, status) => FinishesOk(s, p, t, result, status);
  }

  lemma {:induction false} InvAlong(states: seq<World>, steps: seq<Step>, k: nat)
    requires IsRun(states, steps) && Inv(states[0]) && k <= |steps|
    ensures Inv(states[k])
  {
    if k > 0 {
      InvAlong(states, steps, k - 1);
      StepKeepsInv(states[k - 1], steps[k - 1]);
    }
  }

  /** The invariant holds in every reachable state. */
  lemma RunsKeepInv(states: seq<World>, steps: seq<Step>)
    requires IsRun(states, steps) && Initial(states[0])
    ensures forall i | 0 <= i < |states| :: Inv(states[i])
  {
    forall i | 0 <= i < |states| ensures Inv(states[i]) {
      InvAlong(states, steps, i);
    }
  }

  /** In every reachable state the verify loop finds what it needs: names are not empty, rows sit under their keys
      and no two names share a connection. */
  lemma VerifyApplies(states: seq<World>, steps: seq<Step>, i: nat)
    requires IsRun(states, steps) && Initial(states[0]) && i < |states|
    ensures KeyedRows(states[i].m.db) && "" !in states[i].m.db.workers && OneNamePerConn(states[i].m)
  {
    RunsKeepInv(states, steps);
    assert SocketsOk(states[i]);
  }

  /** Nothing is queued, executing or waiting for its reader's cleanup. */
  ghost predicate Quiescent(s: World) {
    && (forall c | c in s.m.conns && !s.m.conns[c].handled ::
          !s.m.conns[c].broken && s.m.conns[c].toWorker == [] && s.m.conns[c].toManager == [])
    && (forall p | p in s.procs :: s.procs[p].execs == multiset{})
  }

  /** No task is lost: once everything in flight has landed, no task is left `running`. */
  lemma QuiescentRunsNothing(states: seq<World>, steps: seq<Step>)
    requires IsRun(states, steps) && Initial(states[0])
    ensures Quiescent(states[|steps|]) ==> WithStatus(states[|steps|].m.db.tasks, Running) == {}
  {
    RunsKeepInv(states, steps);
    var s := states[|steps|];
    forall id | id in WithStatus(s.m.db.tasks, Running) ensures !Quiescent(s) {
      assert RunningOk(s, id);
    }
  }
}
