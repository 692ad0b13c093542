/** Manager, workers and connections as one step machine, and the invariant of all its runs. */
module Protocol {
  import opened Types
  import opened Tables
  import opened Connections
  import opened Handlers
  import opened TaskDatabase
  import opened WorkerProcesses

  /** batch and offers: the scheduler's snapshots, the fetched tasks still to be offered and the idle workers.
      Rereads lets any step come between the selects of a fetch, and between a send and the select after it;
      limit is the number of threads that some earlier select has found.
      sentOn: history, the connection each task was last sent on.
      used: history, every task id ever posted. */
  datatype World = World(
    m: Mgr, procs: map<ProcId, Proc>,
    batch: seq<Task>, offers: set<Name>,
    sentOn: map<TaskId, ConnId>, used: set<TaskId>)

  datatype Step =
    | Posts(request: Task, id: TaskId, username: string, now: int)
    | Deletes(id: TaskId, ok: bool)
    | AddsRow(worker: Worker)
    | RemovesRow(name: Name)
    | Fetches(limit: int, list: seq<Task>)
    | Rereads
    | Skips
    | Sends(name: Name, ok: bool)
    | Ticks
    | Trims(maxEntries: int, ids: set<TaskId>)
    | Restarts
    | Delivers(conn: ConnId)
    | CleansUp(conn: ConnId)
    | Breaks(conn: ConnId)
    | Dials(proc: ProcId, conn: ConnId)
    | Announces(proc: ProcId)
    | Retires(proc: ProcId)
    | Crashes(proc: ProcId)
    | Receives(proc: ProcId, killed: bool)
    | KillsItself(proc: ProcId)
    | Registers(proc: ProcId, id: TaskId, pid: int)
    | Unregisters(proc: ProcId, id: TaskId)
    | Finishes(proc: ProcId, task: Task, result: Details, status: Status)

  predicate Connected(s: World, p: ProcId) {
    p in s.procs && s.procs[p].conn.Some? && s.procs[p].conn.value in s.m.conns
  }

  predicate HasRequest(s: World, p: ProcId) {
    Connected(s, p) && s.m.conns[s.procs[p].conn.value].toWorker != []
  }

  function Request(s: World, p: ProcId): ToWorker
    requires HasRequest(s, p)
  {
    s.m.conns[s.procs[p].conn.value].toWorker[0]
  }

  ghost predicate Enabled(s: World, step: Step) {
    match step
    case Posts(_, id, _, _) => id !in s.used
    case Deletes(id, ok) => id in s.m.db.tasks ==> WriteOutcome(s.m, s.m.db.tasks[id].workerName, ok)
    case AddsRow(w) => w.name != ""
    case RemovesRow(_) => true
    case Fetches(limit, list) => PendingPrefix(s.m.db.tasks, limit, list)
    case Rereads => true
    case Skips => s.batch != [] && s.offers != {} && forall w | w in s.offers :: !Matches(s.batch[0], w)
    case Sends(w, ok) => s.batch != [] && w in s.offers && Matches(s.batch[0], w) && WriteOutcome(s.m, w, ok)
    case Ticks => true
    case Trims(max, ids) => max > 0 && OldestDone(s.m.db.tasks, HistoryExcess(s.m.db.tasks, max), ids)
    case Restarts => true
    case Delivers(c) => c in s.m.conns && !s.m.conns[c].handled && s.m.conns[c].toManager != []
    case CleansUp(c) => c in s.m.conns && !s.m.conns[c].handled && s.m.conns[c].broken
    case Breaks(c) => c in s.m.conns
    case Dials(p, c) => p in s.procs && c !in s.m.conns
    case Announces(p) => Connected(s, p)
    case Retires(p) => Connected(s, p)
    case Crashes(p) => p in s.procs
    case Receives(p, _) => HasRequest(s, p) && !KillsWorker(s.procs[p], Request(s, p))
    case KillsItself(p) => HasRequest(s, p) && KillsWorker(s.procs[p], Request(s, p))
    case Registers(p, id, pid) => p in s.procs && id in ExecIds(s.procs[p].execs) && (pid == STARTING || pid > 0)
    case Unregisters(p, id) => p in s.procs && id in s.procs[p].working
    case Finishes(p, t, result, status) =>
      && Connected(s, p) && t in s.procs[p].execs && CanEnd(s.procs[p], t)
      && status in {Done, Failed} && SameRequest(t.details, result)
  }

  function BreakOf(conns: Conns, c: Option<ConnId>): Conns {
    if c.Some? then Close(conns, c.value) else conns
  }

  function Tell(s: World, p: ProcId, msg: ToManager): World
    requires Connected(s, p)
  {
    s.(m := s.m.(conns := Answer(s.m.conns, s.procs[p].conn.value, msg)))
  }

  function Registration(p: Proc): Worker {
    Worker(p.name, p.threads, p.threads, true, 0)
  }

  function Retirement(p: Proc): Worker {
    Worker(p.name, 0, -1, true, 0)
  }

  function AfterSend(s: World, w: Name, ok: bool): World
    requires s.batch != []
  {
    var t := s.batch[0];
    var m := SendAddTask(s.m, w, t, ok);
    s.(m := m,
       batch := s.batch[1..], offers := IddleNames(m.db.workers),
       sentOn := if SendAddTaskError(s.m, w, t, ok) == None then s.sentOn[t.id := s.m.sockets[w]] else s.sentOn)
  }

  function AfterReceive(s: World, p: ProcId, killed: bool): World
    requires HasRequest(s, p)
  {
    var c := s.procs[p].conn.value;
    var msg := s.m.conns[c].toWorker[0];
    var conns := s.m.conns[c := s.m.conns[c].(toWorker := s.m.conns[c].toWorker[1..])];
    var response := Response(s.procs[p], msg, killed);
    s.(m := s.m.(conns := if response.Some? then Answer(conns, c, response.value) else conns),
       procs := s.procs[p := AfterMessage(s.procs[p], msg)])
  }

  function AfterPost(s: World, request: Task, id: TaskId, username: string, now: int): World {
    s.(m := HandleTaskPost(s.m, request, id, username, now), used := s.used + {id})
  }

  function AfterDial(s: World, p: ProcId, c: ConnId): World
    requires p in s.procs
  {
    s.(m := s.m.(conns := BreakOf(s.m.conns, s.procs[p].conn)[c := Conn(p, None, [], [], false, false)]),
       procs := s.procs[p := s.procs[p].(conn := Some(c))])
  }

  function AfterCrash(s: World, p: ProcId): World
    requires p in s.procs
  {
    s.(m := s.m.(conns := BreakOf(s.m.conns, s.procs[p].conn)),
       procs := s.procs[p := Ended(s.procs[p])])
  }

  function AfterFinish(s: World, p: ProcId, t: Task, result: Details, status: Status): World
    requires Connected(s, p)
  {
    Tell(s, p, Callback(t.(details := result, status := status)))
    .(procs := s.procs[p := s.procs[p].(execs := s.procs[p].execs - multiset{t})])
  }

  /** The steps of the workers and of the network; all others are steps of the manager. */
  predicate Remote(step: Step) {
    || step.Breaks? || step.Dials? || step.Announces? || step.Retires? || step.Crashes?
    || step.Receives? || step.KillsItself? || step.Registers? || step.Unregisters? || step.Finishes?
  }

  function Next(s: World, step: Step): World
    requires Enabled(s, step)
  {
    match step
    case Posts(request, id, username, now) => AfterPost(s, request, id, username, now)
    case Deletes(id, ok) => s.(m := HandleTaskDelete(s.m, id, ok))
    case AddsRow(w) => s.(m := HandleWorkerPost(s.m, w))
    case RemovesRow(n) => s.(m := s.m.(db := RmWorkerName(s.m.db, n)))
    case Fetches(_, list) => s.(batch := list, offers := IddleNames(s.m.db.workers))
    case Rereads => s.(offers := IddleNames(s.m.db.workers))
    case Skips => s.(batch := s.batch[1..], offers := IddleNames(s.m.db.workers))
    case Sends(w, ok) => AfterSend(s, w, ok)
    case Ticks => s.(m := Tick(s.m))
    case Trims(_, ids) => s.(m := s.m.(db := s.m.db.(tasks := s.m.db.tasks - ids)))
    case Restarts => s.(m := Start(s.m), batch := [], offers := {})
    case Delivers(c) => s.(m := ReadMessage(s.m, c))
    case CleansUp(c) => s.(m := HandleConnectionError(s.m, c))
    case Breaks(c) => s.(m := s.m.(conns := Close(s.m.conns, c)))
    case Dials(p, c) => AfterDial(s, p, c)
    case Announces(p) => Tell(s, p, AddWorker(Registration(s.procs[p])))
    case Retires(p) => Tell(s, p, DeleteWorker(Retirement(s.procs[p])))
    case Crashes(p) => AfterCrash(s, p)
    case Receives(p, killed) => AfterReceive(s, p, killed)
    case KillsItself(p) => AfterCrash(s, p)
    case Registers(p, id, pid) => s.(procs := s.procs[p := s.procs[p].(working := s.procs[p].working[id := pid])])
    case Unregisters(p, id) => s.(procs := s.procs[p := s.procs[p].(working := s.procs[p].working - {id})])
    case Finishes(p, t, result, status) => AfterFinish(s, p, t, result, status)
  }

  // ---- runs ----

  /** A run visits states[0], states[1], ... by steps[0], steps[1], ... */
  ghost predicate IsRun(states: seq<World>, steps: seq<Step>) {
    && |states| == |steps| + 1
    && forall i {:trigger Enabled(states[i], steps[i])} {:trigger Next(states[i], steps[i])} | 0 <= i < |steps| ::
         Enabled(states[i], steps[i]) && states[i + 1] == Next(states[i], steps[i])
  }

  lemma RunPrefix(states: seq<World>, steps: seq<Step>, k: nat)
    requires IsRun(states, steps) && k <= |steps|
    ensures IsRun(states[..k + 1], steps[..k])
    ensures states[..k + 1][0] == states[0] && states[..k + 1][k] == states[k]
  {
  }

  lemma RunAppend(states: seq<World>, steps: seq<Step>, step: Step)
    requires IsRun(states, steps) && Enabled(states[|steps|], step)
    ensures IsRun(states + [Next(states[|steps|], step)], steps + [step])
  {
  }

  lemma RunPrepend(s: World, step: Step, states: seq<World>, steps: seq<Step>)
    requires IsRun(states, steps) && Enabled(s, step) && states[0] == Next(s, step)
    ensures IsRun([s] + states, [step] + steps)
  {
  }

  lemma RunExtend(states: seq<World>, steps: seq<Step>, step: Step) returns (longer: seq<World>)
    requires IsRun(states, steps) && Enabled(states[|steps|], step)
    ensures IsRun(longer, steps + [step]) && longer[0] == states[0]
    ensures longer[|steps| + 1] == Next(states[|steps|], step)
  {
    RunAppend(states, steps, step);
    longer := states + [Next(states[|steps|], step)];
  }

  /** Some run from a start ends in s. */
  ghost predicate Reachable(s: World) {
    exists states, steps :: IsRun(states, steps) && Initial(states[0]) && states[|steps|] == s
  }

  lemma InitialReachable(s: World)
    requires Initial(s)
    ensures Reachable(s)
  {
    assert IsRun([s], []);
  }

  lemma NextReachable(s: World, step: Step)
    requires Reachable(s) && Enabled(s, step)
    ensures Reachable(Next(s, step))
  {
    var states, steps :| IsRun(states, steps) && Initial(states[0]) && states[|steps|] == s;
    var longer := RunExtend(states, steps, step);
    assert longer[|steps + [step]|] == Next(s, step);
  }

  /** The manager has just started on arbitrary tables; workers may still be executing old tasks. */
  ghost predicate Initial(s: World) {
    && KeyedRows(s.m.db) && "" !in s.m.db.workers && s.m.checkDown > 0
    && WithStatus(s.m.db.tasks, Running) == {} && s.m.db.tasks.Keys <= s.used
    && s.m.sockets == map[] && s.m.conns == map[] && s.batch == [] && s.offers == {}
    && (forall p | p in s.procs :: s.procs[p].name != "" && s.procs[p].conn == None
                                   && forall t | t in s.procs[p].execs :: t.workerName == s.procs[p].name)
  }

  // ---- the invariant ----

  predicate Names(msg: ToManager, name: Name) {
    msg.AddWorker? || msg.DeleteWorker? ==> msg.worker.name == name
  }

  predicate Finished(status: Status) {
    status == Done || status == Failed
  }

  ghost predicate ConnOk(s: World, c: ConnId)
    requires c in s.m.conns
  {
    var conn := s.m.conns[c];
    && conn.owner in s.procs
    && (conn.announced.Some? ==> conn.announced.value == s.procs[conn.owner].name)
    && (forall msg | msg in conn.toManager ::
          Names(msg, s.procs[conn.owner].name) && (msg.Callback? ==> Finished(msg.task.status)))
    && (!conn.broken ==> s.procs[conn.owner].conn == Some(c))
    && (conn.handled ==> conn.broken)
  }

  /** Rows sit under their keys, names are not empty, a process's connection belongs to it. */
  ghost predicate Shape(s: World) {
    && KeyedRows(s.m.db) && "" !in s.m.db.workers && "" !in s.offers && s.m.checkDown > 0
    && (forall p | p in s.procs :: s.procs[p].name != "")
    && (forall p | p in s.procs && s.procs[p].conn.Some? ::
          s.procs[p].conn.value in s.m.conns && s.m.conns[s.procs[p].conn.value].owner == p)
    && (forall c | c in s.m.conns :: ConnOk(s, c))
  }

  /** WebSockets holds live readers, under the name each of them announced. */
  ghost predicate SocketsOk(s: World) {
    forall n | n in s.m.sockets ::
      && s.m.sockets[n] in s.m.conns
      && !s.m.conns[s.m.sockets[n]].handled && s.m.conns[s.m.sockets[n]].announced == Some(n)
  }

  /** Somebody will still take the task sent on c out of `running`. */
  ghost predicate Carried(s: World, id: TaskId, c: ConnId) {
    && c in s.m.conns && !s.m.conns[c].handled
    && (|| s.m.conns[c].broken
        || id in Requested(s.m.conns[c].toWorker)
        || id in Settled(s.m.conns[c].toManager)
        || (s.m.conns[c].owner in s.procs && id in ExecIds(s.procs[s.m.conns[c].owner].execs)))
  }

  ghost predicate RunningOk(s: World, id: TaskId)
    requires id in s.m.db.tasks
  {
    var w := s.m.db.tasks[id].workerName;
    && w in s.m.db.workers && w in s.m.sockets
    && id in s.sentOn && Carried(s, id, s.sentOn[id]) && s.m.conns[s.sentOn[id]].announced == Some(w)
  }

  ghost predicate NoTaskLost(s: World) {
    forall id | id in WithStatus(s.m.db.tasks, Running) :: RunningOk(s, id)
  }

  /** The scheduler offers each task once, and none that is already running. */
  ghost predicate BatchOk(s: World) {
    && DistinctIds(s.batch)
    && Ids(s.batch) !! WithStatus(s.m.db.tasks, Running)
  }

  ghost predicate Inv(s: World) {
    Shape(s) && SocketsOk(s) && NoTaskLost(s) && BatchOk(s)
  }
}
