/** What each step does to WebSockets, to the queues and flags of every connection and to every process: the step
    machine against a field-by-field reference that knows nothing of handlers. */
module ConnColumns {
  import opened Types
  import opened Connections
  import opened Handlers
  import opened WorkerProcesses
  import opened Protocol

  // ---- the reference ----

  /** The name that the reader of c learns in this step. */
  function Learns(s: World, step: Step, c: ConnId): Option<Name> {
    if step.Delivers? && step.conn == c && c in s.m.conns && s.m.conns[c].toManager != []
    then
      match s.m.conns[c].toManager[0]
      case AddWorker(w) => Some(w.name)
      case DeleteWorker(w) => Some(w.name)
      case _ => None
    else None
  }

  function SocketsAfter(s: World, step: Step): map<Name, ConnId> {
    match step
    case Delivers(c) =>
      if c in s.m.conns && s.m.conns[c].toManager != [] && s.m.conns[c].toManager[0].AddWorker?
      then s.m.sockets[s.m.conns[c].toManager[0].worker.name := c] else s.m.sockets
    case CleansUp(c) =>
      if c in s.m.conns && s.m.conns[c].announced.Some? then s.m.sockets - {s.m.conns[c].announced.value}
      else s.m.sockets
    case Restarts => map[]
    case _ => s.m.sockets
  }

  /** p is the process of the step and c the connection it uses. */
  predicate Speaks(s: World, step: Step, c: ConnId) {
    && (step.Dials? || step.Announces? || step.Retires? || step.Crashes? || step.KillsItself? || step.Receives?
        || step.Finishes?)
    && step.proc in s.procs && s.procs[step.proc].conn == Some(c)
  }

  /** What the manager writes to c. */
  ghost function Written(s: World, step: Step, c: ConnId): seq<ToWorker> {
    match step
    case Sends(w, ok) =>
      if ok && s.batch != [] && w in s.m.db.workers && w in s.m.sockets && s.m.sockets[w] == c
      then [AddTask(s.batch[0].(workerName := w))] else []
    case Deletes(id, ok) =>
      if ok && id in s.m.db.tasks && s.m.db.tasks[id].status == Running
         && s.m.db.tasks[id].workerName in s.m.db.workers && s.m.db.tasks[id].workerName in s.m.sockets
         && s.m.sockets[s.m.db.tasks[id].workerName] == c
      then [DeleteTask(s.m.db.tasks[id])] else []
    case Ticks =>
      if exists w :: w in s.m.db.workers && w in s.m.sockets && s.m.sockets[w] == c then [StatusRequest] else []
    case _ => []
  }

  /** What a worker answers to a message. */
  function Reply(p: Proc, msg: ToWorker, killed: bool): seq<ToManager> {
    match msg
    case AddTask(t) => [if |p.working| < p.threads then OkAddTask(t.(status := Running)) else FailedAddTask(t)]
    case StatusRequest => [StatusReply(p.name, p.threads - |p.working|)]
    case DeleteTask(t) =>
      if t.id !in p.working || p.working[t.id] <= 0 then []
      else [if killed then OkDeleteTask(t) else FailedDeleteTask(t)]
  }

  /** What the worker writes to c. */
  function Said(s: World, step: Step, c: ConnId): seq<ToManager> {
    if !Speaks(s, step, c) || c !in s.m.conns then []
    else
      var p := s.procs[step.proc];
      match step
      case Announces(_) => [AddWorker(Worker(p.name, p.threads, p.threads, true, 0))]
      case Retires(_) => [DeleteWorker(Worker(p.name, 0, -1, true, 0))]
      case Finishes(_, t, result, status) => [Callback(t.(details := result, status := status))]
      case Receives(_, killed) =>
        if s.m.conns[c].toWorker == [] then [] else Reply(p, s.m.conns[c].toWorker[0], killed)
      case _ => []
  }

  predicate Breaking(s: World, step: Step, c: ConnId) {
    || step.Restarts? || (step.Breaks? && step.conn == c)
    || ((step.Dials? || step.Crashes? || step.KillsItself?) && Speaks(s, step, c))
    || (step.CleansUp? && step.conn in s.m.conns && s.m.conns[step.conn].announced.Some?
        && s.m.conns[step.conn].announced.value in s.m.sockets
        && s.m.sockets[s.m.conns[step.conn].announced.value] == c)
  }

  ghost function ConnAfter(s: World, step: Step, c: ConnId): Conn
    requires c in s.m.conns
  {
    var conn := s.m.conns[c];
    Conn(conn.owner,
         if Learns(s, step, c).Some? then Learns(s, step, c) else conn.announced,
         if step.Receives? && Speaks(s, step, c) && conn.toWorker != [] then conn.toWorker[1..]
         else if conn.broken then conn.toWorker else conn.toWorker + Written(s, step, c),
         if step.Restarts? then []
         else if step.Delivers? && step.conn == c && conn.toManager != [] then conn.toManager[1..]
         else if conn.broken then conn.toManager else conn.toManager + Said(s, step, c),
         conn.broken || Breaking(s, step, c),
         conn.handled || step.Restarts? || (step.CleansUp? && step.conn == c))
  }

  ghost predicate MeetsConns(s: World, step: Step, conns: Conns) {
    && conns.Keys == s.m.conns.Keys + (if step.Dials? then {step.conn} else {})
    && (forall c | c in s.m.conns :: conns[c] == ConnAfter(s, step, c))
    && (step.Dials? && step.conn !in s.m.conns ==> conns[step.conn] == Conn(step.proc, None, [], [], false, false))
  }

  // ---- steps that concern one connection ----

  /** The step reads from c, or lets c's process say something. */
  predicate Concerns(s: World, step: Step, c: ConnId) {
    || (step.Delivers? && step.conn == c)
    || ((step.Receives? || step.Announces? || step.Retires? || step.Finishes?) && Speaks(s, step, c))
  }

  lemma OthersStay(s: World, step: Step, c: ConnId, d: ConnId)
    requires Concerns(s, step, c) && d in s.m.conns && d != c
    ensures ConnAfter(s, step, d) == s.m.conns[d]
  {
  }

  lemma OneMeets(s: World, step: Step, c: ConnId, conns: Conns)
    requires c in s.m.conns && Concerns(s, step, c) && conns.Keys == s.m.conns.Keys
    requires conns[c] == ConnAfter(s, step, c) && forall d | d in conns && d != c :: conns[d] == s.m.conns[d]
    ensures MeetsConns(s, step, conns)
  {
    forall d | d in s.m.conns ensures conns[d] == ConnAfter(s, step, d) {
      if d != c {
        OthersStay(s, step, c, d);
      }
    }
  }

  lemma Replies(s: World, p: ProcId, killed: bool)
    requires Enabled(s, Receives(p, killed))
    ensures var response := Response(s.procs[p], Request(s, p), killed);
            Reply(s.procs[p], Request(s, p), killed) == if response.Some? then [response.value] else []
  {
  }

  lemma ReceiveMeets(s: World, p: ProcId, killed: bool)
    requires Enabled(s, Receives(p, killed))
    ensures MeetsConns(s, Receives(p, killed), AfterReceive(s, p, killed).m.conns)
  {
    var c := s.procs[p].conn.value;
    Replies(s, p, killed);
    assert Written(s, Receives(p, killed), c) == [];
    OneMeets(s, Receives(p, killed), c, AfterReceive(s, p, killed).m.conns);
  }

  lemma TellMeets(s: World, step: Step, msg: ToManager)
    requires (step.Announces? || step.Retires? || step.Finishes?) && Connected(s, step.proc)
    requires Said(s, step, s.procs[step.proc].conn.value) == [msg]
    ensures MeetsConns(s, step, Tell(s, step.proc, msg).m.conns)
  {
    assert Written(s, step, s.procs[step.proc].conn.value) == [];
    OneMeets(s, step, s.procs[step.proc].conn.value, Tell(s, step.proc, msg).m.conns);
  }

  lemma SayMeets(s: World, step: Step)
    requires Enabled(s, step) && (step.Announces? || step.Retires? || step.Finishes?)
    ensures MeetsConns(s, step, Next(s, step).m.conns)
  {
    match step
    case Announces(p) => TellMeets(s, step, AddWorker(Registration(s.procs[p])));
    case Retires(p) => TellMeets(s, step, DeleteWorker(Retirement(s.procs[p])));
    case Finishes(p, t, result, status) => TellMeets(s, step, Callback(t.(details := result, status := status)));
  }

  lemma ReadConn(m: Mgr, c: ConnId)
    requires c in m.conns && m.conns[c].toManager != []
    ensures var conn := m.conns[c];
            ReadMessage(m, c).conns == m.conns[c := conn.(
              toManager := conn.toManager[1..],
              announced := match conn.toManager[0]
                           case AddWorker(w) => Some(w.name)
                           case DeleteWorker(w) => Some(w.name)
                           case _ => conn.announced)]
  {
  }

  lemma ReadMeets(s: World, c: ConnId)
    requires c in s.m.conns && s.m.conns[c].toManager != []
    ensures MeetsConns(s, Delivers(c), ReadMessage(s.m, c).conns)
  {
    ReadConn(s.m, c);
    assert Written(s, Delivers(c), c) == [] && Said(s, Delivers(c), c) == [];
    OneMeets(s, Delivers(c), c, ReadMessage(s.m, c).conns);
  }

  // ---- steps that concern several, or none ----

  lemma SendMeets(s: World, w: Name, ok: bool)
    requires s.batch != []
    ensures MeetsConns(s, Sends(w, ok), SendAddTask(s.m, w, s.batch[0], ok).conns)
  {
  }

  lemma DeleteMeets(s: World, id: TaskId, ok: bool)
    ensures MeetsConns(s, Deletes(id, ok), HandleTaskDelete(s.m, id, ok).conns)
  {
  }

  lemma TickMeets(s: World)
    ensures MeetsConns(s, Ticks, Tick(s.m).conns)
  {
    forall c | c in s.m.conns
      ensures c in Polled(s.m, s.m.db.workers.Keys)
              <==> exists w :: w in s.m.db.workers && w in s.m.sockets && s.m.sockets[w] == c
    {
    }
  }

  lemma RestartMeets(s: World)
    ensures MeetsConns(s, Restarts, Start(s.m).conns)
  {
  }

  lemma CleanupConns(m: Mgr, c: ConnId)
    requires c in m.conns
    ensures var after, name := HandleConnectionError(m, c).conns, m.conns[c].announced;
            && after.Keys == m.conns.Keys
            && forall d | d in m.conns ::
                 after[d] == m.conns[d].(
                   handled := m.conns[d].handled || d == c,
                   broken := m.conns[d].broken || (name.Some? && name.value in m.sockets && m.sockets[name.value] == d))
  {
  }

  lemma CleanupMeets(s: World, c: ConnId)
    requires c in s.m.conns
    ensures MeetsConns(s, CleansUp(c), HandleConnectionError(s.m, c).conns)
  {
    CleanupConns(s.m, c);
  }

  lemma BreakMeets(s: World, c: ConnId)
    ensures MeetsConns(s, Breaks(c), Close(s.m.conns, c))
  {
  }

  lemma DialMeets(s: World, p: ProcId, c: ConnId)
    requires p in s.procs && c !in s.m.conns
    ensures MeetsConns(s, Dials(p, c), AfterDial(s, p, c).m.conns)
  {
  }

  lemma LeaveMeets(s: World, p: ProcId, step: Step)
    requires p in s.procs && (step == Crashes(p) || step == KillsItself(p))
    ensures MeetsConns(s, step, AfterCrash(s, p).m.conns)
  {
  }

  predicate Silent(step: Step) {
    || step.Posts? || step.AddsRow? || step.RemovesRow? || step.Fetches? || step.Rereads? || step.Skips? || step.Trims?
    || step.Registers? || step.Unregisters?
  }

  lemma SilentKeeps(s: World, step: Step)
    requires Enabled(s, step) && Silent(step)
    ensures Next(s, step).m.conns == s.m.conns
  {
  }

  lemma SilentStays(s: World, step: Step, d: ConnId)
    requires Silent(step) && d in s.m.conns
    ensures ConnAfter(s, step, d) == s.m.conns[d]
  {
  }

  lemma SilentMeets(s: World, step: Step)
    requires Silent(step)
    ensures MeetsConns(s, step, s.m.conns)
  {
    forall d | d in s.m.conns ensures s.m.conns[d] == ConnAfter(s, step, d) {
      SilentStays(s, step, d);
    }
  }

  lemma RemoteMeets(s: World, step: Step)
    requires Enabled(s, step) && Remote(step) && !Silent(step)
    ensures MeetsConns(s, step, Next(s, step).m.conns)
  {
    match step
    case Breaks(c) => BreakMeets(s, c);
    case Dials(p, c) => DialMeets(s, p, c);
    case Crashes(p) => LeaveMeets(s, p, step);
    case KillsItself(p) => LeaveMeets(s, p, step);
    case Receives(p, killed) => ReceiveMeets(s, p, killed);
    case Announces(_) => SayMeets(s, step);
    case Retires(_) => SayMeets(s, step);
    case Finishes(_, _, _, _) => SayMeets(s, step);
  }

  lemma ManagerMeets(s: World, step: Step)
    requires Enabled(s, step) && !Remote(step) && !Silent(step)
    ensures MeetsConns(s, step, Next(s, step).m.conns)
  {
    match step
    case Sends(w, ok) => SendMeets(s, w, ok);
    case Deletes(id, ok) => DeleteMeets(s, id, ok);
    case Ticks => TickMeets(s);
    case Restarts => RestartMeets(s);
    case CleansUp(c) => CleanupMeets(s, c);
    case Delivers(c) => ReadMeets(s, c);
  }

  /** Every step does to every connection exactly what the reference says. */
  lemma ConnsMeetReference(s: World, step: Step)
    requires Enabled(s, step)
    ensures MeetsConns(s, step, Next(s, step).m.conns)
  {
    if Silent(step) {
      SilentKeeps(s, step);
      SilentMeets(s, step);
    } else if Remote(step) {
      RemoteMeets(s, step);
    } else {
      ManagerMeets(s, step);
    }
  }

  lemma ReadSockets(s: World, c: ConnId)
    requires c in s.m.conns && s.m.conns[c].toManager != []
    ensures ReadMessage(s.m, c).sockets == SocketsAfter(s, Delivers(c))
  {
  }

  /** A name stands for the connection it was last registered on, until the cleanup of a connection that had
      announced it. */
  lemma SocketsMeetReference(s: World, step: Step)
    requires Enabled(s, step)
    ensures Next(s, step).m.sockets == SocketsAfter(s, step)
  {
    if step.Delivers? {
      ReadSockets(s, step.conn);
    }
  }
}
