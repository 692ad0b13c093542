/** Tasks go to the worker they name: what a worker is asked, executes and reports carries its own name. */
module Addressing {
  import opened Types
  import opened Connections
  import opened Handlers
  import opened WorkerProcesses
  import opened Protocol
  import opened Safety

  predicate AddressedRequest(msg: ToWorker, name: Name) {
    msg.AddTask? ==> msg.task.workerName == name
  }

  predicate AddressedResult(msg: ToManager, name: Name) {
    Settles(msg) ==> msg.task.workerName == name
  }

  predicate AddressedConn(conn: Conn, name: Name) {
    && (forall msg | msg in conn.toWorker :: AddressedRequest(msg, name))
    && (forall msg | msg in conn.toManager :: AddressedResult(msg, name))
  }

  predicate AddressedProc(p: Proc) {
    forall t | t in p.execs :: t.workerName == p.name
  }

  ghost predicate Addressed(s: World) {
    && (forall c | c in s.m.conns && s.m.conns[c].owner in s.procs ::
          AddressedConn(s.m.conns[c], s.procs[s.m.conns[c].owner].name))
    && (forall p | p in s.procs :: AddressedProc(s.procs[p]))
  }

  // ---- what a step may do ----

  /** The connection's queues get neither a request nor a result. */
  predicate ConnKeeps(before: Conn, after: Conn) {
    && after.owner == before.owner
    && (forall msg | msg in after.toWorker && msg.AddTask? :: msg in before.toWorker)
    && (forall msg | msg in after.toManager && Settles(msg) :: msg in before.toManager)
  }

  predicate ConnsKeep(before: Conns, after: Conns) {
    forall c | c in after :: c in before && ConnKeeps(before[c], after[c])
  }

  lemma KeptConns(s: World, conns: Conns)
    requires Addressed(s) && ConnsKeep(s.m.conns, conns)
    ensures Addressed(s.(m := s.m.(conns := conns)))
  {
    forall c | c in conns && conns[c].owner in s.procs
      ensures AddressedConn(conns[c], s.procs[conns[c].owner].name)
    {
      assert ConnKeeps(s.m.conns[c], conns[c]);
      assert AddressedConn(s.m.conns[c], s.procs[s.m.conns[c].owner].name);
    }
  }

  lemma OneConnAddressed(s: World, c: ConnId, conn: Conn)
    requires Addressed(s) && (conn.owner in s.procs ==> AddressedConn(conn, s.procs[conn.owner].name))
    ensures Addressed(s.(m := s.m.(conns := s.m.conns[c := conn])))
  {
  }

  lemma OneProcAddressed(s: World, p: ProcId, proc: Proc)
    requires Addressed(s) && p in s.procs && proc.name == s.procs[p].name && AddressedProc(proc)
    ensures Addressed(s.(procs := s.procs[p := proc]))
  {
  }

  /** Tables, sockets, snapshots and history do not matter. */
  lemma SameCarriers(s: World, s': World)
    requires Addressed(s) && s'.m.conns == s.m.conns && s'.procs == s.procs
    ensures Addressed(s')
  {
  }

  // ---- steps that add nothing ----

  lemma PushKeeps(s: World, c: ConnId, msg: ToWorker)
    requires Addressed(s) && c in s.m.conns
    requires s.m.conns[c].owner in s.procs ==> AddressedRequest(msg, s.procs[s.m.conns[c].owner].name)
    ensures Addressed(s.(m := s.m.(conns := Push(s.m.conns, c, msg))))
  {
    if !s.m.conns[c].broken {
      OneConnAddressed(s, c, s.m.conns[c].(toWorker := s.m.conns[c].toWorker + [msg]));
    }
  }

  lemma ReadAddresses(s: World, c: ConnId)
    requires Addressed(s) && Enabled(s, Delivers(c))
    ensures Addressed(s.(m := ReadMessage(s.m, c)))
  {
    var conns := ReadMessage(s.m, c).conns;
    DeliversConn(s.m, c);
    assert conns[c].toWorker == s.m.conns[c].toWorker && conns[c].owner == s.m.conns[c].owner;
    assert forall msg | msg in s.m.conns[c].toManager[1..] :: msg in s.m.conns[c].toManager;
    OneConnAddressed(s, c, conns[c]);
    SameCarriers(s.(m := s.m.(conns := conns)), s.(m := ReadMessage(s.m, c)));
  }

  lemma TickAddresses(s: World)
    requires Addressed(s)
    ensures Addressed(s.(m := Tick(s.m)))
  {
    KeptConns(s, Tick(s.m).conns);
    SameCarriers(s.(m := s.m.(conns := Tick(s.m).conns)), s.(m := Tick(s.m)));
  }

  lemma RestartAddresses(s: World)
    requires Addressed(s)
    ensures Addressed(Next(s, Restarts))
  {
    KeptConns(s, Start(s.m).conns);
    SameCarriers(s.(m := s.m.(conns := Start(s.m).conns)), s.(m := Start(s.m), batch := [], offers := {}));
  }

  lemma CleanupAddresses(s: World, c: ConnId)
    requires Addressed(s) && c in s.m.conns
    ensures Addressed(s.(m := HandleConnectionError(s.m, c)))
  {
    KeptConns(s, HandleConnectionError(s.m, c).conns);
    SameCarriers(s.(m := s.m.(conns := HandleConnectionError(s.m, c).conns)), s.(m := HandleConnectionError(s.m, c)));
  }

  lemma DeleteAddresses(s: World, id: TaskId, ok: bool)
    requires Addressed(s)
    ensures Addressed(s.(m := HandleTaskDelete(s.m, id, ok)))
  {
    KeptConns(s, HandleTaskDelete(s.m, id, ok).conns);
    SameCarriers(s.(m := s.m.(conns := HandleTaskDelete(s.m, id, ok).conns)), s.(m := HandleTaskDelete(s.m, id, ok)));
  }

  lemma CloseAddresses(s: World, c: ConnId)
    requires Addressed(s)
    ensures Addressed(s.(m := s.m.(conns := Close(s.m.conns, c))))
  {
    if c in s.m.conns {
      OneConnAddressed(s, c, s.m.conns[c].(broken := true));
    }
  }

  lemma DialAddresses(s: World, p: ProcId, c: ConnId)
    requires Addressed(s) && p in s.procs
    ensures Addressed(AfterDial(s, p, c))
  {
    var s1 := s.(m := s.m.(conns := BreakOf(s.m.conns, s.procs[p].conn)));
    if s.procs[p].conn.Some? {
      CloseAddresses(s, s.procs[p].conn.value);
    }
    OneConnAddressed(s1, c, Conn(p, None, [], [], false, false));
    OneProcAddressed(s1.(m := s1.m.(conns := s1.m.conns[c := Conn(p, None, [], [], false, false)])), p,
                     s.procs[p].(conn := Some(c)));
  }

  lemma CrashAddresses(s: World, p: ProcId)
    requires Addressed(s) && p in s.procs
    ensures Addressed(AfterCrash(s, p))
  {
    if s.procs[p].conn.Some? {
      CloseAddresses(s, s.procs[p].conn.value);
    }
    OneProcAddressed(s.(m := s.m.(conns := BreakOf(s.m.conns, s.procs[p].conn))), p, Ended(s.procs[p]));
  }

  // ---- steps that pass a task on ----

  /** A send writes the name the connection has announced, and that is its owner's. */
  lemma SendAddresses(s: World, w: Name, ok: bool)
    requires Inv(s) && Addressed(s) && Enabled(s, Sends(w, ok))
    ensures Addressed(AfterSend(s, w, ok))
  {
    var m := SendAddTask(s.m, w, s.batch[0], ok);
    if w in s.m.db.workers && w in s.m.sockets && ok {
      assert ConnOk(s, s.m.sockets[w]);
      PushKeeps(s, s.m.sockets[w], AddTask(s.batch[0].(workerName := w)));
    }
    SameCarriers(s.(m := s.m.(conns := m.conns)), AfterSend(s, w, ok));
  }

  lemma TellAddresses(s: World, p: ProcId, msg: ToManager)
    requires Inv(s) && Addressed(s) && Connected(s, p) && AddressedResult(msg, s.procs[p].name)
    ensures Addressed(Tell(s, p, msg))
  {
    var c := s.procs[p].conn.value;
    if !s.m.conns[c].broken {
      OneConnAddressed(s, c, s.m.conns[c].(toManager := s.m.conns[c].toManager + [msg]));
    }
  }

  lemma ReceivedAddressed(conn: Conn, p: Proc, killed: bool)
    requires conn.toWorker != [] && AddressedConn(conn, p.name) && AddressedProc(p)
    ensures var msg := conn.toWorker[0];
            var response := Response(p, msg, killed);
            && AddressedProc(AfterMessage(p, msg))
            && AddressedConn(conn.(
                 toWorker := conn.toWorker[1..],
                 toManager := if response.Some? && !conn.broken
                              then conn.toManager + [response.value] else conn.toManager), p.name)
  {
    assert conn.toWorker[0] in conn.toWorker && AddressedRequest(conn.toWorker[0], p.name);
    assert forall x | x in conn.toWorker[1..] :: x in conn.toWorker;
  }

  lemma ReceiveAddresses(s: World, p: ProcId, killed: bool)
    requires Inv(s) && Addressed(s) && Enabled(s, Receives(p, killed))
    ensures Addressed(AfterReceive(s, p, killed))
  {
    var c := s.procs[p].conn.value;
    var conn := AfterReceive(s, p, killed).m.conns[c];
    assert ConnOk(s, c);
    ReceivesShape(s, p, c, killed);
    ReceivedAddressed(s.m.conns[c], s.procs[p], killed);
    OneConnAddressed(s, c, conn);
    OneProcAddressed(s.(m := s.m.(conns := s.m.conns[c := conn])), p, AfterMessage(s.procs[p], Request(s, p)));
  }

  lemma FinishAddresses(s: World, p: ProcId, t: Task, result: Details, status: Status)
    requires Inv(s) && Addressed(s) && Connected(s, p) && t in s.procs[p].execs
    ensures Addressed(AfterFinish(s, p, t, result, status))
  {
    var msg, proc := Callback(t.(details := result, status := status)), s.procs[p];
    TellAddresses(s, p, msg);
    assert forall x | x in proc.execs - multiset{t} :: x in proc.execs;
    OneProcAddressed(Tell(s, p, msg), p, proc.(execs := proc.execs - multiset{t}));
  }

  // ---- every step ----

  lemma RemoteAddresses(s: World, step: Step)
    requires Inv(s) && Addressed(s) && Enabled(s, step) && Remote(step)
    ensures Addressed(Next(s, step))
  {
    match step
    case Breaks(c) => CloseAddresses(s, c);
    case Dials(p, c) => DialAddresses(s, p, c);
    case Announces(p) => TellAddresses(s, p, AddWorker(Registration(s.procs[p])));
    case Retires(p) => TellAddresses(s, p, DeleteWorker(Retirement(s.procs[p])));
    case Crashes(p) => CrashAddresses(s, p);
    case KillsItself(p) => CrashAddresses(s, p);
    case Receives(p, killed) => ReceiveAddresses(s, p, killed);
    case Registers(p, id, pid) => OneProcAddressed(s, p, s.procs[p].(working := s.procs[p].working[id := pid]));
    case Unregisters(p, id) => OneProcAddressed(s, p, s.procs[p].(working := s.procs[p].working - {id}));
    case Finishes(p, t, result, status) => FinishAddresses(s, p, t, result, status);
  }

  lemma ManagerAddresses(s: World, step: Step)
    requires Inv(s) && Addressed(s) && Enabled(s, step) && !Remote(step)
    ensures Addressed(Next(s, step))
  {
    if step.Sends? {
      SendAddresses(s, step.name, step.ok);
    } else if step.Delivers? {
      ReadAddresses(s, step.conn);
    } else if step.Ticks? {
      TickAddresses(s);
    } else if step.Restarts? {
      RestartAddresses(s);
    } else if step.CleansUp? {
      CleanupAddresses(s, step.conn);
    } else if step.Deletes? {
      DeleteAddresses(s, step.id, step.ok);
    } else {
      SameCarriers(s, Next(s, step));
    }
  }

  lemma StepAddresses(s: World, step: Step)
    requires Inv(s) && Addressed(s) && Enabled(s, step)
    ensures Addressed(Next(s, step))
  {
    if Remote(step) {
      RemoteAddresses(s, step);
    } else {
      ManagerAddresses(s, step);
    }
  }

  lemma AddressedNext(states: seq<World>, steps: seq<Step>, i: nat)
    requires IsRun(states, steps) && i < |steps| && Inv(states[i]) && Addressed(states[i])
    ensures Inv(states[i + 1]) && Addressed(states[i + 1])
  {
    StepKeepsInv(states[i], steps[i]);
    StepAddresses(states[i], steps[i]);
  }

  lemma {:induction false} AddressedAlong(states: seq<World>, steps: seq<Step>, k: nat)
    requires IsRun(states, steps) && Inv(states[0]) && Addressed(states[0]) && k <= |steps|
    ensures Inv(states[k]) && Addressed(states[k])
  {
    if k > 0 {
      AddressedAlong(states, steps, k - 1);
      AddressedNext(states, steps, k - 1);
    }
  }

  /** In every reachable state a worker executes only tasks that carry its name, whatever connections they came
      over, and every result on its way carries the name of the worker that produced it. */
  lemma ExecutesItsOwn(states: seq<World>, steps: seq<Step>, k: nat)
    requires IsRun(states, steps) && Initial(states[0]) && k <= |steps|
    ensures forall p | p in states[k].procs ::
              forall t | t in states[k].procs[p].execs :: t.workerName == states[k].procs[p].name != ""
    ensures forall c | c in states[k].m.conns :: forall msg | msg in states[k].m.conns[c].toManager ::
              && states[k].m.conns[c].owner in states[k].procs
              && AddressedResult(msg, states[k].procs[states[k].m.conns[c].owner].name)
  {
    AddressedAlong(states, steps, k);
    assert forall c | c in states[k].m.conns :: ConnOk(states[k], c);
  }
}
