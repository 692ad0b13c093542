/** What the invariant means for callers, and what holds besides it. */
module Guarantees {
  import opened Types
  import opened Tables
  import opened Connections
  import opened Handlers
  import opened Protocol
  import opened Safety

  // ---- running tasks ----

  /** In every reachable state a running task names a worker with a row and a WebSockets entry, and the
      connection it was last sent on has a reader and still carries it. */
  lemma RunningIsConnected(states: seq<World>, steps: seq<Step>, i: nat, id: TaskId)
    requires IsRun(states, steps) && Initial(states[0]) && i < |states|
    requires id in WithStatus(states[i].m.db.tasks, Running)
    ensures var s := states[i];
            var w := s.m.db.tasks[id].workerName;
            && w in s.m.db.workers && w in s.m.sockets
            && s.m.sockets[w] in s.m.conns && !s.m.conns[s.m.sockets[w]].handled
            && id in s.sentOn && Carried(s, id, s.sentOn[id])
  {
    RunsKeepInv(states, steps);
    assert RunningOk(states[i], id);
  }

  /** Deleting a running task fails only on a write to a broken connection: never for want of a connection. */
  lemma DeleteReachesWorker(s: World, id: TaskId, ok: bool)
    requires Inv(s) && id in s.m.db.tasks && Enabled(s, Deletes(id, ok))
    ensures Next(s, Deletes(id, ok)).m.db.tasks[id].status == Deleted
            <==> ok || s.m.db.tasks[id].status != Running
    ensures !ok ==> s.m.conns[s.m.sockets[s.m.db.tasks[id].workerName]].broken
  {
    if s.m.db.tasks[id].status == Running {
      assert id in WithStatus(s.m.db.tasks, Running) && RunningOk(s, id);
    }
  }

  /** The worker is told to kill a running task that is deleted; for any other status nobody is told. */
  lemma DeleteTellsWorker(s: World, id: TaskId)
    requires Inv(s) && id in s.m.db.tasks && Enabled(s, Deletes(id, true))
    ensures var t, conns := s.m.db.tasks[id], Next(s, Deletes(id, true)).m.conns;
            if t.status == Running
            then t.workerName in s.m.sockets && conns == Push(s.m.conns, s.m.sockets[t.workerName], DeleteTask(t))
            else conns == s.m.conns
  {
    if s.m.db.tasks[id].status == Running {
      assert id in WithStatus(s.m.db.tasks, Running) && RunningOk(s, id);
    }
  }

  /** The tick asks exactly the connected workers that have a row for their status. */
  lemma TickAsksConnected(s: World, c: ConnId)
    requires Inv(s) && c in s.m.conns
    ensures var conn, conn' := s.m.conns[c], Next(s, Ticks).m.conns[c];
            conn' == if !conn.broken && exists w :: w in s.m.db.workers && w in s.m.sockets && s.m.sockets[w] == c
                     then conn.(toWorker := conn.toWorker + [StatusRequest]) else conn
  {
    assert c in Polled(s.m, s.m.db.workers.Keys)
      <==> exists w :: w in s.m.db.workers && w in s.m.sockets && s.m.sockets[w] == c;
  }

  // ---- removing a worker ----

  /** The verify tick frees the tasks of the workers it removes without changing any status. */
  lemma TickKeepsStatuses(s: World)
    requires Inv(s)
    ensures var tasks := Next(s, Ticks).m.db.tasks;
            && tasks.Keys == s.m.db.tasks.Keys
            && forall id | id in tasks ::
                 && tasks[id].status == s.m.db.tasks[id].status
                 && (tasks[id].workerName == s.m.db.tasks[id].workerName
                     || (tasks[id].workerName == "" && s.m.db.tasks[id].workerName !in Next(s, Ticks).m.db.workers))
  {
    forall id | id in s.m.db.tasks && s.m.db.tasks[id].status == Running
      ensures s.m.db.tasks[id].workerName !in Expired(s.m, s.m.db.workers.Keys)
    {
      assert id in WithStatus(s.m.db.tasks, Running) && RunningOk(s, id);
    }
  }

  /** The tick removes exactly the unconnected workers whose countdown is over, and no task keeps their name. */
  lemma TickRemoves(s: World, w: Name)
    requires Inv(s) && w in s.m.db.workers
    ensures w !in Next(s, Ticks).m.db.workers
            <==> w !in s.m.sockets && s.m.db.workers[w].downCount + 1 >= s.m.checkDown
    ensures w !in Next(s, Ticks).m.db.workers
            ==> forall id | id in Next(s, Ticks).m.db.tasks :: Next(s, Ticks).m.db.tasks[id].workerName != w
  {
    assert w in Expired(s.m, s.m.db.workers.Keys) <==> Expires(s.m, w);
  }

  // ---- a reconnect may be undone by the cleanup of the old connection ----

  /** A cleanup closes another connection exactly when that one is now stored under the old one's name. */
  lemma CleanupCloses(s: World, c: ConnId, d: ConnId)
    requires Enabled(s, CleansUp(c)) && d in s.m.conns && !s.m.conns[d].broken
    ensures var name := s.m.conns[c].announced;
            d in Next(s, CleansUp(c)).m.conns
            && (Next(s, CleansUp(c)).m.conns[d].broken
                <==> name.Some? && name.value in s.m.sockets && s.m.sockets[name.value] == d)
  {
  }

  /** p is registered on c under its own name. */
  ghost predicate RegisteredOn(s: World, p: ProcId, c: ConnId) {
    && p in s.procs && s.procs[p].conn == Some(c) && c in s.m.conns
    && !s.m.conns[c].broken && !s.m.conns[c].handled && s.m.conns[c].announced == Some(s.procs[p].name)
    && s.procs[p].name in s.m.sockets && s.m.sockets[s.procs[p].name] == c
  }

  /** p has replaced c by d and queued these messages; the manager has not cleaned up c. */
  ghost predicate Replaced(s: World, p: ProcId, c: ConnId, d: ConnId, queue: seq<ToManager>) {
    && p in s.procs && s.procs[p].conn == Some(d) && c in s.m.conns && d in s.m.conns && c != d
    && s.m.conns[c].broken && !s.m.conns[c].handled && s.m.conns[c].announced == Some(s.procs[p].name)
    && !s.m.conns[d].broken && !s.m.conns[d].handled && s.m.conns[d].toManager == queue
  }

  lemma DialReplaces(s: World, p: ProcId, c: ConnId, d: ConnId) returns (s': World)
    requires Reachable(s) && RegisteredOn(s, p, c) && d !in s.m.conns
    ensures Reachable(s') && Replaced(s', p, c, d, []) && s'.procs[p].name == s.procs[p].name
  {
    s' := AfterDial(s, p, d);
    NextReachable(s, Dials(p, d));
  }

  lemma AnnounceQueues(s: World, p: ProcId, c: ConnId, d: ConnId) returns (s': World)
    requires Reachable(s) && Replaced(s, p, c, d, [])
    ensures Reachable(s') && Replaced(s', p, c, d, [AddWorker(Registration(s.procs[p]))]) && s'.procs == s.procs
  {
    s' := Tell(s, p, AddWorker(Registration(s.procs[p])));
    NextReachable(s, Announces(p));
  }

  lemma DeliverRegisters(s: World, p: ProcId, c: ConnId, d: ConnId) returns (s': World)
    requires Reachable(s) && p in s.procs && Replaced(s, p, c, d, [AddWorker(Registration(s.procs[p]))])
    ensures Reachable(s') && RegisteredOn(s', p, d) && s'.procs == s.procs
    ensures Enabled(s', CleansUp(c)) && s'.m.conns[c].announced == Some(s.procs[p].name)
    ensures s.procs[p].name in s'.m.db.workers
  {
    s' := s.(m := ReadMessage(s.m, d));
    NextReachable(s, Delivers(d));
  }

  /** p replaces c by d, and the manager reads its registration on d. */
  lemma Reconnects(s: World, p: ProcId, c: ConnId, d: ConnId) returns (s': World)
    requires Reachable(s) && RegisteredOn(s, p, c) && d !in s.m.conns
    ensures Reachable(s') && RegisteredOn(s', p, d)
    ensures Enabled(s', CleansUp(c)) && s'.m.conns[c].announced == Some(s.procs[p].name)
    ensures s.procs[p].name in s'.m.db.workers && s'.procs[p].name == s.procs[p].name
  {
    s' := DialReplaces(s, p, c, d);
    s' := AnnounceQueues(s', p, c, d);
    s' := DeliverRegisters(s', p, c, d);
  }

  /** In every state a worker that reconnects before the manager has cleaned up its old connection loses the new
      one, too: the cleanup closes it, forgets the name and marks the row down, while the worker still uses it. */
  lemma ReconnectIsUndone(s: World, p: ProcId, c: ConnId, d: ConnId) returns (s3: World, s4: World)
    requires Reachable(s) && RegisteredOn(s, p, c) && d !in s.m.conns
    ensures Reachable(s3) && RegisteredOn(s3, p, d) && Enabled(s3, CleansUp(c)) && s4 == Next(s3, CleansUp(c))
    ensures p in s4.procs && s4.procs[p].conn == Some(d) && d in s4.m.conns
    ensures s4.m.conns[d].broken && !s4.m.conns[d].handled && s.procs[p].name !in s4.m.sockets
    ensures s.procs[p].name in s4.m.db.workers && !s4.m.db.workers[s.procs[p].name].up
  {
    s3 := Reconnects(s, p, c, d);
    s4 := s3.(m := HandleConnectionError(s3.m, c));
    CleanupCloses(s3, c, d);
  }
}
