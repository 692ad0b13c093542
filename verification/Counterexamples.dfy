/** What the system does not guarantee, each shown by a run from a start of the manager. */
module Counterexamples {
  import opened Types
  import opened Tables
  import opened Connections
  import opened Handlers
  import opened TaskDatabase
  import opened WorkerProcesses
  import opened Protocol
  import opened OneWorker
  import opened Stranding

  lemma FetchesOne(tasks: Tasks, t: Task)
    requires t.id in tasks && tasks[t.id] == t && WithStatus(tasks, Pending) == {t.id}
    ensures PendingPrefix(tasks, 1, [t])
  {
    assert t in [t] && Ids([t]) == {t.id};
    assert t.status == Pending by {
      assert t.id in WithStatus(tasks, Pending);
    }
  }

  /** t is the only pending task and the scheduler has just fetched it; execs are left over from earlier. */
  lemma Fetched(t: Task, execs: multiset<Task>) returns (x: Solo)
    requires t.status == Pending && forall e | e in execs :: e.workerName == W
    ensures Reachable(Full(x)) && x == AfterFetch(OneWorker.Registered(map[t.id := t], execs), [t])
  {
    var start := OneWorker.Registered(map[t.id := t], execs);
    Starts(map[t.id := t], execs);
    assert WithStatus(start.tasks, Pending) == {t.id};
    FetchesOne(start.tasks, t);
    x := AfterFetch(start, [t]);
    FetchReaches(start, 1, [t]);
  }

  // ---- `deleted` and `done` are not final ----

  /** The user deletes t between the scheduler's fetch and its send: the deleted task runs. */
  lemma DeletedTaskRuns(t: Task) returns (s: World)
    requires t.status == Pending && t.workerName == ""
    ensures Reachable(s) && Enabled(s, Sends(W, true))
    ensures t.id in WithStatus(s.m.db.tasks, Deleted)
    ensures t.id in WithStatus(Next(s, Sends(W, true)).m.db.tasks, Running)
  {
    var x := Fetched(t, multiset{});
    var y := AfterDeletion(x, t.id);
    DeleteReaches(x, t.id);
    SendLeads(y);
    s := Full(y);
  }

  /** The row of w was removed and the manager restarted while w was executing t; the execution ends after the
      scheduler has fetched t again. */
  lemma DoneAfterFetch(t: Task) returns (x: Solo)
    requires t.status == Pending
    ensures Reachable(Full(x)) && x.tasks == map[t.id := t.(workerName := W, status := Done)]
    ensures x.batch == [t] && x.offers == {W} && x.toWorker == [] && x.working == map[]
  {
    var t' := t.(workerName := W);
    var x0 := Fetched(t, multiset{t'});
    var x1 := AfterEnd(x0, t', Done);
    FinishReaches(x0, t', Done);
    x := AfterDelivery(x1);
    DeliverReaches(x1);
  }

  /** That execution was done between fetch and send: the done task runs, and its worker executes it again. */
  lemma DoneTaskRunsAgain(t: Task) returns (s: World, s': World)
    requires t.status == Pending && t.workerName == ""
    ensures Reachable(s) && Enabled(s, Sends(W, true)) && s' == Next(s, Sends(W, true))
    ensures t.id in WithStatus(s.m.db.tasks, Done) && t.id in WithStatus(s'.m.db.tasks, Running)
    ensures Enabled(s', Receives(0, true)) && 0 in Next(s', Receives(0, true)).procs
    ensures t.id in ExecIds(Next(s', Receives(0, true)).procs[0].execs)
  {
    var x := DoneAfterFetch(t);
    var y := AfterOffer(x);
    SendLeads(x);
    ReceiveLeads(y, true);
    assert y.toWorker[0] == AddTask(t.(workerName := W));
    ExecIdsAdd(y.execs, t.(workerName := W));
    s, s' := Full(x), Full(y);
  }

  lemma Accepts(x: Solo, t: Task)
    requires Reachable(Full(x)) && x.toWorker == [AddTask(t)] && x.toManager == [] && x.working == map[]
    ensures Reachable(Full(x.(toWorker := [], toManager := [OkAddTask(t.(status := Running))],
                              execs := x.execs + multiset{t})))
  {
    ReceiveReaches(x, true);
    assert AfterRead(x, true) == x.(toWorker := [], toManager := [OkAddTask(t.(status := Running))],
                                       execs := x.execs + multiset{t});
  }

  /** The first request for t is on its way to w. */
  lemma Sent(t: Task) returns (x: Solo)
    requires t.status == Pending && t.workerName == ""
    ensures var t' := t.(workerName := W);
            && Reachable(Full(x)) && x.tasks == map[t.id := t'.(status := Running)]
            && x.execs == multiset{} && x.working == map[] && x.toWorker == [AddTask(t')] && x.toManager == []
  {
    var y := Fetched(t, multiset{});
    x := AfterOffer(y);
    SendReaches(y);
  }

  /** t is executing on w, which has answered nothing but OK. */
  lemma Executing(t: Task) returns (x: Solo)
    requires t.status == Pending && t.workerName == ""
    ensures var t' := t.(workerName := W);
            && Reachable(Full(x)) && x.tasks == map[t.id := t'.(status := Running)]
            && x.execs == multiset{t'} && x.working == map[]
            && x.toWorker == [] && x.toManager == [OkAddTask(t'.(status := Running))]
  {
    var t' := t.(workerName := W);
    var y := Sent(t);
    Accepts(y, t');
    x := y.(toWorker := [], toManager := [OkAddTask(t'.(status := Running))], execs := y.execs + multiset{t'});
  }

  /** The command of t runs with process id 1 and t has been deleted. */
  lemma DeletedWhileRunning(t: Task) returns (x: Solo)
    requires t.status == Pending && t.workerName == ""
    ensures var t' := t.(workerName := W);
            && Reachable(Full(x)) && x.tasks.Keys == {t.id} && x.tasks[t.id].status == Deleted
            && x.execs == multiset{t'} && x.working == map[t.id := 1]
            && x.toWorker == [DeleteTask(t'.(status := Running))]
            && x.toManager == [OkAddTask(t'.(status := Running))]
  {
    var x0 := Executing(t);
    var x1 := x0.(working := x0.working[t.id := 1]);
    assert t.(workerName := W) in x0.execs;
    RegisterReaches(x0, t.id, 1);
    x := AfterDeletion(x1, t.id);
    DeleteReaches(x1, t.id);
  }

  /** The command has been killed and the execution has failed: the callback is on its way. */
  lemma FailedByKill(t: Task) returns (x: Solo)
    requires t.status == Pending && t.workerName == ""
    ensures Reachable(Full(x)) && x.tasks.Keys == {t.id} && x.tasks[t.id].status == Deleted
    ensures x.toManager == [OkAddTask(t.(workerName := W, status := Running)),
                            OkDeleteTask(t.(workerName := W, status := Running)),
                            Callback(t.(workerName := W, status := Failed))]
  {
    var x0 := DeletedWhileRunning(t);
    var x1 := AfterRead(x0, true);
    ReceiveReaches(x0, true);
    var x2 := x1.(working := x1.working - {t.id});
    UnregisterReaches(x1, t.id);
    x := AfterEnd(x2, t.(workerName := W), Failed);
    FinishReaches(x2, t.(workerName := W), Failed);
  }

  /** The ordinary case: deleting a running task kills its command, and the failure this causes overwrites the
      row's `deleted`. */
  lemma DeletedTaskFails(t: Task) returns (s: World)
    requires t.status == Pending && t.workerName == ""
    ensures Reachable(s) && Enabled(s, Delivers(0))
    ensures t.id in WithStatus(s.m.db.tasks, Deleted)
    ensures t.id in WithStatus(Next(s, Delivers(0)).m.db.tasks, Failed)
  {
    var x0 := FailedByKill(t);
    var x1 := AfterDelivery(x0);
    DeliverReaches(x0);
    var x2 := AfterDelivery(x1);
    DeliverReaches(x1);
    DeliverLeads(x2);
    s := Full(x2);
  }

  // ---- WorkingIDs has no bound ----

  /** n tasks are executing on a worker of one thread, none has registered its id yet, and the manager believes
      that the thread is idle. */
  ghost predicate Crowded(x: Solo, n: nat) {
    && x.toWorker == [] && x.toManager == [] && x.iddle == 1 && x.working == map[]
    && |ExecIds(x.execs)| == n && ExecIds(x.execs) <= x.used && WithStatus(x.tasks, Pending) == {}
    && x.tasks.Keys <= x.used && (forall id | id in x.used :: |id| < n)
    && forall id | id in ExecIds(x.execs) ::
         id in x.tasks && x.tasks[id].status == Running && x.tasks[id].workerName == W
  }

  function Request(n: nat): Task {
    Task(seq(n, _ => 'x'), Details("", [], [], "", 0.0, 0, "", ""), Pending, "", "", 0, 0)
  }

  lemma OneMorePosted(x: Solo, n: nat)
    requires Reachable(Full(x)) && Crowded(x, n)
    ensures Reachable(Full(AfterRequest(x, Request(n))))
    ensures WithStatus(AfterRequest(x, Request(n)).tasks, Pending) == {Request(n).id}
    ensures Request(n).id !in x.used
  {
    assert |Request(n).id| == n;
    PostReaches(x, Request(n));
  }

  lemma OneMoreSent(x: Solo, t: Task) returns (y: Solo)
    requires Reachable(Full(x)) && x.toWorker == [] && x.iddle == 1 && t.workerName == ""
    requires t.id in x.tasks && x.tasks[t.id] == t && WithStatus(x.tasks, Pending) == {t.id}
    ensures Reachable(Full(y)) && y.tasks == x.tasks[t.id := t.(workerName := W, status := Running)]
    ensures y.toWorker == [AddTask(t.(workerName := W))] && y.toManager == x.toManager
    ensures y.execs == x.execs && y.working == x.working && y.used == x.used
  {
    FetchesOne(x.tasks, t);
    FetchReaches(x, 1, [t]);
    y := AfterOffer(AfterFetch(x, [t]));
    SendReaches(AfterFetch(x, [t]));
  }

  lemma PollAnswered(x: Solo)
    requires x.toWorker == []
    ensures AfterPoll(x).toWorker == [StatusRequest]
    ensures AfterRead(AfterPoll(x), true) == x.(toManager := x.toManager + [StatusReply(W, 1 - |x.working|)])
  {
  }

  /** The next tick asks w for its status. */
  lemma Polls(x: Solo)
    requires Reachable(Full(x)) && x.toWorker == []
    ensures Reachable(Full(x.(toManager := x.toManager + [StatusReply(W, 1 - |x.working|)])))
  {
    TickReaches(x);
    PollAnswered(x);
    ReceiveReaches(AfterPoll(x), true);
  }

  /** The manager learns that the thread is idle: no id is registered. */
  lemma Reports(x: Solo) returns (y: Solo)
    requires Reachable(Full(x)) && x.toWorker == [] && |x.toManager| == 1 && x.toManager[0].OkAddTask?
    ensures y == x.(toManager := [], iddle := 1 - |x.working|) && Reachable(Full(y))
  {
    Polls(x);
    var x1 := x.(toManager := x.toManager + [StatusReply(W, 1 - |x.working|)]);
    var x2 := AfterDelivery(x1);
    DeliverReaches(x1);
    assert x2 == x.(toManager := [StatusReply(W, 1 - |x.working|)]);
    y := AfterDelivery(x2);
    DeliverReaches(x2);
  }

  lemma OneMoreExecutes(x: Solo, t: Task) returns (y: Solo)
    requires Reachable(Full(x)) && x.toWorker == [] && x.toManager == [] && x.working == map[] && x.iddle == 1
    requires t.id in x.tasks && x.tasks[t.id] == t && WithStatus(x.tasks, Pending) == {t.id} && t.workerName == ""
    ensures var t' := t.(workerName := W);
            && Reachable(Full(y)) && y.tasks == x.tasks[t.id := t'.(status := Running)]
            && y.execs == x.execs + multiset{t'} && y.working == map[] && y.used == x.used
            && y.toWorker == [] && y.toManager == [OkAddTask(t'.(status := Running))]
  {
    var x1 := OneMoreSent(x, t);
    var t' := t.(workerName := W);
    Accepts(x1, t');
    y := x1.(toWorker := [], toManager := [OkAddTask(t'.(status := Running))], execs := x1.execs + multiset{t'});
  }

  lemma StaysCrowded(x: Solo, y: Solo, n: nat)
    requires Crowded(x, n)
    requires var t := Request(n).(workerName := W);
             && y.tasks == x.tasks[t.id := t.(status := Running)]
             && y.execs == x.execs + multiset{t} && y.working == map[] && y.used == x.used + {t.id}
    requires y.toWorker == [] && y.toManager == [] && y.iddle == 1
    ensures Crowded(y, n + 1)
  {
    var id := Request(n).id;
    assert |id| == n;
    ExecIdsAdd(x.execs, Request(n).(workerName := W));
    assert ExecIds(y.execs) == ExecIds(x.execs) + {id} && id !in x.used;
    assert WithStatus(y.tasks, Pending) == {};
  }

  lemma OneMoreReported(x: Solo, t: Task) returns (y: Solo)
    requires Reachable(Full(x)) && x.toWorker == [] && x.toManager == [] && x.working == map[] && x.iddle == 1
    requires t.id in x.tasks && x.tasks[t.id] == t && WithStatus(x.tasks, Pending) == {t.id} && t.workerName == ""
    ensures var t' := t.(workerName := W);
            && Reachable(Full(y)) && y.tasks == x.tasks[t.id := t'.(status := Running)]
            && y.execs == x.execs + multiset{t'} && y.working == map[] && y.used == x.used
            && y.toWorker == [] && y.toManager == [] && y.iddle == 1
  {
    var x1 := OneMoreExecutes(x, t);
    y := Reports(x1);
  }

  lemma OneMore(x: Solo, n: nat) returns (y: Solo)
    requires Reachable(Full(x)) && Crowded(x, n)
    ensures Reachable(Full(y)) && Crowded(y, n + 1)
  {
    OneMorePosted(x, n);
    y := OneMoreReported(AfterRequest(x, Request(n)), Request(n));
    StaysCrowded(x, y, n);
  }

  lemma {:induction false} Crowds(n: nat) returns (x: Solo)
    ensures Reachable(Full(x)) && Crowded(x, n)
  {
    if n == 0 {
      x := OneWorker.Registered(map[], multiset{});
      Starts(map[], multiset{});
    } else {
      x := Crowds(n - 1);
      x := OneMore(x, n - 1);
    }
  }

  function Starting(ids: set<TaskId>): map<TaskId, int> {
    map id | id in ids :: STARTING
  }

  lemma {:induction false} AllRegister(x: Solo, ids: set<TaskId>)
    requires Reachable(Full(x)) && x.working == map[] && ids <= ExecIds(x.execs)
    ensures Reachable(Full(x.(working := Starting(ids))))
  {
    if ids == {} {
      assert x.(working := Starting(ids)) == x;
    } else {
      var id :| id in ids;
      AllRegister(x, ids - {id});
      RegisterReaches(x.(working := Starting(ids - {id})), id, STARTING);
      assert Starting(ids - {id})[id := STARTING] == Starting(ids);
    }
  }

  lemma StatusSent(x: Solo) returns (s: World)
    requires Reachable(Full(x)) && StatusReply(W, 1 - |x.working|) in x.toManager
    ensures Reachable(s) && 0 in s.procs && s.procs[0].threads == 1 && s.procs[0].working == x.working
    ensures 0 in s.m.conns && StatusReply(W, 1 - |x.working|) in s.m.conns[0].toManager
  {
    s := Full(x);
  }

  lemma AllRegistered(n: nat) returns (x: Solo)
    ensures Reachable(Full(x)) && |x.working| == n && x.toWorker == [] && x.toManager == []
  {
    var y := Crowds(n);
    AllRegister(y, ExecIds(y.execs));
    x := y.(working := Starting(ExecIds(y.execs)));
    assert x.working.Keys == ExecIds(y.execs) && |x.working| == |x.working.Keys|;
  }

  lemma AllReported(n: nat) returns (x: Solo)
    ensures Reachable(Full(x)) && |x.working| == n && StatusReply(W, 1 - n) in x.toManager
  {
    var y := AllRegistered(n);
    Polls(y);
    x := y.(toManager := y.toManager + [StatusReply(W, 1 - |y.working|)]);
  }

  /** For every n a worker of one thread can count n ids as working, and report 1 - n idle threads. */
  lemma ThreadsAreNoBound(n: nat) returns (s: World)
    ensures Reachable(s) && 0 in s.procs && s.procs[0].threads == 1 && |s.procs[0].working| == n
    ensures 0 in s.m.conns && StatusReply(W, 1 - n) in s.m.conns[0].toManager
  {
    var x := AllReported(n);
    s := StatusSent(x);
  }

  // ---- a deletion may end every execution ----

  /** For every n > 0 a worker with n executions loses all of them to the deletion of one task, because no command
      of that task is running at the moment. */
  lemma DeletionEndsAll(n: nat) returns (s: World, id: TaskId)
    requires n > 0
    ensures Reachable(s) && id in WithStatus(s.m.db.tasks, Running)
    ensures 0 in s.procs && |ExecIds(s.procs[0].execs)| == n && id in ExecIds(s.procs[0].execs)
    ensures Enabled(s, Deletes(id, true))
    ensures var s1 := Next(s, Deletes(id, true));
            Enabled(s1, KillsItself(0)) && Next(s1, KillsItself(0)).procs == map[0 := Ended(s.procs[0])]
  {
    var x := Crowds(n);
    id :| id in ExecIds(x.execs);
    DeleteLeads(x, id);
    s := Full(x);
  }

  // ---- a pending task may be stranded ----

  lemma FetchesFirst(t: Task, u: Task)
    requires t.id != u.id && t.status == Pending && u.status == Pending && Before(t, u)
    ensures PendingPrefix(map[t.id := t, u.id := u], 1, [t])
  {
    assert t in [t] && Ids([t]) == {t.id};
    assert WithStatus(map[t.id := t, u.id := u], Pending) == {t.id, u.id};
  }

  /** w is still executing t and u for an earlier manager when the scheduler fetches t. */
  lemma FetchedAgain(t: Task, u: Task) returns (x: Solo)
    requires t.id != u.id && t.status == Pending && u.status == Pending && Before(t, u)
    ensures Reachable(Full(x)) && x.tasks == map[t.id := t, u.id := u]
    ensures x.execs == multiset{t.(workerName := W), u.(workerName := W)} && x.working == map[]
    ensures x.toWorker == [] && x.toManager == [] && x.batch == [t] && x.offers == {W}
  {
    var rows, execs := map[t.id := t, u.id := u], multiset{t.(workerName := W), u.(workerName := W)};
    var x0 := OneWorker.Registered(rows, execs);
    Starts(rows, execs);
    FetchesFirst(t, u);
    x := AfterFetch(x0, [t]);
    FetchReaches(x0, 1, [t]);
  }

  lemma SentTwice(t: Task, u: Task) returns (x: Solo)
    requires t.id != u.id && t.status == Pending && u.status == Pending && Before(t, u) && t.workerName == ""
    ensures var t', u' := t.(workerName := W), u.(workerName := W);
            && Reachable(Full(x)) && x.tasks == map[t.id := t'.(status := Running), u.id := u]
            && x.execs == multiset{t', u'} && x.working == map[]
            && x.toWorker == [AddTask(t')] && x.toManager == []
  {
    var x0 := FetchedAgain(t, u);
    x := AfterOffer(x0);
    SendReaches(x0);
  }

  /** The first execution of t ends; the second request is refused, because a command of u is running. */
  lemma DoneThenRefused(t: Task, u: Task) returns (x: Solo)
    requires t.id != u.id && t.status == Pending && u.status == Pending && Before(t, u) && t.workerName == ""
    ensures var t' := t.(workerName := W);
            && Reachable(Full(x)) && x.tasks == map[t.id := t'.(status := Running), u.id := u]
            && x.toManager == [Callback(t'.(status := Done)), FailedAddTask(t')]
  {
    var t' := t.(workerName := W);
    var x0 := SentTwice(t, u);
    assert u.(workerName := W) in x0.execs && t' in x0.execs;
    var x1 := x0.(working := x0.working[u.id := 1]);
    RegisterReaches(x0, u.id, 1);
    var x2 := AfterEnd(x1, t', Done);
    FinishReaches(x1, t', Done);
    x := AfterRead(x2, true);
    ReceiveReaches(x2, true);
  }

  lemma RowRemoved(t: Task, u: Task) returns (s: World)
    requires t.id != u.id && t.status == Pending && u.status == Pending && Before(t, u)
    requires t.workerName == "" && u.workerName == ""
    ensures var t' := t.(workerName := W);
            && Reachable(s) && s.m.db == Db(map[t.id := t, u.id := u], map[])
            && 0 in s.m.conns && !s.m.conns[0].handled
            && s.m.conns[0].toManager == [Callback(t'.(status := Done)), FailedAddTask(t')]
  {
    var x := DoneThenRefused(t, u);
    s := Full(x).(m := Full(x).m.(db := RmWorkerName(Full(x).m.db, W)));
    NextReachable(Full(x), RemovesRow(W));
    assert s.m.db.workers == map[] && s.m.db.tasks == map[t.id := t, u.id := u];
  }

  /** The row of w has been removed, and the result writes its name back. */
  lemma NameWrittenBack(t: Task, u: Task) returns (s: World)
    requires t.id != u.id && t.status == Pending && u.status == Pending && Before(t, u)
    requires t.workerName == "" && u.workerName == ""
    ensures var t' := t.(workerName := W);
            && Reachable(s) && s.m.db == Db(map[t.id := t'.(status := Done), u.id := u], map[])
            && 0 in s.m.conns && !s.m.conns[0].handled && s.m.conns[0].toManager == [FailedAddTask(t')]
  {
    var s0 := RowRemoved(t, u);
    s := s0.(m := ReadMessage(s0.m, 0));
    NextReachable(s0, Delivers(0));
  }

  /** The refusal then leaves t pending for a worker that has no row. */
  lemma TaskStranded(t: Task, u: Task) returns (s: World)
    requires t.id != u.id && t.status == Pending && u.status == Pending && Before(t, u)
    requires t.workerName == "" && u.workerName == ""
    ensures Reachable(s) && NoneStranded(s) && Enabled(s, Delivers(0))
    ensures var db := Next(s, Delivers(0)).m.db; Stranded(db.tasks, db.workers, t.id)
  {
    s := NameWrittenBack(t, u);
  }
}
