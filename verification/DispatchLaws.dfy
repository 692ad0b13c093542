/** What a round that nobody disturbs achieves: the idle-thread ledger and the order of dispatch. */
module DispatchLaws {
  import opened Types
  import opened Tables
  import opened Sums
  import opened Handlers
  import opened TaskDatabase
  import opened Protocol
  import opened Dispatch

  // ---- the idle-thread ledger ----

  function Attempts(log: seq<seq<Attempt>>): nat {
    if log == [] then 0 else Attempts(log[..|log| - 1]) + |log[|log| - 1]|
  }

  function AttemptsOn(log: seq<seq<Attempt>>, n: Name): nat {
    if log == [] then 0
    else AttemptsOn(log[..|log| - 1], n)
         + (if log[|log| - 1] != [] && log[|log| - 1][0].worker == n then 1 else 0)
  }

  function Iddle(workers: Workers): map<Name, int> {
    map n | n in workers :: workers[n].iddleThreads
  }

  /** Each row pays for exactly the attempts on its worker, and never more than it has. */
  lemma {:induction false} LedgerPerWorker(turns: seq<Mgr>, tasks: seq<Task>, log: seq<seq<Attempt>>, k: nat)
    requires Turns(turns, tasks, log) && k <= |log|
    ensures var rows, rows' := turns[0].db.workers, turns[k].db.workers;
            && rows'.Keys == rows.Keys
            && forall n | n in rows ::
                 && rows'[n] == rows[n].(iddleThreads := rows[n].iddleThreads - AttemptsOn(log[..k], n))
                 && (AttemptsOn(log[..k], n) > 0 ==> rows'[n].iddleThreads >= 0)
  {
    if k > 0 {
      LedgerPerWorker(turns, tasks, log, k - 1);
      assert log[..k][..k - 1] == log[..k - 1];
      assert Turn(turns[k - 1], tasks[k - 1], log[k - 1], turns[k]);
    }
  }

  lemma TurnTotal(m: Mgr, t: Task, attempts: seq<Attempt>, m': Mgr)
    requires Turn(m, t, attempts, m')
    ensures Total(Iddle(m.db.workers)) - Total(Iddle(m'.db.workers)) == |attempts|
  {
    if attempts != [] {
      var w := attempts[0].worker;
      TotalUpdate(Iddle(m.db.workers), w, m.db.workers[w].iddleThreads - 1);
      assert Iddle(m'.db.workers) == Iddle(m.db.workers)[w := m.db.workers[w].iddleThreads - 1];
    }
  }

  /** Total idle threads before minus after is the number of sendAddTask calls. */
  lemma {:induction false} LedgerTotal(turns: seq<Mgr>, tasks: seq<Task>, log: seq<seq<Attempt>>, k: nat)
    requires Turns(turns, tasks, log) && k <= |log|
    ensures Total(Iddle(turns[0].db.workers)) - Total(Iddle(turns[k].db.workers)) == Attempts(log[..k])
  {
    if k > 0 {
      LedgerTotal(turns, tasks, log, k - 1);
      assert log[..k][..k - 1] == log[..k - 1];
      TurnTotal(turns[k - 1], tasks[k - 1], log[k - 1], turns[k]);
    }
  }

  /** There are never more calls than max(1, DefaultThreads of all workers that are up). */
  lemma AttemptsBounded(turns: seq<Mgr>, tasks: seq<Task>, log: seq<seq<Attempt>>)
    requires Round(turns, tasks, log)
    ensures var rows := turns[0].db.workers;
            var threads := Total(map n | n in rows && rows[n].up :: rows[n].defaultThreads);
            Attempts(log) <= if threads > 1 then threads else 1
  {
    forall i | 0 <= i < |log| ensures |log[i]| <= 1 {
      assert Turn(turns[i], tasks[i], log[i], turns[i + 1]);
    }
    OneEach(log);
  }

  lemma {:induction false} OneEach(log: seq<seq<Attempt>>)
    requires forall i | 0 <= i < |log| :: |log[i]| <= 1
    ensures Attempts(log) <= |log|
  {
    if log != [] {
      OneEach(log[..|log| - 1]);
    }
  }

  // ---- the task table after a round ----

  predicate Dispatched(attempts: seq<Attempt>) {
    attempts != [] && attempts[0].err == None
  }

  /** The task table after k turns: the dispatched rows are running on their workers. */
  function Marked(rows: Tasks, tasks: seq<Task>, log: seq<seq<Attempt>>, k: nat): Tasks
    requires k <= |log| <= |tasks|
  {
    if k == 0 then rows
    else if Dispatched(log[k - 1])
    then Marked(rows, tasks, log, k - 1)[
           tasks[k - 1].id := tasks[k - 1].(status := Running, workerName := log[k - 1][0].worker)]
    else Marked(rows, tasks, log, k - 1)
  }

  /** A row is as before or running, and it is running as a task that was dispatched. */
  lemma {:induction false} MarkedAt(rows: Tasks, tasks: seq<Task>, log: seq<seq<Attempt>>, k: nat, id: TaskId)
    requires k <= |log| <= |tasks| && id in rows
    ensures var rows' := Marked(rows, tasks, log, k);
            && id in rows'
            && (rows'[id] == rows[id] || rows'[id].status == Running)
            && ((forall i | 0 <= i < k :: tasks[i].id != id) ==> rows'[id] == rows[id])
            && (forall i | 0 <= i < k && Dispatched(log[i]) && tasks[i].id == id :: rows'[id].status == Running)
  {
    if k > 0 {
      MarkedAt(rows, tasks, log, k - 1, id);
    }
  }

  lemma TurnRows(m: Mgr, t: Task, attempts: seq<Attempt>, m': Mgr)
    requires Turn(m, t, attempts, m') && t.id in m.db.tasks && m.db.tasks[t.id] == t
    ensures m'.db.tasks == if Dispatched(attempts)
                           then m.db.tasks[t.id := t.(status := Running, workerName := attempts[0].worker)]
                           else m.db.tasks
  {
  }

  lemma {:induction false} RoundRows(turns: seq<Mgr>, tasks: seq<Task>, log: seq<seq<Attempt>>, k: nat)
    requires Turns(turns, tasks, log) && k <= |log| && DistinctIds(tasks)
    requires forall t | t in tasks :: t.id in turns[0].db.tasks && turns[0].db.tasks[t.id] == t
    ensures turns[k].db.tasks == Marked(turns[0].db.tasks, tasks, log, k)
  {
    if k > 0 {
      var t := tasks[k - 1];
      assert t in tasks;
      RoundRows(turns, tasks, log, k - 1);
      MarkedAt(turns[0].db.tasks, tasks, log, k - 1, t.id);
      TurnRows(turns[k - 1], t, log[k - 1], turns[k]);
    }
  }

  lemma {:induction false} SameIds(turns: seq<Mgr>, tasks: seq<Task>, log: seq<seq<Attempt>>, k: nat)
    requires Turns(turns, tasks, log) && k <= |log|
    ensures turns[k].db.tasks.Keys == turns[0].db.tasks.Keys
  {
    if k > 0 {
      SameIds(turns, tasks, log, k - 1);
      assert Turn(turns[k - 1], tasks[k - 1], log[k - 1], turns[k]);
    }
  }

  // ---- order of dispatch ----

  ghost predicate NoFailure(log: seq<seq<Attempt>>) {
    forall i | 0 <= i < |log| && log[i] != [] :: log[i][0].err == None
  }

  /** When no send fails, the offered prefix loses all its unpinned tasks, and a pinned task stays only
      because its worker was not up and idle at its turn. */
  lemma PrefixDispatched(turns: seq<Mgr>, tasks: seq<Task>, log: seq<seq<Attempt>>, i: nat)
    requires Round(turns, tasks, log) && NoFailure(log) && i < |log|
    ensures var rows, name := turns[i].db.workers, tasks[i].workerName;
            Dispatched(log[i]) <==> name == "" || (name in rows && rows[name].up && rows[name].iddleThreads > 0)
    ensures Dispatched(log[i]) ==>
              var rows, w := turns[i].db.workers, log[i][0].worker;
              && w in rows && rows[w].up && rows[w].iddleThreads > 0
              && (tasks[i].workerName == "" || tasks[i].workerName == w)
  {
    assert Turn(turns[i], tasks[i], log[i], turns[i + 1]);
    var w :| w in IddleNames(turns[i].db.workers);
    assert tasks[i].workerName == "" ==> Matches(tasks[i], w);
    var name, rows := tasks[i].workerName, turns[i].db.workers;
    if name in rows && rows[name].up && rows[name].iddleThreads > 0 {
      assert name in IddleNames(rows) && Matches(tasks[i], name);
    }
  }

  /** The unpinned tasks a round without failed sends starts are exactly the unpinned ones of the offered prefix;
      the fetched tasks after the prefix keep their rows. */
  lemma PrefixRuns(turns: seq<Mgr>, tasks: seq<Task>, log: seq<seq<Attempt>>, i: nat)
    requires Round(turns, tasks, log) && NoFailure(log) && i < |tasks|
    ensures var row := turns[|log|].db.tasks;
            && tasks[i].id in row
            && (tasks[i].workerName == "" ==> (row[tasks[i].id].status == Running <==> i < |log|))
            && (i >= |log| ==> row[tasks[i].id] == tasks[i])
  {
    assert tasks[i] in tasks;
    RoundRows(turns, tasks, log, |log|);
    MarkedAt(turns[0].db.tasks, tasks, log, |log|, tasks[i].id);
    if i < |log| {
      PrefixDispatched(turns, tasks, log, i);
    }
  }

  predicate FailedAttempt(attempts: seq<Attempt>) {
    attempts != [] && attempts[0].err.Some?
  }

  /** With or without failed sends: an unpinned task that was offered is still pending exactly when its own
      attempt failed. */
  lemma PendingAfter(turns: seq<Mgr>, tasks: seq<Task>, log: seq<seq<Attempt>>, j: nat)
    requires Round(turns, tasks, log) && j < |log| && tasks[j].workerName == ""
    ensures var left := turns[|log|].db.tasks;
            tasks[j].id in left && (left[tasks[j].id].status == Pending <==> FailedAttempt(log[j]))
  {
    var rows := turns[0].db.tasks;
    assert tasks[j] in tasks;
    RoundRows(turns, tasks, log, |log|);
    MarkedAt(rows, tasks, log, |log|, tasks[j].id);
    OfferedOnce(rows, tasks, log, |log|, j);
    assert Turn(turns[j], tasks[j], log[j], turns[j + 1]);
    var w :| w in IddleNames(turns[j].db.workers);
    assert Matches(tasks[j], w);
  }

  /** A fetched task that is not dispatched keeps its row: no other turn marks it. */
  lemma {:induction false} OfferedOnce(rows: Tasks, tasks: seq<Task>, log: seq<seq<Attempt>>, k: nat, j: nat)
    requires k <= |log| <= |tasks| && j < |log| && DistinctIds(tasks) && tasks[j].id in rows
    ensures tasks[j].id in Marked(rows, tasks, log, k)
    ensures !Dispatched(log[j]) ==> Marked(rows, tasks, log, k)[tasks[j].id] == rows[tasks[j].id]
  {
    if k > 0 {
      OfferedOnce(rows, tasks, log, k - 1, j);
      assert k - 1 != j ==> tasks[k - 1].id != tasks[j].id;
    }
  }

  lemma PendingUntouched(turns: seq<Mgr>, tasks: seq<Task>, log: seq<seq<Attempt>>, id: TaskId)
    requires Round(turns, tasks, log) && id in WithStatus(turns[|log|].db.tasks, Pending)
    ensures id in turns[0].db.tasks && turns[0].db.tasks[id] == turns[|log|].db.tasks[id]
    ensures forall i | 0 <= i < |log| && Dispatched(log[i]) :: tasks[i].id != id
  {
    RoundRows(turns, tasks, log, |log|);
    SameIds(turns, tasks, log, |log|);
    MarkedAt(turns[0].db.tasks, tasks, log, |log|, id);
  }

  /** A pending row that is not among the first i + 1 of the list does not come strictly before the i-th. */
  lemma NotAmongFirst(rows: Tasks, limit: int, list: seq<Task>, i: nat, id: TaskId)
    requires PendingPrefix(rows, limit, list) && i < |list| && id in WithStatus(rows, Pending)
    ensures Before(list[i], rows[id]) || exists j :: 0 <= j <= i && list[j].id == id
  {
    assert list[i] in list;
    if id in Ids(list) {
      var j :| 0 <= j < |list| && list[j].id == id;
      assert list[j] in list;
    }
  }

  /** Priority inversion, with or without failures: a task dispatched in the round has overtaken an unpinned task
      left pending only if that task's own attempt came before and failed. */
  lemma InversionIsFailure(turns: seq<Mgr>, tasks: seq<Task>, log: seq<seq<Attempt>>, i: nat, id: TaskId)
    requires Round(turns, tasks, log) && i < |log| && Dispatched(log[i])
    requires id in WithStatus(turns[|log|].db.tasks, Pending) && turns[|log|].db.tasks[id].workerName == ""
    ensures var row := turns[|log|].db.tasks[id];
            || tasks[i].priority > row.priority
            || (tasks[i].priority == row.priority && tasks[i].createdAt <= row.createdAt)
            || exists j :: 0 <= j < i && tasks[j].id == id && FailedAttempt(log[j])
  {
    var rows := turns[0].db.tasks;
    PendingUntouched(turns, tasks, log, id);
    NotAmongFirst(rows, Total(UpThreads(turns[0].db.workers)), tasks, i, id);
    if !Before(tasks[i], rows[id]) {
      var j :| 0 <= j <= i && tasks[j].id == id;
      assert tasks[j] in tasks;
      PendingAfter(turns, tasks, log, j);
    }
  }

  /** No priority inversion: when no send fails, no unpinned task left pending comes strictly before a
      dispatched one. */
  lemma NoPriorityInversion(turns: seq<Mgr>, tasks: seq<Task>, log: seq<seq<Attempt>>)
    requires Round(turns, tasks, log) && NoFailure(log)
    ensures var left := turns[|log|].db.tasks;
            forall i, id | && 0 <= i < |log| && Dispatched(log[i])
                           && id in WithStatus(left, Pending) && left[id].workerName == "" ::
              || tasks[i].priority > left[id].priority
              || (tasks[i].priority == left[id].priority && tasks[i].createdAt <= left[id].createdAt)
  {
    var left := turns[|log|].db.tasks;
    forall i, id | && 0 <= i < |log| && Dispatched(log[i])
                   && id in WithStatus(left, Pending) && left[id].workerName == ""
      ensures || tasks[i].priority > left[id].priority
              || (tasks[i].priority == left[id].priority && tasks[i].createdAt <= left[id].createdAt)
    {
      InversionIsFailure(turns, tasks, log, i, id);
    }
  }

  /** Sends fail only for want of a working connection. */
  ghost predicate IddleConnected(m: Mgr) {
    forall w | w in IddleNames(m.db.workers) ::
      w in m.sockets && m.sockets[w] in m.conns && !m.conns[m.sockets[w]].broken
  }

  lemma ReachableTurn(m: Mgr, t: Task, attempts: seq<Attempt>, m': Mgr)
    requires Turn(m, t, attempts, m') && IddleConnected(m) && t.id in m.db.tasks
    ensures IddleConnected(m') && (attempts != [] ==> attempts[0].err == None)
  {
    if attempts != [] {
      assert attempts[0].worker in m.sockets;
      assert IddleNames(m'.db.workers) <= IddleNames(m.db.workers);
    }
  }

  lemma {:induction false} StaysIddleConnected(turns: seq<Mgr>, tasks: seq<Task>, log: seq<seq<Attempt>>, k: nat)
    requires Turns(turns, tasks, log) && IddleConnected(turns[0]) && k <= |log|
    requires forall t | t in tasks :: t.id in turns[0].db.tasks
    ensures IddleConnected(turns[k])
    ensures k > 0 && log[k - 1] != [] ==> log[k - 1][0].err == None
  {
    if k > 0 {
      StaysIddleConnected(turns, tasks, log, k - 1);
      SameIds(turns, tasks, log, k - 1);
      assert tasks[k - 1] in tasks;
      ReachableTurn(turns[k - 1], tasks[k - 1], log[k - 1], turns[k]);
    }
  }

  /** When every idle worker has a working connection, no send of the round fails. */
  lemma SendsSucceed(turns: seq<Mgr>, tasks: seq<Task>, log: seq<seq<Attempt>>)
    requires Round(turns, tasks, log) && IddleConnected(turns[0])
    ensures NoFailure(log)
  {
    forall i | 0 <= i < |log| && log[i] != [] ensures log[i][0].err == None {
      StaysIddleConnected(turns, tasks, log, i + 1);
    }
  }

  // ---- a round is a run of the protocol ----

  function TurnStep(attempts: seq<Attempt>): Step {
    if attempts == [] then Skips else Sends(attempts[0].worker, attempts[0].err != Some(WriteFailed))
  }

  /** The scheduler's variables before turn i. */
  ghost predicate AtTurn(s: World, turns: seq<Mgr>, tasks: seq<Task>, i: nat)
    requires i < |turns| && i <= |tasks|
  {
    s.m == turns[i] && s.batch == tasks[i..] && s.offers == IddleNames(turns[i].db.workers)
  }

  lemma TurnIsStep(s: World, turns: seq<Mgr>, tasks: seq<Task>, log: seq<seq<Attempt>>, i: nat)
    requires Turns(turns, tasks, log) && i < |log| && AtTurn(s, turns, tasks, i)
    ensures Enabled(s, TurnStep(log[i])) && AtTurn(Next(s, TurnStep(log[i])), turns, tasks, i + 1)
  {
    assert Turn(turns[i], tasks[i], log[i], turns[i + 1]);
    assert tasks[i..][1..] == tasks[i + 1..];
  }

  /** A Fetches step, then one Sends or Skips step for each of the first k offers. */
  function RoundSteps(threads: int, tasks: seq<Task>, log: seq<seq<Attempt>>, k: nat): seq<Step>
    requires k <= |log|
  {
    if k == 0 then [Fetches(threads, tasks)] else RoundSteps(threads, tasks, log, k - 1) + [TurnStep(log[k - 1])]
  }

  lemma FetchStarts(s: World, turns: seq<Mgr>, tasks: seq<Task>, log: seq<seq<Attempt>>) returns (states: seq<World>)
    requires Round(turns, tasks, log) && s.m == turns[0]
    ensures |states| == 2 && states[0] == s && AtTurn(states[1], turns, tasks, 0)
    ensures IsRun(states, [Fetches(Total(UpThreads(s.m.db.workers)), tasks)])
  {
    states := RunExtend([s], [], Fetches(Total(UpThreads(s.m.db.workers)), tasks));
  }

  lemma TurnExtends(states: seq<World>, steps: seq<Step>, turns: seq<Mgr>, tasks: seq<Task>,
                    log: seq<seq<Attempt>>, i: nat)
    returns (longer: seq<World>)
    requires IsRun(states, steps) && Turns(turns, tasks, log) && i < |log|
    requires AtTurn(states[|steps|], turns, tasks, i)
    ensures IsRun(longer, steps + [TurnStep(log[i])]) && longer[0] == states[0]
    ensures AtTurn(longer[|steps| + 1], turns, tasks, i + 1)
  {
    TurnIsStep(states[|steps|], turns, tasks, log, i);
    longer := RunExtend(states, steps, TurnStep(log[i]));
  }

  /** The loop of ManageTasks is a run of the protocol. */
  lemma {:induction false} RoundIsRun(s: World, turns: seq<Mgr>, tasks: seq<Task>, log: seq<seq<Attempt>>, k: nat)
    returns (states: seq<World>)
    requires Round(turns, tasks, log) && s.m == turns[0] && k <= |log|
    ensures var threads := Total(UpThreads(s.m.db.workers));
            |states| == k + 2 && states[0] == s && IsRun(states, RoundSteps(threads, tasks, log, k))
    ensures AtTurn(states[k + 1], turns, tasks, k)
  {
    if k == 0 {
      states := FetchStarts(s, turns, tasks, log);
    } else {
      var before := RoundIsRun(s, turns, tasks, log, k - 1);
      var steps := RoundSteps(Total(UpThreads(s.m.db.workers)), tasks, log, k - 1);
      states := TurnExtends(before, steps, turns, tasks, log, k - 1);
    }
  }
}
