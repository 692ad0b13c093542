/** The MySQL database: each method is one SQL statement, an atomic update or select of a table. */
module TaskDatabase {
  import opened Types
  import opened Tables

  // ---- the order of the task queue and of the history ----

  /** ORDER BY [priority DESC,] createdAt ASC; rows that compare equal come in any order. */
  predicate Precedes(byPriority: bool, a: Task, b: Task) {
    if byPriority && a.priority != b.priority then a.priority > b.priority else a.createdAt <= b.createdAt
  }

  /** ORDER BY priority DESC, createdAt ASC. */
  predicate Before(a: Task, b: Task) {
    Precedes(true, a, b)
  }

  function PendingLimit(limit: int): nat {
    if limit <= 0 then 1 else limit
  }

  predicate DistinctIds(list: seq<Task>) {
    forall i, j | 0 <= i < j < |list| :: list[i].id != list[j].id
  }

  function Ids(list: seq<Task>): set<TaskId> {
    set t | t in list :: t.id
  }

  /** list is what SELECT ... WHERE status = 'pending' ORDER BY ... LIMIT may return. */
  ghost predicate PendingPrefix(tasks: Tasks, limit: int, list: seq<Task>) {
    && DistinctIds(list)
    && (forall t | t in list :: t.id in tasks && tasks[t.id] == t && t.status == Pending)
    && (forall i, j | 0 <= i < j < |list| :: Before(list[i], list[j]))
    && |list| <= PendingLimit(limit)
    && (forall id | id in WithStatus(tasks, Pending) - Ids(list) ::
          |list| == PendingLimit(limit) && forall t | t in list :: Before(t, tasks[id]))
  }

  /** list holds the first pending rows in order, left the ids of the others. */
  ghost predicate FirstOnes(tasks: Tasks, list: seq<Task>, left: set<TaskId>) {
    && left == WithStatus(tasks, Pending) - Ids(list)
    && DistinctIds(list)
    && (forall t | t in list :: t.id in tasks && tasks[t.id] == t && t.status == Pending)
    && (forall i, j | 0 <= i < j < |list| :: Before(list[i], list[j]))
    && (forall t, id | t in list && id in left :: Before(t, tasks[id]))
  }

  lemma OneMoreFirst(tasks: Tasks, list: seq<Task>, left: set<TaskId>, id: TaskId)
    requires FirstOnes(tasks, list, left) && id in left && tasks[id].id == id
    requires forall y | y in left :: Before(tasks[id], tasks[y])
    ensures FirstOnes(tasks, list + [tasks[id]], left - {id})
  {
    assert Ids(list + [tasks[id]]) == Ids(list) + {id} by {
      assert tasks[id] in list + [tasks[id]] && forall t | t in list :: t in list + [tasks[id]];
    }
    assert forall t | t in list :: t.id in Ids(list);
  }

  /** ids is what DELETE ... ORDER BY createdAt ASC LIMIT del may delete. */
  ghost predicate OldestDone(tasks: Tasks, del: nat, ids: set<TaskId>) {
    && ids <= WithStatus(tasks, Done)
    && |ids| == del
    && (forall x, y | x in ids && y in WithStatus(tasks, Done) - ids :: Precedes(false, tasks[x], tasks[y]))
  }

  const DEFAULT_HISTORY_LIMIT := 5000

  function HistoryLimit(maxEntries: int): nat {
    if maxEntries <= 0 then DEFAULT_HISTORY_LIMIT else maxEntries
  }

  function HistoryExcess(tasks: Tasks, maxEntries: int): nat {
    var total := |WithStatus(tasks, Done)|;
    if total <= HistoryLimit(maxEntries) then 0 else total - HistoryLimit(maxEntries)
  }

  /** Exactly min(total, limit) done rows remain; no other row is touched; kept done rows are not older. */
  lemma TrimKeepsNewest(tasks: Tasks, maxEntries: int, ids: set<TaskId>)
    requires OldestDone(tasks, HistoryExcess(tasks, maxEntries), ids)
    ensures var total, left := |WithStatus(tasks, Done)|, WithStatus(tasks - ids, Done);
            var limit := if maxEntries <= 0 then 5000 else maxEntries;
            && |left| == (if total <= limit then total else limit)
            && (forall x, y | x in ids && y in left :: tasks[x].createdAt <= tasks[y].createdAt)
    ensures forall id | id in tasks && tasks[id].status != Done :: id in tasks - ids && (tasks - ids)[id] == tasks[id]
  {
    assert WithStatus(tasks - ids, Done) == WithStatus(tasks, Done) - ids;
  }

  /** A non-empty selection has a first row in either order. */
  lemma {:induction false} FirstExists(byPriority: bool, tasks: Tasks, s: set<TaskId>)
    requires s != {} && s <= tasks.Keys
    ensures exists x :: x in s && forall y | y in s :: Precedes(byPriority, tasks[x], tasks[y])
  {
    var p :| p in s;
    if s == {p} {
      assert forall y | y in s :: Precedes(byPriority, tasks[p], tasks[y]);
    } else {
      FirstExists(byPriority, tasks, s - {p});
      var x :| x in s - {p} && forall y | y in s - {p} :: Precedes(byPriority, tasks[x], tasks[y]);
      var z := if Precedes(byPriority, tasks[x], tasks[p]) then x else p;
      assert z in s && forall y | y in s :: Precedes(byPriority, tasks[z], tasks[y]);
    }
  }

  // ---- the database object ----

  function UpThreads(workers: Workers): map<Name, int> {
    map n | n in workers && workers[n].up :: workers[n].defaultThreads
  }

  /** The primary keys: every row is stored under its own ID or name. */
  ghost predicate KeyedRows(db: Db) {
    && (forall id | id in db.tasks :: db.tasks[id].id == id)
    && (forall n | n in db.workers :: db.workers[n].name == n)
  }

  /** list holds each of the named rows exactly once. */
  ghost predicate RowsOf(workers: Workers, names: set<Name>, list: seq<Worker>) {
    && names <= workers.Keys
    && (forall i | 0 <= i < |list| :: list[i].name in names && list[i] == workers[list[i].name])
    && (forall i, j | 0 <= i < j < |list| :: list[i].name != list[j].name)
    && (forall n | n in names :: workers[n] in list)
  }

  class Database {
    var tasks: Tasks
    var workers: Workers

    constructor (tasks: Tasks, workers: Workers)
      ensures this.tasks == tasks && this.workers == workers
    {
      this.tasks, this.workers := tasks, workers;
    }

    ghost function Rows(): Db
      reads this
    {
      Db(tasks, workers)
    }

    ghost predicate Keyed()
      reads this
    {
      KeyedRows(Rows())
    }

    /** createdAt is the column's default, the current time. */
    method AddTask(t: Task, now: int) returns (err: Option<Error>)
      modifies this`tasks
      ensures t.id in old(tasks) ==> err == Some(Wrapped(MySQL(1062))) && tasks == old(tasks)
      ensures t.id !in old(tasks) ==> err == None && tasks == old(tasks)[t.id := t.(createdAt := now)]
    {
      if t.id in tasks {
        return Some(Wrapped(MySQL(DUPLICATE_ENTRY)));
      }
      tasks := tasks[t.id := t.(createdAt := now)];
      return None;
    }

    method UpdateTask(t: Task) returns (err: Option<Error>)
      modifies this`tasks
      ensures tasks == Tables.UpdateTask(old(tasks), t)
      ensures err == if t.id in old(tasks) then None else Some(NotFound)
    {
      if t.id !in tasks {
        return Some(NotFound);
      }
      tasks := tasks[t.id := Overwrite(tasks[t.id], t)];
      return None;
    }

    method SetTaskStatus(id: TaskId, status: Status) returns (err: Option<Error>)
      modifies this`tasks
      ensures tasks == SetStatus(old(tasks), id, status)
      ensures err == if id in old(tasks) then None else Some(NotFound)
    {
      if id !in tasks {
        return Some(NotFound);
      }
      tasks := tasks[id := tasks[id].(status := status)];
      return None;
    }

    method SetTasksWorkerPending(name: Name)
      modifies this`tasks
      ensures tasks == Requeue(old(tasks), name)
      ensures forall id | id in tasks :: id in old(tasks) && tasks[id].workerName == old(tasks)[id].workerName
      ensures WithStatus(tasks, Running)
           == set id | id in WithStatus(old(tasks), Running) && old(tasks)[id].workerName != name
    {
      tasks := Requeue(tasks, name);
    }

    method SetTasksStatusIfStatus(from: Status, to: Status)
      modifies this`tasks
      ensures tasks == ReplaceStatus(old(tasks), from, to)
      ensures WithStatus(tasks, to) == WithStatus(old(tasks), to) + WithStatus(old(tasks), from)
      ensures from != to ==> WithStatus(tasks, from) == {}
    {
      ReplacementMoves(tasks, from, to);
      tasks := ReplaceStatus(tasks, from, to);
    }

    method GetTasksPending(limit: int) returns (list: seq<Task>)
      requires Keyed()
      ensures PendingPrefix(tasks, limit, list)
      ensures |list| <= if limit <= 0 then 1 else limit
      ensures forall t | t in list :: t.id in tasks && tasks[t.id] == t && t.status == Pending
      ensures forall i, j | 0 <= i < j < |list| ::
                || list[i].priority > list[j].priority
                || (list[i].priority == list[j].priority && list[i].createdAt <= list[j].createdAt)
      ensures forall id | id in tasks && tasks[id].status == Pending && tasks[id] !in list ::
                && |list| == (if limit <= 0 then 1 else limit)
                && forall t | t in list ::
                     || t.priority > tasks[id].priority
                     || (t.priority == tasks[id].priority && t.createdAt <= tasks[id].createdAt)
    {
      var left := WithStatus(tasks, Pending);
      list := [];
      while |list| < PendingLimit(limit) && left != {}
        invariant |list| <= PendingLimit(limit) && FirstOnes(tasks, list, left)
        decreases left
      {
        FirstExists(true, tasks, left);
        var id :| id in left && forall y | y in left :: Precedes(true, tasks[id], tasks[y]);
        OneMoreFirst(tasks, list, left, id);
        list, left := list + [tasks[id]], left - {id};
      }
    }

    method DeleteMaxEntriesHistory(maxEntries: int) returns (deleted: set<TaskId>)
      modifies this`tasks
      ensures OldestDone(old(tasks), HistoryExcess(old(tasks), maxEntries), deleted)
      ensures tasks == old(tasks) - deleted
      ensures var total, limit := |WithStatus(old(tasks), Done)|, if maxEntries <= 0 then 5000 else maxEntries;
              |deleted| == if total <= limit then 0 else total - limit
    {
      var limit := if maxEntries <= 0 then DEFAULT_HISTORY_LIMIT else maxEntries;
      var left := WithStatus(tasks, Done);
      var total := |left|;
      deleted := {};
      if total <= limit {
        return;
      }
      var del := total - limit;
      while |deleted| < del
        invariant tasks == old(tasks)
        invariant left == WithStatus(tasks, Done) - deleted && deleted <= WithStatus(tasks, Done)
        invariant |deleted| <= del && |deleted| + |left| == total
        invariant forall x, y | x in deleted && y in left :: Precedes(false, tasks[x], tasks[y])
        decreases left
      {
        FirstExists(false, tasks, left);
        var id :| id in left && forall y | y in left :: Precedes(false, tasks[id], tasks[y]);
        deleted, left := deleted + {id}, left - {id};
      }
      tasks := tasks - deleted;
    }

    method GetCountByStatus(status: Status) returns (count: nat)
      ensures count == |WithStatus(tasks, status)|
    {
      count := |WithStatus(tasks, status)|;
    }

    // ---- worker table ----

    method AddWorker(w: Worker) returns (err: Option<Error>)
      modifies this`workers
      ensures w.name in old(workers) ==> err == Some(Wrapped(MySQL(1062))) && workers == old(workers)
      ensures w.name !in old(workers) ==> err == None && workers == old(workers)[w.name := w]
    {
      if w.name in workers {
        return Some(Wrapped(MySQL(DUPLICATE_ENTRY)));
      }
      workers := workers[w.name := w];
      return None;
    }

    method RmWorkerName(name: Name) returns (err: Option<Error>)
      modifies this
      ensures Rows() == Tables.RmWorkerName(old(Rows()), name)
      ensures err == if name in old(workers) then None else Some(NotFound)
    {
      if name !in workers {
        return Some(NotFound);
      }
      workers := workers - {name};
      SetTasksWorkerPending(name);
      tasks := ClearName(tasks, name);
      return None;
    }

    method UpdateWorker(w: Worker) returns (err: Option<Error>)
      modifies this`workers
      ensures w.name !in old(workers) ==> err == Some(NotFound) && workers == old(workers)
      ensures w.name in old(workers) ==> err == None && workers == old(workers)[w.name := w]
    {
      if w.name !in workers {
        return Some(NotFound);
      }
      workers := workers[w.name := w];
      return None;
    }

    method SetWorkerUPto(name: Name, up: bool) returns (err: Option<Error>)
      modifies this`workers
      ensures workers == SetUp(old(workers), name, up)
      ensures err == if name in old(workers) then None else Some(NotFound)
    {
      if name !in workers {
        return Some(NotFound);
      }
      workers := workers[name := workers[name].(up := up)];
      return None;
    }

    method SetIddleThreadsTo(name: Name, iddle: int) returns (err: Option<Error>)
      modifies this`workers
      ensures name !in old(workers) ==> err == Some(NotFound) && workers == old(workers)
      ensures name in old(workers)
              ==> err == None && workers == old(workers)[name := old(workers)[name].(iddleThreads := iddle)]
    {
      if name !in workers {
        return Some(NotFound);
      }
      workers := workers[name := workers[name].(iddleThreads := iddle)];
      return None;
    }

    method SubtractWorkerIddleThreads1(name: Name) returns (err: Option<Error>)
      modifies this`workers
      ensures workers == SubtractIddle(old(workers), name)
      ensures err == if name in old(workers) then None else Some(NotFound)
    {
      if name !in workers {
        return Some(NotFound);
      }
      var iddle := workers[name].iddleThreads;
      workers := workers[name := workers[name].(iddleThreads := if iddle > 0 then iddle - 1 else 0)];
      return None;
    }

    method SetWorkerDownCount(name: Name, count: int) returns (err: Option<Error>)
      modifies this`workers
      ensures name !in old(workers) ==> err == Some(NotFound) && workers == old(workers)
      ensures name in old(workers)
              ==> err == None && workers == old(workers)[name := old(workers)[name].(downCount := count)]
    {
      if name !in workers {
        return Some(NotFound);
      }
      workers := workers[name := workers[name].(downCount := count)];
      return None;
    }

    method AddWorkerDownCount(name: Name) returns (err: Option<Error>)
      modifies this`workers
      ensures name !in old(workers) ==> err == Some(NotFound) && workers == old(workers)
      ensures name in old(workers)
              ==> err == None
                  && workers == old(workers)[name := old(workers)[name].(downCount := old(workers)[name].downCount + 1)]
    {
      if name !in workers {
        return Some(NotFound);
      }
      workers := workers[name := workers[name].(downCount := workers[name].downCount + 1)];
      return None;
    }

    // ---- worker selects ----

    /** The rows of the given names, in the arbitrary order that ORDER BY RAND() or no ORDER BY gives. */
    method SelectWorkers(names: set<Name>) returns (list: seq<Worker>)
      requires Keyed() && names <= workers.Keys
      ensures RowsOf(workers, names, list)
    {
      list := [];
      var left := names;
      while left != {}
        invariant left <= names && RowsOf(workers, names - left, list)
        decreases left
      {
        var n :| n in left;
        list, left := list + [workers[n]], left - {n};
      }
    }

    method GetWorkers() returns (list: seq<Worker>)
      requires Keyed()
      ensures RowsOf(workers, workers.Keys, list)
    {
      list := SelectWorkers(workers.Keys);
    }

    method GetWorkerUP() returns (list: seq<Worker>)
      requires Keyed()
      ensures RowsOf(workers, UpThreads(workers).Keys, list)
      ensures forall w | w in list :: w.up
      ensures forall n | n in workers && workers[n].up :: workers[n] in list
    {
      list := SelectWorkers(UpThreads(workers).Keys);
    }

    method GetWorkerIddle() returns (list: seq<Worker>)
      requires Keyed()
      ensures RowsOf(workers, IddleNames(workers), list)
      ensures forall w | w in list :: w.up && w.iddleThreads > 0
      ensures forall n | n in workers && workers[n].up && workers[n].iddleThreads > 0 :: workers[n] in list
    {
      list := SelectWorkers(IddleNames(workers));
    }
  }
}
