/** A worker process: its connection, the tasks it is executing and the ids it counts as working. */
module WorkerProcesses {
  import opened Types
  import opened Connections

  /** execs: the goroutines running process.Task, which a lost connection does not stop.
      working: status.WorkingIDs, which holds an id only while a command of its task runs, with the command's
      process id or, until that is known, STARTING. */
  datatype Proc = Proc(name: Name, threads: int, conn: Option<ConnId>, execs: multiset<Task>, working: map<TaskId, int>)

  const STARTING := -1

  function ExecIds(execs: multiset<Task>): set<TaskId> {
    set t | t in execs :: t.id
  }

  lemma ExecIdsAdd(execs: multiset<Task>, t: Task)
    ensures ExecIds(execs + multiset{t}) == ExecIds(execs) + {t.id}
  {
    forall id | id in ExecIds(execs) + {t.id} ensures id in ExecIds(execs + multiset{t}) {
      if id in ExecIds(execs) {
        var x :| x in execs && x.id == id;
        assert x in execs + multiset{t};
      } else {
        assert t in execs + multiset{t};
      }
    }
  }

  lemma ExecIdsRemove(execs: multiset<Task>, t: Task)
    ensures ExecIds(execs) <= ExecIds(execs - multiset{t}) + {t.id}
    ensures ExecIds(execs - multiset{t}) <= ExecIds(execs)
  {
    forall id | id in ExecIds(execs) && id != t.id ensures id in ExecIds(execs - multiset{t}) {
      var x :| x in execs && x.id == id;
      assert x in execs - multiset{t};
    }
    forall id | id in ExecIds(execs - multiset{t}) ensures id in ExecIds(execs) {
      var x :| x in execs - multiset{t} && x.id == id;
      assert x in execs;
    }
  }

  /** An execution drops its id after every command: the id is registered only by another execution of t. */
  predicate CanEnd(p: Proc, t: Task) {
    t.id in p.working ==> t.id in ExecIds(p.execs - multiset{t})
  }

  predicate Busy(p: Proc) {
    p.threads - |p.working| <= 0
  }

  function AfterAddTask(p: Proc, t: Task): Proc {
    if Busy(p) then p else p.(execs := p.execs + multiset{t})
  }

  function AddTaskResponse(p: Proc, t: Task): ToManager {
    if Busy(p) then FailedAddTask(t) else OkAddTask(t.(status := Running))
  }

  function StatusResponse(p: Proc): ToManager {
    StatusReply(p.name, p.threads - |p.working|)
  }

  /** status.WorkingIDs[id]: a missing key reads as zero. */
  function Pid(working: map<TaskId, int>, id: TaskId): int {
    if id in working then working[id] else 0
  }

  /** Killing process 0 kills the sender's process group, and with it the worker. */
  predicate KillsWorker(p: Proc, msg: ToWorker) {
    msg.DeleteTask? && Pid(p.working, msg.task.id) == 0
  }

  /** A process that has ended: its executions are gone. */
  function Ended(p: Proc): Proc {
    p.(conn := None, execs := multiset{}, working := map[])
  }

  /** killed: whether the kill command succeeds.  A command that is starting is not killed and not answered. */
  function DeleteTaskResponse(p: Proc, t: Task, killed: bool): Option<ToManager> {
    if Pid(p.working, t.id) <= 0 then None
    else if killed then Some(OkDeleteTask(t))
    else Some(FailedDeleteTask(t))
  }

  function AfterMessage(p: Proc, msg: ToWorker): Proc {
    if msg.AddTask? then AfterAddTask(p, msg.task) else p
  }

  function Response(p: Proc, msg: ToWorker, killed: bool): Option<ToManager> {
    match msg
    case AddTask(t) => Some(AddTaskResponse(p, t))
    case DeleteTask(t) => DeleteTaskResponse(p, t, killed)
    case StatusRequest => Some(StatusResponse(p))
  }

  /** The part of a task that its user wrote: everything but outputs, duration, status and worker. */
  predicate SameRequest(a: Details, b: Details) {
    && a.notes == b.notes && a.files == b.files && a.name == b.name && a.timeout == b.timeout
    && a.callbackURL == b.callbackURL && a.callbackToken == b.callbackToken
    && |a.commands| == |b.commands|
    && forall i | 0 <= i < |a.commands| ::
         a.commands[i].modName == b.commands[i].modName && a.commands[i].args == b.commands[i].args
  }

  /** The worker's message handlers. */
  class WorkerProcess {
    const name: Name
    const defaultThreads: int
    var conn: Option<ConnId>
    var execs: multiset<Task>
    var workingIDs: map<TaskId, int>
    var iddleThreads: int

    constructor (name: Name, defaultThreads: int)
      ensures View() == Proc(name, defaultThreads, None, multiset{}, map[])
    {
      this.name, this.defaultThreads, iddleThreads := name, defaultThreads, defaultThreads;
      conn, execs, workingIDs := None, multiset{}, map[];
    }

    ghost function View(): Proc
      reads this
    {
      Proc(name, defaultThreads, conn, execs, workingIDs)
    }

    method MessageAddTask(t: Task) returns (response: ToManager)
      modifies this`execs
      ensures View() == AfterAddTask(old(View()), t)
      ensures response == AddTaskResponse(old(View()), t)
      ensures |workingIDs| < defaultThreads
              ==> execs == old(execs) + multiset{t} && response == OkAddTask(t.(status := Running))
      ensures |workingIDs| >= defaultThreads ==> execs == old(execs) && response == FailedAddTask(t)
    {
      if defaultThreads - |workingIDs| <= 0 {
        response := FailedAddTask(t);
      } else {
        execs := execs + multiset{t};
        response := OkAddTask(t.(status := Running));
      }
    }

    method MessageStatusTask() returns (response: ToManager)
      modifies this`iddleThreads
      ensures View() == old(View())
      ensures response == StatusResponse(old(View())) == StatusReply(name, defaultThreads - |workingIDs|)
    {
      iddleThreads := defaultThreads - |workingIDs|;
      response := StatusReply(name, iddleThreads);
    }

    /** The kill of process 0 ends the worker: nothing is answered and no execution survives. */
    method MessageDeleteTask(t: Task, killed: bool) returns (response: Option<ToManager>)
      modifies this
      ensures View() == if KillsWorker(old(View()), DeleteTask(t)) then Ended(old(View())) else old(View())
      ensures response == DeleteTaskResponse(old(View()), t, killed)
    {
      var cmdID := if t.id in workingIDs then workingIDs[t.id] else 0;
      if cmdID < 0 {
        return None;
      }
      if cmdID == 0 {
        conn, execs, workingIDs := None, multiset{}, map[];
        return None;
      }
      response := Some(if killed then OkDeleteTask(t) else FailedDeleteTask(t));
    }

    method GetMessage(msg: ToWorker, killed: bool) returns (response: Option<ToManager>)
      modifies this
      ensures KillsWorker(old(View()), msg) ==> View() == Ended(old(View())) && response == None
      ensures !KillsWorker(old(View()), msg)
              ==> View() == AfterMessage(old(View()), msg) && response == Response(old(View()), msg, killed)
    {
      match msg
      case StatusRequest =>
        var r := MessageStatusTask();
        response := Some(r);
      case AddTask(t) =>
        var r := MessageAddTask(t);
        response := Some(r);
      case DeleteTask(t) =>
        response := MessageDeleteTask(t, killed);
    }
  }
}
