/** WebSocket connections between one manager and many workers, seen from the manager. */
module Connections {
  import opened Types

  datatype ToWorker = AddTask(task: Task) | DeleteTask(task: Task) | StatusRequest

  datatype ToManager =
    | AddWorker(worker: Worker)
    | DeleteWorker(worker: Worker)
    | Callback(task: Task)
    | StatusReply(name: Name, iddleThreads: int)
    | OkAddTask(task: Task)
    | FailedAddTask(task: Task)
    | OkDeleteTask(task: Task)
    | FailedDeleteTask(task: Task)

  /** announced is the manager's `worker` variable of this connection, set by addWorker and deleteWorker.
      broken: either side closed it or a write failed.
      handled: the manager's reader is gone, after its cleanup or with the manager itself. */
  datatype Conn = Conn(
    owner: ProcId, announced: Option<Name>,
    toWorker: seq<ToWorker>, toManager: seq<ToManager>, broken: bool, handled: bool)

  type Conns = map<ConnId, Conn>

  /** Write to the worker; on a broken connection the message is lost. */
  function Push(conns: Conns, c: ConnId, msg: ToWorker): Conns {
    if c in conns && !conns[c].broken
    then conns[c := conns[c].(toWorker := conns[c].toWorker + [msg])]
    else conns
  }

  /** Write to the manager; on a broken connection the message is lost. */
  function Answer(conns: Conns, c: ConnId, msg: ToManager): Conns {
    if c in conns && !conns[c].broken
    then conns[c := conns[c].(toManager := conns[c].toManager + [msg])]
    else conns
  }

  /** Either side closes a connection, or the network does: nothing more can be written, but the readers may
      still get what is queued before they get their error. */
  function Close(conns: Conns, c: ConnId): Conns {
    if c in conns then conns[c := conns[c].(broken := true)] else conns
  }

  function Announce(conns: Conns, c: ConnId, name: Name): Conns {
    if c in conns then conns[c := conns[c].(announced := Some(name))] else conns
  }

  // ---- the tasks a queue is carrying ----

  function Requested(q: seq<ToWorker>): set<TaskId> {
    set m | m in q && m.AddTask? :: m.task.id
  }

  /** Both messages take a task out of `running`: a result, or a refusal to start it. */
  predicate Settles(m: ToManager) {
    m.Callback? || m.FailedAddTask?
  }

  function Settled(q: seq<ToManager>): set<TaskId> {
    set m | m in q && Settles(m) :: m.task.id
  }

  lemma RequestedPush(q: seq<ToWorker>, m: ToWorker)
    ensures Requested(q + [m]) == Requested(q) + (if m.AddTask? then {m.task.id} else {})
  {
    forall id | id in Requested(q) + (if m.AddTask? then {m.task.id} else {})
      ensures id in Requested(q + [m])
    {
      if id in Requested(q) {
        var x :| x in q && x.AddTask? && x.task.id == id;
        assert x in q + [m];
      } else {
        assert m in q + [m];
      }
    }
  }

  lemma RequestedPop(q: seq<ToWorker>)
    requires q != []
    ensures Requested(q) == Requested(q[1..]) + (if q[0].AddTask? then {q[0].task.id} else {})
  {
    assert q == [q[0]] + q[1..];
    forall id | id in Requested(q[1..]) ensures id in Requested(q) {
      var x :| x in q[1..] && x.AddTask? && x.task.id == id;
      assert x in q;
    }
    assert q[0] in q;
  }

  lemma SettledPush(q: seq<ToManager>, m: ToManager)
    ensures Settled(q + [m]) == Settled(q) + (if Settles(m) then {m.task.id} else {})
  {
    forall id | id in Settled(q) + (if Settles(m) then {m.task.id} else {})
      ensures id in Settled(q + [m])
    {
      if id in Settled(q) {
        var x :| x in q && Settles(x) && x.task.id == id;
        assert x in q + [m];
      } else {
        assert m in q + [m];
      }
    }
  }

  lemma SettledPop(q: seq<ToManager>)
    requires q != []
    ensures Settled(q) == Settled(q[1..]) + (if Settles(q[0]) then {q[0].task.id} else {})
  {
    assert q == [q[0]] + q[1..];
    forall id | id in Settled(q[1..]) ensures id in Settled(q) {
      var x :| x in q[1..] && Settles(x) && x.task.id == id;
      assert x in q;
    }
    assert q[0] in q;
  }
}
