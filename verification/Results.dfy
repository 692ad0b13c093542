/** Where results come from: a row is done or failed only with what an execution of its task has finished with. */
module Results {
  import opened Types
  import opened Tables
  import opened Connections
  import opened TaskDatabase
  import opened Protocol
  import opened Safety
  import opened TaskColumns
  import opened ConnColumns

  /** An execution of p has ended with this result in one of the first k steps. */
  ghost predicate Produced(steps: seq<Step>, k: nat, p: ProcId, t: Task)
    requires k <= |steps|
  {
    exists j :: 0 <= j < k && FinishedWith(steps[j], p, t)
  }

  predicate FinishedWith(step: Step, p: ProcId, t: Task) {
    step.Finishes? && step.proc == p && t == step.task.(details := step.result, status := step.status)
  }

  // ---- results on their way ----

  lemma SaidCallback(s: World, step: Step, c: ConnId, msg: ToManager)
    requires Shape(s) && c in s.m.conns && msg in Said(s, step, c) && msg.Callback?
    ensures FinishedWith(step, s.m.conns[c].owner, msg.task)
  {
  }

  lemma QueueSource(s: World, step: Step, c: ConnId, msg: ToManager)
    requires c in s.m.conns && msg in ConnAfter(s, step, c).toManager
    ensures msg in s.m.conns[c].toManager || msg in Said(s, step, c)
  {
  }

  /** A callback in a queue was there before, or the step has just put it there. */
  lemma CallbackSource(s: World, step: Step, c: ConnId, msg: ToManager)
    requires Inv(s) && Enabled(s, step) && c in Next(s, step).m.conns
    requires msg in Next(s, step).m.conns[c].toManager && msg.Callback?
    ensures c in s.m.conns && Next(s, step).m.conns[c].owner == s.m.conns[c].owner
    ensures msg in s.m.conns[c].toManager || FinishedWith(step, s.m.conns[c].owner, msg.task)
  {
    ConnsMeetReference(s, step);
    assert c in s.m.conns;
    QueueSource(s, step, c, msg);
    if msg in Said(s, step, c) {
      SaidCallback(s, step, c, msg);
    }
  }

  ghost predicate CallbacksProduced(states: seq<World>, steps: seq<Step>, k: nat)
    requires k < |states| && k <= |steps|
  {
    forall c | c in states[k].m.conns :: forall msg | msg in states[k].m.conns[c].toManager && msg.Callback? ::
      Produced(steps, k, states[k].m.conns[c].owner, msg.task)
  }

  lemma CallbacksNext(states: seq<World>, steps: seq<Step>, k: nat)
    requires IsRun(states, steps) && k < |steps| && Inv(states[k]) && CallbacksProduced(states, steps, k)
    ensures CallbacksProduced(states, steps, k + 1)
  {
    assert Enabled(states[k], steps[k]) && states[k + 1] == Next(states[k], steps[k]);
    var after := states[k + 1].m.conns;
    forall c, msg | c in after && msg in after[c].toManager && msg.Callback?
      ensures Produced(steps, k + 1, after[c].owner, msg.task)
    {
      CallbackSource(states[k], steps[k], c, msg);
      if !FinishedWith(steps[k], states[k].m.conns[c].owner, msg.task) {
        assert Produced(steps, k, states[k].m.conns[c].owner, msg.task);
      }
    }
  }

  lemma {:induction false} CallbacksAlong(states: seq<World>, steps: seq<Step>, k: nat)
    requires IsRun(states, steps) && Initial(states[0]) && k <= |steps|
    ensures Inv(states[k]) && CallbacksProduced(states, steps, k)
  {
    InvAlong(states, steps, k);
    if k > 0 {
      CallbacksAlong(states, steps, k - 1);
      CallbacksNext(states, steps, k - 1);
    }
  }

  // ---- results in rows ----

  /** The row is as it was at the start, or holds what an execution of its task ended with. */
  ghost predicate RowExplained(first: Tasks, steps: seq<Step>, k: nat, id: TaskId, row: Task)
    requires k <= |steps|
  {
    || (id in first && first[id].status == row.status && first[id].details == row.details)
    || exists j :: 0 <= j < k && ResultOf(steps[j], id, row)
  }

  predicate ResultOf(step: Step, id: TaskId, row: Task) {
    step.Finishes? && step.task.id == id && step.status == row.status && step.result == row.details
  }

  ghost predicate RowsExplained(states: seq<World>, steps: seq<Step>, k: nat)
    requires 0 <= k < |states| && k <= |steps|
  {
    forall id | id in states[k].m.db.tasks && Finished(states[k].m.db.tasks[id].status) ::
      RowExplained(states[0].m.db.tasks, steps, k, id, states[k].m.db.tasks[id])
  }

  lemma DoneColumns(s: World, step: Step, row: Task)
    requires Finished(StatusAfter(s, step, row))
    ensures if Returned(s, step, row.id)
            then var t := s.m.conns[step.conn].toManager[0].task;
                 StatusAfter(s, step, row) == t.status && DetailsAfter(s, step, row) == t.details
            else StatusAfter(s, step, row) == row.status && DetailsAfter(s, step, row) == row.details
  {
  }

  lemma RowsNext(states: seq<World>, steps: seq<Step>, k: nat)
    requires IsRun(states, steps) && k < |steps| && Inv(states[k])
    requires CallbacksProduced(states, steps, k) && RowsExplained(states, steps, k)
    ensures RowsExplained(states, steps, k + 1)
  {
    var s, s' := states[k], states[k + 1];
    assert Enabled(s, steps[k]) && s' == Next(s, steps[k]);
    forall id | id in s'.m.db.tasks && Finished(s'.m.db.tasks[id].status)
      ensures RowExplained(states[0].m.db.tasks, steps, k + 1, id, s'.m.db.tasks[id])
    {
      NextRow(s, steps[k], id);
      DoneColumns(s, steps[k], s.m.db.tasks[id]);
      if Returned(s, steps[k], id) {
        var c := steps[k].conn;
        assert s.m.conns[c].toManager[0] in s.m.conns[c].toManager;
        assert Produced(steps, k, s.m.conns[c].owner, s.m.conns[c].toManager[0].task);
        var j :| 0 <= j < k && FinishedWith(steps[j], s.m.conns[c].owner, s.m.conns[c].toManager[0].task);
        assert ResultOf(steps[j], id, s'.m.db.tasks[id]);
      } else {
        assert RowExplained(states[0].m.db.tasks, steps, k, id, s.m.db.tasks[id]);
      }
    }
  }

  /** In every state of every run, a row that is done or failed is so since the start, or holds status, outputs and
      all other details exactly as an earlier execution of its task has finished with them. */
  lemma {:induction false} DoneRowsHoldResults(states: seq<World>, steps: seq<Step>, k: nat)
    requires IsRun(states, steps) && Initial(states[0]) && k <= |steps|
    ensures RowsExplained(states, steps, k)
  {
    if k > 0 {
      DoneRowsHoldResults(states, steps, k - 1);
      CallbacksAlong(states, steps, k - 1);
      RowsNext(states, steps, k - 1);
    }
  }

  /** A result that arrives for an existing row is written as it is; user and creation time stay. */
  lemma ResultIsStored(s: World, c: ConnId, t: Task)
    requires KeyedRows(s.m.db) && Enabled(s, Delivers(c)) && s.m.conns[c].toManager[0] == Callback(t)
    requires t.id in s.m.db.tasks
    ensures var before, tasks := s.m.db.tasks[t.id], Next(s, Delivers(c)).m.db.tasks;
            && tasks.Keys == s.m.db.tasks.Keys
            && tasks[t.id] == Task(t.id, t.details, t.status, t.workerName,
                                   before.username, t.priority, before.createdAt)
            && forall id | id in tasks && id != t.id :: tasks[id] == s.m.db.tasks[id]
  {
    TaskRowsMeetReference(s, Delivers(c));
  }
}
