/** The tasks a worker executes and the ids it has registered. */
module WorkerLaws {
  import opened Types
  import opened Connections
  import opened WorkerProcesses
  import opened Protocol
  import opened Conservation

  // ---- the number of registered ids ----

  /** The step changes a process. */
  predicate Local(step: Step) {
    Remote(step) && !step.Breaks? && !step.Announces? && !step.Retires?
  }

  function ProcAfter(s: World, step: Step): Proc
    requires Local(step) && step.proc in s.procs && (step.Receives? ==> HasRequest(s, step.proc))
  {
    var p := s.procs[step.proc];
    match step
    case Dials(_, c) => p.(conn := Some(c))
    case Receives(q, _) =>
      if Request(s, q).AddTask? && |p.working| < p.threads
      then p.(execs := p.execs + multiset{Request(s, q).task}) else p
    case Registers(_, id, pid) => p.(working := p.working[id := pid])
    case Unregisters(_, id) => p.(working := p.working - {id})
    case Finishes(_, t, _, _) => p.(execs := p.execs - multiset{t})
    case _ => p.(conn := None, execs := multiset{}, working := map[])
  }

  lemma NextProcs(s: World, step: Step)
    requires Enabled(s, step)
    ensures Next(s, step).procs == if Local(step) then s.procs[step.proc := ProcAfter(s, step)] else s.procs
  {
  }

  function WorkingAfter(working: map<TaskId, int>, step: Step): map<TaskId, int> {
    match step
    case Registers(_, id, pid) => working[id := pid]
    case Unregisters(_, id) => working - {id}
    case Crashes(_) => map[]
    case KillsItself(_) => map[]
    case _ => working
  }

  lemma LocalWorking(s: World, step: Step)
    requires Enabled(s, step) && Local(step)
    ensures ProcAfter(s, step).threads == s.procs[step.proc].threads
    ensures ProcAfter(s, step).working == WorkingAfter(s.procs[step.proc].working, step)
  {
  }

  lemma NextWorking(s: World, step: Step, p: ProcId)
    requires Enabled(s, step) && p in s.procs
    ensures p in Next(s, step).procs && Next(s, step).procs[p].threads == s.procs[p].threads
    ensures Next(s, step).procs[p].working
         == if Local(step) && step.proc == p then WorkingAfter(s.procs[p].working, step) else s.procs[p].working
  {
    NextProcs(s, step);
    if Local(step) {
      LocalWorking(s, step);
    }
  }

  lemma WorkingGrows(working: map<TaskId, int>, step: Step)
    ensures |WorkingAfter(working, step)| > |working| <==> step.Registers? && step.id !in working
    ensures |WorkingAfter(working, step)| <= |working| + 1
  {
    var after := WorkingAfter(working, step);
    assert |after| == |after.Keys| && |working| == |working.Keys|;
    if step.Registers? {
      assert after.Keys == working.Keys + {step.id};
    } else {
      SubsetSize(after.Keys, working.Keys);
    }
  }

  /** The number of registered ids exceeds the threads exactly when one more id is registered than there are
      threads: messageAddTask looks at the number, nothing looks when an execution registers its id. */
  lemma ThreadsExceeded(s: World, step: Step, p: ProcId)
    requires Enabled(s, step) && p in s.procs && |s.procs[p].working| <= s.procs[p].threads
    ensures p in Next(s, step).procs
    ensures |Next(s, step).procs[p].working| > Next(s, step).procs[p].threads
            <==> && step.Registers? && step.proc == p && step.id !in s.procs[p].working
                 && |s.procs[p].working| == s.procs[p].threads
  {
    NextWorking(s, step, p);
    WorkingGrows(s.procs[p].working, step);
  }

  // ---- registered ids belong to executions ----

  /** Registered ids are ids of executing tasks, and no command has process id 0. */
  predicate ProcRegistered(p: Proc) {
    p.working.Keys <= ExecIds(p.execs) && forall id | id in p.working :: p.working[id] != 0
  }

  ghost predicate RegisteredExecute(s: World) {
    forall p | p in s.procs :: ProcRegistered(s.procs[p])
  }

  lemma ReceiveKeepsRegistered(p: Proc, msg: ToWorker)
    requires ProcRegistered(p)
    ensures ProcRegistered(AfterMessage(p, msg))
  {
    if msg.AddTask? {
      ExecIdsAdd(p.execs, msg.task);
    }
  }

  lemma FinishKeepsRegistered(p: Proc, t: Task)
    requires ProcRegistered(p) && CanEnd(p, t)
    ensures ProcRegistered(p.(execs := p.execs - multiset{t}))
  {
    ExecIdsRemove(p.execs, t);
  }

  lemma LocalKeepsRegistered(s: World, step: Step)
    requires Enabled(s, step) && Local(step) && ProcRegistered(s.procs[step.proc])
    ensures ProcRegistered(ProcAfter(s, step))
  {
    var p := s.procs[step.proc];
    match step
    case Receives(q, _) => ReceiveKeepsRegistered(p, Request(s, q));
    case Finishes(_, t, _, _) => FinishKeepsRegistered(p, t);
    case _ =>
  }

  lemma StepKeepsRegistered(s: World, step: Step)
    requires RegisteredExecute(s) && Enabled(s, step)
    ensures RegisteredExecute(Next(s, step))
  {
    NextProcs(s, step);
    if Local(step) {
      LocalKeepsRegistered(s, step);
    }
  }

  lemma ReportsEnough(p: Proc)
    requires p.working.Keys <= ExecIds(p.execs)
    ensures StatusResponse(p).iddleThreads >= p.threads - |ExecIds(p.execs)|
  {
    SubsetSize(p.working.Keys, ExecIds(p.execs));
    assert |p.working| == |p.working.Keys|;
  }

  /** In every run the registered ids are ids of tasks the worker is executing, so what it reports as idle is
      never less than its threads minus the tasks it executes. */
  lemma {:induction false} RunsKeepRegistered(states: seq<World>, steps: seq<Step>, k: nat, p: ProcId)
    requires IsRun(states, steps) && RegisteredExecute(states[0]) && k <= |steps|
    ensures RegisteredExecute(states[k])
    ensures p in states[k].procs ==>
              var proc := states[k].procs[p];
              StatusResponse(proc).iddleThreads >= proc.threads - |ExecIds(proc.execs)|
  {
    if k > 0 {
      RunsKeepRegistered(states, steps, k - 1, p);
      StepKeepsRegistered(states[k - 1], steps[k - 1]);
    }
    if p in states[k].procs {
      ReportsEnough(states[k].procs[p]);
    }
  }

  // ---- what a deletion does to a worker ----

  /** p handles its next message. */
  predicate Handles(step: Step, p: ProcId) {
    (step.Receives? || step.KillsItself?) && step.proc == p
  }

  /** Deleting a task leaves every execution and every other worker alone exactly when its id is registered on
      its worker.  Otherwise the worker ends with all its executions, and its connection breaks. */
  lemma DeletionIsLocal(s: World, step: Step, p: ProcId)
    requires RegisteredExecute(s) && HasRequest(s, p) && Request(s, p).DeleteTask?
    requires Enabled(s, step) && Handles(step, p)
    ensures var id, s' := Request(s, p).task.id, Next(s, step);
            && (s'.procs == s.procs <==> id in s.procs[p].working)
            && (id !in s.procs[p].working ==>
                  && s'.procs == s.procs[p := Ended(s.procs[p])]
                  && s'.m.conns[s.procs[p].conn.value].broken)
  {
    NextProcs(s, step);
    assert s.procs[p := s.procs[p]] == s.procs;
  }

  /** The answer to a deletion: a starting command is neither killed nor answered. */
  lemma DeletionAnswer(s: World, p: ProcId, killed: bool)
    requires RegisteredExecute(s) && HasRequest(s, p) && Request(s, p).DeleteTask? && Enabled(s, Receives(p, killed))
    ensures var c, t := s.procs[p].conn.value, Request(s, p).task;
            var queue, queue' := s.m.conns[c].toManager, Next(s, Receives(p, killed)).m.conns[c].toManager;
            && t.id in s.procs[p].working
            && queue' == if s.m.conns[c].broken || s.procs[p].working[t.id] < 0 then queue
                         else queue + [if killed then OkDeleteTask(t) else FailedDeleteTask(t)]
  {
  }
}
