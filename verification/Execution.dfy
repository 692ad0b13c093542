/** How a worker executes a task: ProcessModule, runModule and the callback loop of process.Task. */
module Execution {
  import opened Types
  import W = WorkerProcesses

  /** What the operating system makes of one command; every command ends by itself. */
  datatype Outcome =
    | NotStarted(reason: string)
    | Exited(pid: int, output: string, error: Option<string>)

  /** strings.TrimRight(s, "\n") */
  function TrimRight(s: string): (r: string)
    ensures r <= s && (r != [] ==> r[|r| - 1] != '\n') && forall i | |r| <= i < |s| :: s[i] == '\n'
  {
    if s != [] && s[|s| - 1] == '\n' then TrimRight(s[..|s| - 1]) else s
  }

  // ---- WorkingIDs ----

  class Status {
    var workingIDs: map<TaskId, int>

    constructor ()
      ensures workingIDs == map[]
    {
      workingIDs := map[];
    }

    method SetWorkingID(id: TaskId, pid: int)
      modifies this
      ensures workingIDs == old(workingIDs)[id := pid]
    {
      workingIDs := workingIDs[id := pid];
    }

    method DeleteWorkingID(id: TaskId)
      modifies this
      ensures workingIDs == old(workingIDs) - {id}
    {
      workingIDs := workingIDs - {id};
    }

    /** The id is registered while the command runs, and dropped when it has ended. */
    method RunModule(id: TaskId, outcome: Outcome) returns (output: string, error: Option<string>)
      modifies this
      ensures workingIDs == old(workingIDs) - {id}
      ensures match outcome
              case NotStarted(reason) => output == "" && error == Some(reason)
              case Exited(_, text, e) => output == TrimRight(text) && error == e
    {
      SetWorkingID(id, -1);
      var text: string;
      match outcome {
        case NotStarted(e) =>
          text, error := "", Some(e);
        case Exited(pid, out, e) =>
          SetWorkingID(id, pid);
          text, error := out, e;
      }
      DeleteWorkingID(id);
      output := TrimRight(text);
    }
  }

  // ---- ProcessModule ----

  /** The command's module exists and its process starts and ends without an error. */
  predicate Succeeds(command: Command, modules: map<string, string>, outcome: Outcome) {
    command.modName in modules && outcome.Exited? && outcome.error == None
  }

  /** Commands a and b differ at most in their outputs. */
  predicate SameCommand(a: Command, b: Command) {
    a.modName == b.modName && a.args == b.args
  }

  /** outcomes[k]: what running command k would give.  The task succeeds exactly when no command fails;
      otherwise failed is the first that does, and the commands after it were never run. */
  method ProcessModule(status: Status, id: TaskId, commands: array<Command>,
                       modules: map<string, string>, outcomes: seq<Outcome>) returns (ok: bool, ghost failed: nat)
    requires |outcomes| == commands.Length
    modifies status, commands
    ensures failed <= commands.Length && (ok <==> failed == commands.Length)
    ensures ok <==> forall k | 0 <= k < commands.Length :: Succeeds(old(commands[k]), modules, outcomes[k])
    ensures forall k | 0 <= k < failed ::
              && old(commands[k]).modName in modules && outcomes[k].Exited? && outcomes[k].error == None
              && commands[k] == old(commands[k]).(output := TrimRight(outcomes[k].output))
    ensures failed < commands.Length ==>
              if old(commands[failed]).modName !in modules then commands[failed] == old(commands[failed])
              else match outcomes[failed]
                   case NotStarted(reason) => commands[failed] == old(commands[failed]).(output := ";" + reason)
                   case Exited(_, text, error) =>
                     && error.Some?
                     && commands[failed] == old(commands[failed]).(output := TrimRight(text) + ";" + error.value)
    ensures forall k | failed < k < commands.Length :: commands[k] == old(commands[k])
    ensures forall k | 0 <= k < commands.Length :: SameCommand(commands[k], old(commands[k]))
    ensures status.workingIDs == if commands.Length > 0 && old(commands[0]).modName in modules
                                 then old(status.workingIDs) - {id} else old(status.workingIDs)
  {
    failed := commands.Length;
    for num := 0 to commands.Length
      invariant failed == commands.Length
      invariant forall k | 0 <= k < num ::
                  && Succeeds(old(commands[k]), modules, outcomes[k])
                  && commands[k] == old(commands[k]).(output := TrimRight(outcomes[k].output))
      invariant forall k | num <= k < commands.Length :: commands[k] == old(commands[k])
      invariant status.workingIDs == if num > 0 then old(status.workingIDs) - {id} else old(status.workingIDs)
    {
      if commands[num].modName !in modules {
        ok, failed := false, num;
        return;
      }
      var output, error := status.RunModule(id, outcomes[num]);
      if error.Some? {
        commands[num] := commands[num].(output := output + ";" + error.value);
        ok, failed := false, num;
        return;
      }
      commands[num] := commands[num].(output := output);
    }
    ok := true;
  }

  /** The result of process.Task: the callback carries the status, and it is retried until it is sent.
      sent[k]: whether attempt k succeeds; filesSaved: whether ProcessFiles succeeded; elapsed: the measured time,
      which only a success records. */
  method RunTask(status: Status, task: Task, commands: array<Command>, modules: map<string, string>,
                 outcomes: seq<Outcome>, filesSaved: bool, elapsed: real, sent: seq<bool>)
    returns (result: Task, attempts: nat)
    requires |outcomes| == commands.Length && commands[..] == task.details.commands
    requires true in sent
    modifies status, commands
    ensures result == task.(
                status := result.status,
                details := task.details.(
                  commands := commands[..],
                  duration := if result.status == Done then elapsed else task.details.duration))
    ensures result.status in {Done, Failed} && W.SameRequest(task.details, result.details)
    ensures result.status == (if filesSaved && forall k | 0 <= k < commands.Length ::
                                && task.details.commands[k].modName in modules
                                && outcomes[k].Exited? && outcomes[k].error == None then Done else Failed)
    ensures !filesSaved ==> commands[..] == old(commands[..]) && status.workingIDs == old(status.workingIDs)
    ensures forall i | i in old(status.workingIDs) && i != task.id ::
              i in status.workingIDs && status.workingIDs[i] == old(status.workingIDs[i])
    ensures 0 < attempts <= |sent| && sent[attempts - 1] && forall k | 0 <= k < attempts - 1 :: !sent[k]
  {
    result := task;
    if !filesSaved {
      result := result.(status := Failed);
    } else {
      var ok, _ := ProcessModule(status, task.id, commands, modules, outcomes);
      result := result.(status := if ok then Done else Failed, details := task.details.(commands := commands[..]));
      if ok {
        result := result.(details := result.details.(duration := elapsed));
      }
    }
    attempts := 1;
    while !sent[attempts - 1]
      invariant 0 < attempts <= |sent| && forall k | 0 <= k < attempts - 1 :: !sent[k]
      decreases |sent| - attempts
    {
      assert exists k :: 0 <= k < |sent| && sent[k];
      attempts := attempts + 1;
    }
  }
}
