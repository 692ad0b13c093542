/** Everything in flight lands: without faults, sends and new commands every run is finite, and when nothing more
    can land no task is running. */
module Progress {
  import opened Types
  import opened Tables
  import opened Sums
  import opened Connections
  import opened Handlers
  import opened WorkerProcesses
  import opened Protocol
  import opened Safety

  /** The steps that bring something in flight closer to its end. */
  predicate Lands(step: Step) {
    step.CleansUp? || step.Delivers? || step.Receives? || step.KillsItself? || step.Unregisters? || step.Finishes?
  }

  // ---- what is in flight ----

  /** A request may become an execution and an answer; an execution becomes an answer. */
  function ConnWeight(c: Conn): nat {
    4 * |c.toWorker| + if c.handled then 0 else 1 + |c.toManager|
  }

  function ProcWeight(p: Proc): nat {
    2 * |p.execs| + |p.working| + if p.conn.Some? then 1 else 0
  }

  function ConnWeights(conns: Conns): map<ConnId, int> {
    map c | c in conns :: ConnWeight(conns[c])
  }

  function ProcWeights(procs: map<ProcId, Proc>): map<ProcId, int> {
    map p | p in procs :: ProcWeight(procs[p])
  }

  ghost function InFlight(s: World): int {
    Total(ConnWeights(s.m.conns)) + Total(ProcWeights(s.procs))
  }

  lemma {:induction false} TotalNat<K>(m: map<K, int>)
    requires forall k | k in m :: m[k] >= 0
    ensures Total(m) >= 0
    decreases |m|
  {
    if m != map[] {
      var k :| k in m;
      TotalPick(m, k);
      Smaller(m, k);
      TotalNat(m - {k});
    }
  }

  lemma InFlightNat(s: World)
    ensures InFlight(s) >= 0
  {
    TotalNat(ConnWeights(s.m.conns));
    TotalNat(ProcWeights(s.procs));
  }

  lemma OneConnWeight(conns: Conns, c: ConnId, conn: Conn)
    requires c in conns
    ensures Total(ConnWeights(conns[c := conn])) == Total(ConnWeights(conns)) - ConnWeight(conns[c]) + ConnWeight(conn)
  {
    TotalUpdate(ConnWeights(conns), c, ConnWeight(conn));
    assert ConnWeights(conns[c := conn]) == ConnWeights(conns)[c := ConnWeight(conn)];
  }

  lemma OneProcWeight(procs: map<ProcId, Proc>, p: ProcId, proc: Proc)
    requires p in procs
    ensures Total(ProcWeights(procs[p := proc])) == Total(ProcWeights(procs)) - ProcWeight(procs[p]) + ProcWeight(proc)
  {
    TotalUpdate(ProcWeights(procs), p, ProcWeight(proc));
    assert ProcWeights(procs[p := proc]) == ProcWeights(procs)[p := ProcWeight(proc)];
  }

  // ---- every landing step makes it less ----

  lemma DeliverLands(s: World, c: ConnId)
    requires c in s.m.conns && !s.m.conns[c].handled && s.m.conns[c].toManager != []
    ensures InFlight(s.(m := ReadMessage(s.m, c))) < InFlight(s)
  {
    var conns := ReadMessage(s.m, c).conns;
    DeliversConn(s.m, c);
    assert conns[c].toWorker == s.m.conns[c].toWorker && !conns[c].handled;
    OneConnWeight(s.m.conns, c, conns[c]);
  }

  lemma CleanupLands(s: World, c: ConnId)
    requires c in s.m.conns && !s.m.conns[c].handled
    ensures InFlight(s.(m := HandleConnectionError(s.m, c))) < InFlight(s)
  {
    var conn := s.m.conns[c].(handled := true);
    var conns := s.m.conns[c := conn];
    OneConnWeight(s.m.conns, c, conn);
    if conn.announced.Some? && conn.announced.value in s.m.sockets && s.m.sockets[conn.announced.value] in conns {
      var d := s.m.sockets[conn.announced.value];
      OneConnWeight(conns, d, conns[d].(broken := true));
    }
  }

  lemma ReceivedWeight(conn: Conn, p: Proc, killed: bool)
    requires conn.toWorker != []
    ensures var msg := conn.toWorker[0];
            var response := Response(p, msg, killed);
            var after := conn.(
              toWorker := conn.toWorker[1..],
              toManager := if response.Some? && !conn.broken
                           then conn.toManager + [response.value] else conn.toManager);
            ConnWeight(after) + ProcWeight(AfterMessage(p, msg)) < ConnWeight(conn) + ProcWeight(p)
  {
  }

  lemma ReceiveLands(s: World, p: ProcId, killed: bool)
    requires Enabled(s, Receives(p, killed))
    ensures InFlight(AfterReceive(s, p, killed)) < InFlight(s)
  {
    var s', c := AfterReceive(s, p, killed), s.procs[p].conn.value;
    ReceivesShape(s, p, c, killed);
    ReceivedWeight(s.m.conns[c], s.procs[p], killed);
    OneConnWeight(s.m.conns, c, s'.m.conns[c]);
    OneProcWeight(s.procs, p, AfterMessage(s.procs[p], Request(s, p)));
  }

  lemma FinishLands(s: World, p: ProcId, t: Task, result: Details, status: Status)
    requires Connected(s, p) && t in s.procs[p].execs
    ensures InFlight(AfterFinish(s, p, t, result, status)) < InFlight(s)
  {
    var s', c := AfterFinish(s, p, t, result, status), s.procs[p].conn.value;
    OneConnWeight(s.m.conns, c, s'.m.conns[c]);
    assert s'.m.conns == s.m.conns[c := s'.m.conns[c]];
    OneProcWeight(s.procs, p, s'.procs[p]);
  }

  lemma EndLands(s: World, p: ProcId)
    requires Connected(s, p)
    ensures InFlight(AfterCrash(s, p)) < InFlight(s)
  {
    var c := s.procs[p].conn.value;
    OneConnWeight(s.m.conns, c, s.m.conns[c].(broken := true));
    OneProcWeight(s.procs, p, Ended(s.procs[p]));
  }

  lemma UnregisterLands(s: World, p: ProcId, id: TaskId)
    requires p in s.procs && id in s.procs[p].working
    ensures InFlight(s.(procs := s.procs[p := s.procs[p].(working := s.procs[p].working - {id})])) < InFlight(s)
  {
    Smaller(s.procs[p].working, id);
    OneProcWeight(s.procs, p, s.procs[p].(working := s.procs[p].working - {id}));
  }

  lemma LandingIsLess(s: World, step: Step)
    requires Enabled(s, step) && Lands(step)
    ensures InFlight(Next(s, step)) < InFlight(s)
  {
    match step
    case CleansUp(c) => CleanupLands(s, c);
    case Delivers(c) => DeliverLands(s, c);
    case Receives(p, killed) => ReceiveLands(s, p, killed);
    case KillsItself(p) => EndLands(s, p);
    case Unregisters(p, id) => UnregisterLands(s, p, id);
    case Finishes(p, t, result, status) => FinishLands(s, p, t, result, status);
  }

  // ---- while a task is running, something can land ----

  lemma ExecutionCanLand(s: World, p: ProcId, id: TaskId, status: Status) returns (step: Step)
    requires Connected(s, p) && id in ExecIds(s.procs[p].execs) && Finished(status)
    ensures Enabled(s, step) && Lands(step)
  {
    var t :| t in s.procs[p].execs && t.id == id;
    step := if id in s.procs[p].working then Unregisters(p, id) else Finishes(p, t, t.details, status);
  }

  lemma CarriedCanLand(s: World, id: TaskId, c: ConnId, status: Status) returns (step: Step)
    requires Shape(s) && Carried(s, id, c) && Finished(status)
    ensures Enabled(s, step) && Lands(step)
  {
    var conn := s.m.conns[c];
    assert ConnOk(s, c);
    if conn.broken {
      step := CleansUp(c);
    } else if conn.toManager != [] {
      step := Delivers(c);
    } else if conn.toWorker != [] {
      step := if KillsWorker(s.procs[conn.owner], conn.toWorker[0]) then KillsItself(conn.owner)
              else Receives(conn.owner, true);
    } else {
      step := ExecutionCanLand(s, conn.owner, id, status);
    }
  }

  /** While a task is running, something in flight can land; status: the result an execution may end with. */
  lemma RunningCanLand(s: World, id: TaskId, status: Status) returns (step: Step)
    requires Inv(s) && id in WithStatus(s.m.db.tasks, Running) && Finished(status)
    ensures Enabled(s, step) && Lands(step) && InFlight(Next(s, step)) < InFlight(s)
  {
    assert RunningOk(s, id);
    step := CarriedCanLand(s, id, s.sentOn[id], status);
    LandingIsLess(s, step);
  }

  // ---- every maximal landing run ends, with no task running ----

  ghost predicate Stuck(s: World) {
    forall step | Lands(step) :: !Enabled(s, step)
  }

  /** A run of landing steps has at most as many steps as there was in flight. */
  lemma {:induction false} LandingRunsEnd(states: seq<World>, steps: seq<Step>, k: nat)
    requires IsRun(states, steps) && (forall step | step in steps :: Lands(step)) && k <= |steps|
    ensures k <= InFlight(states[0]) - InFlight(states[k])
    ensures k <= InFlight(states[0])
  {
    InFlightNat(states[k]);
    if k > 0 {
      LandingRunsEnd(states, steps, k - 1);
      assert steps[k - 1] in steps;
      LandingIsLess(states[k - 1], steps[k - 1]);
    }
  }

  /** However the landing steps are chosen: when none is left, no task is running. */
  lemma StuckRunsNothing(s: World)
    requires Inv(s)
    ensures Stuck(s) ==> WithStatus(s.m.db.tasks, Running) == {}
  {
    if id :| id in WithStatus(s.m.db.tasks, Running) {
      var _ := RunningCanLand(s, id, Done);
    }
  }

  /** Every maximal run of landing steps from a reachable state is finite and ends with no task running. */
  lemma MaximalRunsDrain(s: World, states: seq<World>, steps: seq<Step>)
    requires Inv(s) && IsRun(states, steps) && states[0] == s && forall step | step in steps :: Lands(step)
    ensures |steps| <= InFlight(s)
    ensures Stuck(states[|steps|]) ==> WithStatus(states[|steps|].m.db.tasks, Running) == {}
  {
    LandingRunsEnd(states, steps, |steps|);
    InvAlong(states, steps, |steps|);
    StuckRunsNothing(states[|steps|]);
  }

  lemma LandFirst(s: World, step: Step, rest: seq<World>, restSteps: seq<Step>)
    returns (states: seq<World>, steps: seq<Step>)
    requires IsRun(rest, restSteps) && forall other | other in restSteps :: Lands(other)
    requires Enabled(s, step) && Lands(step) && rest[0] == Next(s, step)
    ensures IsRun(states, steps) && states[0] == s && forall other | other in steps :: Lands(other)
    ensures states[|steps|] == rest[|restSteps|]
  {
    RunPrepend(s, step, rest, restSteps);
    states, steps := [s] + rest, [step] + restSteps;
  }

  /** And such a run exists, whatever result the executions end with. */
  lemma {:induction false} CanDrain(s: World, status: Status) returns (states: seq<World>, steps: seq<Step>)
    requires Inv(s) && Finished(status)
    ensures IsRun(states, steps) && states[0] == s && forall step | step in steps :: Lands(step)
    ensures WithStatus(states[|steps|].m.db.tasks, Running) == {}
    decreases InFlight(s)
  {
    InFlightNat(s);
    if id :| id in WithStatus(s.m.db.tasks, Running) {
      var step := RunningCanLand(s, id, status);
      StepKeepsInv(s, step);
      InFlightNat(Next(s, step));
      states, steps := CanDrain(Next(s, step), status);
      states, steps := LandFirst(s, step, states, steps);
    } else {
      states, steps := [s], [];
    }
  }
}
