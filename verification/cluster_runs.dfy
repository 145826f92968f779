/** Runs of the whole cluster on which something goes wrong: why the theorems do not say more than they do. */
module ClusterRuns {
  import opened Common
  import opened Resources
  import opened TaskManagement
  import opened NodeRegistration
  import opened ClusterLedger
  import opened Wire
  import opened Cluster
  import CP = ControlPlaneProtocol
  import WS = WorkerService
  import FailureDetection

  // ---- One node with exactly the capacity one task asks for

  const NODE := NodeId(1)
  const WORKER := Server("worker:1", 0)

  function OneNode(request: Bag, incarnation: nat): NodeRecord {
    NodeRecord(NODE, WORKER.endpoint, request, request, map[], incarnation, Alive, 0, 0)
  }

  function OnNode(request: Bag, incarnation: nat, available: Bag): Registry {
    Registry(map[NODE := Stored(OneNode(request, incarnation).(schedulable := available), Pool(request, available))], [NODE])
  }

  function Joins(request: Bag, incarnation: nat): Act {
    ControlStep(CP.Node(FailureDetection.Register(OneNode(request, incarnation), 0)))
  }

  lemma OneNodeRegisters(request: Bag)
    requires Canonical(request)
    ensures RegisterAt(Registry(map[], []), OneNode(request, 1), 0).0 == OnNode(request, 1, request)
    ensures RegisterAt(OnNode(request, 1, map[]), OneNode(request, 2), 0).0 == OnNode(request, 2, request)
  {
  }

  lemma OneNodeReserves(request: Bag)
    requires Canonical(request)
    ensures var (r, chosen) := ReserveAt(OnNode(request, 1, request), request);
            && r == OnNode(request, 1, map[])
            && chosen.Some? && chosen.value.id == NODE && chosen.value.incarnation == 1
            && chosen.value.endpoint == WORKER.endpoint
  {
  }

  lemma OneNodeReleases(request: Bag)
    requires Canonical(request) && !Nothing(request)
    ensures ReleaseAt(OnNode(request, 1, map[]), NODE, request) == (OnNode(request, 1, request), Ok)
    ensures ReleaseAt(OnNode(request, 1, request), NODE, request) == (OnNode(request, 1, request), FailedPrecondition)
    ensures ReleaseAt(OnNode(request, 2, request), NODE, request).1 == FailedPrecondition
  {
    assert Plus(map[], request) == request;
    assert Lent(request, Pool(request, map[]));
    var r := OnNode(request, 1, map[]);
    assert WithPool(r.nodes[NODE], Pool(request, request)) == OnNode(request, 1, request).nodes[NODE];
    assert ReleaseAt(r, NODE, request).0.nodes == OnNode(request, 1, request).nodes;
    var n :| n in request;
    assert !Lent(request, Pool(request, request));
  }

  function OneIssue(e: ExecutionId, request: Bag): Issue {
    Issue(e, Lifetime(NODE, 1), request, WORKER.endpoint)
  }

  /** The task is placed and recorded, and its dispatch is under way. */
  function Placed(t: TaskId, e: ExecutionId, request: Bag): CP.Control {
    CP.START.(registry := OnNode(request, 1, map[]), records := map[t := CP.NewRecord(OneIssue(e, request))],
              calls := map[t := CP.Dispatching], issued := map[t := OneIssue(e, request)])
  }

  // ---- Building runs

  ghost predicate Reaches(states: seq<World>, acts: seq<Act>, s: World) {
    Run(states, acts) && states[|acts|] == s
  }

  lemma Extend(states: seq<World>, acts: seq<Act>, s: World, act: Act, s': World) returns (states': seq<World>, acts': seq<Act>)
    requires Reaches(states, acts, s) && Enabled(s, act) && Next(s, act) == s'
    ensures Reaches(states', acts', s') && states' == states + [s'] && acts' == acts + [act]
  {
    hide Enabled, Next;
    states', acts' := states + [s'], acts + [act];
    forall i | 0 <= i < |acts'|
      ensures Enabled(states'[i], acts'[i]) && states'[i+1] == Next(states'[i], acts'[i])
    {
      if i < |acts| {
        assert states'[i] == states[i] && states'[i+1] == states[i+1];
      }
    }
  }

  /** A step of the control plane that waits for no message. */
  lemma ControlMovesTo(states: seq<World>, acts: seq<Act>, s: World, a: CP.Act, c: CP.Control)
    returns (states': seq<World>, acts': seq<Act>)
    requires Reaches(states, acts, s) && CP.Enabled(s.control, a) && CP.Next(s.control, a) == c
    requires !a.Report? && !a.DispatchOk? && !a.CancelAccepted?
    ensures Reaches(states', acts', s.(control := c))
    ensures states' == states + [s.(control := c)] && acts' == acts + [ControlStep(a)]
  {
    hide CP.Enabled, CP.Next, Reaches;
    states', acts' := Extend(states, acts, s, ControlStep(a), s.(control := c));
  }

  /** A step of a worker process. */
  lemma ProcessMovesTo(states: seq<World>, acts: seq<Act>, s: World, p: Server, a: WS.Act, w': WS.Process)
    returns (states': seq<World>, acts': seq<Act>)
    requires Reaches(states, acts, s) && ProcessAllowed(s, p, a) && WS.Next(s.processes[p], a) == w'
    ensures Reaches(states', acts', s.(processes := s.processes[p := w'], net := Sent(s.net, ReplyOf(p, s.processes[p], a))))
  {
    hide WS.Enabled, WS.Next, Reaches, ReplyOf, Sent;
    var s' := s.(processes := s.processes[p := w'], net := Sent(s.net, ReplyOf(p, s.processes[p], a)));
    states', acts' := Extend(states, acts, s, ProcessStep(p, a), s');
  }

  /** A step of the worker process while it is the only one. */
  lemma WorkerMovesTo(states: seq<World>, acts: seq<Act>, s: World, w: WS.Process, a: WS.Act, w': WS.Process)
    returns (states': seq<World>, acts': seq<Act>)
    requires Reaches(states, acts, s) && s.processes == map[WORKER := w]
    requires ProcessAllowed(s, WORKER, a) && WS.Next(w, a) == w'
    ensures Reaches(states', acts', s.(processes := map[WORKER := w'], net := Sent(s.net, ReplyOf(WORKER, w, a))))
  {
    hide ProcessAllowed, WS.Enabled, WS.Next, Reaches, ReplyOf, Sent;
    assert s.processes[WORKER := w'] == map[WORKER := w'];
    states', acts' := ProcessMovesTo(states, acts, s, WORKER, a, w');
  }

  lemma PlacedIsReached(t: TaskId, e: ExecutionId, request: Bag) returns (states: seq<World>, acts: seq<Act>)
    requires Canonical(request)
    ensures Reaches(states, acts, World(Placed(t, e, request), {}, map[]))
  {
    hide RegisterAt, ReserveAt, Canonical, OnNode, CP.NewRecord, Reaches;
    OneNodeRegisters(request);
    OneNodeReserves(request);
    states, acts := Started();
    var s := World(CP.START, {}, map[]);
    var c1 := CP.START.(registry := OnNode(request, 1, request));
    states, acts := ControlMovesTo(states, acts, s, Joins(request, 1).a, c1);
    var c2 := c1.(registry := OnNode(request, 1, map[]), calls := map[t := CP.Reserving], issued := map[t := OneIssue(e, request)]);
    states, acts := ControlMovesTo(states, acts, s.(control := c1), CP.Reserve(t, e, request), c2);
    assert c2.calls[t := CP.Dispatching] == map[t := CP.Dispatching];
    states, acts := ControlMovesTo(states, acts, s.(control := c2), CP.Record(t), Placed(t, e, request));
  }

  lemma Started() returns (states: seq<World>, acts: seq<Act>)
    ensures Reaches(states, acts, World(CP.START, {}, map[]))
  {
    states, acts := [World(CP.START, {}, map[])], [];
  }

  /** The worker process has claimed the execution: the launch reached it once. */
  function Claiming(t: TaskId, e: ExecutionId, request: Bag): WS.Process {
    WS.NEW_PROCESS.(executions := map[e := WS.Admission(t, OK)], taskExecutions := map[t := e],
                    launching := map[e := WS.Claimed(t, request)])
  }

  function LaunchIs(t: TaskId, e: ExecutionId, request: Bag): Msg {
    Launch(WORKER.endpoint, t, e, request)
  }

  lemma ClaimIsReached(t: TaskId, e: ExecutionId, request: Bag) returns (states: seq<World>, acts: seq<Act>)
    requires Canonical(request)
    ensures Reaches(states, acts, World(Placed(t, e, request), {LaunchIs(t, e, request)}, map[WORKER := Claiming(t, e, request)]))
  {
    hide Canonical, OnNode, CP.NewRecord, Reaches;
    states, acts := PlacedIsReached(t, e, request);
    var c := Placed(t, e, request);
    var net := {LaunchIs(t, e, request)};
    assert {} + net == net;
    states, acts := Extend(states, acts, World(c, {}, map[]), SendLaunch(t), World(c, net, map[]));
    var s := World(c, net, map[WORKER := WS.NEW_PROCESS]);
    states, acts := Extend(states, acts, World(c, net, map[]), StartProcess(WORKER), s);
    states, acts := WorkerMovesTo(states, acts, s, WS.NEW_PROCESS, WS.Deliver(t, e, request), Claiming(t, e, request));
  }

  // ---- A submission that succeeds for a task no worker has

  /** The launch was refused, after a copy of it had been answered from the placeholder. */
  function Refusing(t: TaskId, e: ExecutionId, refusal: Status): WS.Process {
    WS.NEW_PROCESS.(executions := map[e := WS.Admission(t, refusal)], taskExecutions := map[t := e], submits := [e])
  }

  /** What the placeholder makes of a copy that arrives in the meantime. */
  function EarlyOk(t: TaskId, e: ExecutionId): Msg {
    LaunchReply(WORKER, t, e, StatusToProto(OK), EarlyReplay)
  }

  lemma EarlyOkIsReached(t: TaskId, e: ExecutionId, request: Bag) returns (states: seq<World>, acts: seq<Act>)
    requires Canonical(request)
    ensures Reaches(states, acts,
                    World(Placed(t, e, request), {LaunchIs(t, e, request), EarlyOk(t, e)}, map[WORKER := Claiming(t, e, request)]))
  {
    hide Canonical, Placed, Reaches, StatusToProto;
    states, acts := ClaimIsReached(t, e, request);
    var w := Claiming(t, e, request);
    var s := World(Placed(t, e, request), {LaunchIs(t, e, request)}, map[WORKER := w]);
    states, acts := WorkerMovesTo(states, acts, s, w, WS.Deliver(t, e, request), w);
    assert s.net + {EarlyOk(t, e)} == {LaunchIs(t, e, request), EarlyOk(t, e)};
  }

  lemma RefusalIsReached(t: TaskId, e: ExecutionId, request: Bag, refusal: Status)
    returns (states: seq<World>, acts: seq<Act>, net: set<Msg>)
    requires Canonical(request) && refusal.code != Ok
    ensures Reaches(states, acts, World(Placed(t, e, request), net, map[WORKER := Refusing(t, e, refusal)])) && EarlyOk(t, e) in net
  {
    hide Canonical, Placed, Reaches, StatusToProto;
    states, acts := EarlyOkIsReached(t, e, request);
    var w := Claiming(t, e, request);
    net := {LaunchIs(t, e, request), EarlyOk(t, e)};
    var s := World(Placed(t, e, request), net, map[WORKER := w]);
    var w1 := w.(launching := map[e := WS.Crossed(t, refusal)], submits := [e]);
    states, acts := WorkerMovesTo(states, acts, s, w, WS.Cross(e, Some(refusal)), w1);
    s := s.(processes := map[WORKER := w1]);
    states, acts := WorkerMovesTo(states, acts, s, w1, WS.Store(e), Refusing(t, e, refusal));
    net := Sent(net, ReplyOf(WORKER, w1, WS.Store(e)));
  }

  /**
   * A redelivered launch overtakes the original's admission and is told OK; that answer reaches SubmitTask, which succeeds.
   * The original is refused: no process has the task, and its record stays open.
   */
  lemma SubmitSucceedsForNobody(t: TaskId, e: ExecutionId, request: Bag, refusal: Status)
    returns (states: seq<World>, acts: seq<Act>)
    requires Canonical(request) && refusal.code != Ok
    ensures Run(states, acts) && acts != [] && acts[|acts|-1] == ControlStep(CP.DispatchOk(t))
    ensures var s := states[|acts|];
            && CP.IsOpen(s.control, t) && t !in s.control.calls
            && (forall p :: p in s.processes ==> t !in s.processes[p].tasks)
            && WORKER in s.processes && WS.Reply(s.processes[WORKER].executions, t, e) == Some(refusal)
  {
    hide Canonical, OnNode, StatusToProto, StatusFromProto, Run;
    var net;
    states, acts, net := RefusalIsReached(t, e, request, refusal);
    var s := World(Placed(t, e, request), net, map[WORKER := Refusing(t, e, refusal)]);
    CodeSurvives(OK);
    assert IsOkReply(EarlyOk(t, e), t);
    var c := s.control.(calls := map[]);
    assert s.control.calls - {t} == map[];
    states, acts := Extend(states, acts, s, ControlStep(CP.DispatchOk(t)), s.(control := c));
  }

  // ---- Reports that the registry refuses, and rollbacks that it refuses

  const SLOT := WorkerId(1)
  const LOCAL := ExecutionId(1)

  /** The task's record in the worker process after a number of lifecycle steps. */
  function Ran(request: Bag, state: ExecutionState, attempt: nat, o: Outcome): TaskRecord {
    TaskRecord(request, state, if attempt == 0 then None else Some(SLOT), attempt, if attempt == 0 then None else Some(LOCAL), false,
               o.status, o.result)
  }

  const NOTHING_YET := Outcome(OK, "")

  /** The worker process while its one accepted task goes through its life. */
  function Serving(t: TaskId, e: ExecutionId, r: TaskRecord): WS.Process {
    WS.NEW_PROCESS.(executions := map[e := WS.Admission(t, OK)], taskExecutions := map[t := e], tasks := map[t := r], submits := [e],
                    started := if 3 <= Rank(r.state) then [t] else [],
                    completions := if IsTerminal(r.state) then [EventOf(t, r)] else [])
  }

  function Done(request: Bag, o: Outcome): TaskRecord {
    Ran(request, TerminalFor(o.status), 1, o)
  }

  /** The launch has crossed Runtime::Submit and its verdict is not stored yet. */
  function Accepting(t: TaskId, e: ExecutionId, request: Bag, r: TaskRecord): WS.Process {
    Claiming(t, e, request).(launching := map[e := WS.Crossed(t, OK)], submits := [e], tasks := map[t := r])
  }

  lemma Crosses(t: TaskId, e: ExecutionId, request: Bag, r: TaskRecord)
    requires r == Ran(request, Queued, 0, NOTHING_YET)
    ensures WS.Next(Claiming(t, e, request), WS.Cross(e, None)) == Accepting(t, e, request, r)
  {
  }

  lemma AcceptanceIsReached(t: TaskId, e: ExecutionId, request: Bag) returns (states: seq<World>, acts: seq<Act>, net: set<Msg>)
    requires Canonical(request)
    ensures Reaches(states, acts, World(Placed(t, e, request), net, map[WORKER := Serving(t, e, Ran(request, Queued, 0, NOTHING_YET))]))
    ensures LaunchIs(t, e, request) in net && LaunchReply(WORKER, t, e, StatusToProto(OK), Original) in net
  {
    hide Canonical, Placed, Reaches, StatusToProto;
    states, acts := ClaimIsReached(t, e, request);
    var w := Claiming(t, e, request);
    net := {LaunchIs(t, e, request)};
    var s := World(Placed(t, e, request), net, map[WORKER := w]);
    var r := Ran(request, Queued, 0, NOTHING_YET);
    var w1 := Accepting(t, e, request, r);
    Crosses(t, e, request, r);
    states, acts := WorkerMovesTo(states, acts, s, w, WS.Cross(e, None), w1);
    s := s.(processes := map[WORKER := w1]);
    states, acts := WorkerMovesTo(states, acts, s, w1, WS.Store(e), Serving(t, e, r));
    net := Sent(net, ReplyOf(WORKER, w1, WS.Store(e)));
  }

  lemma Schedules(t: TaskId, e: ExecutionId, request: Bag)
    ensures WS.Next(Serving(t, e, Ran(request, Queued, 0, NOTHING_YET)), WS.RuntimeCall(MarkScheduled(t, SLOT, LOCAL)))
            == Serving(t, e, Ran(request, Scheduled, 1, NOTHING_YET))
  {
  }

  lemma Starts(t: TaskId, e: ExecutionId, request: Bag)
    ensures WS.Next(Serving(t, e, Ran(request, Scheduled, 1, NOTHING_YET)), WS.RuntimeCall(MarkRunning(t)))
            == Serving(t, e, Ran(request, Running, 1, NOTHING_YET))
  {
  }

  lemma Completes(t: TaskId, e: ExecutionId, request: Bag, o: Outcome)
    requires WellFormed(o.status)
    ensures WS.Next(Serving(t, e, Ran(request, Running, 1, NOTHING_YET)), WS.RuntimeCall(Complete(t, o)))
            == Serving(t, e, Done(request, o))
  {
  }

  lemma CompletionIsReached(t: TaskId, e: ExecutionId, request: Bag, o: Outcome)
    returns (states: seq<World>, acts: seq<Act>, net: set<Msg>)
    requires Canonical(request) && WellFormed(o.status)
    ensures Reaches(states, acts, World(Placed(t, e, request), net, map[WORKER := Serving(t, e, Done(request, o))]))
  {
    hide Canonical, Placed, Reaches, StatusToProto, Serving, Done, Ran, WS.Next;
    states, acts, net := AcceptanceIsReached(t, e, request);
    Schedules(t, e, request);
    Starts(t, e, request);
    Completes(t, e, request, o);
    var c := Placed(t, e, request);
    var w0 := Serving(t, e, Ran(request, Queued, 0, NOTHING_YET));
    var w1 := Serving(t, e, Ran(request, Scheduled, 1, NOTHING_YET));
    var w2 := Serving(t, e, Ran(request, Running, 1, NOTHING_YET));
    var w3 := Serving(t, e, Done(request, o));
    states, acts := WorkerMovesTo(states, acts, World(c, net, map[WORKER := w0]), w0, WS.RuntimeCall(MarkScheduled(t, SLOT, LOCAL)), w1);
    states, acts := WorkerMovesTo(states, acts, World(c, net, map[WORKER := w1]), w1, WS.RuntimeCall(MarkRunning(t)), w2);
    states, acts := WorkerMovesTo(states, acts, World(c, net, map[WORKER := w2]), w2, WS.RuntimeCall(Complete(t, o)), w3);
  }

  lemma ReportIsReached(t: TaskId, e: ExecutionId, request: Bag, o: Outcome)
    returns (states: seq<World>, acts: seq<Act>, net: set<Msg>, m: Msg)
    requires Canonical(request) && WellFormed(o.status)
    ensures Reaches(states, acts, World(Placed(t, e, request), net, map[WORKER := Serving(t, e, Done(request, o))]))
    ensures m in net && m.TaskReport? && m.task == t && m.execution == e && IsFinal(Received(m).state)
  {
    hide Canonical, Placed, Reaches, StatusToProto, StatusFromProto;
    states, acts, net := CompletionIsReached(t, e, request, o);
    var w := Serving(t, e, Done(request, o));
    var s := World(Placed(t, e, request), net, map[WORKER := w]);
    m := ReportOf(WORKER, w, 0);
    states, acts := Extend(states, acts, s, SendReport(WORKER, 0), s.(net := net + {m}));
    net := net + {m};
  }

  /**
   * The worker runs the task and its report settles the record, but every answer to the launch is lost: SubmitTask's
   * rollback erases the finished record, and the release it makes fails.
   */
  lemma LostRepliesBreakRollback(t: TaskId, e: ExecutionId, request: Bag, o: Outcome) returns (states: seq<World>, acts: seq<Act>)
    requires Canonical(request) && !Nothing(request) && WellFormed(o.status)
    ensures Run(states, acts) && 2 < |acts| && acts[|acts|-1] == ControlStep(CP.Rollback(t))
    ensures var s := states[|acts|];
            && s.control.failedReleases == 1 && t !in s.control.records && t !in s.control.calls
            && WORKER in s.processes && t in s.processes[WORKER].tasks && s.processes[WORKER].tasks[t] == Done(request, o)
  {
    hide Canonical, OnNode, StatusToProto, StatusFromProto, Reaches, ReleaseAt, Received, Done;
    OneNodeReleases(request);
    var net, m;
    states, acts, net, m := ReportIsReached(t, e, request, o);
    var c, w := Placed(t, e, request), Serving(t, e, Done(request, o));
    var d := c.records[t];
    var c1 := c.(registry := OnNode(request, 1, request), records := map[t := CP.Committed(d, Received(m))], freed := [t]);
    assert c.records[t := CP.Committed(d, Received(m))] == c1.records;
    var s := World(c, net, map[WORKER := w]);
    states, acts := Extend(states, acts, s, ReceiveReport(m), s.(control := c1));
    var c2 := c1.(records := map[], calls := map[t := CP.RollingBack(false)]);
    assert c1.calls[t := CP.RollingBack(false)] == c2.calls && c1.records - {t} == map[];
    states, acts := ControlMovesTo(states, acts, s.(control := c1), CP.DispatchFails(t), c2);
    var c3 := c2.(calls := map[], failedReleases := 1);
    assert c2.calls - {t} == map[];
    states, acts := ControlMovesTo(states, acts, s.(control := c2), CP.Rollback(t), c3);
    EndOf(states, acts, s.(control := c3));
  }

  lemma EndOf(states: seq<World>, acts: seq<Act>, s: World)
    requires Reaches(states, acts, s)
    ensures Run(states, acts) && states[|acts|] == s
  {
  }

  /**
   * The worker has run the task and sends its report, but registers its next incarnation before the report arrives: the
   * report is refused and the record stays open.
   */
  lemma RestartBreaksReport(t: TaskId, e: ExecutionId, request: Bag, o: Outcome) returns (states: seq<World>, acts: seq<Act>)
    requires Canonical(request) && !Nothing(request) && WellFormed(o.status)
    ensures Run(states, acts) && 0 < |acts| && acts[|acts|-1].ReceiveReport? && acts[|acts|-1].report.execution == e
    ensures var s := states[|acts|];
            && s.control.failedReleases == 1 && CP.IsOpen(s.control, t)
            && WORKER in s.processes && t in s.processes[WORKER].tasks && s.processes[WORKER].tasks[t] == Done(request, o)
  {
    hide Canonical, OnNode, StatusToProto, StatusFromProto, Reaches, ReleaseAt, RegisterAt, Received, Done;
    OneNodeReleases(request);
    OneNodeRegisters(request);
    var net, m;
    states, acts, net, m := ReportIsReached(t, e, request, o);
    var c, w := Placed(t, e, request), Serving(t, e, Done(request, o));
    var s := World(c, net, map[WORKER := w]);
    var c1 := c.(registry := OnNode(request, 2, request));
    states, acts := ControlMovesTo(states, acts, s, Joins(request, 2).a, c1);
    var c2 := c1.(failedReleases := 1);
    states, acts := Extend(states, acts, s.(control := c1), ReceiveReport(m), s.(control := c2));
    EndOf(states, acts, s.(control := c2));
  }

  /**
   * The node is removed and registers again under the same incarnation while the task is held on it: its pool is full, and
   * the report is refused although the node runs the very lifetime the task was placed on and no release has failed.
   */
  lemma RemovalBreaksReport(t: TaskId, e: ExecutionId, request: Bag, o: Outcome) returns (states: seq<World>, acts: seq<Act>)
    requires Canonical(request) && !Nothing(request) && WellFormed(o.status)
    ensures Run(states, acts) && 2 < |acts| && acts[|acts|-1].ReceiveReport? && acts[|acts|-2] == Joins(request, 1)
    ensures acts[|acts|-3] == ControlStep(CP.Node(FailureDetection.Remove(NODE, 1)))
    ensures var c, c' := states[|acts|-1].control, states[|acts|].control;
            && CP.IsOpen(c, t) && Current(c.registry, c.records[t].life) && c.failedReleases == 0
            && c'.failedReleases == 1 && CP.IsOpen(c', t)
  {
    hide Canonical, OnNode, StatusToProto, StatusFromProto, Reaches, ReleaseAt, RegisterAt, RemoveAt, Received, Done;
    OneNodeReleases(request);
    OneNodeRegisters(request);
    OneNodeLeaves(request);
    var net, m;
    states, acts, net, m := ReportIsReached(t, e, request, o);
    var c, w := Placed(t, e, request), Serving(t, e, Done(request, o));
    var s := World(c, net, map[WORKER := w]);
    var c1 := c.(registry := Registry(map[], []));
    states, acts := ControlMovesTo(states, acts, s, CP.Node(FailureDetection.Remove(NODE, 1)), c1);
    var c2 := c.(registry := OnNode(request, 1, request));
    states, acts := ControlMovesTo(states, acts, s.(control := c1), Joins(request, 1).a, c2);
    EndOf(states, acts, s.(control := c2));
    var c3 := c2.(failedReleases := 1);
    states, acts := Extend(states, acts, s.(control := c2), ReceiveReport(m), s.(control := c3));
    EndOf(states, acts, s.(control := c3));
  }

  lemma OneNodeLeaves(request: Bag)
    ensures RemoveAt(OnNode(request, 1, map[]), NODE, 1).0 == Registry(map[], [])
    ensures Current(OnNode(request, 1, request), Lifetime(NODE, 1))
  {
    assert Without([NODE], {NODE}) == [] by {
      assert [NODE][..0] == [];
    }
  }

  // ---- A sweep that gives up

  /** The node once a scan has found it silent for too long. */
  function Silent(request: Bag): Registry {
    var node := OneNode(request, 1).(schedulable := map[], state := Dead);
    Registry(map[NODE := Stored(node, Pool(request, map[]))], [NODE])
  }

  lemma OneNodeDies(request: Bag, now: int, suspectAfter: int, deadAfter: int)
    requires Canonical(request) && ValidTimeouts(suspectAfter, deadAfter) && deadAfter <= now
    ensures ScanAt(OnNode(request, 1, map[]), now, suspectAfter, deadAfter) == Silent(request)
    ensures ScanReports(OnNode(request, 1, map[]), now, suspectAfter, deadAfter) == [Lifetime(NODE, 1)]
    ensures RegisterAt(Silent(request), OneNode(request, 2), 0).0 == OnNode(request, 2, request)
  {
    var r := OnNode(request, 1, map[]);
    assert r.order[..|r.order|-1] == [] && Dies(r, NODE, now, deadAfter);
    assert NewlyDead(r, [], now, deadAfter) == [];
    assert NewlyDead(r, r.order, now, deadAfter) == [Lifetime(NODE, 1)];
  }

  /**
   * A scan reports the node dead, and before HandleNodeDead takes the lock the node's next incarnation registers: the first
   * orphan's release fails, the sweep is abandoned, and the orphan stays open.
   */
  lemma RestartAbortsSweep(t: TaskId, e: ExecutionId, request: Bag, now: int, suspectAfter: int, deadAfter: int)
    returns (states: seq<World>, acts: seq<Act>, k: nat)
    requires Canonical(request) && !Nothing(request) && ValidTimeouts(suspectAfter, deadAfter) && deadAfter <= now
    ensures Run(states, acts) && k + 4 == |acts|
    ensures acts[k] == ControlStep(CP.Node(FailureDetection.Scan(now, suspectAfter, deadAfter)))
    ensures ScanReports(states[k].control.registry, now, suspectAfter, deadAfter) == [Lifetime(NODE, 1)]
    ensures acts[k+1..] == [Joins(request, 2), ControlStep(CP.DeadBegins(Lifetime(NODE, 1))), ControlStep(CP.DeadVisits(t))]
    ensures var c := states[|acts|].control;
            c.sweep == None && c.failedReleases == 1 && CP.IsOpen(c, t) && c.records[t].life == Lifetime(NODE, 1)
  {
    hide Canonical, OnNode, Reaches, ReleaseAt, RegisterAt, ScanAt, ScanReports;
    OneNodeReleases(request);
    OneNodeDies(request, now, suspectAfter, deadAfter);
    states, acts := PlacedIsReached(t, e, request);
    var c := Placed(t, e, request);
    var s := World(c, {}, map[]);
    EndOf(states, acts, s);
    k := |acts|;
    var c1 := c.(registry := Silent(request));
    states, acts := ControlMovesTo(states, acts, s, CP.Node(FailureDetection.Scan(now, suspectAfter, deadAfter)), c1);
    var c2 := c.(registry := OnNode(request, 2, request));
    states, acts := ControlMovesTo(states, acts, s.(control := c1), Joins(request, 2).a, c2);
    var c3 := c2.(sweep := Some(CP.Sweep(Lifetime(NODE, 1), {t}, c2.records)));
    assert c2.records.Keys == {t};
    states, acts := ControlMovesTo(states, acts, s.(control := c2), CP.DeadBegins(Lifetime(NODE, 1)), c3);
    var c4 := c2.(failedReleases := 1);
    states, acts := ControlMovesTo(states, acts, s.(control := c3), CP.DeadVisits(t), c4);
    EndOf(states, acts, s.(control := c4));
  }

  // ---- A restart that submits again

  /** A second process at the same endpoint knows nothing of the first one's ledger, and a copy of the launch reaches it too. */
  lemma RestartSubmitsAgain(t: TaskId, e: ExecutionId, request: Bag) returns (states: seq<World>, acts: seq<Act>, again: Server)
    requires Canonical(request)
    ensures Run(states, acts) && again != WORKER && again.endpoint == WORKER.endpoint
    ensures var s := states[|acts|];
            && WORKER in s.processes && again in s.processes
            && e in s.processes[WORKER].submits && e in s.processes[again].submits
            && t in s.processes[WORKER].tasks && t in s.processes[again].tasks
  {
    hide Canonical, Placed, Reaches, StatusToProto;
    var net;
    states, acts, net := AcceptanceIsReached(t, e, request);
    var c := Placed(t, e, request);
    var r := Ran(request, Queued, 0, NOTHING_YET);
    again := Server(WORKER.endpoint, 1);
    var s := World(c, net, map[WORKER := Serving(t, e, r)]);
    var s1 := s.(processes := s.processes[again := WS.NEW_PROCESS]);
    states, acts := Extend(states, acts, s, StartProcess(again), s1);
    var s2 := s.(processes := s.processes[again := Claiming(t, e, request)]);
    assert s1.processes[again := Claiming(t, e, request)] == s2.processes;
    states, acts := ProcessMovesTo(states, acts, s1, again, WS.Deliver(t, e, request), Claiming(t, e, request));
    Crosses(t, e, request, r);
    states, acts := ProcessMovesTo(states, acts, s2, again, WS.Cross(e, None), Accepting(t, e, request, r));
    EndOf(states, acts, s2.(processes := s2.processes[again := Accepting(t, e, request, r)]));
  }
}
