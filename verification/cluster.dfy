/**
 * The whole cluster: one control plane, any number of worker processes, and a network that loses, duplicates and
 * reorders. The network is the set of all messages ever sent: a message may be received never, once, or many times, at
 * any later moment. Requests go to an endpoint and reach whichever processes listen there, a restarted worker included.
 */
module Cluster {
  import opened Common
  import opened Resources
  import opened TaskManagement
  import opened NodeRegistration
  import opened ClusterLedger
  import opened Wire
  import CP = ControlPlaneProtocol
  import CI = ControlPlaneInvariant
  import CB = ControlPlaneBooks
  import CT = ControlPlaneTheorems
  import WS = WorkerService
  import FailureDetection

  /** A worker process: the endpoint it listens at, and which of the processes started there it is. */
  datatype Server = Server(endpoint: string, start: nat)

  /** Who gave an answer to a launch: the call that claimed the execution, or a replay before or after its verdict was stored. */
  datatype Origin = Original | EarlyReplay | LateReplay

  datatype Msg =
    | Launch(to: string, task: TaskId, execution: ExecutionId, request: Bag)
    | LaunchReply(from: Server, task: TaskId, execution: ExecutionId, status: WireStatus, origin: Origin)
    | CancelRequest(to: string, task: TaskId, execution: ExecutionId)
    | CancelReply(from: Server, task: TaskId, execution: ExecutionId, code: StatusCode)
    | TaskReport(from: Server, task: TaskId, execution: ExecutionId, state: int, status: WireStatus, result: string)

  datatype World = World(control: CP.Control, net: set<Msg>, processes: map<Server, WS.Process>)

  datatype Act =
    | ControlStep(a: CP.Act)
    | SendLaunch(task: TaskId)                                               // one attempt of DispatchTask
    | SendCancel(task: TaskId)                                               // the RPC of CancelTask
    | StartProcess(process: Server)
    | ProcessStep(process: Server, p: WS.Act)                                // with the reply to a launch, if it gives one
    | AnswerCancel(process: Server, task: TaskId, execution: ExecutionId)    // Runtime::Cancel and the reply
    | SendReport(process: Server, completion: nat)                           // the completion callback
    | ReceiveReport(report: Msg)

  const MEDIA := "text/plain"

  /** What ControlServiceImpl makes of a report on the wire. */
  function Received(m: Msg): CP.Verdict
    requires m.TaskReport?
  {
    CP.Verdict(StateFromProto(m.state), StatusFromProto(m.status), m.result, MEDIA)
  }

  /** An OK answer to the launch of `t`. */
  predicate IsOkReply(m: Msg, t: TaskId) {
    m.LaunchReply? && m.task == t && StatusFromProto(m.status).code == Ok
  }

  /** Reports reach the control plane only through the network; OK only as an answer to that very execution. */
  predicate ControlAllowed(s: World, a: CP.Act) {
    && CP.Enabled(s.control, a)
    && !a.Report?
    && (a.DispatchOk? ==>
          a.task in s.control.issued &&
          exists m :: m in s.net && IsOkReply(m, a.task) && m.execution == s.control.issued[a.task].execution)
    && (a.CancelAccepted? ==>
          exists m :: m in s.net && m.CancelReply? && m.task == a.task && m.execution == s.control.cancelling[a.task] && m.code == Ok)
  }

  /** Launches and cancellations reach a process only through the network, at its endpoint. */
  predicate ProcessAllowed(s: World, p: Server, a: WS.Act) {
    && p in s.processes && WS.Enabled(s.processes[p], a)
    && (a.Deliver? ==> Launch(p.endpoint, a.task, a.execution, a.request) in s.net)
    && (a.CheckCancel? ==> CancelRequest(p.endpoint, a.task, a.execution) in s.net)
    && !a.ApplyCancel?
  }

  predicate Enabled(s: World, act: Act) {
    match act
    case ControlStep(a) => ControlAllowed(s, a)
    case SendLaunch(t) => t in s.control.calls && s.control.calls[t].Dispatching? && t in s.control.issued
    case SendCancel(t) =>
      && t in s.control.cancelling && t in s.control.issued
      && CP.Route(s.control.registry, s.control.issued[t].life) == Ok && s.control.issued[t].life.node in s.control.registry.nodes
    case StartProcess(p) => p !in s.processes
    case ProcessStep(p, a) => ProcessAllowed(s, p, a)
    case AnswerCancel(p, t, e) =>
      p in s.processes && WS.Enabled(s.processes[p], WS.ApplyCancel(t, e))
    case SendReport(p, k) =>
      && p in s.processes && k < |s.processes[p].completions|
      && s.processes[p].completions[k].task in s.processes[p].taskExecutions
    case ReceiveReport(m) => m in s.net && m.TaskReport? && s.control.sweep.None?
  }

  /** The answer a process gives in one step of LaunchTask, if that step gives one. */
  function ReplyOf(p: Server, process: WS.Process, a: WS.Act): Option<Msg>
    requires WS.Enabled(process, a)
  {
    match a
    case Deliver(t, e, _) =>
      var replay := WS.Reply(process.executions, t, e);
      if replay.None? then None
      else Some(LaunchReply(p, t, e, StatusToProto(replay.value), if e in process.launching then EarlyReplay else LateReplay))
    case Store(e) => Some(LaunchReply(p, process.launching[e].task, e, StatusToProto(process.launching[e].status), Original))
    case _ => None
  }

  function Sent(net: set<Msg>, m: Option<Msg>): set<Msg> {
    if m.Some? then net + {m.value} else net
  }

  function LaunchOf(c: CP.Control, t: TaskId): Msg
    requires t in c.issued
  {
    Launch(c.issued[t].endpoint, t, c.issued[t].execution, c.issued[t].request)
  }

  /** The report the completion callback sends for one completion. */
  function ReportOf(p: Server, process: WS.Process, k: nat): Msg
    requires k < |process.completions| && process.completions[k].task in process.taskExecutions
  {
    var c := process.completions[k];
    TaskReport(p, c.task, process.taskExecutions[c.task], StateToProto(c.state), StatusToProto(c.status), c.result)
  }

  function Next(s: World, act: Act): World
    requires Enabled(s, act)
  {
    match act
    case ControlStep(a) => s.(control := CP.Next(s.control, a))
    case SendLaunch(t) => s.(net := s.net + {LaunchOf(s.control, t)})
    case SendCancel(t) =>
      var node := s.control.registry.nodes[s.control.issued[t].life.node].record;
      s.(net := s.net + {CancelRequest(node.endpoint, t, s.control.cancelling[t])})
    case StartProcess(p) => s.(processes := s.processes[p := WS.NEW_PROCESS])
    case ProcessStep(p, a) =>
      s.(processes := s.processes[p := WS.Next(s.processes[p], a)], net := Sent(s.net, ReplyOf(p, s.processes[p], a)))
    case AnswerCancel(p, t, e) =>
      var code := CancelledTask(s.processes[p].tasks, t).code;
      s.(processes := s.processes[p := WS.Next(s.processes[p], WS.ApplyCancel(t, e))], net := s.net + {CancelReply(p, t, e, code)})
    case SendReport(p, k) => s.(net := s.net + {ReportOf(p, s.processes[p], k)})
    case ReceiveReport(m) => s.(control := CP.Next(s.control, CP.Report(m.task, m.execution, Received(m))))
  }

  ghost predicate Run(states: seq<World>, acts: seq<Act>) {
    && |states| == |acts| + 1
    && states[0] == World(CP.START, {}, map[])
    && forall i :: 0 <= i < |acts| ==> Enabled(states[i], acts[i]) && states[i+1] == Next(states[i], acts[i])
  }

  // ---- What is true of every message and every record

  /** `process` committed `t` with exactly this verdict. */
  predicate CommittedAs(process: WS.Process, t: TaskId, v: CP.Verdict) {
    && t in process.tasks && IsTerminal(process.tasks[t].state)
    && v == CP.Verdict(StateFromProto(StateToProto(process.tasks[t].state)), process.tasks[t].terminalStatus,
                       process.tasks[t].result, MEDIA)
  }

  predicate TokenSet(process: WS.Process, t: TaskId) {
    t in process.tasks && process.tasks[t].cancelToken
  }

  predicate IssuedAs(issued: map<TaskId, Issue>, t: TaskId, e: ExecutionId) {
    t in issued && issued[t].execution == e
  }

  /** What an answer to a launch says about its sender: it knows the execution, and any but an early replay tells the verdict. */
  predicate ReplyOk(process: WS.Process, t: TaskId, e: ExecutionId, code: StatusCode, origin: Origin) {
    && e in process.executions && process.executions[e].task == t
    && if origin.EarlyReplay? then code == Ok else e !in process.launching && process.executions[e].status.code == code
  }

  predicate MsgOk(issued: map<TaskId, Issue>, processes: map<Server, WS.Process>, m: Msg) {
    && IssuedAs(issued, m.task, m.execution)
    && match m
       case Launch(to, t, e, request) => issued[t].endpoint == to
       case LaunchReply(p, t, e, status, origin) =>
         p in processes && ReplyOk(processes[p], t, e, StatusFromProto(status).code, origin)
       case CancelRequest(to, t, e) => true
       case CancelReply(p, t, e, code) => code == Ok ==> p in processes && TokenSet(processes[p], t)
       case TaskReport(p, t, e, state, status, result) =>
         p in processes && CommittedAs(processes[p], t, Received(m))
  }

  ghost predicate NetOk(issued: map<TaskId, Issue>, processes: map<Server, WS.Process>, net: set<Msg>) {
    forall m :: m in net ==> MsgOk(issued, processes, m)
  }

  ghost predicate RecordOk(processes: map<Server, WS.Process>, t: TaskId, d: CP.DRecord) {
    && (IsFinal(d.state) ==> CP.VerdictOf(d) == CP.LOST
                             || exists p :: p in processes && CommittedAs(processes[p], t, CP.VerdictOf(d)))
    && (d.state.DCancelRequested? ==> exists p :: p in processes && TokenSet(processes[p], t))
  }

  ghost predicate RecordsOk(processes: map<Server, WS.Process>, ds: CP.Records) {
    forall t :: t in ds ==> RecordOk(processes, t, ds[t])
  }

  ghost predicate StatusesOk(tasks: Tasks) {
    forall t :: t in tasks ==> WellFormed(tasks[t].terminalStatus)
  }

  /** A process knows only executions the control plane issued for its endpoint, each bound to its own task. */
  ghost predicate Bound(issued: map<TaskId, Issue>, endpoint: string, process: WS.Process) {
    forall e :: e in process.executions ==>
      IssuedAs(issued, process.executions[e].task, e) && issued[process.executions[e].task].endpoint == endpoint
  }

  ghost predicate ProcessesOk(issued: map<TaskId, Issue>, processes: map<Server, WS.Process>) {
    forall p :: p in processes ==>
      WS.ProcessOk(processes[p]) && StatusesOk(processes[p].tasks) && Bound(issued, p.endpoint, processes[p])
  }

  ghost predicate WorldOk(s: World) {
    && CI.ShapeHolds(s.control)
    && ProcessesOk(s.control.issued, s.processes)
    && NetOk(s.control.issued, s.processes, s.net)
    && RecordsOk(s.processes, s.control.records)
  }

  // ---- Growth

  ghost predicate ProcessesGrow(processes: map<Server, WS.Process>, processes': map<Server, WS.Process>) {
    forall p :: p in processes ==> p in processes' && WS.Grows(processes[p], processes'[p])
  }

  predicate IssuedGrow(issued: map<TaskId, Issue>, issued': map<TaskId, Issue>) {
    forall t :: t in issued ==> t in issued' && issued'[t] == issued[t]
  }

  lemma NetStaysOk(issued: map<TaskId, Issue>, issued': map<TaskId, Issue>,
                   processes: map<Server, WS.Process>, processes': map<Server, WS.Process>, net: set<Msg>)
    requires NetOk(issued, processes, net) && IssuedGrow(issued, issued') && ProcessesGrow(processes, processes')
    ensures NetOk(issued', processes', net)
  {
  }

  lemma RecordsStayOk(processes: map<Server, WS.Process>, processes': map<Server, WS.Process>, ds: CP.Records)
    requires RecordsOk(processes, ds) && ProcessesGrow(processes, processes')
    ensures RecordsOk(processes', ds)
  {
  }

  lemma NothingGrows(processes: map<Server, WS.Process>)
    ensures ProcessesGrow(processes, processes)
  {
  }

  lemma OneGrows(processes: map<Server, WS.Process>, p: Server, process': WS.Process)
    requires p in processes ==> WS.Grows(processes[p], process')
    ensures ProcessesGrow(processes, processes[p := process'])
  {
  }

  // ---- Steps of the control plane

  lemma ControlIssuedGrow(c: CP.Control, a: CP.Act)
    requires CP.Enabled(c, a)
    ensures IssuedGrow(c.issued, CP.Next(c, a).issued)
  {
    hide CP.Enabled, CP.Next;
    CI.NextIssues(c, a);
    hide CP.FreshIds;
    if a.Reserve? {
      FreshMeansNew(c, a);
    }
  }

  lemma FreshMeansNew(c: CP.Control, a: CP.Act)
    requires CP.Enabled(c, a) && a.Reserve?
    ensures a.task !in c.issued
  {
  }

  lemma BoundStays(issued: map<TaskId, Issue>, issued': map<TaskId, Issue>, processes: map<Server, WS.Process>)
    requires ProcessesOk(issued, processes) && IssuedGrow(issued, issued')
    ensures ProcessesOk(issued', processes)
  {
    hide WS.ProcessOk, StatusesOk;
  }

  /** A control-plane step whose effect on the records is accounted for keeps the world in order. */
  lemma ControlStepKeeps(s: World, a: CP.Act)
    requires WorldOk(s) && CP.Enabled(s.control, a)
    requires RecordsOk(s.processes, CP.Next(s.control, a).records)
    ensures WorldOk(s.(control := CP.Next(s.control, a)))
  {
    hide CP.Enabled, CP.Next, NetOk, RecordsOk, ProcessesOk, IssuedGrow, ProcessesGrow, CI.ShapeHolds;
    ControlIssuedGrow(s.control, a);
    NothingGrows(s.processes);
    var issued' := CP.Next(s.control, a).issued;
    NetStaysOk(s.control.issued, issued', s.processes, s.processes, s.net);
    BoundStays(s.control.issued, issued', s.processes);
    CI.ShapeNext(s.control, a);
  }

  /** Steps of the control plane that commit nothing. */
  lemma QuietRecords(s: World, a: CP.Act)
    requires RecordsOk(s.processes, s.control.records) && ControlAllowed(s, a)
    requires NetOk(s.control.issued, s.processes, s.net)
    ensures RecordsOk(s.processes, CP.Next(s.control, a).records)
  {
    hide ReserveAt, ReleaseAt, Canonical, CommittedAs, TokenSet, NetOk, FailureDetection.Changed, Resources.Fits;
    match a
    case Reserve(t, e, request) =>
    case Record(t) =>
    case DispatchOk(t) =>
    case DispatchFails(t) =>
    case Rollback(t) =>
    case CancelBegins(t) =>
    case CancelAccepted(t) => AcceptedRecords(s, t);
    case DeadBegins(life) =>
    case DeadVisits(t) => LostRecords(s.processes, s.control, t);
    case DeadEnds =>
    case Node(call) =>
  }

  lemma AcceptedRecords(s: World, t: TaskId)
    requires RecordsOk(s.processes, s.control.records) && ControlAllowed(s, CP.CancelAccepted(t))
    requires NetOk(s.control.issued, s.processes, s.net)
    ensures RecordsOk(s.processes, CP.Next(s.control, CP.CancelAccepted(t)).records)
  {
    hide CommittedAs, TokenSet;
    var m :| m in s.net && m.CancelReply? && m.task == t && m.execution == s.control.cancelling[t] && m.code == Ok;
    assert MsgOk(s.control.issued, s.processes, m);
    assert TokenSet(s.processes[m.from], t);
  }

  lemma LostRecords(processes: map<Server, WS.Process>, c: CP.Control, t: TaskId)
    requires RecordsOk(processes, c.records) && CP.Enabled(c, CP.DeadVisits(t))
    ensures RecordsOk(processes, CP.Next(c, CP.DeadVisits(t)).records)
  {
    hide CommittedAs, TokenSet, ReleaseAt;
    CI.SettledLocal(c.registry, c.records, t, CP.LOST, t);
    assert CP.VerdictOf(CP.Committed(c.records[t], CP.LOST)) == CP.LOST;
  }

  /** A report that is accepted commits what its sender committed. */
  lemma ReportRecords(s: World, m: Msg)
    requires RecordsOk(s.processes, s.control.records) && m.TaskReport? && MsgOk(s.control.issued, s.processes, m)
    ensures RecordsOk(s.processes, CP.Reported(s.control.registry, s.control.records, m.task, m.execution, Received(m)).records)
  {
  }

  // ---- Steps of the processes

  lemma StatusesStay(process: WS.Process, a: WS.Act)
    requires WS.Enabled(process, a) && StatusesOk(process.tasks)
    ensures StatusesOk(WS.Next(process, a).tasks)
  {
    hide Canonical;
    match a
    case Deliver(t, e, request) =>
    case Cross(e, refusal) =>
    case Store(e) =>
    case RuntimeCall(op) =>
      match op {
        case MarkScheduled(_, _, _) =>
        case MarkRunning(_) =>
        case Complete(_, _) =>
      }
    case CheckCancel(t, e) =>
    case ApplyCancel(t, e) =>
  }

  lemma BoundNext(issued: map<TaskId, Issue>, endpoint: string, process: WS.Process, a: WS.Act)
    requires WS.Enabled(process, a) && Bound(issued, endpoint, process)
    requires a.Deliver? ==> IssuedAs(issued, a.task, a.execution) && issued[a.task].endpoint == endpoint
    ensures Bound(issued, endpoint, WS.Next(process, a))
  {
  }

  lemma ProcessStepKeeps(s: World, p: Server, a: WS.Act)
    requires WorldOk(s) && p in s.processes && WS.Enabled(s.processes[p], a)
    requires a.Deliver? ==> IssuedAs(s.control.issued, a.task, a.execution) && s.control.issued[a.task].endpoint == p.endpoint
    ensures WorldOk(s.(processes := s.processes[p := WS.Next(s.processes[p], a)]))
    ensures WS.Grows(s.processes[p], WS.Next(s.processes[p], a))
  {
    hide NetOk, RecordsOk, IssuedGrow, ProcessesGrow, CI.ShapeHolds, WS.Enabled, WS.Next, WS.ProcessOk, WS.Grows, StatusesOk, Bound;
    var processes' := s.processes[p := WS.Next(s.processes[p], a)];
    WS.NextKeeps(s.processes[p], a);
    WS.NextGrows(s.processes[p], a);
    StatusesStay(s.processes[p], a);
    BoundNext(s.control.issued, p.endpoint, s.processes[p], a);
    OneGrows(s.processes, p, WS.Next(s.processes[p], a));
    SameIssued(s.control.issued);
    NetStaysOk(s.control.issued, s.control.issued, s.processes, processes', s.net);
    RecordsStayOk(s.processes, processes', s.control.records);
  }

  lemma SameIssued(issued: map<TaskId, Issue>)
    ensures IssuedGrow(issued, issued)
  {
  }

  lemma StartKeeps(s: World, p: Server)
    requires WorldOk(s) && p !in s.processes
    ensures WorldOk(s.(processes := s.processes[p := WS.NEW_PROCESS]))
  {
    hide NetOk, RecordsOk, IssuedGrow, ProcessesGrow, CI.ShapeHolds, WS.ProcessOk, WS.Grows;
    WS.NewProcessOk();
    OneGrows(s.processes, p, WS.NEW_PROCESS);
    SameIssued(s.control.issued);
    NetStaysOk(s.control.issued, s.control.issued, s.processes, s.processes[p := WS.NEW_PROCESS], s.net);
    RecordsStayOk(s.processes, s.processes[p := WS.NEW_PROCESS], s.control.records);
  }

  // ---- Sending

  lemma SendKeeps(s: World, m: Msg)
    requires WorldOk(s) && MsgOk(s.control.issued, s.processes, m)
    ensures WorldOk(s.(net := s.net + {m}))
  {
    hide MsgOk, RecordsOk, ProcessesOk, CI.ShapeHolds;
  }

  /** The report of a completion says what the task's record says, decoded as it was encoded. */
  lemma ReportIsFaithful(issued: map<TaskId, Issue>, processes: map<Server, WS.Process>, p: Server, k: nat)
    requires ProcessesOk(issued, processes) && p in processes && k < |processes[p].completions|
    requires processes[p].completions[k].task in processes[p].taskExecutions
    ensures MsgOk(issued, processes, ReportOf(p, processes[p], k))
  {
    hide StateToProto, StateFromProto, StatusToProto, StatusFromProto;
    var process := processes[p];
    var c := process.completions[k];
    CompletionIs(process, k);
    assert WellFormed(process.tasks[c.task].terminalStatus);
    StatusRoundTrip(c.status);
    var e := process.taskExecutions[c.task];
    ReportsOwnExecution(process, c.task);
    assert IssuedAs(issued, process.executions[e].task, e);
  }

  lemma CompletionIs(process: WS.Process, k: nat)
    requires WS.ProcessOk(process) && k < |process.completions|
    ensures var c := process.completions[k];
            && c.task in process.tasks && IsTerminal(process.tasks[c.task].state)
            && c == EventOf(c.task, process.tasks[c.task])
  {
  }

  lemma ReportsOwnExecution(process: WS.Process, t: TaskId)
    requires WS.ProcessOk(process) && t in process.taskExecutions
    ensures process.taskExecutions[t] in process.executions && process.executions[process.taskExecutions[t]].task == t
  {
  }

  lemma KnownTask(process: WS.Process, t: TaskId)
    requires WS.ProcessOk(process) && t in process.tasks
    ensures t in process.taskExecutions
  {
  }

  lemma LaunchOk(s: World, t: TaskId)
    requires CI.ShapeHolds(s.control) && t in s.control.issued
    ensures MsgOk(s.control.issued, s.processes, LaunchOf(s.control, t))
  {
  }

  lemma CancelOk(s: World, t: TaskId, to: string)
    requires CI.ShapeHolds(s.control) && t in s.control.cancelling
    ensures MsgOk(s.control.issued, s.processes, CancelRequest(to, t, s.control.cancelling[t]))
  {
    CI.TaskShape(s.control, t);
  }

  lemma AnswerOk(s: World, p: Server, t: TaskId, e: ExecutionId)
    requires WorldOk(s) && Enabled(s, AnswerCancel(p, t, e))
    ensures var processes' := s.processes[p := WS.Next(s.processes[p], WS.ApplyCancel(t, e))];
            MsgOk(s.control.issued, processes', CancelReply(p, t, e, CancelledTask(s.processes[p].tasks, t).code))
  {
    hide NetOk, RecordsOk, CI.ShapeHolds, WS.ProcessOk, StatusesOk;
    assert Bound(s.control.issued, p.endpoint, s.processes[p]);
    CheckedCancel(s.processes[p], WS.CancelCall(t, e));
    CancelSets(s.processes[p].tasks, t);
  }

  lemma CheckedCancel(process: WS.Process, c: WS.CancelCall)
    requires WS.ProcessOk(process) && c in process.cancelling
    ensures c.execution in process.executions && process.executions[c.execution].task == c.task
  {
  }

  lemma CancelSets(tasks: Tasks, t: TaskId)
    ensures var u := CancelledTask(tasks, t);
            u.code == Ok ==> t in u.tasks && u.tasks[t].cancelToken
  {
  }

  lemma NextKeeps(s: World, act: Act)
    requires WorldOk(s) && Enabled(s, act)
    ensures WorldOk(Next(s, act))
  {
    hide NetOk, RecordsOk, ProcessesOk, CI.ShapeHolds, CP.Next, CP.Reported, WS.Next, MsgOk, IssuedAs, CP.Enabled, WS.Enabled, CP.Route;
    hide ReportOf, ReplyOf, LaunchOf, Received, CancelledTask;
    match act
    case ControlStep(a) =>
      QuietRecords(s, a);
      ControlStepKeeps(s, a);
    case SendLaunch(t) =>
      LaunchOk(s, t);
      SendKeeps(s, LaunchOf(s.control, t));
    case SendCancel(t) =>
      var node := s.control.registry.nodes[s.control.issued[t].life.node].record;
      CancelOk(s, t, node.endpoint);
      SendKeeps(s, CancelRequest(node.endpoint, t, s.control.cancelling[t]));
    case StartProcess(p) => StartKeeps(s, p);
    case ProcessStep(p, a) =>
      if a.Deliver? {
        LaunchInNet(s, Launch(p.endpoint, a.task, a.execution, a.request));
      }
      ProcessStepKeeps(s, p, a);
      var s1 := s.(processes := s.processes[p := WS.Next(s.processes[p], a)]);
      var reply := ReplyOf(p, s.processes[p], a);
      if reply.Some? {
        RepliesOk(s, p, a);
        SendKeeps(s1, reply.value);
      }
    case AnswerCancel(p, t, e) =>
      AnswerOk(s, p, t, e);
      ProcessStepKeeps(s, p, WS.ApplyCancel(t, e));
      SendKeeps(s.(processes := s.processes[p := WS.Next(s.processes[p], WS.ApplyCancel(t, e))]),
                CancelReply(p, t, e, CancelledTask(s.processes[p].tasks, t).code));
    case SendReport(p, k) =>
      ReportIsFaithful(s.control.issued, s.processes, p, k);
      SendKeeps(s, ReportOf(p, s.processes[p], k));
    case ReceiveReport(m) =>
      InNet(s, m);
      ReportRecords(s, m);
      ReportIs(s.control, m);
      ControlStepKeeps(s, CP.Report(m.task, m.execution, Received(m)));
  }

  lemma LaunchInNet(s: World, m: Msg)
    requires NetOk(s.control.issued, s.processes, s.net) && m in s.net && m.Launch?
    ensures IssuedAs(s.control.issued, m.task, m.execution) && s.control.issued[m.task].endpoint == m.to
  {
    assert MsgOk(s.control.issued, s.processes, m);
  }

  /** A process answers a launch truthfully, up to the placeholder. */
  lemma RepliesOk(s: World, p: Server, a: WS.Act)
    requires WorldOk(s) && ProcessAllowed(s, p, a) && ReplyOf(p, s.processes[p], a).Some?
    ensures MsgOk(s.control.issued, s.processes[p := WS.Next(s.processes[p], a)], ReplyOf(p, s.processes[p], a).value)
  {
    hide NetOk, RecordsOk, CI.ShapeHolds, StatusesOk, Canonical, StatusToProto, StatusFromProto;
    hide WS.SubmitsOk, WS.TasksOk, WS.StartedOk, WS.AdmittedOk;
    var process := s.processes[p];
    assert Bound(s.control.issued, p.endpoint, process) && WS.LedgerOk(process);
    match a
    case Deliver(t, e, request) =>
      LaunchInNet(s, Launch(p.endpoint, t, e, request));
      SameTask(s, p, t, e);
      CodeSurvives(process.executions[e].status);
    case Store(e) => CodeSurvives(process.launching[e].status);
  }

  lemma SameTask(s: World, p: Server, t: TaskId, e: ExecutionId)
    requires WorldOk(s) && p in s.processes && e in s.processes[p].executions && IssuedAs(s.control.issued, t, e)
    ensures s.processes[p].executions[e].task == t
  {
    hide NetOk, RecordsOk, CP.ShapeOk, StatusesOk, WS.ProcessOk;
    assert Bound(s.control.issued, p.endpoint, s.processes[p]);
    CI.OneTaskPerExecution(s.control, t, s.processes[p].executions[e].task);
  }

  lemma CodeSurvives(s: Status)
    ensures StatusFromProto(StatusToProto(s)).code == s.code
  {
    match s.code
    case Ok =>
    case _ =>
  }

  lemma InNet(s: World, m: Msg)
    requires NetOk(s.control.issued, s.processes, s.net) && m in s.net
    ensures MsgOk(s.control.issued, s.processes, m) && IssuedAs(s.control.issued, m.task, m.execution)
  {
  }

  lemma ReportIs(c: CP.Control, m: Msg)
    requires m.TaskReport? && c.sweep.None?
    ensures var a := CP.Report(m.task, m.execution, Received(m));
            CP.Enabled(c, a)
            && CP.Next(c, a).records == CP.Reported(c.registry, c.records, m.task, m.execution, Received(m)).records
  {
  }

  lemma {:induction false} RunKeeps(states: seq<World>, acts: seq<Act>, i: nat)
    requires Run(states, acts) && i < |states|
    ensures WorldOk(states[i])
  {
    hide Enabled, Next, WorldOk;
    if i == 0 {
      WorldStarts();
    } else {
      RunKeeps(states, acts, i - 1);
      NextKeeps(states[i-1], acts[i-1]);
    }
  }

  lemma WorldStarts()
    ensures WorldOk(World(CP.START, {}, map[]))
  {
  }

  // ---- The theorems

  /**
   * End-to-end agreement. Under loss, duplication and reordering, a terminal record either says that its node died, or
   * says exactly what the TaskManager of a worker process committed for that task, under the record's own execution; and
   * that process listens at the endpoint of the node the task was placed on.
   */
  lemma Agreement(states: seq<World>, acts: seq<Act>, i: nat, t: TaskId)
    requires Run(states, acts) && i < |states|
    requires t in states[i].control.records && IsFinal(states[i].control.records[t].state)
    ensures var s := states[i];
            var d := s.control.records[t];
            || (d.state == DFailed && d.status == CP.NODE_LOST && d.result == "" && d.media == "")
            || exists p :: p in s.processes && IsAt(s, p, t) && AgreesWith(s.processes[p], t, d)
  {
    hide WorldOk, Run;
    RunKeeps(states, acts, i);
    AgreementAt(states[i], t);
  }

  /** `p` listens at the endpoint of the node that `t` was placed on. */
  predicate IsAt(s: World, p: Server, t: TaskId) {
    t in s.control.issued && p.endpoint == s.control.issued[t].endpoint
  }

  predicate AgreesWith(process: WS.Process, t: TaskId, d: CP.DRecord) {
    && t in process.tasks && t in process.taskExecutions && process.taskExecutions[t] == d.execution
    && var r := process.tasks[t];
       && d.status == r.terminalStatus && d.result == r.result && d.media == MEDIA
       && match r.state
          case Succeeded => d.state == DSucceeded
          case Failed => d.state == DFailed
          case Aborted => d.state == DCanceled
          case _ => false
  }

  lemma AgreementAt(s: World, t: TaskId)
    requires WorldOk(s) && t in s.control.records && IsFinal(s.control.records[t].state)
    ensures CP.VerdictOf(s.control.records[t]) == CP.LOST
            || exists p :: p in s.processes && IsAt(s, p, t) && AgreesWith(s.processes[p], t, s.control.records[t])
  {
    hide CI.ShapeHolds, NetOk, WS.ProcessOk, StatusesOk;
    var d := s.control.records[t];
    assert RecordOk(s.processes, t, d);
    if CP.VerdictOf(d) != CP.LOST {
      var p :| p in s.processes && CommittedAs(s.processes[p], t, CP.VerdictOf(d));
      var process := s.processes[p];
      KnownTask(process, t);
      ReportsOwnExecution(process, t);
      assert Bound(s.control.issued, p.endpoint, process);
      assert IsAt(s, p, t) && IssuedAs(s.control.issued, t, process.taskExecutions[t]);
      CI.TaskShape(s.control, t);
      assert AgreesWith(process, t, d);
    }
  }

  /** A record says "cancel requested" only if a worker process where the task was placed has set its sticky token. */
  lemma CancellationSound(states: seq<World>, acts: seq<Act>, i: nat, t: TaskId)
    requires Run(states, acts) && i < |states|
    requires t in states[i].control.records && states[i].control.records[t].state.DCancelRequested?
    ensures exists p :: p in states[i].processes && IsAt(states[i], p, t) && TokenSet(states[i].processes[p], t)
  {
    hide Run, WorldOk, TokenSet, IsAt;
    RunKeeps(states, acts, i);
    var p := TokenIsSomewhere(states[i], t);
  }

  lemma TokenIsSomewhere(s: World, t: TaskId) returns (p: Server)
    requires WorldOk(s) && t in s.control.records && s.control.records[t].state.DCancelRequested?
    ensures p in s.processes && IsAt(s, p, t) && TokenSet(s.processes[p], t)
  {
    hide NetOk, CI.ShapeHolds, WS.ProcessOk, StatusesOk;
    assert RecordOk(s.processes, t, s.control.records[t]);
    p :| p in s.processes && TokenSet(s.processes[p], t);
    KnownTask(s.processes[p], t);
    ReportsOwnExecution(s.processes[p], t);
    assert Bound(s.control.issued, p.endpoint, s.processes[p]);
  }

  /**
   * At most once across the cluster: an execution is bound to the one task it was issued for, whichever process knows it;
   * each process lets it cross Runtime::Submit at most once and enters no handler twice; and two processes that know it
   * both listen at the endpoint it was issued for, so that only a restart there can submit it again.
   */
  lemma ExecutionsBelongToOneTask(states: seq<World>, acts: seq<Act>, i: nat, p: Server, q: Server, e: ExecutionId)
    requires Run(states, acts) && i < |states| && p in states[i].processes && q in states[i].processes
    requires e in states[i].processes[p].executions && e in states[i].processes[q].executions
    ensures states[i].processes[p].executions[e].task == states[i].processes[q].executions[e].task
    ensures Distinct(states[i].processes[p].submits) && Distinct(states[i].processes[p].started)
    ensures p.endpoint == q.endpoint && IsAt(states[i], p, states[i].processes[p].executions[e].task)
  {
    hide Run, CP.ShapeOk, NetOk, RecordsOk, WS.LedgerOk, WS.TasksOk, WS.AdmittedOk;
    RunKeeps(states, acts, i);
    var s := states[i];
    assert Bound(s.control.issued, p.endpoint, s.processes[p]) && Bound(s.control.issued, q.endpoint, s.processes[q]);
    CI.OneTaskPerExecution(s.control, s.processes[p].executions[e].task, s.processes[q].executions[e].task);
  }

  /** What a process has let cross Runtime::Submit only grows. */
  lemma {:induction false} SubmitsStay(states: seq<World>, acts: seq<Act>, i: nat, j: nat, p: Server, e: ExecutionId)
    requires Run(states, acts) && i <= j < |states|
    requires p in states[i].processes && e in states[i].processes[p].submits
    ensures p in states[j].processes && e in states[j].processes[p].submits
  {
    hide Enabled, Next;
    if i < j {
      SubmitsStay(states, acts, i, j - 1, p, e);
      NextSubmits(states[j-1], acts[j-1], p, e);
    }
  }

  lemma NextSubmits(s: World, act: Act, p: Server, e: ExecutionId)
    requires Enabled(s, act) && p in s.processes && e in s.processes[p].submits
    ensures p in Next(s, act).processes && e in Next(s, act).processes[p].submits
  {
    hide CP.Next, CP.Enabled, ReplyOf, ReportOf, LaunchOf, Received, CP.Route, Sent, Perform, CancelledTask, WS.Submitted, Canonical;
    match act
    case ControlStep(_) =>
    case SendLaunch(_) =>
    case SendCancel(_) =>
    case StartProcess(_) =>
    case ProcessStep(_, _) =>
    case AnswerCancel(_, _, _) =>
    case SendReport(_, _) =>
    case ReceiveReport(_) =>
  }

  /**
   * Cluster-wide at most once: if an execution crosses Runtime::Submit twice in one run, then in two different processes
   * started at one endpoint. Without a restart there it crosses once at most.
   */
  lemma OnlyRestartsRepeat(states: seq<World>, acts: seq<Act>, i: nat, j: nat, p: Server, q: Server, e: ExecutionId,
                           r: Option<Status>, r': Option<Status>)
    requires Run(states, acts) && i < j < |acts|
    requires acts[i] == ProcessStep(p, WS.Cross(e, r)) && acts[j] == ProcessStep(q, WS.Cross(e, r'))
    ensures p != q && p.endpoint == q.endpoint
  {
    hide Enabled, Next, WorldOk, WS.Enabled;
    Crossed(states, acts, i);
    Crossed(states, acts, j);
    SubmitsStay(states, acts, i + 1, j, p, e);
    RunKeeps(states, acts, j);
    SubmittedIsKnown(states[j], p, e);
    ExecutionsBelongToOneTask(states, acts, j, p, q, e);
  }

  lemma Crossed(states: seq<World>, acts: seq<Act>, i: nat)
    requires Run(states, acts) && i < |acts| && acts[i].ProcessStep? && acts[i].p.Cross?
    ensures acts[i].process in states[i].processes && acts[i].process in states[i+1].processes
    ensures acts[i].p.execution in states[i+1].processes[acts[i].process].submits
    ensures acts[i].p.execution in states[i].processes[acts[i].process].executions
    ensures acts[i].p.execution !in states[i].processes[acts[i].process].submits
  {
    hide WorldOk, WS.Submitted, ReplyOf, Sent;
    assert Enabled(states[i], acts[i]) && states[i+1] == Next(states[i], acts[i]);
    RunKeeps(states, acts, i);
    NotYetSubmitted(states[i], acts[i].process, acts[i].p.execution);
  }

  lemma NotYetSubmitted(s: World, p: Server, e: ExecutionId)
    requires WorldOk(s) && p in s.processes && e in s.processes[p].launching && s.processes[p].launching[e].Claimed?
    ensures e in s.processes[p].executions && e !in s.processes[p].submits
  {
    hide NetOk, RecordsOk, CI.ShapeHolds, StatusesOk, Bound, WS.TasksOk, WS.StartedOk, WS.AdmittedOk;
    assert WS.LedgerOk(s.processes[p]) && WS.SubmitsOk(s.processes[p]);
  }

  lemma SubmittedIsKnown(s: World, p: Server, e: ExecutionId)
    requires WorldOk(s) && p in s.processes && e in s.processes[p].submits
    ensures e in s.processes[p].executions
  {
    hide NetOk, RecordsOk, CI.ShapeHolds, StatusesOk, Bound, WS.TasksOk, WS.StartedOk, WS.AdmittedOk, WS.LedgerOk;
    assert WS.SubmitsOk(s.processes[p]);
  }

  // ---- What SubmitTask's OK means

  /**
   * What an OK answer to a launch means for its sender: the execution is known there, bound to that task; and once the
   * launch is settled there, the task is admitted if and only if the answer was the original's own, or a replay sent
   * after the verdict was stored, or the verdict stored later is OK.
   */
  ghost predicate ReplyMeans(s: World, m: Msg)
    requires m.LaunchReply?
  {
    && m.from in s.processes && IsAt(s, m.from, m.task)
    && var process := s.processes[m.from];
       && m.execution in process.executions && process.executions[m.execution].task == m.task
       && (!m.origin.EarlyReplay? ==> m.task in process.tasks)
       && (m.execution !in process.launching ==>
             (m.task in process.tasks <==> !m.origin.EarlyReplay? || process.executions[m.execution].status.code == Ok))
  }

  lemma OkReplyMeans(s: World, m: Msg)
    requires WorldOk(s) && m in s.net && IsOkReply(m, m.task)
    ensures ReplyMeans(s, m) && IssuedAs(s.control.issued, m.task, m.execution)
  {
    hide NetOk, RecordsOk, CI.ShapeHolds, StatusesOk, WS.ProcessOk, StatusFromProto;
    InNet(s, m);
    var p, t, e := m.from, m.task, m.execution;
    var process := s.processes[p];
    assert Bound(s.control.issued, p.endpoint, process);
    OnlyExecution(s, p, t, e);
  }

  /** In the cluster a task has one execution, so that it is admitted in a process exactly if that one was accepted there. */
  lemma OnlyExecution(s: World, p: Server, t: TaskId, e: ExecutionId)
    requires WorldOk(s) && p in s.processes && IssuedAs(s.control.issued, t, e)
    ensures t in s.processes[p].tasks <==> WS.Admits(s.processes[p], e, t)
  {
    hide NetOk, RecordsOk, CI.ShapeHolds, StatusesOk, WS.LedgerOk, WS.SubmitsOk, WS.TasksOk, WS.StartedOk;
    var process := s.processes[p];
    assert Bound(s.control.issued, p.endpoint, process) && WS.AdmittedOk(process);
    assert t in process.tasks <==> exists x :: WS.Admits(process, x, t);
  }

  /**
   * When SubmitTask has returned OK, then from that moment on some worker process at the endpoint of the chosen node has
   * answered OK to that very execution, with all that such an answer means.
   */
  lemma SubmitOkMeans(states: seq<World>, acts: seq<Act>, i: nat, j: nat, t: TaskId)
    requires Run(states, acts) && i < j < |states| && acts[i] == ControlStep(CP.DispatchOk(t))
    ensures exists m :: m in states[j].net && IsOkReply(m, t) && ReplyMeans(states[j], m)
                        && IssuedAs(states[j].control.issued, t, m.execution)
  {
    hide Next, WorldOk, IsOkReply, ReplyMeans, CP.Enabled;
    assert Enabled(states[i], acts[i]);
    var m :| m in states[i].net && IsOkReply(m, t) && m.execution == states[i].control.issued[t].execution;
    NetGrows(states, acts, i, j);
    RunKeeps(states, acts, j);
    assert IsOkReply(m, m.task) by {
      OkReplyIsForItsTask(m, t);
    }
    OkReplyMeans(states[j], m);
    OkReplyIsForItsTask(m, t);
    assert m in states[j].net && IsOkReply(m, t) && ReplyMeans(states[j], m) && IssuedAs(states[j].control.issued, t, m.execution);
  }

  lemma OkReplyIsForItsTask(m: Msg, t: TaskId)
    requires IsOkReply(m, t)
    ensures m.task == t && IsOkReply(m, m.task)
  {
  }

  lemma {:induction false} NetGrows(states: seq<World>, acts: seq<Act>, i: nat, j: nat)
    requires Run(states, acts) && i <= j < |states|
    ensures states[i].net <= states[j].net
  {
    hide Enabled, Next;
    if i < j {
      NetGrows(states, acts, i, j - 1);
      NextSends(states[j-1], acts[j-1]);
    }
  }

  lemma NextSends(s: World, act: Act)
    requires Enabled(s, act)
    ensures s.net <= Next(s, act).net
  {
    hide CP.Next, WS.Next, CP.Enabled, WS.Enabled, ReplyOf, ReportOf, LaunchOf, Received, CP.Route;
    match act
    case ControlStep(_) =>
    case SendLaunch(_) =>
    case SendCancel(_) =>
    case StartProcess(_) =>
    case ProcessStep(_, _) =>
    case AnswerCancel(_, _, _) =>
    case SendReport(_, _) =>
    case ReceiveReport(_) =>
  }

  // ---- The control plane inside the cluster

  /** The step of the control plane inside a step of the cluster is sound. */
  predicate Sound(s: World, act: Act) {
    match act
    case ControlStep(a) => CB.Sound(s.control, a)
    case ReceiveReport(m) => m.TaskReport? ==> CB.Sound(s.control, CP.Report(m.task, m.execution, Received(m)))
    case _ => true
  }

  /** Seen from the control plane, a step of the cluster is one of its own steps, or nothing. */
  lemma ControlMoves(s: World, act: Act) returns (a: Option<CP.Act>)
    requires Enabled(s, act)
    ensures a.Some? ==> CP.Enabled(s.control, a.value) && Next(s, act).control == CP.Next(s.control, a.value)
    ensures a.Some? && Orderly(s, act) ==> CI.Orderly(s.control, a.value)
    ensures Sound(s, act) <==> (a.Some? ==> CB.Sound(s.control, a.value))
    ensures a.None? ==> Next(s, act).control == s.control
  {
    hide CB.Sound, CP.Next, WS.Next, WS.Enabled, CP.Route, Received;
    a := None;
    match act
    case ControlStep(step) => a := Some(step);
    case SendLaunch(_) =>
    case SendCancel(_) =>
    case StartProcess(_) =>
    case ProcessStep(_, _) =>
    case AnswerCancel(_, _, _) =>
    case SendReport(_, _) =>
    case ReceiveReport(m) => a := Some(CP.Report(m.task, m.execution, Received(m)));
  }

  /** No lifetime that is still held is replaced or removed, and no failed dispatch finds its record final. */
  predicate Orderly(s: World, act: Act) {
    act.ControlStep? ==> CI.Orderly(s.control, act.a)
  }

  /**
   * Every run of the cluster is, seen from the control plane, a run of its own step system, and an orderly one if the
   * cluster's is, so that everything proved of those runs holds here; `k` is where that run stands at `i`.
   */
  lemma {:induction false} ControlRuns(states: seq<World>, acts: seq<Act>, i: nat, j: nat)
    returns (cs: seq<CP.Control>, steps: seq<CP.Act>, k: nat)
    requires Run(states, acts) && i <= j < |states|
    ensures CP.Run(cs, steps) && cs[|steps|] == states[j].control
    ensures k < |cs| && cs[k] == states[i].control
    ensures (forall n :: 0 <= n < j ==> Orderly(states[n], acts[n])) ==> CI.OrderlyRun(cs, steps)
  {
    hide Enabled, Next, CP.Enabled, CP.Next, Orderly, CI.Orderly;
    if j == 0 {
      cs, steps, k := [CP.START], [], 0;
    } else {
      cs, steps, k := ControlRuns(states, acts, if i < j then i else j - 1, j - 1);
      var a := ControlMoves(states[j-1], acts[j-1]);
      if a.Some? {
        var cs0, steps0 := cs, steps;
        cs, steps := CT.Extend(cs0, steps0, a.value, states[j].control);
        if forall n :: 0 <= n < j ==> Orderly(states[n], acts[n]) {
          forall n | 0 <= n < |steps|
            ensures CI.Orderly(cs[n], steps[n])
          {
            assert n < |steps0| ==> cs[n] == cs0[n] && steps[n] == steps0[n];
          }
        }
      }
      if i == j {
        k := |steps|;
      }
    }
  }

  /** The cluster's books balance: on every orderly run each pool lends out exactly what open records and submissions in flight hold. */
  lemma ClusterBooksBalance(states: seq<World>, acts: seq<Act>, i: nat, x: NodeId, n: string)
    requires Run(states, acts) && i < |states| && x in states[i].control.registry.nodes
    requires forall k :: 0 <= k < i ==> Orderly(states[k], acts[k])
    ensures var c := states[i].control;
            var s := c.registry.nodes[x];
            && c.failedReleases == 0
            && Get(s.pool.total, n) - Get(s.pool.available, n)
               == InUse(CP.OpenRecords(c), LifeOf(s), n) + InUse(CP.InFlight(c), LifeOf(s), n)
  {
    hide Run, Orderly, CP.Enabled, CP.Next, CI.Orderly, CP.OpenRecords, CP.InFlight, Get, InUse;
    var cs, steps, k := ControlRuns(states, acts, i, i);
    assert CI.OrderlyRun(cs, steps) && |steps| < |cs|;
    CT.ClusterConservation(cs, steps, |steps|, x, n);
  }

  /** On every run of the cluster the books balance all along, and no release has failed, if and only if every step so far was sound. */
  lemma {:induction false} BooksBalanceExactlyWhen(states: seq<World>, acts: seq<Act>, i: nat)
    requires Run(states, acts) && i < |states|
    ensures (forall k :: 0 <= k <= i ==> CB.BooksBalance(states[k].control)) <==> (forall k :: 0 <= k < i ==> Sound(states[k], acts[k]))
  {
    hide Enabled, Next, WorldOk, Sound, CB.BooksBalance, CP.ShapeOk, RegistryOk;
    if i == 0 {
      CB.StartBalances();
    } else {
      BooksBalanceExactlyWhen(states, acts, i - 1);
      if forall k :: 0 <= k <= i - 1 ==> CB.BooksBalance(states[k].control) {
        assert CB.BooksBalance(states[i-1].control);
        RunKeeps(states, acts, i - 1);
        WorldShape(states[i-1]);
        RegistryHolds(states, acts, i - 1);
        BalancesNext(states[i-1], acts[i-1]);
        assert CB.BooksBalance(states[i].control) <==> Sound(states[i-1], acts[i-1]);
        assert (forall k :: 0 <= k < i ==> Sound(states[k], acts[k])) <==> Sound(states[i-1], acts[i-1]);
      } else {
        var k :| 0 <= k <= i - 1 && !CB.BooksBalance(states[k].control);
        assert exists m :: 0 <= m < i - 1 && !Sound(states[m], acts[m]);
      }
    }
  }

  lemma RegistryHolds(states: seq<World>, acts: seq<Act>, i: nat)
    requires Run(states, acts) && i < |states|
    ensures RegistryOk(states[i].control.registry)
  {
    hide Run, Orderly, CI.OrderlyRun, RegistryOk, CP.Enabled, CP.Next;
    var cs, steps, k := ControlRuns(states, acts, i, i);
    CB.RunKeepsRegistry(cs, steps, |steps|);
  }

  lemma BalancesNext(s: World, act: Act)
    requires CP.ShapeOk(s.control) && RegistryOk(s.control.registry) && CB.BooksBalance(s.control) && Enabled(s, act)
    ensures CB.BooksBalance(Next(s, act).control) <==> Sound(s, act)
  {
    hide Enabled, Next, CP.Next, CP.Enabled, RegistryOk, CB.BooksBalance, CB.Sound, CP.ShapeOk, Sound;
    var a := ControlMoves(s, act);
    if a.Some? {
      CB.BalancesNext(s.control, a.value);
    }
  }

  lemma WorldShape(s: World)
    requires WorldOk(s)
    ensures CP.ShapeOk(s.control)
  {
  }

  /** A completion that reached the control plane while a cancellation was on its way is never overwritten. */
  lemma CompletionWins(states: seq<World>, acts: seq<Act>, i: nat, j: nat, t: TaskId)
    requires Run(states, acts) && i <= j < |states|
    requires t in states[i].control.records && IsFinal(states[i].control.records[t].state)
    ensures if t in states[j].control.records then states[j].control.records[t] == states[i].control.records[t]
            else CT.Erased(states[j].control, t)
  {
    hide Run, CP.Enabled, CP.Next, CT.Erased, IsFinal, Orderly, CI.OrderlyRun;
    var cs, steps, k := ControlRuns(states, acts, i, j);
    CT.TerminalRecordsStay(cs, steps, k, |steps|, t);
  }
}
