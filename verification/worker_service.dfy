/**
 * A worker process: the execution ledger that makes LaunchTask idempotent, in front of a local runtime.
 *
 * The runtime is represented by its task records. Every step of the local runtime is one TaskManager call or none
 * (LocalTheorems.StepIsCall), so letting the process make any of those calls at any time covers all its interleavings.
 */
module WorkerService {
  import opened Common
  import opened Resources
  import opened TaskManagement

  datatype Admission = Admission(task: TaskId, status: Status)

  /** A LaunchTask call that claimed its execution, before and after it crossed Runtime::Submit. */
  datatype Launch = Claimed(task: TaskId, request: Bag) | Crossed(task: TaskId, status: Status)

  /** A CancelTask call that passed the identity check and has yet to call Runtime::Cancel. */
  datatype CancelCall = CancelCall(task: TaskId, execution: ExecutionId)

  datatype Process = Process(
    executions: map<ExecutionId, Admission>,
    taskExecutions: map<TaskId, ExecutionId>,
    launching: map<ExecutionId, Launch>,
    cancelling: set<CancelCall>,
    tasks: Tasks,
    // what has happened so far
    completions: seq<Completion>,
    submits: seq<ExecutionId>,
    started: seq<TaskId>)

  const NEW_PROCESS := Process(map[], map[], map[], {}, map[], [], [], [])

  const WRONG_TASK := Status(FailedPrecondition, "Execution is already associated with a different task")
  const ALREADY_REGISTERED := Status(AlreadyExists, "Task already registered")

  /** The answer LaunchTask gives from its first critical section; None when it claims the execution instead. */
  function Reply(executions: map<ExecutionId, Admission>, t: TaskId, e: ExecutionId): Option<Status> {
    if e !in executions then None
    else if executions[e].task != t then Some(WRONG_TASK)
    else Some(executions[e].status)
  }

  /** Runtime::Submit, given the refusal its admission checks come to, if any. */
  function Submitted(tasks: Tasks, t: TaskId, request: Bag, refusal: Option<Status>): (Tasks, Status) {
    if refusal.Some? then (tasks, refusal.value)
    else if t in tasks then (tasks, ALREADY_REGISTERED)
    else (Moved(Registered(tasks, t, request).tasks, t, Queued).tasks, OK)
  }

  /** What CancelTask answers without asking the runtime. */
  function CancelRefusal(executions: map<ExecutionId, Admission>, t: TaskId, e: ExecutionId): StatusCode {
    if e !in executions then NotFound
    else if executions[e].task != t then FailedPrecondition
    else if executions[e].status.code != Ok then FailedPrecondition
    else Ok
  }

  datatype Act =
    | Deliver(task: TaskId, execution: ExecutionId, request: Bag)          // LaunchTask: the ledger
    | Cross(execution: ExecutionId, refusal: Option<Status>)              // LaunchTask: Runtime::Submit
    | Store(execution: ExecutionId)                                       // LaunchTask: the original result
    | RuntimeCall(op: Op)                                                 // the scheduler and the worker threads
    | CheckCancel(task: TaskId, execution: ExecutionId)                   // CancelTask: the identity check
    | ApplyCancel(task: TaskId, execution: ExecutionId)                   // CancelTask: Runtime::Cancel

  predicate Enabled(p: Process, a: Act) {
    match a
    case Deliver(_, _, request) => Canonical(request)
    case Cross(e, refusal) =>
      && e in p.launching && p.launching[e].Claimed?
      && (refusal.Some? ==> refusal.value.code != Ok)
    case Store(e) => e in p.launching && p.launching[e].Crossed? && e in p.executions
    case RuntimeCall(op) => op.MarkScheduled? || op.MarkRunning? || (op.Complete? && WellFormed(op.outcome.status))
    case CheckCancel(_, _) => true
    case ApplyCancel(t, e) => CancelCall(t, e) in p.cancelling
  }

  function Next(p: Process, a: Act): Process
    requires Enabled(p, a)
  {
    match a
    case Deliver(t, e, request) =>
      if e in p.executions then p
      else
        p.(executions := p.executions[e := Admission(t, OK)], taskExecutions := p.taskExecutions[t := e],
           launching := p.launching[e := Claimed(t, request)])
    case Cross(e, refusal) =>
      var t := p.launching[e].task;
      var (tasks, status) := Submitted(p.tasks, t, p.launching[e].request, refusal);
      p.(tasks := tasks, launching := p.launching[e := Crossed(t, status)], submits := p.submits + [e])
    case Store(e) =>
      p.(executions := p.executions[e := p.executions[e].(status := p.launching[e].status)], launching := p.launching - {e})
    case RuntimeCall(op) =>
      var u := Perform(p.tasks, op);
      p.(tasks := u.tasks, completions := Appended(p.completions, u.event),
         started := if op.MarkRunning? && u.code == Ok then p.started + [op.task] else p.started)
    case CheckCancel(t, e) =>
      if CancelRefusal(p.executions, t, e) != Ok then p else p.(cancelling := p.cancelling + {CancelCall(t, e)})
    case ApplyCancel(t, e) =>
      var u := CancelledTask(p.tasks, t);
      p.(tasks := u.tasks, completions := Appended(p.completions, u.event))
  }

  /** Any interleaving of deliveries, calls and runtime activity in one process. */
  ghost predicate Run(states: seq<Process>, acts: seq<Act>) {
    && |states| == |acts| + 1
    && states[0] == NEW_PROCESS
    && forall i :: 0 <= i < |acts| ==> Enabled(states[i], acts[i]) && states[i+1] == Next(states[i], acts[i])
  }

  // ---- The invariant

  ghost predicate LedgerOk(p: Process) {
    && (forall e :: e in p.launching ==> e in p.executions && p.executions[e] == Admission(p.launching[e].task, OK))
    && (forall t :: t in p.taskExecutions ==>
          p.taskExecutions[t] in p.executions && p.executions[p.taskExecutions[t]].task == t)
    && (forall e :: e in p.executions ==> p.executions[e].task in p.taskExecutions)
    && (forall c :: c in p.cancelling ==> c.execution in p.executions && p.executions[c.execution].task == c.task)
  }

  ghost predicate SubmitsOk(p: Process) {
    && Distinct(p.submits)
    && (forall e :: e in p.submits <==> e in p.executions && !(e in p.launching && p.launching[e].Claimed?))
  }

  ghost predicate TasksOk(p: Process) {
    && RecordsOk(p.tasks) && EventsMatch(p.tasks, p.completions)
    && (forall t :: t in p.tasks ==> t in p.taskExecutions)
  }

  ghost predicate StartedOk(p: Process) {
    && Distinct(p.started)
    && (forall t :: t in p.started ==> t in p.tasks && 3 <= Rank(p.tasks[t].state))
  }

  /** What an execution's crossing of Runtime::Submit came to, once it has happened. */
  function Crossing(p: Process, e: ExecutionId): Option<Status>
    requires e in p.executions
  {
    if e !in p.launching then Some(p.executions[e].status)
    else match p.launching[e]
      case Claimed(_, _) => None
      case Crossed(_, status) => Some(status)
  }

  /** Execution `e` is bound to `t` and Runtime::Submit accepted it. */
  predicate Admits(p: Process, e: ExecutionId, t: TaskId) {
    && e in p.executions && p.executions[e].task == t
    && Crossing(p, e).Some? && Crossing(p, e).value.code == Ok
  }

  /** The runtime has a task exactly if one of the task's executions was accepted. */
  ghost predicate AdmittedOk(p: Process) {
    forall t :: t in p.tasks <==> exists e :: Admits(p, e, t)
  }

  ghost predicate ProcessOk(p: Process) {
    LedgerOk(p) && SubmitsOk(p) && TasksOk(p) && StartedOk(p) && AdmittedOk(p)
  }

  /** Steps that change no crossing that has happened, and add or remove no task. */
  lemma SameAdmitted(p: Process, p': Process)
    requires AdmittedOk(p) && p'.tasks.Keys == p.tasks.Keys
    requires forall e, t :: Admits(p, e, t) <==> Admits(p', e, t)
    ensures AdmittedOk(p')
  {
    hide Admits;
    forall t
      ensures t in p'.tasks <==> exists e :: Admits(p', e, t)
    {
      assert t in p.tasks <==> exists e :: Admits(p, e, t);
    }
  }

  lemma DistinctAppend<T>(s: seq<T>, x: T)
    requires Distinct(s) && x !in s
    ensures Distinct(s + [x])
  {
  }

  lemma DeliverKeeps(p: Process, t: TaskId, e: ExecutionId, request: Bag)
    requires ProcessOk(p) && Enabled(p, Deliver(t, e, request))
    ensures ProcessOk(Next(p, Deliver(t, e, request)))
  {
    hide LedgerOk, SubmitsOk, TasksOk, StartedOk, AdmittedOk, Canonical;
    if e !in p.executions {
      var p' := Next(p, Deliver(t, e, request));
      DeliverLedger(p, p', t, e, request);
      DeliverSubmits(p, p', t, e, request);
      DeliverTasks(p, p');
      DeliverAdmits(p, p', t, e, request);
    }
  }

  lemma DeliverLedger(p: Process, p': Process, t: TaskId, e: ExecutionId, request: Bag)
    requires LedgerOk(p) && e !in p.executions
    requires p'.executions == p.executions[e := Admission(t, OK)] && p'.launching == p.launching[e := Claimed(t, request)]
    requires p'.taskExecutions == p.taskExecutions[t := e] && p'.cancelling == p.cancelling
    ensures LedgerOk(p')
  {
  }

  lemma DeliverSubmits(p: Process, p': Process, t: TaskId, e: ExecutionId, request: Bag)
    requires SubmitsOk(p) && e !in p.executions && p'.submits == p.submits
    requires p'.executions == p.executions[e := Admission(t, OK)] && p'.launching == p.launching[e := Claimed(t, request)]
    ensures SubmitsOk(p')
  {
  }

  lemma DeliverAdmits(p: Process, p': Process, t: TaskId, e: ExecutionId, request: Bag)
    requires LedgerOk(p) && AdmittedOk(p) && e !in p.executions && p'.tasks == p.tasks
    requires p'.executions == p.executions[e := Admission(t, OK)] && p'.launching == p.launching[e := Claimed(t, request)]
    ensures AdmittedOk(p')
  {
    hide AdmittedOk;
    SameAdmitted(p, p');
  }

  lemma DeliverTasks(p: Process, p': Process)
    requires TasksOk(p) && StartedOk(p)
    requires p'.tasks == p.tasks && p'.completions == p.completions && p'.started == p.started
    requires p.taskExecutions.Keys <= p'.taskExecutions.Keys
    ensures TasksOk(p') && StartedOk(p')
  {
  }

  lemma CrossKeeps(p: Process, e: ExecutionId, refusal: Option<Status>)
    requires ProcessOk(p) && Enabled(p, Cross(e, refusal))
    ensures ProcessOk(Next(p, Cross(e, refusal)))
  {
    hide EventsMatch, Distinct, RecordsOk, Submitted, AdmittedOk;
    var p' := Next(p, Cross(e, refusal));
    SubmitRecords(p, p.launching[e].task, p.launching[e].request, refusal);
    CrossLedger(p, p', e);
    CrossAdmits(p, p', e);
    assert TasksOk(p') && StartedOk(p');
  }

  lemma CrossAdmits(p: Process, p': Process, e: ExecutionId)
    requires LedgerOk(p) && AdmittedOk(p) && e in p.launching && p.launching[e].Claimed?
    requires e in p'.launching && p'.launching[e].Crossed? && p'.launching == p.launching[e := p'.launching[e]]
    requires p'.executions == p.executions
    requires p'.tasks.Keys == if p'.launching[e].status.code == Ok then p.tasks.Keys + {p.launching[e].task} else p.tasks.Keys
    ensures AdmittedOk(p')
  {
    var t0 := p.launching[e].task;
    assert forall x, t :: x != e ==> (Admits(p', x, t) <==> Admits(p, x, t));
    assert forall t :: !Admits(p, e, t);
    assert forall t :: Admits(p', e, t) <==> t == t0 && p'.launching[e].status.code == Ok;
    hide Admits;
    forall t
      ensures t in p'.tasks <==> exists x :: Admits(p', x, t)
    {
      assert t in p.tasks <==> exists x :: Admits(p, x, t);
      if t in p.tasks {
        var x :| Admits(p, x, t);
        assert Admits(p', x, t);
      } else if t in p'.tasks {
        assert Admits(p', e, t);
      }
    }
  }

  lemma CrossLedger(p: Process, p': Process, e: ExecutionId)
    requires LedgerOk(p) && SubmitsOk(p) && e in p.launching && p.launching[e].Claimed?
    requires e in p'.launching && p'.launching[e].Crossed? && p'.launching[e].task == p.launching[e].task
    requires p'.launching == p.launching[e := p'.launching[e]] && p'.submits == p.submits + [e]
    requires p'.executions == p.executions && p'.taskExecutions == p.taskExecutions && p'.cancelling == p.cancelling
    ensures LedgerOk(p') && SubmitsOk(p')
  {
    hide Distinct;
    assert SubmitsOk(p') by {
      DistinctAppend(p.submits, e);
      assert forall x :: x in p'.submits <==> x in p.submits || x == e;
    }
    assert LedgerOk(p') by {
      hide SubmitsOk;
    }
  }

  lemma SubmitRecords(p: Process, t: TaskId, request: Bag, refusal: Option<Status>)
    requires RecordsOk(p.tasks) && EventsMatch(p.tasks, p.completions)
    requires refusal.Some? ==> refusal.value.code != Ok
    ensures var tasks := Submitted(p.tasks, t, request, refusal).0;
            && RecordsOk(tasks) && EventsMatch(tasks, p.completions)
            && tasks.Keys == (if Submitted(p.tasks, t, request, refusal).1.code == Ok then p.tasks.Keys + {t} else p.tasks.Keys)
            && (forall x :: x in p.tasks ==> x in tasks && tasks[x] == p.tasks[x])
  {
    hide RecordsOk, EventsMatch;
    if refusal.None? && t !in p.tasks {
      var once := Registered(p.tasks, t, request).tasks;
      PerformKeeps(p.tasks, Register(t, request), p.completions);
      PerformKeeps(once, MarkQueued(t), p.completions);
      PerformTouchesOne(once, MarkQueued(t));
    }
  }

  lemma StoreKeeps(p: Process, e: ExecutionId)
    requires ProcessOk(p) && Enabled(p, Store(e))
    ensures ProcessOk(Next(p, Store(e)))
  {
    hide TasksOk, StartedOk, LedgerOk, SubmitsOk, AdmittedOk;
    var p' := Next(p, Store(e));
    SameBinding(p, e);
    SameAdmitted(p, p');
    StoreLedger(p, p', e);
    SameTasks(p, p');
  }

  lemma SameBinding(p: Process, e: ExecutionId)
    requires LedgerOk(p) && e in p.launching
    ensures e in p.executions && p.executions[e].task == p.launching[e].task
  {
  }

  lemma StoreLedger(p: Process, p': Process, e: ExecutionId)
    requires LedgerOk(p) && SubmitsOk(p) && e in p.launching && p.launching[e].Crossed? && e in p.executions
    requires e in p'.executions && p'.executions[e].task == p.executions[e].task
    requires p'.executions == p.executions[e := p'.executions[e]] && p'.launching == p.launching - {e}
    requires p'.taskExecutions == p.taskExecutions && p'.cancelling == p.cancelling && p'.submits == p.submits
    ensures LedgerOk(p') && SubmitsOk(p')
  {
    hide Distinct;
    assert p'.executions.Keys == p.executions.Keys;
    assert forall x :: x in p.executions ==> p'.executions[x].task == p.executions[x].task;
  }

  lemma SameTasks(p: Process, p': Process)
    requires TasksOk(p) && StartedOk(p)
    requires p'.tasks == p.tasks && p'.completions == p.completions && p'.started == p.started
    requires p'.taskExecutions == p.taskExecutions
    ensures TasksOk(p') && StartedOk(p')
  {
  }

  lemma CallKeeps(p: Process, op: Op, p': Process)
    requires ProcessOk(p) && !op.Register?
    requires p' == p.(tasks := Perform(p.tasks, op).tasks, completions := Appended(p.completions, Perform(p.tasks, op).event),
                      started := p'.started)
    requires p'.started == p.started
             || (op.MarkRunning? && Perform(p.tasks, op).code == Ok && p'.started == p.started + [op.task])
    ensures ProcessOk(p')
  {
    hide RecordsOk, EventsMatch, Perform, LedgerOk, SubmitsOk, AdmittedOk, Distinct, Evolves;
    SameKeys(p.tasks, op);
    SameAdmitted(p, p');
    CallRecords(p, op, p');
    CallStarts(p, op, p');
    SameLedger(p, p');
  }

  lemma SameKeys(tasks: Tasks, op: Op)
    requires !op.Register?
    ensures Perform(tasks, op).tasks.Keys == tasks.Keys
  {
    hide Perform;
    PerformTouchesOne(tasks, op);
  }

  lemma SameLedger(p: Process, p': Process)
    requires LedgerOk(p) && SubmitsOk(p)
    requires p'.launching == p.launching && p'.executions == p.executions && p'.taskExecutions == p.taskExecutions
    requires p'.cancelling == p.cancelling
    requires p'.submits == p.submits
    ensures LedgerOk(p') && SubmitsOk(p')
  {
  }

  lemma CallRecords(p: Process, op: Op, p': Process)
    requires TasksOk(p) && !op.Register?
    requires p'.taskExecutions == p.taskExecutions && p'.tasks == Perform(p.tasks, op).tasks
    requires p'.completions == Appended(p.completions, Perform(p.tasks, op).event)
    ensures TasksOk(p')
    ensures forall t :: t in p.tasks ==> t in p'.tasks && Rank(p.tasks[t].state) <= Rank(p'.tasks[t].state)
  {
    hide RecordsOk, EventsMatch, Perform;
    PerformKeeps(p.tasks, op, p.completions);
    PerformTouchesOne(p.tasks, op);
  }

  lemma CallStarts(p: Process, op: Op, p': Process)
    requires StartedOk(p) && p'.tasks == Perform(p.tasks, op).tasks
    requires forall t :: t in p.tasks ==> t in p'.tasks && Rank(p.tasks[t].state) <= Rank(p'.tasks[t].state)
    requires p'.started == p.started
             || (op.MarkRunning? && Perform(p.tasks, op).code == Ok && p'.started == p.started + [op.task])
    ensures StartedOk(p')
  {
    hide Perform, Distinct;
    if p'.started != p.started {
      RunningComesNext(p.tasks, op);
      DistinctAppend(p.started, op.task);
    }
  }

  lemma RunningComesNext(tasks: Tasks, op: Op)
    requires op.MarkRunning? && Perform(tasks, op).code == Ok
    ensures op.task in tasks && Rank(tasks[op.task].state) == 2 && Rank(Perform(tasks, op).tasks[op.task].state) == 3
  {
  }

  lemma NextKeeps(p: Process, a: Act)
    requires ProcessOk(p) && Enabled(p, a)
    ensures ProcessOk(Next(p, a))
  {
    hide ProcessOk, Canonical, Submitted, Perform, CancelledTask;
    match a
    case Deliver(t, e, request) => DeliverKeeps(p, t, e, request);
    case Cross(e, refusal) => CrossKeeps(p, e, refusal);
    case Store(e) => StoreKeeps(p, e);
    case RuntimeCall(op) => CallKeeps(p, op, Next(p, a));
    case CheckCancel(t, e) => CheckKeeps(p, t, e);
    case ApplyCancel(t, e) =>
      CancelIs(p.tasks, t);
      CallKeeps(p, Cancel(t), Next(p, a));
  }

  lemma CheckKeeps(p: Process, t: TaskId, e: ExecutionId)
    requires ProcessOk(p)
    ensures ProcessOk(Next(p, CheckCancel(t, e)))
  {
    hide RecordsOk, EventsMatch, Distinct, AdmittedOk;
    SameAdmitted(p, Next(p, CheckCancel(t, e)));
  }

  lemma {:induction false} RunKeeps(states: seq<Process>, acts: seq<Act>, i: nat)
    requires Run(states, acts) && i < |states|
    ensures ProcessOk(states[i])
  {
    hide ProcessOk, Enabled, Next;
    if i > 0 {
      RunKeeps(states, acts, i - 1);
      NextKeeps(states[i-1], acts[i-1]);
    } else {
      NewProcessOk();
    }
  }

  lemma NewProcessOk()
    ensures ProcessOk(NEW_PROCESS)
  {
  }

  // ---- What a process only ever adds to

  ghost predicate LedgerGrows(p: Process, p': Process) {
    forall e :: e in p.executions ==>
      && e in p'.executions && p'.executions[e].task == p.executions[e].task
      && (e !in p.launching ==> e !in p'.launching && p'.executions[e] == p.executions[e])
  }

  ghost predicate RecordsGrow(tasks: Tasks, tasks': Tasks) {
    forall t :: t in tasks ==> t in tasks' && Evolves(tasks[t], tasks'[t])
  }

  /** Bindings stay, stored verdicts stay, records evolve, events and tokens stay. */
  ghost predicate Grows(p: Process, p': Process) {
    LedgerGrows(p, p') && RecordsGrow(p.tasks, p'.tasks) && p.completions <= p'.completions
  }

  lemma SameRecordsGrow(tasks: Tasks, tasks': Tasks)
    requires forall t :: t in tasks ==> t in tasks' && tasks'[t] == tasks[t]
    ensures RecordsGrow(tasks, tasks')
  {
  }

  lemma GrowsMore(p: Process, p': Process, p'': Process)
    requires Grows(p, p') && Grows(p', p'')
    ensures Grows(p, p'')
  {
  }

  lemma CallGrows(p: Process, op: Op)
    requires TasksOk(p)
    ensures var u := Perform(p.tasks, op);
            RecordsGrow(p.tasks, u.tasks) && p.completions <= Appended(p.completions, u.event)
  {
    hide RecordsOk, EventsMatch, Perform;
    PerformKeeps(p.tasks, op, p.completions);
  }

  lemma NextLedgerGrows(p: Process, a: Act)
    requires LedgerOk(p) && Enabled(p, a)
    ensures LedgerGrows(p, Next(p, a))
  {
    hide Perform, CancelledTask, Submitted, Canonical;
    match a
    case Deliver(t, e, request) =>
    case Cross(e, refusal) =>
    case Store(e) =>
    case RuntimeCall(op) =>
    case CheckCancel(t, e) =>
    case ApplyCancel(t, e) =>
  }

  lemma NextGrows(p: Process, a: Act)
    requires ProcessOk(p) && Enabled(p, a)
    ensures Grows(p, Next(p, a))
  {
    hide RecordsOk, EventsMatch, Distinct, RecordsGrow, LedgerGrows, LedgerOk, SubmitsOk, StartedOk;
    hide Canonical, Perform, CancelledTask, Submitted;
    NextLedgerGrows(p, a);
    match a
    case Deliver(t, e, request) => SameRecordsGrow(p.tasks, p.tasks);
    case Cross(e, refusal) =>
      SubmitRecords(p, p.launching[e].task, p.launching[e].request, refusal);
      SameRecordsGrow(p.tasks, Next(p, a).tasks);
    case Store(e) => SameRecordsGrow(p.tasks, p.tasks);
    case RuntimeCall(op) => CallGrows(p, op);
    case CheckCancel(t, e) => SameRecordsGrow(p.tasks, p.tasks);
    case ApplyCancel(t, e) =>
      CallGrows(p, Cancel(t));
      CancelIs(p.tasks, t);
  }

  lemma CancelIs(tasks: Tasks, t: TaskId)
    ensures Perform(tasks, Cancel(t)) == CancelledTask(tasks, t)
  {
  }

  lemma {:induction false} RunGrows(states: seq<Process>, acts: seq<Act>, i: nat, j: nat)
    requires Run(states, acts) && i <= j < |states|
    ensures Grows(states[i], states[j])
  {
    hide Grows, ProcessOk, Enabled, Next;
    if i == j {
      GrowsNot(states[i]);
    } else {
      RunGrows(states, acts, i, j - 1);
      RunKeeps(states, acts, j - 1);
      NextGrows(states[j-1], acts[j-1]);
      GrowsMore(states[i], states[j-1], states[j]);
    }
  }

  lemma GrowsNot(p: Process)
    ensures Grows(p, p)
  {
  }

  // ---- At most once

  /**
   * However LaunchTask is duplicated, reordered or interleaved: each execution crosses Runtime::Submit at most once,
   * keeps its task for ever, and no task's handler is entered twice.
   */
  lemma AtMostOnce(states: seq<Process>, acts: seq<Act>, i: nat, j: nat, e: ExecutionId)
    requires Run(states, acts) && i <= j < |states|
    ensures Distinct(states[j].submits) && Distinct(states[j].started)
    ensures e in states[i].executions ==>
              e in states[j].executions && states[j].executions[e].task == states[i].executions[e].task
    ensures e in states[j].submits ==> e in states[j].executions
  {
    RunKeeps(states, acts, j);
    RunGrows(states, acts, i, j);
  }

  /** Every replay after the original stored its status gets that status; every replay before gets the OK placeholder. */
  lemma ReplayAnswers(states: seq<Process>, acts: seq<Act>, i: nat, j: nat, e: ExecutionId)
    requires Run(states, acts) && i < |acts| && acts[i] == Store(e) && j < |states|
    requires e in states[j].executions
    ensures e in states[i].launching && states[i].launching[e].Crossed?
    ensures Reply(states[j].executions, states[i].launching[e].task, e)
            == Some(if j <= i then OK else states[i].launching[e].status)
  {
    assert Enabled(states[i], acts[i]) && states[i+1] == Next(states[i], acts[i]);
    if j <= i {
      RunGrows(states, acts, j, i);
      RunKeeps(states, acts, j);
      RunKeeps(states, acts, i);
    } else {
      RunGrows(states, acts, i + 1, j);
      RunKeeps(states, acts, i);
    }
  }

  /** The placeholder can be wrong: a redelivered launch may be told OK although the original is then refused. */
  lemma PlaceholderCanMislead(t: TaskId, e: ExecutionId, refusal: Status) returns (states: seq<Process>, acts: seq<Act>)
    requires refusal.code != Ok
    ensures Run(states, acts) && |states| == 4
    ensures Reply(states[1].executions, t, e) == Some(OK)
    ensures Reply(states[3].executions, t, e) == Some(refusal) && states[3].tasks == map[]
  {
    acts := [Deliver(t, e, map[]), Cross(e, Some(refusal)), Store(e)];
    var p1 := Next(NEW_PROCESS, acts[0]);
    var p2 := Next(p1, acts[1]);
    var p3 := Next(p2, acts[2]);
    states := [NEW_PROCESS, p1, p2, p3];
  }

  /** However launches interleave, the runtime has a task exactly if one of its executions was accepted by Runtime::Submit. */
  lemma AdmissionIsAcceptance(states: seq<Process>, acts: seq<Act>, i: nat, t: TaskId)
    requires Run(states, acts) && i < |states|
    ensures t in states[i].tasks <==> exists e :: Admits(states[i], e, t)
  {
    hide Run, Admits;
    RunKeeps(states, acts, i);
  }

  // ---- Completions

  /** A completion callback always finds the remote execution of its task, and one that is bound to that very task. */
  lemma CallbackFindsExecution(states: seq<Process>, acts: seq<Act>, j: nat, k: nat)
    requires Run(states, acts) && j < |states| && k < |states[j].completions|
    ensures var p, c := states[j], states[j].completions[k];
            && c.task in p.taskExecutions
            && p.taskExecutions[c.task] in p.executions && p.executions[p.taskExecutions[c.task]].task == c.task
  {
    RunKeeps(states, acts, j);
    assert states[j].completions[k].task in states[j].tasks;
  }

  /** Runtime::Cancel answering OK means the sticky token of that task is set from then on. */
  lemma CancelSetsToken(states: seq<Process>, acts: seq<Act>, i: nat, j: nat, t: TaskId, e: ExecutionId)
    requires Run(states, acts) && i < j < |states| && acts[i] == ApplyCancel(t, e)
    requires CancelledTask(states[i].tasks, t).code == Ok
    ensures t in states[j].tasks && states[j].tasks[t].cancelToken
  {
    assert states[i+1] == Next(states[i], acts[i]);
    RunGrows(states, acts, i + 1, j);
  }

  // ---- The service object

  /** WorkerServiceImpl: one method per critical section, composed as LaunchTask and CancelTask compose them. */
  class WorkerServiceImpl {
    var executions: map<ExecutionId, Admission>
    var taskExecutions: map<TaskId, ExecutionId>
    const manager: TaskManager

    constructor (manager: TaskManager)
      ensures executions == map[] && taskExecutions == map[] && this.manager == manager
    {
      executions, taskExecutions := map[], map[];
      this.manager := manager;
    }

    /** The first critical section of LaunchTask: replay, refuse, or claim. */
    method Claim(t: TaskId, e: ExecutionId) returns (answer: Option<Status>)
      modifies this
      ensures answer == Reply(old(executions), t, e)
      ensures executions == if e in old(executions) then old(executions) else old(executions)[e := Admission(t, OK)]
      ensures taskExecutions == if e in old(executions) then old(taskExecutions) else old(taskExecutions)[t := e]
    {
      if e in executions {
        if executions[e].task != t {
          return Some(WRONG_TASK);
        }
        return Some(executions[e].status);
      }
      executions := executions[e := Admission(t, OK)];
      taskExecutions := taskExecutions[t := e];
      return None;
    }

    /** The last critical section of LaunchTask. */
    method StoreStatus(e: ExecutionId, status: Status)
      modifies this
      ensures taskExecutions == old(taskExecutions)
      ensures executions == if e in old(executions) then old(executions)[e := old(executions)[e].(status := status)] else old(executions)
    {
      if e in executions {
        executions := executions[e := executions[e].(status := status)];
      }
    }

    /** Runtime::Submit past its admission checks: register, then enqueue. */
    method Submit(t: TaskId, request: Bag, refusal: Option<Status>) returns (status: Status)
      modifies manager
      ensures (manager.records, status) == Submitted(old(manager.records), t, request, refusal)
    {
      if refusal.Some? {
        return refusal.value;
      }
      var code := manager.Register(t, request, true);
      if code != Ok {
        return ALREADY_REGISTERED;
      }
      code := manager.MarkQueued(t);
      return OK;
    }

    /** One undisturbed LaunchTask call does Deliver, Cross and Store, or only replays. */
    method LaunchTask(t: TaskId, e: ExecutionId, request: Bag, refusal: Option<Status>) returns (status: Status)
      requires Canonical(request) && (refusal.Some? ==> refusal.value.code != Ok)
      modifies this, manager
      ensures var p := Process(old(executions), old(taskExecutions), map[], {}, old(manager.records), [], [], []);
              var p1 := Next(p, Deliver(t, e, request));
              if e in old(executions) then
                && executions == old(executions) && taskExecutions == old(taskExecutions)
                && manager.records == old(manager.records) && Some(status) == Reply(old(executions), t, e)
              else
                var p3 := Next(Next(p1, Cross(e, refusal)), Store(e));
                && executions == p3.executions && taskExecutions == p3.taskExecutions && manager.records == p3.tasks
                && Some(status) == Reply(executions, t, e)
    {
      var answer := Claim(t, e);
      if answer.Some? {
        return answer.value;
      }
      status := Submit(t, request, refusal);
      StoreStatus(e, status);
    }

    /** CancelTask: identity first, then the runtime. */
    method CancelTask(t: TaskId, e: ExecutionId) returns (code: StatusCode, event: Option<Completion>)
      modifies manager
      ensures e !in executions ==> code == NotFound && manager.records == old(manager.records) && event == None
      ensures e in executions && (executions[e].task != t || executions[e].status.code != Ok) ==>
                code == FailedPrecondition && manager.records == old(manager.records) && event == None
      ensures e in executions && executions[e].task == t && executions[e].status.code == Ok ==>
                Update(manager.records, code, event) == CancelledTask(old(manager.records), t)
    {
      if e !in executions {
        return NotFound, None;
      }
      if executions[e].task != t {
        return FailedPrecondition, None;
      }
      if executions[e].status.code != Ok {
        return FailedPrecondition, None;
      }
      code, event := manager.Cancel(t);
    }

    /** The completion callback: the remote execution to report under, if the task came from the control plane. */
    method OnCompletion(c: Completion) returns (remote: Option<ExecutionId>)
      ensures remote == if c.task in taskExecutions then Some(taskExecutions[c.task]) else None
    {
      if c.task !in taskExecutions {
        return None;
      }
      return Some(taskExecutions[c.task]);
    }
  }
}
