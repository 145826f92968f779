/** What a worker process answers to launches and cancellations, read off its execution ledger, on every run. */
module WorkerAnswers {
  import opened Common
  import opened Resources
  import opened TaskManagement
  import opened TaskHistory
  import opened WorkerService

  // ---- Launches

  /** A known execution is replayed to its own task and refused to any other; an unknown one is claimed. */
  lemma LaunchAnswers(executions: map<ExecutionId, Admission>, t: TaskId, e: ExecutionId)
    ensures var answer := Reply(executions, t, e);
            && (answer == None <==> e !in executions)
            && (e in executions && executions[e].task == t ==> answer == Some(executions[e].status))
            && (e in executions && executions[e].task != t ==> answer.Some? && answer.value.code == FailedPrecondition)
  {
  }

  /** A launch that is answered from the ledger changes nothing; one that claims binds execution, task and request to each other. */
  lemma DeliverBinds(p: Process, t: TaskId, e: ExecutionId, request: Bag)
    requires Enabled(p, Deliver(t, e, request))
    ensures var p' := Next(p, Deliver(t, e, request));
            if e in p.executions then p' == p
            else
              && e in p'.executions && p'.executions == p.executions[e := p'.executions[e]]
              && p'.executions[e].task == t && p'.executions[e].status.code == Ok
              && p'.taskExecutions == p.taskExecutions[t := e]
              && e in p'.launching && p'.launching == p.launching[e := p'.launching[e]] && p'.launching[e] == Claimed(t, request)
              && p' == p.(executions := p'.executions, taskExecutions := p'.taskExecutions, launching := p'.launching)
  {
    hide Canonical;
  }

  /** A refused submission leaves no task; a task that is known already is not submitted again; any other is queued as asked. */
  lemma SubmitAnswers(tasks: Tasks, t: TaskId, request: Bag, refusal: Option<Status>)
    ensures var (tasks', status) := Submitted(tasks, t, request, refusal);
            if refusal.Some? then tasks' == tasks && status == refusal.value
            else if t in tasks then tasks' == tasks && status.code == AlreadyExists
            else status.code == Ok && tasks' == tasks[t := TaskRecord(request, Queued, None, 0, None, false, OK, "")]
  {
    hide Moved, Registered;
    if refusal.None? && t !in tasks {
      CallAnswers(tasks, Register(t, request));
      CallEffects(tasks, Register(t, request));
      RegisterIs(tasks, t, request);
      GateMoves(Registered(tasks, t, request).tasks, t, Queued);
    }
  }

  lemma RegisterIs(tasks: Tasks, t: TaskId, request: Bag)
    ensures Perform(tasks, Register(t, request)) == Registered(tasks, t, request)
  {
  }

  /**
   * On every run, once a launch has crossed Runtime::Submit and its verdict is stored, the ledger shows the refusal it met, or
   * that its task was there already, or Ok; and Ok means that the task is there with the launch's own request.
   */
  lemma CrossingDecides(states: seq<Process>, acts: seq<Act>, i: nat, j: nat, e: ExecutionId, refusal: Option<Status>)
    requires Run(states, acts) && i < j < |states| && acts[i] == Cross(e, refusal) && e in states[j].executions && e !in states[j].launching
    ensures e in states[i].launching && states[i].launching[e].Claimed?
    ensures var t, status := states[i].launching[e].task, states[j].executions[e].status;
            && (refusal.Some? ==> status == refusal.value)
            && (refusal.None? && t in states[i].tasks ==> status.code == AlreadyExists)
            && (refusal.None? && t !in states[i].tasks ==>
                  status.code == Ok && t in states[j].tasks && states[j].tasks[t].request == states[i].launching[e].request)
  {
    hide Enabled, Next, ProcessOk, Grows, Submitted;
    assert Enabled(states[i], acts[i]) && states[i+1] == Next(states[i], acts[i]);
    CrossIs(states[i], e, refusal);
    var t, request := states[i].launching[e].task, states[i].launching[e].request;
    SubmitAnswers(states[i].tasks, t, request, refusal);
    StoredLater(states, acts, i + 1, j, e);
    RunGrows(states, acts, i + 1, j);
    if refusal.None? && t !in states[i].tasks {
      RequestStays(states[i+1], states[j], t);
    }
  }

  lemma CrossIs(p: Process, e: ExecutionId, refusal: Option<Status>)
    requires Enabled(p, Cross(e, refusal))
    ensures e in p.launching && p.launching[e].Claimed?
    ensures var p' := Next(p, Cross(e, refusal));
            var (tasks, status) := Submitted(p.tasks, p.launching[e].task, p.launching[e].request, refusal);
            p'.tasks == tasks && e in p'.launching && p'.launching[e] == Crossed(p.launching[e].task, status)
  {
    hide Submitted;
  }

  lemma RequestStays(p: Process, p': Process, t: TaskId)
    requires Grows(p, p') && t in p.tasks
    ensures t in p'.tasks && p'.tasks[t].request == p.tasks[t].request
  {
  }

  /** A crossed launch keeps its status until that is stored. */
  lemma {:induction false} StoredLater(states: seq<Process>, acts: seq<Act>, i: nat, j: nat, e: ExecutionId)
    requires Run(states, acts) && i <= j < |states| && e in states[i].launching && states[i].launching[e].Crossed?
    ensures if e in states[j].launching then states[j].launching[e] == states[i].launching[e]
            else e in states[j].executions && states[j].executions[e].status == states[i].launching[e].status
  {
    hide Enabled, Next, ProcessOk;
    if i < j {
      StoredLater(states, acts, i, j - 1, e);
      RunKeeps(states, acts, j - 1);
      StoredNext(states[j-1], acts[j-1], e);
    }
  }

  lemma StoredNext(p: Process, a: Act, e: ExecutionId)
    requires ProcessOk(p) && Enabled(p, a)
    ensures var p' := Next(p, a);
            && (e in p.launching && p.launching[e].Crossed? ==>
                  if e in p'.launching then p'.launching[e] == p.launching[e]
                  else e in p'.executions && p'.executions[e].status == p.launching[e].status)
            && (e in p.executions && e !in p.launching ==> e !in p'.launching && e in p'.executions && p'.executions[e] == p.executions[e])
  {
    hide SubmitsOk, TasksOk, StartedOk, AdmittedOk, Submitted, Perform, CancelledTask, Canonical;
    match a
    case Deliver(_, _, _) =>
    case Cross(_, _) =>
    case Store(_) =>
    case RuntimeCall(_) =>
    case CheckCancel(_, _) =>
    case ApplyCancel(_, _) =>
  }

  // ---- Cancellations

  /** The identity check of CancelTask passes exactly for an execution that is known, bound to that task, and not refused. */
  lemma CheckAnswers(p: Process, t: TaskId, e: ExecutionId)
    ensures var code := CancelRefusal(p.executions, t, e);
            && (code == NotFound <==> e !in p.executions)
            && (code == FailedPrecondition <==> e in p.executions && (p.executions[e].task != t || p.executions[e].status.code != Ok))
            && (code == Ok <==> e in p.executions && p.executions[e].task == t && p.executions[e].status.code == Ok)
    ensures Next(p, CheckCancel(t, e)) ==
            if e in p.executions && p.executions[e].task == t && p.executions[e].status.code == Ok
            then p.(cancelling := p.cancelling + {CancelCall(t, e)}) else p
  {
  }

  /** On every run a cancellation reaches the runtime only after a check that found the execution bound to that task and not refused. */
  lemma {:induction false} OnlyCheckedReachRuntime(states: seq<Process>, acts: seq<Act>, j: nat, t: TaskId, e: ExecutionId) returns (i: nat)
    requires Run(states, acts) && j < |states| && Enabled(states[j], ApplyCancel(t, e))
    ensures i < j && acts[i] == CheckCancel(t, e)
    ensures e in states[i].executions && states[i].executions[e].task == t && states[i].executions[e].status.code == Ok
  {
    hide Enabled, Next, CancelRefusal;
    assert j != 0 by {
      NobodyYet(t, e);
    }
    var p, a := states[j-1], acts[j-1];
    CallIsPending(p, a, t, e);
    if Enabled(p, ApplyCancel(t, e)) {
      i := OnlyCheckedReachRuntime(states, acts, j - 1, t, e);
    } else {
      CheckAnswers(p, t, e);
      i := j - 1;
    }
  }

  lemma NobodyYet(t: TaskId, e: ExecutionId)
    ensures !Enabled(NEW_PROCESS, ApplyCancel(t, e))
  {
  }

  lemma CallIsPending(p: Process, a: Act, t: TaskId, e: ExecutionId)
    requires Enabled(p, a)
    ensures Enabled(p, ApplyCancel(t, e)) ==> Enabled(Next(p, a), ApplyCancel(t, e))
    ensures Enabled(Next(p, a), ApplyCancel(t, e)) && !Enabled(p, ApplyCancel(t, e)) ==>
              a == CheckCancel(t, e) && CancelRefusal(p.executions, t, e) == Ok
  {
    hide Submitted, Perform, CancelledTask, Canonical, CancelRefusal;
    match a
    case Deliver(_, _, _) =>
    case Cross(_, _) =>
    case Store(_) =>
    case RuntimeCall(_) =>
    case CheckCancel(_, _) =>
    case ApplyCancel(_, _) =>
  }

  lemma {:induction false} CallStaysPending(states: seq<Process>, acts: seq<Act>, i: nat, j: nat, t: TaskId, e: ExecutionId)
    requires Run(states, acts) && i <= j < |states| && Enabled(states[i], ApplyCancel(t, e))
    ensures Enabled(states[j], ApplyCancel(t, e))
  {
    hide Enabled, Next, CancelRefusal;
    if i < j {
      CallStaysPending(states, acts, i, j - 1, t, e);
      CallIsPending(states[j-1], acts[j-1], t, e);
    }
  }

  /**
   * On every run, a cancellation that names an admitted execution by its own task passes the check, and from then on the
   * runtime can be asked: if the task is running when it is, the answer is Ok, its token is set, and it stays set.
   */
  lemma LegitimateCancelWorks(states: seq<Process>, acts: seq<Act>, i: nat, j: nat, k: nat, t: TaskId, e: ExecutionId)
    requires Run(states, acts) && i < j < k < |states| && acts[i] == CheckCancel(t, e)
    requires e in states[i].executions && states[i].executions[e].task == t && states[i].executions[e].status.code == Ok
    requires t in states[j].tasks && states[j].tasks[t].state == Running
    ensures Enabled(states[j], ApplyCancel(t, e)) && CancelledTask(states[j].tasks, t).code == Ok
    ensures acts[j] == ApplyCancel(t, e) ==>
              && states[j+1].tasks == states[j].tasks[t := states[j].tasks[t].(cancelToken := true)]
              && t in states[k].tasks && states[k].tasks[t].cancelToken
  {
    hide Next, Grows, CancelledTask;
    assert Enabled(states[i], acts[i]) && states[i+1] == Next(states[i], acts[i]);
    CheckAnswers(states[i], t, e);
    CallStaysPending(states, acts, i + 1, j, t, e);
    CallAnswers(states[j].tasks, Cancel(t));
    CallEffects(states[j].tasks, Cancel(t));
    CancelIs(states[j].tasks, t);
    if acts[j] == ApplyCancel(t, e) {
      AppliedIs(states[j], t, e);
      RunGrows(states, acts, j + 1, k);
      TokenStays(states[j+1], states[k], t);
    }
  }

  lemma AppliedIs(p: Process, t: TaskId, e: ExecutionId)
    requires Enabled(p, ApplyCancel(t, e))
    ensures Next(p, ApplyCancel(t, e)).tasks == CancelledTask(p.tasks, t).tasks
  {
    hide CancelledTask;
  }

  lemma TokenStays(p: Process, p': Process, t: TaskId)
    requires Grows(p, p') && t in p.tasks && p.tasks[t].cancelToken
    ensures t in p'.tasks && p'.tasks[t].cancelToken
  {
  }
}
