/** What each TaskManager call answers and does, and what a task's record tells about the calls that were made. */
module TaskHistory {
  import opened Common
  import opened Resources
  import opened TaskManagement

  // ---- One call

  /**
   * The states in which a call on a known task is accepted. The gate of Complete lets a queued task through as well if the
   * outcome says Cancelled; no worker makes that call (LocalTheorems.WorkerCallsSucceed).
   */
  predicate Accepts(op: Op, state: ExecutionState) {
    match op
    case Register(_, _) => false
    case MarkQueued(_) => state == Pending
    case MarkScheduled(_, _, _) => state == Queued
    case MarkRunning(_) => state == Scheduled
    case Complete(_, o) => state == Running || (state == Queued && o.status.code == Cancelled)
    case Cancel(_) => state == Queued || state == Running
  }

  /** The answer depends on the state of the named task and on nothing else, and a refusal changes nothing. */
  lemma CallAnswers(ts: Tasks, op: Op)
    ensures var u := Perform(ts, op);
            && (u.code == Ok || u.code == NotFound || u.code == AlreadyExists || u.code == FailedPrecondition)
            && (u.code == NotFound <==> !op.Register? && op.task !in ts)
            && (u.code == AlreadyExists <==> op.Register? && op.task in ts)
            && (u.code == Ok <==> if op.task in ts then Accepts(op, ts[op.task].state) else op.Register?)
            && (u.code != Ok ==> u.tasks == ts && u.event == None)
  {
    match op
    case Register(_, _) =>
    case MarkQueued(_) =>
    case MarkScheduled(_, _, _) =>
    case MarkRunning(_) =>
    case Complete(_, _) =>
    case Cancel(_) =>
  }

  /** What an accepted call leaves of the record it names; no other record changes. */
  lemma CallEffects(ts: Tasks, op: Op)
    requires Perform(ts, op).code == Ok
    ensures var u := Perform(ts, op);
            op.task in u.tasks && u.tasks == ts[op.task := u.tasks[op.task]]
    ensures var r := Perform(ts, op).tasks[op.task];
            match op
            case Register(t, request) => r == TaskRecord(request, Pending, None, 0, None, false, OK, "")
            case MarkQueued(t) => t in ts && r == ts[t].(state := Queued)
            case MarkScheduled(t, w, e) =>
              t in ts && r == ts[t].(state := Scheduled, attempt := ts[t].attempt + 1, worker := Some(w), execution := Some(e))
            case MarkRunning(t) => t in ts && r == ts[t].(state := Running)
            case Complete(t, o) =>
              && t in ts && r == ts[t].(state := r.state, terminalStatus := o.status, result := o.result)
              && StateTells(r.state, o.status.code)
            case Cancel(t) =>
              t in ts && if ts[t].state == Running then r == ts[t].(cancelToken := true)
                         else r == ts[t].(state := Aborted, cancelToken := true, terminalStatus := r.terminalStatus, result := "")
                              && r.terminalStatus.code == Cancelled
  {
    match op
    case Register(_, _) =>
    case MarkQueued(_) =>
    case MarkScheduled(_, _, _) =>
    case MarkRunning(_) =>
    case Complete(_, _) =>
    case Cancel(_) =>
  }

  /** Succeeded says Ok, Aborted says Cancelled, Failed says anything else, and there is no fourth terminal state. */
  predicate StateTells(state: ExecutionState, code: StatusCode) {
    && (state == Succeeded <==> code == Ok)
    && (state == Aborted <==> code == Cancelled)
    && (state == Failed <==> code != Ok && code != Cancelled)
  }

  /** An event is emitted exactly when the call ends the task, and it carries what the record holds then. */
  lemma CallEvents(ts: Tasks, op: Op)
    ensures var u := Perform(ts, op);
            u.event.Some? <==> u.code == Ok && (op.Complete? || (op.Cancel? && ts[op.task].state == Queued))
    ensures var u := Perform(ts, op);
            u.event.Some? ==>
              && op.task in u.tasks
              && var r := u.tasks[op.task];
                 u.event.value == Completion(op.task, r.state, r.execution, r.terminalStatus, r.result)
  {
    match op
    case Register(_, _) =>
    case MarkQueued(_) =>
    case MarkScheduled(_, _, _) =>
    case MarkRunning(_) =>
    case Complete(_, _) =>
    case Cancel(_) =>
  }

  /** The gate behind the calls: one known record moves one step, or is aborted while queued or running. */
  lemma GateMoves(ts: Tasks, t: TaskId, next: ExecutionState)
    ensures var u := Moved(ts, t, next);
            && (u.code == NotFound <==> t !in ts)
            && (u.code == Ok <==> t in ts && Step(ts[t].state, next))
            && (u.code == Ok || u.code == NotFound || u.code == FailedPrecondition)
            && u.tasks == (if t in ts && u.code == Ok then ts[t := ts[t].(state := next)] else ts)
            && u.event == None
  {
  }

  /** One step along Pending, Queued, Scheduled, Running and a terminal state, or the abort of a queued task. */
  predicate Step(from: ExecutionState, to: ExecutionState) {
    || (from == Pending && to == Queued) || (from == Queued && (to == Scheduled || to == Aborted))
    || (from == Scheduled && to == Running)
    || (from == Running && (to == Succeeded || to == Failed || to == Aborted))
  }

  /** The published relation leaves no terminal state, aborts any other, and else goes up by exactly one rank. */
  lemma PublishedRelation(from: ExecutionState, to: ExecutionState)
    ensures CanTransition(from, to) <==>
            from != Succeeded && from != Failed && from != Aborted && (to == Aborted || Rank(to) == Rank(from) + 1)
    ensures IsTerminal(from) <==> forall next :: !CanTransition(from, next)
    ensures Rank(Pending) == 0 && Rank(Queued) == 1 && Rank(Scheduled) == 2 && Rank(Running) == 3
    ensures Rank(from) == 4 <==> from == Succeeded || from == Failed || from == Aborted
  {
    assert !IsTerminal(from) ==> CanTransition(from, Aborted);
  }

  // ---- Whole histories

  /** The records before the k-th call of a history. */
  function Before(ops: seq<Op>, k: nat): Tasks
    requires k <= |ops|
  {
    After(ops[..k]).0
  }

  lemma OneMore(ops: seq<Op>, k: nat)
    requires ops != [] && k < |ops|
    ensures Before(ops, k) == Before(ops[..|ops|-1], k)
    ensures Before(ops, |ops|) == After(ops).0 && Before(ops, |ops| - 1) == After(ops[..|ops|-1]).0
    ensures After(ops).0 == Perform(Before(ops, |ops| - 1), ops[|ops|-1]).tasks
    ensures After(ops).1 == Appended(After(ops[..|ops|-1]).1, Perform(Before(ops, |ops| - 1), ops[|ops|-1]).event)
  {
    assert ops[..|ops|-1][..k] == ops[..k];
    assert ops[..|ops|] == ops;
  }

  /** Over every history, how a task ended and the status it carries say the same. */
  lemma {:induction false} VerdictsMatch(ops: seq<Op>, t: TaskId)
    requires t in After(ops).0 && IsTerminal(After(ops).0[t].state)
    ensures StateTells(After(ops).0[t].state, After(ops).0[t].terminalStatus.code)
  {
    hide Perform;
    var front, op := ops[..|ops|-1], ops[|ops|-1];
    OneMore(ops, |ops| - 1);
    var ts := After(front).0;
    CallAnswers(ts, op);
    if Perform(ts, op).code == Ok {
      CallEffects(ts, op);
    }
    if t in ts && IsTerminal(ts[t].state) {
      VerdictsMatch(front, t);
    }
  }

  /**
   * Over every history a terminal record is what one call made it: the outcome of a completion that found the task running
   * (or queued, if the outcome says Cancelled), or the cancellation that found it queued.
   */
  lemma {:induction false} TerminalComesFrom(ops: seq<Op>, t: TaskId) returns (k: nat)
    requires t in After(ops).0 && IsTerminal(After(ops).0[t].state)
    ensures k < |ops| && ops[k].task == t && t in Before(ops, k)
    ensures var r := After(ops).0[t];
            || (ops[k].Complete? && Accepts(ops[k], Before(ops, k)[t].state)
                && r.terminalStatus == ops[k].outcome.status && r.result == ops[k].outcome.result)
            || (ops[k].Cancel? && Before(ops, k)[t].state == Queued && r.terminalStatus.code == Cancelled && r.result == "")
  {
    hide Perform;
    var front, op := ops[..|ops|-1], ops[|ops|-1];
    OneMore(ops, |ops| - 1);
    var ts := After(front).0;
    CallAnswers(ts, op);
    if Perform(ts, op).code == Ok {
      CallEffects(ts, op);
    }
    if t in ts && IsTerminal(ts[t].state) {
      k := TerminalComesFrom(front, t);
      OneMore(ops, k);
    } else {
      k := |ops| - 1;
    }
  }

  /** Over every history a task's cancellation token is set exactly if some cancellation found it queued or running. */
  lemma {:induction false} TokenExactlyWhen(ops: seq<Op>, t: TaskId)
    requires t in After(ops).0
    ensures After(ops).0[t].cancelToken <==> exists k :: 0 <= k < |ops| && CancelsAt(ops, k, t)
  {
    hide Perform, Before;
    var front, op := ops[..|ops|-1], ops[|ops|-1];
    OneMore(ops, |ops| - 1);
    var ts := After(front).0;
    CallAnswers(ts, op);
    if Perform(ts, op).code == Ok {
      CallEffects(ts, op);
    }
    assert CancelsAt(ops, |ops| - 1, t) <==> op == Cancel(t) && t in ts && (ts[t].state == Queued || ts[t].state == Running);
    forall k | 0 <= k < |front|
      ensures CancelsAt(ops, k, t) <==> CancelsAt(front, k, t)
    {
      OneMore(ops, k);
    }
    if t in ts {
      TokenExactlyWhen(front, t);
      if After(ops).0[t].cancelToken {
        if ts[t].cancelToken {
          var k :| 0 <= k < |front| && CancelsAt(front, k, t);
          assert CancelsAt(ops, k, t);
        } else {
          assert CancelsAt(ops, |ops| - 1, t);
        }
      } else {
        forall k | 0 <= k < |ops|
          ensures !CancelsAt(ops, k, t)
        {
          if k < |front| {
            assert !CancelsAt(front, k, t);
          }
        }
      }
    } else {
      forall k | 0 <= k < |ops|
        ensures !CancelsAt(ops, k, t)
      {
        if k < |front| {
          NotYetKnown(ops, k, t);
        }
      }
    }
  }

  predicate CancelsAt(ops: seq<Op>, k: nat, t: TaskId)
    requires k < |ops|
  {
    && ops[k] == Cancel(t) && t in Before(ops, k)
    && (Before(ops, k)[t].state == Queued || Before(ops, k)[t].state == Running)
  }

  /** A task unknown before the last call was unknown before every earlier one. */
  lemma NotYetKnown(ops: seq<Op>, k: nat, t: TaskId)
    requires ops != [] && k < |ops| && t !in After(ops[..|ops|-1]).0
    ensures t !in Before(ops, k)
  {
    var front := ops[..|ops|-1];
    OneMore(ops, k);
    HistoryOnlyMovesForward(front, k);
  }

  /** Over every history a worker and an execution are bound by the one MarkScheduled call that found the task queued. */
  lemma {:induction false} BindingComesFrom(ops: seq<Op>, t: TaskId) returns (k: nat)
    requires t in After(ops).0 && (After(ops).0[t].execution.Some? || After(ops).0[t].worker.Some? || After(ops).0[t].attempt != 0)
    ensures k < |ops| && ops[k].MarkScheduled? && ops[k].task == t
    ensures t in Before(ops, k) && Before(ops, k)[t].state == Queued
    ensures After(ops).0[t].worker == Some(ops[k].worker) && After(ops).0[t].execution == Some(ops[k].execution)
  {
    hide Perform;
    var front, op := ops[..|ops|-1], ops[|ops|-1];
    OneMore(ops, |ops| - 1);
    var ts := After(front).0;
    CallAnswers(ts, op);
    if Perform(ts, op).code == Ok {
      CallEffects(ts, op);
    }
    if op.MarkScheduled? && op.task == t && Perform(ts, op).code == Ok {
      k := |ops| - 1;
    } else {
      k := BindingComesFrom(front, t);
      OneMore(ops, k);
    }
  }

  /** Over every history the request of a task is that of the call that registered it. */
  lemma {:induction false} RequestComesFrom(ops: seq<Op>, t: TaskId) returns (k: nat)
    requires t in After(ops).0
    ensures k < |ops| && ops[k].Register? && ops[k].task == t && t !in Before(ops, k)
    ensures After(ops).0[t].request == ops[k].request
  {
    hide Perform;
    var front, op := ops[..|ops|-1], ops[|ops|-1];
    OneMore(ops, |ops| - 1);
    var ts := After(front).0;
    CallAnswers(ts, op);
    if Perform(ts, op).code == Ok {
      CallEffects(ts, op);
    }
    if t in ts {
      k := RequestComesFrom(front, t);
      OneMore(ops, k);
    } else {
      k := |ops| - 1;
    }
  }
}
