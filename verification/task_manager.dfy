/** The authoritative record of every logical task, and the lifecycle each record goes through. */
module TaskManagement {
  import opened Common
  import opened Resources

  datatype ExecutionState = Pending | Queued | Scheduled | Running | Succeeded | Failed | Aborted

  predicate IsTerminal(s: ExecutionState) {
    s.Succeeded? || s.Failed? || s.Aborted?
  }

  /** The published lifecycle relation (core/lifecycle.cpp). */
  predicate CanTransition(from: ExecutionState, to: ExecutionState) {
    if !IsTerminal(from) && to == Aborted then true
    else match from
      case Pending => to == Queued
      case Queued => to == Scheduled
      case Scheduled => to == Running
      case Running => to == Succeeded || to == Failed
      case _ => false
  }

  /** The gate TaskManager itself applies: narrower, since only queued and running tasks can be cancelled. */
  predicate TransitionAllowed(from: ExecutionState, to: ExecutionState) {
    match from
    case Pending => to == Queued
    case Queued => to == Scheduled || to == Aborted
    case Scheduled => to == Running
    case Running => IsTerminal(to)
    case _ => false
  }

  function Rank(s: ExecutionState): nat {
    match s
    case Pending => 0
    case Queued => 1
    case Scheduled => 2
    case Running => 3
    case _ => 4
  }

  datatype TaskRecord = TaskRecord(
    request: Bag,
    state: ExecutionState,
    worker: Option<WorkerId>,
    attempt: nat,
    execution: Option<ExecutionId>,
    cancelToken: bool,
    terminalStatus: Status,
    result: string)

  datatype Outcome = Outcome(status: Status, result: string)

  datatype Completion = Completion(
    task: TaskId,
    state: ExecutionState,
    execution: Option<ExecutionId>,
    status: Status,
    result: string)

  type Tasks = map<TaskId, TaskRecord>

  /** What one TaskManager call does: the records afterwards, the returned code, the completion event if any. */
  datatype Update = Update(tasks: Tasks, code: StatusCode, event: Option<Completion>)

  const CANCELLED_BEFORE_EXECUTION := Status(Cancelled, "task cancelled before execution")

  function Fresh(request: Bag): TaskRecord {
    TaskRecord(request, Pending, None, 0, None, false, OK, "")
  }

  function Registered(ts: Tasks, t: TaskId, request: Bag): Update {
    if t in ts then Update(ts, AlreadyExists, None)
    else Update(ts[t := Fresh(request)], Ok, None)
  }

  /** Every ordinary change of state passes through this gate. */
  function Moved(ts: Tasks, t: TaskId, next: ExecutionState): Update {
    if t !in ts then Update(ts, NotFound, None)
    else if !TransitionAllowed(ts[t].state, next) then Update(ts, FailedPrecondition, None)
    else Update(ts[t := ts[t].(state := next)], Ok, None)
  }

  function MovedToScheduled(ts: Tasks, t: TaskId, w: WorkerId, e: ExecutionId): Update {
    var u := Moved(ts, t, Scheduled);
    if u.code != Ok then u
    else
      var r := u.tasks[t];
      u.(tasks := u.tasks[t := r.(attempt := r.attempt + 1, worker := Some(w), execution := Some(e))])
  }

  function TerminalFor(status: Status): ExecutionState {
    match status.code
    case Ok => Succeeded
    case Cancelled => Aborted
    case _ => Failed
  }

  function EventOf(t: TaskId, r: TaskRecord): Completion {
    Completion(t, r.state, r.execution, r.terminalStatus, r.result)
  }

  function Completed(ts: Tasks, t: TaskId, o: Outcome): Update {
    var u := Moved(ts, t, TerminalFor(o.status));
    if u.code != Ok then u
    else
      var r := u.tasks[t].(terminalStatus := o.status, result := o.result);
      Update(u.tasks[t := r], Ok, Some(EventOf(t, r)))
  }

  function CancelledTask(ts: Tasks, t: TaskId): Update {
    if t !in ts then Update(ts, NotFound, None)
    else if ts[t].state == Queued then
      var r := ts[t].(state := Aborted, cancelToken := true, terminalStatus := CANCELLED_BEFORE_EXECUTION, result := "");
      Update(ts[t := r], Ok, Some(EventOf(t, r)))
    else if ts[t].state == Running then Update(ts[t := ts[t].(cancelToken := true)], Ok, None)
    else Update(ts, FailedPrecondition, None)
  }

  /** Every call that can change a record. */
  datatype Op =
    | Register(task: TaskId, request: Bag)
    | MarkQueued(task: TaskId)
    | MarkScheduled(task: TaskId, worker: WorkerId, execution: ExecutionId)
    | MarkRunning(task: TaskId)
    | Complete(task: TaskId, outcome: Outcome)
    | Cancel(task: TaskId)

  function Perform(ts: Tasks, op: Op): Update {
    match op
    case Register(t, request) => Registered(ts, t, request)
    case MarkQueued(t) => Moved(ts, t, Queued)
    case MarkScheduled(t, w, e) => MovedToScheduled(ts, t, w, e)
    case MarkRunning(t) => Moved(ts, t, Running)
    case Complete(t, o) => Completed(ts, t, o)
    case Cancel(t) => CancelledTask(ts, t)
  }

  /** What any number of calls may do to one record. */
  predicate Evolves(r: TaskRecord, r': TaskRecord) {
    && r'.request == r.request
    && Rank(r.state) <= Rank(r'.state)
    && (IsTerminal(r.state) ==> r' == r)
    && (r.cancelToken ==> r'.cancelToken)
    && r.attempt <= r'.attempt
    && (r.execution.Some? ==> r'.execution == r.execution && r'.worker == r.worker)
  }

  predicate RecordOk(r: TaskRecord) {
    && (r.attempt == 0 || r.attempt == 1)
    && (r.attempt == 1 <==> r.execution.Some?)
    && (r.execution.Some? <==> r.worker.Some?)
    && (r.state.Pending? || r.state.Queued? ==> r.attempt == 0)
    && (r.state.Scheduled? || r.state.Running? || r.state.Succeeded? || r.state.Failed? ==> r.attempt == 1)
    && (IsTerminal(r.state) ==> r.state == TerminalFor(r.terminalStatus))
  }

  ghost predicate RecordsOk(ts: Tasks) {
    forall t :: t in ts ==> RecordOk(ts[t])
  }

  /** One event per terminal task, carrying what the record holds, and no event for any other task. */
  ghost predicate EventsMatch(ts: Tasks, events: seq<Completion>) {
    && (forall i :: 0 <= i < |events| ==> events[i].task in ts && IsTerminal(ts[events[i].task].state)
                                          && events[i] == EventOf(events[i].task, ts[events[i].task]))
    && (forall i, j :: 0 <= i < j < |events| ==> events[i].task != events[j].task)
    && (forall t :: t in ts && IsTerminal(ts[t].state) ==> exists i :: 0 <= i < |events| && events[i].task == t)
  }

  function Appended(events: seq<Completion>, e: Option<Completion>): seq<Completion> {
    if e.Some? then events + [e.value] else events
  }

  /** What a successful call other than Register does to the one record it touches. */
  predicate Advances(t: TaskId, r: TaskRecord, r': TaskRecord, event: Option<Completion>) {
    && !IsTerminal(r.state)
    && r'.request == r.request
    && (RecordOk(r) ==> RecordOk(r') && Evolves(r, r'))
    && (r'.state != r.state ==> CanTransition(r.state, r'.state) && Rank(r.state) < Rank(r'.state))
    && (event == if IsTerminal(r'.state) then Some(EventOf(t, r')) else None)
  }

  /** A call touches at most the one record it names, and a failed call touches nothing. */
  lemma PerformTouchesOne(ts: Tasks, op: Op)
    ensures var u := Perform(ts, op);
            && (u.code != Ok ==> u.tasks == ts && u.event == None)
            && (u.code == Ok ==> op.task in u.tasks && u.tasks == ts[op.task := u.tasks[op.task]])
            && (u.code == Ok && op.Register? ==> op.task !in ts && u.tasks[op.task] == Fresh(op.request) && u.event == None)
            && (u.code == Ok && !op.Register? ==> op.task in ts && Advances(op.task, ts[op.task], u.tasks[op.task], u.event))
  {
    var u := Perform(ts, op);
    match op
    case Register(t, request) =>
    case MarkQueued(t) =>
    case MarkScheduled(t, w, e) =>
    case MarkRunning(t) =>
    case Complete(t, o) =>
    case Cancel(t) =>
  }

  /** One call, whatever it is and whoever makes it. */
  lemma PerformKeeps(ts: Tasks, op: Op, events: seq<Completion>)
    requires RecordsOk(ts) && EventsMatch(ts, events)
    ensures var u := Perform(ts, op);
            && RecordsOk(u.tasks) && EventsMatch(u.tasks, Appended(events, u.event))
            && (forall t :: t in ts ==> t in u.tasks && Evolves(ts[t], u.tasks[t]))
  {
    PerformTouchesOne(ts, op);
    var u := Perform(ts, op);
    if u.code == Ok {
      OneRecordKeeps(ts, op.task, u.tasks[op.task], u.event, events);
    }
  }

  lemma OneRecordKeeps(ts: Tasks, t: TaskId, r: TaskRecord, event: Option<Completion>, events: seq<Completion>)
    requires RecordsOk(ts) && EventsMatch(ts, events)
    requires t in ts ==> Advances(t, ts[t], r, event)
    requires t !in ts ==> RecordOk(r) && !IsTerminal(r.state) && event == None
    ensures RecordsOk(ts[t := r]) && EventsMatch(ts[t := r], Appended(events, event))
  {
    var ts', events' := ts[t := r], Appended(events, event);
    assert forall i :: 0 <= i < |events| ==> events[i].task != t;
    forall x | x in ts' && IsTerminal(ts'[x].state)
      ensures exists i :: 0 <= i < |events'| && events'[i].task == x
    {
      if x == t {
        assert events'[|events|].task == t;
      } else {
        var i :| 0 <= i < |events| && events[i].task == x;
        assert events'[i].task == x;
      }
    }
  }

  /** The records and events after a whole history of calls, starting from an empty manager. */
  function After(ops: seq<Op>): (r: (Tasks, seq<Completion>)) {
    if ops == [] then (map[], [])
    else
      var before := After(ops[..|ops|-1]);
      var u := Perform(before.0, ops[|ops|-1]);
      (u.tasks, Appended(before.1, u.event))
  }

  /** Over every history: at most one attempt per task, and exactly one completion event per terminal task. */
  lemma {:induction false} HistoryIsSound(ops: seq<Op>)
    ensures RecordsOk(After(ops).0) && EventsMatch(After(ops).0, After(ops).1)
  {
    if ops != [] {
      var front := ops[..|ops|-1];
      HistoryIsSound(front);
      PerformKeeps(After(front).0, ops[|ops|-1], After(front).1);
    }
  }

  /** Over every history, a record only moves forward; once terminal it never changes again. */
  lemma {:induction false} HistoryOnlyMovesForward(ops: seq<Op>, n: nat)
    requires n <= |ops|
    ensures forall t :: t in After(ops[..n]).0 ==>
              t in After(ops).0 && Evolves(After(ops[..n]).0[t], After(ops).0[t])
  {
    if n == |ops| {
      assert ops[..n] == ops;
    } else {
      var front := ops[..|ops|-1];
      assert front[..n] == ops[..n];
      HistoryOnlyMovesForward(front, n);
      HistoryIsSound(front);
      PerformKeeps(After(front).0, ops[|ops|-1], After(front).1);
    }
  }

  /** The lifecycle steps the records may still take. */
  ghost function Remaining(ts: Tasks): int {
    Total(Left(ts))
  }

  function Left(ts: Tasks): map<TaskId, int> {
    map t | t in ts :: 4 - Rank(ts[t].state)
  }

  /** Enqueue, dispatch, start, completion and queued cancellation each use up lifecycle steps; nothing else does. */
  lemma RemainingDecreases(ts: Tasks, op: Op)
    requires !op.Register?
    ensures var u := Perform(ts, op);
            && u.tasks.Keys == ts.Keys
            && 0 <= Remaining(u.tasks)
            && if u.code == Ok && !(op.Cancel? && ts[op.task].state == Running)
               then Remaining(u.tasks) < Remaining(ts)
               else Remaining(u.tasks) == Remaining(ts)
  {
    var u := Perform(ts, op);
    PerformTouchesOne(ts, op);
    if u.code == Ok {
      var r := u.tasks[op.task];
      RemainingChange(ts, op.task, r);
      assert (op.Cancel? && ts[op.task].state == Running) || Rank(ts[op.task].state) < Rank(r.state);
    }
    TotalNonNegative(Left(u.tasks));
  }

  lemma RemainingChange(ts: Tasks, t: TaskId, r: TaskRecord)
    ensures Remaining(ts[t := r]) ==
            Remaining(ts) + (4 - Rank(r.state)) - (if t in ts then 4 - Rank(ts[t].state) else 0)
  {
    TotalUpdate(Left(ts), t, 4 - Rank(r.state));
    assert Left(ts[t := r]) == Left(ts)[t := 4 - Rank(r.state)];
  }

  /** The number of calls in a history that advanced some task's lifecycle. */
  function Progress(ops: seq<Op>): nat {
    if ops == [] then 0
    else
      Progress(ops[..|ops|-1]) + if Moves(After(ops[..|ops|-1]).0, ops[|ops|-1]) then 1 else 0
  }

  predicate Moves(ts: Tasks, op: Op) {
    op.task in ts && Perform(ts, op).tasks != ts && !(op.Cancel? && ts[op.task].state == Running)
  }

  /** Over every history, lifecycle progress is bounded by four steps per registered task. */
  lemma {:induction false} ProgressIsBounded(ops: seq<Op>)
    ensures Progress(ops) + Remaining(After(ops).0) <= 4 * |After(ops).0|
  {
    if ops != [] {
      var front, op := ops[..|ops|-1], ops[|ops|-1];
      var ts := After(front).0;
      ProgressIsBounded(front);
      PerformTouchesOne(ts, op);
      if op.Register? {
        if op.task !in ts {
          RemainingChange(ts, op.task, Fresh(op.request));
          assert After(ops).0.Keys == ts.Keys + {op.task};
        }
      } else {
        RemainingDecreases(ts, op);
        assert |After(ops).0.Keys| == |ts.Keys|;
      }
    }
  }

  /** The gate admits only published transitions, and each raises the rank; the published relation admits two more cancellations. */
  lemma GateIsNarrower(from: ExecutionState, to: ExecutionState)
    ensures TransitionAllowed(from, to) ==> CanTransition(from, to) && Rank(from) < Rank(to)
    ensures CanTransition(from, to) && !TransitionAllowed(from, to) <==> to == Aborted && (from == Pending || from == Scheduled)
  {
  }

  /** Lifecycle: one state that moves only along the published relation. */
  class Lifecycle {
    var state: ExecutionState

    constructor ()
      ensures state == Pending
    {
      state := Pending;
    }

    method TransitionTo(next: ExecutionState) returns (code: StatusCode)
      modifies this
      ensures code == if CanTransition(old(state), next) then Ok else FailedPrecondition
      ensures state == if code == Ok then next else old(state)
      ensures Rank(old(state)) <= Rank(state) && (IsTerminal(old(state)) ==> state == old(state))
    {
      if !CanTransition(state, next) {
        return FailedPrecondition;
      }
      state := next;
      return Ok;
    }
  }

  /** TaskManager: the records, updated in place. */
  class TaskManager {
    var records: Tasks

    constructor ()
      ensures records == map[]
    {
      records := map[];
    }

    method TransitionLocked(id: TaskId, next: ExecutionState) returns (code: StatusCode)
      requires id in records
      modifies this
      ensures records == Moved(old(records), id, next).tasks && code == Moved(old(records), id, next).code
    {
      var current := records[id].state;
      var valid := false;
      match current {
        case Pending => valid := next == Queued;
        case Queued => valid := next == Scheduled || next == Aborted;
        case Scheduled => valid := next == Running;
        case Running => valid := next == Succeeded || next == Failed || next == Aborted;
        case _ => valid := false;
      }
      if !valid {
        return FailedPrecondition;
      }
      records := records[id := records[id].(state := next)];
      return Ok;
    }

    method Register(id: TaskId, request: Bag, hasHandler: bool) returns (code: StatusCode)
      modifies this
      ensures id !in old(records) && !hasHandler ==> records == old(records) && code == InvalidArgument
      ensures id in old(records) || hasHandler ==>
                records == Registered(old(records), id, request).tasks && code == Registered(old(records), id, request).code
    {
      if id in records {
        return AlreadyExists;
      }
      if !hasHandler {
        return InvalidArgument;
      }
      records := records[id := TaskRecord(request, Pending, None, 0, None, false, OK, "")];
      return Ok;
    }

    method MarkQueued(id: TaskId) returns (code: StatusCode)
      modifies this
      ensures records == Perform(old(records), Op.MarkQueued(id)).tasks
      ensures code == Perform(old(records), Op.MarkQueued(id)).code
    {
      if id !in records {
        return NotFound;
      }
      code := TransitionLocked(id, Queued);
    }

    method MarkScheduled(id: TaskId, worker: WorkerId, execution: ExecutionId) returns (code: StatusCode)
      modifies this
      ensures records == Perform(old(records), Op.MarkScheduled(id, worker, execution)).tasks
      ensures code == Perform(old(records), Op.MarkScheduled(id, worker, execution)).code
    {
      if id !in records {
        return NotFound;
      }
      code := TransitionLocked(id, Scheduled);
      if code != Ok {
        return;
      }
      records := records[id := records[id].(attempt := records[id].attempt + 1)];
      records := records[id := records[id].(worker := Some(worker))];
      records := records[id := records[id].(execution := Some(execution))];
    }

    method MarkRunning(id: TaskId) returns (code: StatusCode)
      modifies this
      ensures records == Perform(old(records), Op.MarkRunning(id)).tasks
      ensures code == Perform(old(records), Op.MarkRunning(id)).code
    {
      if id !in records {
        return NotFound;
      }
      code := TransitionLocked(id, Running);
    }

    method Complete(id: TaskId, outcome: Outcome) returns (code: StatusCode, event: Option<Completion>)
      modifies this
      ensures Update(records, code, event) == Perform(old(records), Op.Complete(id, outcome))
    {
      event := None;
      if id !in records {
        return NotFound, None;
      }
      var terminal: ExecutionState;
      if outcome.status.code == Ok {
        terminal := Succeeded;
      } else if outcome.status.code == Cancelled {
        terminal := Aborted;
      } else {
        terminal := Failed;
      }
      code := TransitionLocked(id, terminal);
      if code != Ok {
        return;
      }
      records := records[id := records[id].(terminalStatus := outcome.status)];
      records := records[id := records[id].(result := outcome.result)];
      event := Some(EventOf(id, records[id]));
    }

    method Cancel(id: TaskId) returns (code: StatusCode, event: Option<Completion>)
      modifies this
      ensures Update(records, code, event) == Perform(old(records), Op.Cancel(id))
    {
      event := None;
      if id !in records {
        return NotFound, None;
      }
      if records[id].state == Queued {
        code := TransitionLocked(id, Aborted);
        if code != Ok {
          return;
        }
        records := records[id := records[id].(cancelToken := true)];
        records := records[id := records[id].(terminalStatus := CANCELLED_BEFORE_EXECUTION)];
        records := records[id := records[id].(result := "")];
        event := Some(EventOf(id, records[id]));
      } else if records[id].state == Running {
        records := records[id := records[id].(cancelToken := true)];
        code := Ok;
      } else {
        code := FailedPrecondition;
      }
    }

    method GetSpec(id: TaskId) returns (code: StatusCode, request: Option<Bag>)
      ensures code == if id in records then Ok else NotFound
      ensures request == if id in records then Some(records[id].request) else None
    {
      if id !in records {
        return NotFound, None;
      }
      return Ok, Some(records[id].request);
    }

    /** The handler itself is not modelled; every record has one. */
    method GetHandler(id: TaskId) returns (code: StatusCode)
      ensures code == if id in records then Ok else NotFound
    {
      if id !in records {
        return NotFound;
      }
      return Ok;
    }

    method GetCancellationToken(id: TaskId) returns (code: StatusCode, token: Option<bool>)
      ensures code == if id in records then Ok else NotFound
      ensures token == if id in records then Some(records[id].cancelToken) else None
    {
      if id !in records {
        return NotFound, None;
      }
      return Ok, Some(records[id].cancelToken);
    }

    /** GetResult from the end of its wait on: a wait with a deadline may end before the task does, one without may not. */
    method GetResult(id: TaskId, deadline: bool) returns (status: Status, result: Option<string>)
      requires !deadline && id in records ==> IsTerminal(records[id].state)
      ensures id !in records ==> status.code == NotFound
      ensures id in records && !IsTerminal(records[id].state) ==> status.code == DeadlineExceeded
      ensures id in records && IsTerminal(records[id].state) ==> status == records[id].terminalStatus
      ensures result == if id in records && IsTerminal(records[id].state) && status.code == Ok then Some(records[id].result) else None
    {
      if id !in records {
        return Status(NotFound, "task is not registered"), None;
      }
      if deadline && !IsTerminal(records[id].state) {
        return Status(DeadlineExceeded, "timed out waiting for task result"), None;
      }
      if records[id].terminalStatus.code != Ok {
        return records[id].terminalStatus, None;
      }
      return records[id].terminalStatus, Some(records[id].result);
    }
  }
}
