/** One runtime process as a step system: client calls, the scheduler thread, the worker threads and Shutdown interleave freely. */
module LocalRuntime {
  import opened Common
  import opened Resources
  import opened TaskManagement
  import opened Scheduling

  /** Where a worker thread is between two critical sections. */
  datatype Thread =
    | AtWait                                       // about to wait for the mailbox
    | Took(item: WorkItem)                         // mailbox emptied, MarkRunning not yet called
    | Executing(item: WorkItem)                    // the handler is running
    | Decided(item: WorkItem, outcome: Outcome)    // the handler returned, Complete not yet called
    | Finished(item: WorkItem)                     // the slot is not yet idle again
    | Erasing(item: WorkItem)                      // idle again, OnWorkerIdle has not touched running_
    | Returning(resources: Bag)                    // erased from running_, not yet released
    | Waking                                       // released, wake-up not yet requested
    | Exited

  /** Where the scheduler thread is. */
  datatype Loop = Parked | Checking | Trying | Stopped

  /** How far the (single) Shutdown call has got. */
  datatype Phase =
    | Open
    | Draining
    | Drained
    | JoiningLoop
    | LoopJoined
    | StoppingWorker(next: nat)
    | JoiningWorker(next: nat)
    | Closed

  datatype Local = Local(
    capacity: Bag,
    core: Core,
    threads: map<WorkerId, Thread>,
    loop: Loop,
    up: bool,
    accepting: bool,
    submitting: Option<TaskId>,
    phase: Phase,
    // what has happened so far
    enqueued: seq<TaskId>,
    dispatched: seq<TaskId>,
    withdrawn: set<TaskId>,
    accepted: set<TaskId>,
    completions: seq<Completion>,
    dropped: map<WorkerId, Bag>)

  /** Calls made by clients of the runtime. */
  datatype ClientAct =
    | SubmitRegister(task: TaskId, request: Bag)
    | SubmitEnqueue
    | CancelTask(task: TaskId)

  /** The scheduler thread. */
  datatype LoopAct =
    | LoopWakes
    | LoopChecks
    | LoopTries(execution: ExecutionId, pick: Option<WorkerId>)

  /** One worker thread. */
  datatype WorkerAct =
    | Take
    | Start
    | HandlerReturns(outcome: Outcome)
    | Finish
    | SetIdle
    | EraseReservation
    | ReturnResources
    | RequestWake
    | Exit

  /** The Shutdown call. */
  datatype ShutdownAct =
    | CloseAdmission
    | DrainReturns
    | StopLoop
    | JoinLoop
    | StopPool
    | StopWorker
    | JoinWorker
    | ShutdownReturns

  datatype Step =
    | Client(client: ClientAct)
    | Scheduler(loop: LoopAct)
    | Worker(worker: WorkerId, act: WorkerAct)
    | Shutdown(shutdown: ShutdownAct)

  /** The state right after Runtime::Start returned OK. */
  ghost predicate Init(s: Local) {
    && Canonical(s.capacity)
    && Distinct(s.core.order)
    && var ids := set w | w in s.core.order;
       s == Local(
         s.capacity,
         Core(map[], [], map w | w in ids :: Pool(s.capacity, s.capacity), s.core.order, true,
              map w | w in ids :: Slot(Idle, None, true, false), map[], true, false, true),
         map w | w in ids :: AtWait,
         Parked, true, true, None, Open,
         [], [], {}, {}, [], map w | w in ids :: map[])
  }

  /** Runtime::Submit up to the registration: every admission check, in order. */
  function Admit(s: Local, t: TaskId, request: Bag): StatusCode {
    if !s.up || !s.accepting then Unavailable
    else if !exists w :: w in s.core.order && w in s.core.pools && Fits(request, s.core.pools[w].total) then ResourceExhausted
    else Registered(s.core.tasks, t, request).code
  }

  function AtThread(s: Local, w: WorkerId, pc: Thread): Local {
    s.(threads := s.threads[w := pc])
  }

  function AtSlot(s: Local, w: WorkerId, slot: Slot): Local {
    s.(core := s.core.(slots := s.core.slots[w := slot]))
  }

  // When a step can be taken, and what it does. A lock held by another step, or a condition waited for, is part of the guard.

  predicate ClientEnabled(s: Local, a: ClientAct) {
    match a
    case SubmitRegister(t, request) => s.submitting.None? && Canonical(request)
    case SubmitEnqueue => s.submitting.Some?
    case CancelTask(t) => true
  }

  function ClientNext(s: Local, a: ClientAct): Local
    requires ClientEnabled(s, a)
  {
    match a
    case SubmitRegister(t, request) =>
      if Admit(s, t, request) != Ok then s
      else s.(core := s.core.(tasks := Registered(s.core.tasks, t, request).tasks), submitting := Some(t))
    case SubmitEnqueue =>
      var t := s.submitting.value;
      var (c, code) := Enqueued(s.core, t);
      if code != Ok then s.(core := c, submitting := None)
      else s.(core := c, submitting := None, enqueued := s.enqueued + [t], accepted := s.accepted + {t})
    case CancelTask(t) =>
      var r := CancelledIn(s.core, t);
      s.(core := r.core, completions := Appended(s.completions, r.event),
         withdrawn := if r.event.Some? then s.withdrawn + {t} else s.withdrawn)
  }

  predicate InCallback(pc: Thread) {
    pc.Erasing? || pc.Returning? || pc.Waking?
  }

  /**
   * What placement may come to when the transaction commits. It reads idleness and pools worker by worker, while other
   * workers may become idle or release; both only ever add candidates, and leave the worker's thread in its callback,
   * which needs the scheduler's lock to go on. So without such a thread placement saw one state and took its first fit;
   * with one it may have come to any worker that is idle and has room by now, or, having looked too early, to none.
   */
  predicate MayPick(s: Local, pick: Option<WorkerId>) {
    || pick == Choice(s.core)
    || ((exists w :: w in s.threads && InCallback(s.threads[w])) && (pick.Some? ==> Placeable(s.core, pick.value)))
  }

  predicate LoopEnabled(s: Local, a: LoopAct) {
    match a
    case LoopWakes => s.loop == Parked && (s.core.stopping || s.core.wake)
    case LoopChecks => s.loop == Checking
    case LoopTries(e, pick) => s.loop == Trying && MayPick(s, pick)
  }

  function LoopNext(s: Local, a: LoopAct): Local {
    match a
    case LoopWakes =>
      if s.core.stopping then s.(loop := Stopped)
      else s.(core := s.core.(wake := false), loop := Checking)
    case LoopChecks => s.(loop := if s.core.stopping then Stopped else Trying)
    case LoopTries(e, pick) => Tried(s, e, pick)
  }

  /** The scheduler thread's call of TryScheduleOne. A reservation that emplace does not record is noted as dropped. */
  function Tried(s: Local, e: ExecutionId, pick: Option<WorkerId>): Local {
    var a := TryScheduleAt(s.core, pick, e);
    if a.worker.None? || s.core.queue == [] || s.core.queue[0] !in s.core.tasks then s.(core := a.core, loop := Parked)
    else
      var w, t := a.worker.value, s.core.queue[0];
      var lost := if w in s.dropped then s.dropped[w] else map[];
      s.(core := a.core, loop := Checking, dispatched := s.dispatched + [t],
         dropped := if w in s.core.running then s.dropped[w := Plus(lost, s.core.tasks[t].request)] else s.dropped)
  }

  predicate WorkerEnabled(s: Local, w: WorkerId, a: WorkerAct) {
    && w in s.threads && w in s.core.slots
    && match a
       case Take => s.threads[w].AtWait? && s.core.slots[w].mailbox.Some?
       case Start => s.threads[w].Took?
       case HandlerReturns(o) => s.threads[w].Executing?
       case Finish => s.threads[w].Decided?
       case SetIdle => s.threads[w].Finished?
       case EraseReservation => s.threads[w].Erasing?
       case ReturnResources => s.threads[w].Returning?
       case RequestWake => s.threads[w].Waking?
       case Exit => s.threads[w].AtWait? && s.core.slots[w].stopping && s.core.slots[w].mailbox.None?
  }

  function WorkerNext(s: Local, w: WorkerId, a: WorkerAct): Local
    requires WorkerEnabled(s, w, a)
  {
    match a
    case Take => AtThread(AtSlot(s, w, s.core.slots[w].(mailbox := None)), w, Took(s.core.slots[w].mailbox.value))
    case Start =>
      var item := s.threads[w].item;
      var u := Moved(s.core.tasks, item.task, Running);
      AtThread(s.(core := s.core.(tasks := u.tasks)), w, if u.code == Ok then Executing(item) else Finished(item))
    case HandlerReturns(o) => AtThread(s, w, Decided(s.threads[w].item, o))
    case Finish =>
      var item := s.threads[w].item;
      var u := Completed(s.core.tasks, item.task, s.threads[w].outcome);
      AtThread(s.(core := s.core.(tasks := u.tasks), completions := Appended(s.completions, u.event)), w, Finished(item))
    case SetIdle => AtThread(AtSlot(s, w, s.core.slots[w].(state := Idle)), w, Erasing(s.threads[w].item))
    case EraseReservation =>
      var (c, found) := Erased(s.core, w);
      AtThread(s.(core := c), w, if found.Some? then Returning(found.value) else Waking)
    case ReturnResources => AtThread(s.(core := PoolRelease(s.core, w, s.threads[w].resources).0), w, Waking)
    case RequestWake => AtThread(s.(core := Woken(s.core)), w, AtWait)
    case Exit => AtThread(s, w, Exited)
  }

  predicate ShutdownEnabled(s: Local, a: ShutdownAct) {
    match a
    case CloseAdmission => s.phase == Open && s.submitting.None?
    case DrainReturns => s.phase == Draining && s.core.queue == [] && s.core.running == map[]
    case StopLoop => s.phase == Drained
    case JoinLoop => s.phase == JoiningLoop && s.loop == Stopped
    case StopPool => s.phase == LoopJoined
    case StopWorker => s.phase.StoppingWorker? && s.phase.next < |s.core.order| && s.core.order[s.phase.next] in s.core.slots
    case JoinWorker =>
      && s.phase.JoiningWorker? && s.phase.next < |s.core.order|
      && var w := s.core.order[s.phase.next];
         w in s.core.slots && w in s.threads && s.threads[w].Exited?
    case ShutdownReturns => s.phase.StoppingWorker? && s.phase.next >= |s.core.order|
  }

  function ShutdownNext(s: Local, a: ShutdownAct): Local
    requires ShutdownEnabled(s, a)
  {
    match a
    case CloseAdmission => s.(accepting := false, phase := Draining)
    case DrainReturns => s.(phase := Drained)
    case StopLoop => s.(core := s.core.(stopping := true, wake := true), phase := JoiningLoop)
    case JoinLoop => s.(core := s.core.(started := false), phase := LoopJoined)
    case StopPool => s.(core := s.core.(poolStarted := false), phase := StoppingWorker(0))
    case StopWorker =>
      var w := s.core.order[s.phase.next];
      AtSlot(s, w, s.core.slots[w].(stopping := true)).(phase := JoiningWorker(s.phase.next))
    case JoinWorker =>
      AtSlot(s, s.core.order[s.phase.next], Slot(Idle, None, false, false)).(phase := StoppingWorker(s.phase.next + 1))
    case ShutdownReturns => s.(up := false, accepting := false, phase := Closed)
  }

  predicate Enabled(s: Local, step: Step) {
    match step
    case Client(a) => ClientEnabled(s, a)
    case Scheduler(a) => LoopEnabled(s, a)
    case Worker(w, a) => WorkerEnabled(s, w, a)
    case Shutdown(a) => ShutdownEnabled(s, a)
  }

  function Next(s: Local, step: Step): Local
    requires Enabled(s, step)
  {
    match step
    case Client(a) => ClientNext(s, a)
    case Scheduler(a) => LoopNext(s, a)
    case Worker(w, a) => WorkerNext(s, w, a)
    case Shutdown(a) => ShutdownNext(s, a)
  }

  /** A finite run: any interleaving of enabled steps from a started runtime. */
  ghost predicate Run(states: seq<Local>, steps: seq<Step>) {
    && |states| == |steps| + 1
    && Init(states[0])
    && forall i :: 0 <= i < |steps| ==> Enabled(states[i], steps[i]) && states[i+1] == Next(states[i], steps[i])
  }

  /** Some run ends in `s`. */
  ghost predicate Reachable(s: Local) {
    exists states, steps :: Run(states, steps) && states[|steps|] == s
  }

  lemma ReachableNext(s: Local, step: Step, next: Local)
    requires Reachable(s) && Enabled(s, step) && Next(s, step) == next
    ensures Reachable(next)
  {
    hide Enabled, Next, Init;
    var states, steps :| Run(states, steps) && states[|steps|] == s;
    var states', steps' := states + [next], steps + [step];
    forall i | 0 <= i < |steps'|
      ensures Enabled(states'[i], steps'[i]) && states'[i+1] == Next(states'[i], steps'[i])
    {
      if i < |steps| {
        assert states'[i] == states[i] && states'[i+1] == states[i+1];
      }
    }
    assert Run(states', steps') && states'[|steps'|] == next;
  }
}
