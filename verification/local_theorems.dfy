/** What the local runtime guarantees on every run, and the one thing it does not. */
module LocalTheorems {
  import opened Common
  import opened Resources
  import opened TaskManagement
  import opened Scheduling
  import opened LocalRuntime
  import opened LocalInvariant
  import opened LocalWorkerSteps
  import opened LocalOtherSteps

  // ---- Conservation

  /** At every point of every run, per worker and resource, nothing is created or lost unaccounted. */
  lemma ResourcesConserved(states: seq<Local>, steps: seq<Step>, i: nat, w: WorkerId, n: string)
    requires Run(states, steps) && i < |states| && w in states[i].core.order
    ensures var s := states[i];
            && w in s.core.pools && w in s.threads && w in s.dropped
            && s.core.pools[w].total == s.capacity
            && 0 <= Get(s.core.pools[w].available, n) <= Get(s.capacity, n)
            && Get(s.capacity, n) == Get(s.core.pools[w].available, n) + Get(Entry(s.core.running, w), n)
                                     + Get(InFlight(s.threads[w]), n) + Get(s.dropped[w], n)
  {
    hide Run;
    RunKeeps(states, steps, i);
    BalancedAt(states[i], w, n);
  }

  lemma BalancedAt(s: Local, w: WorkerId, n: string)
    requires Inv(s) && w in s.core.order
    ensures w in s.core.pools && w in s.threads && w in s.dropped
    ensures s.core.pools[w].total == s.capacity
    ensures 0 <= Get(s.core.pools[w].available, n) <= Get(s.capacity, n)
    ensures Get(s.capacity, n) == Get(s.core.pools[w].available, n) + Get(Entry(s.core.running, w), n)
                                  + Get(InFlight(s.threads[w]), n) + Get(s.dropped[w], n)
  {
    hide WorkersOk, HeldOk, QueueOk, RequestsOk, FlagsOk, WorkerFlagsOk, AlarmOk, FifoOk, EventsOk;
    assert Balanced(s.capacity, s.core.pools[w], Entry(s.core.running, w), InFlight(s.threads[w]), s.dropped[w]);
  }

  // ---- When no reservation is ever dropped

  /** No two tasks fit together in one worker's total capacity. */
  ghost predicate NoTwoFit(tasks: Tasks, capacity: Bag) {
    forall t, u :: t in tasks && u in tasks && t != u ==> !Fits(Plus(tasks[t].request, tasks[u].request), capacity)
  }

  /** The dispatched task whose reservation OnWorkerIdle has not yet taken back. */
  function Outstanding(slot: Slot, pc: Thread): Option<WorkItem> {
    if slot.mailbox.Some? then slot.mailbox
    else match pc
      case Took(item) => Some(item)
      case Executing(item) => Some(item)
      case Decided(item, _) => Some(item)
      case Finished(item) => Some(item)
      case Erasing(item) => Some(item)
      case _ => None
  }

  /** The worker's running_ entry is exactly its outstanding task's, and nothing was dropped. */
  predicate ExactAt(tasks: Tasks, running: map<WorkerId, Reservation>, w: WorkerId, slot: Slot, pc: Thread, dropped: Bag) {
    && dropped == map[]
    && (slot.mailbox.Some? ==> !pc.Erasing?)
    && match Outstanding(slot, pc)
       case None => w !in running
       case Some(item) =>
         && item.task in tasks && 2 <= Rank(tasks[item.task].state)
         && w in running && running[w] == Reservation(item.task, tasks[item.task].request)
  }

  ghost predicate ExactOk(s: Local) {
    forall w :: w in s.core.slots && w in s.threads && w in s.dropped ==>
      ExactAt(s.core.tasks, s.core.running, w, s.core.slots[w], s.threads[w], s.dropped[w])
  }

  /** Records only grow, keep their request, and never fall back behind Scheduled. */
  ghost predicate TasksGrow(tasks: Tasks, tasks': Tasks) {
    forall t :: t in tasks ==> t in tasks' && tasks'[t].request == tasks[t].request
                               && Rank(tasks[t].state) <= Rank(tasks'[t].state)
  }

  lemma ExactFrame(s: Local, s': Local, w: WorkerId)
    requires ExactOk(s) && TasksGrow(s.core.tasks, s'.core.tasks)
    requires w in s.core.slots && w in s'.core.slots && s'.core.slots == s.core.slots[w := s'.core.slots[w]]
    requires w in s.threads && w in s'.threads && s'.threads == s.threads[w := s'.threads[w]]
    requires w in s.dropped && w in s'.dropped && s'.dropped == s.dropped[w := s'.dropped[w]]
    requires forall x :: x != w ==> (x in s'.core.running <==> x in s.core.running)
                                    && (x in s.core.running ==> s'.core.running[x] == s.core.running[x])
    requires ExactAt(s'.core.tasks, s'.core.running, w, s'.core.slots[w], s'.threads[w], s'.dropped[w])
    ensures ExactOk(s')
  {
  }

  /** The scheduler reserves a worker whose callback is pending only if both requests fit together. */
  lemma PendingMeansBothFit(s: Local, w: WorkerId)
    requires CanGo(s, w) && w in s.core.running
    requires Balanced(s.capacity, s.core.pools[w], Entry(s.core.running, w), InFlight(s.threads[w]), s.dropped[w])
    ensures Fits(Plus(s.core.running[w].resources, s.core.tasks[s.core.queue[0]].request), s.capacity)
  {
  }

  lemma DispatchExact(s: Local, w: WorkerId, e: ExecutionId)
    requires CanGo(s, w) && ExactOk(s) && NoTwoFit(s.core.tasks, s.capacity)
    requires WorkersOk(s.core.tasks, s.core.slots, s.threads)
    requires Balanced(s.capacity, s.core.pools[w], Entry(s.core.running, w), InFlight(s.threads[w]), s.dropped[w])
    ensures w !in s.core.running && ExactOk(DispatchedTo(s, w, e))
  {
    hide Balanced, NoTwoFit, Fits, Minus, Plus;
    var t := s.core.queue[0];
    var s' := DispatchedTo(s, w, e);
    assert WorkerOk(s.core.tasks, w, s.core.slots[w], s.threads[w]);
    assert ExactAt(s.core.tasks, s.core.running, w, s.core.slots[w], s.threads[w], s.dropped[w]);
    if w in s.core.running {
      PendingMeansBothFit(s, w);
      Apart(s.core.tasks, s.capacity, s.core.running[w].task, t);
      assert false;
    }
    assert TasksGrow(s.core.tasks, s'.core.tasks);
    ExactFrame(s, s', w);
  }

  lemma Apart(tasks: Tasks, capacity: Bag, t: TaskId, u: TaskId)
    requires NoTwoFit(tasks, capacity) && t in tasks && u in tasks && t != u
    ensures !Fits(Plus(tasks[t].request, tasks[u].request), capacity)
  {
  }

  /** The steps that keep running_ keep what the worker owes; EraseReservation settles it. */
  lemma WorkerExactAt(s: Local, w: WorkerId, a: WorkerAct)
    requires WorkerEnabled(s, w, a) && TasksGrow(s.core.tasks, WorkerNext(s, w, a).core.tasks) && w in s.dropped
    requires WorkerOk(s.core.tasks, w, s.core.slots[w], s.threads[w])
    requires ExactAt(s.core.tasks, s.core.running, w, s.core.slots[w], s.threads[w], s.dropped[w])
    ensures var s' := WorkerNext(s, w, a);
            && w in s'.core.slots && w in s'.threads && w in s'.dropped
            && ExactAt(s'.core.tasks, s'.core.running, w, s'.core.slots[w], s'.threads[w], s'.dropped[w])
  {
    hide WorkerNext, ExactAt, TasksGrow, WorkerOk;
    WorkerSettles(s, w, a);
    var s' := WorkerNext(s, w, a);
    OwingKept(s.core.tasks, s'.core.tasks, s.core.running, s'.core.running, w, s.core.slots[w], s'.core.slots[w],
              s.threads[w], s'.threads[w], s.dropped[w]);
  }

  predicate Settled(w: WorkerId, running: map<WorkerId, Reservation>, running': map<WorkerId, Reservation>,
                    slot: Slot, slot': Slot, pc: Thread, pc': Thread) {
    && (slot'.mailbox.Some? ==> slot.mailbox == slot'.mailbox && !pc'.Erasing?)
    && if pc.Erasing? then running' == running - {w} && !pc'.Erasing? && slot' == slot && !InHand(pc')
       else running' == running && Outstanding(slot', pc') == Outstanding(slot, pc)
  }

  lemma WorkerSettles(s: Local, w: WorkerId, a: WorkerAct)
    requires WorkerEnabled(s, w, a) && w in s.dropped
    requires WorkerOk(s.core.tasks, w, s.core.slots[w], s.threads[w])
    ensures var s' := WorkerNext(s, w, a);
            && w in s'.core.slots && w in s'.threads && s'.dropped == s.dropped
            && Settled(w, s.core.running, s'.core.running, s.core.slots[w], s'.core.slots[w], s.threads[w], s'.threads[w])
  {
    hide Moved, Completed, Released, Appended, Settled, WorkerOk, WorkerNext;
    match a
    case Take => HandSettles(s, w, a);
    case Start => HandSettles(s, w, a);
    case HandlerReturns(o) => HandSettles(s, w, a);
    case Finish => HandSettles(s, w, a);
    case SetIdle => HandSettles(s, w, a);
    case EraseReservation => CallbackSettles(s, w, a);
    case ReturnResources => CallbackSettles(s, w, a);
    case RequestWake => CallbackSettles(s, w, a);
    case Exit => CallbackSettles(s, w, a);
  }

  lemma HandSettles(s: Local, w: WorkerId, a: WorkerAct)
    requires WorkerEnabled(s, w, a) && WorkerOk(s.core.tasks, w, s.core.slots[w], s.threads[w])
    requires a.Take? || a.Start? || a.HandlerReturns? || a.Finish? || a.SetIdle?
    ensures var s' := WorkerNext(s, w, a);
            && w in s'.core.slots && w in s'.threads && s'.dropped == s.dropped
            && Settled(w, s.core.running, s'.core.running, s.core.slots[w], s'.core.slots[w], s.threads[w], s'.threads[w])
  {
    hide Moved, Completed, Appended, Assigned;
  }

  lemma CallbackSettles(s: Local, w: WorkerId, a: WorkerAct)
    requires WorkerEnabled(s, w, a) && WorkerOk(s.core.tasks, w, s.core.slots[w], s.threads[w])
    requires a.EraseReservation? || a.ReturnResources? || a.RequestWake? || a.Exit?
    ensures var s' := WorkerNext(s, w, a);
            && w in s'.core.slots && w in s'.threads && s'.dropped == s.dropped
            && Settled(w, s.core.running, s'.core.running, s.core.slots[w], s'.core.slots[w], s.threads[w], s'.threads[w])
  {
    hide Erased, PoolRelease, Woken, Assigned;
    match a
    case EraseReservation => ErasedIs(s.core, w);
    case ReturnResources => ReleaseIs(s.core, w, s.threads[w].resources);
    case RequestWake => WokenIs(s.core);
    case Exit =>
  }

  lemma ErasedIs(c: Core, w: WorkerId)
    ensures Erased(c, w).0.running == c.running - {w} && Erased(c, w).0.slots == c.slots
  {
  }

  lemma ReleaseIs(c: Core, w: WorkerId, request: Bag)
    ensures PoolRelease(c, w, request).0.running == c.running && PoolRelease(c, w, request).0.slots == c.slots
  {
    hide Released;
  }

  lemma WokenIs(c: Core)
    ensures Woken(c).running == c.running && Woken(c).slots == c.slots
  {
  }

  lemma OwingKept(tasks: Tasks, tasks': Tasks, running: map<WorkerId, Reservation>, running': map<WorkerId, Reservation>,
                  w: WorkerId, slot: Slot, slot': Slot, pc: Thread, pc': Thread, dropped: Bag)
    requires TasksGrow(tasks, tasks') && ExactAt(tasks, running, w, slot, pc, dropped)
    requires Settled(w, running, running', slot, slot', pc, pc')
    ensures ExactAt(tasks', running', w, slot', pc', dropped)
  {
  }

  lemma WorkerLocality(s: Local, w: WorkerId, a: WorkerAct)
    requires WorkerEnabled(s, w, a)
    ensures var s' := WorkerNext(s, w, a);
            && w in s'.core.slots && s'.core.slots == s.core.slots[w := s'.core.slots[w]]
            && w in s'.threads && s'.threads == s.threads[w := s'.threads[w]]
            && s'.dropped == s.dropped && s'.capacity == s.capacity && s'.core.order == s.core.order
            && (forall x :: x != w ==> (x in s'.core.running <==> x in s.core.running)
                                       && (x in s.core.running ==> s'.core.running[x] == s.core.running[x]))
  {
    hide Moved, Completed, Released, Appended;
    match a
    case Take =>
    case Start =>
    case HandlerReturns(o) =>
    case Finish =>
    case SetIdle =>
    case EraseReservation =>
    case ReturnResources =>
    case RequestWake =>
    case Exit =>
  }

  lemma WorkerExact(s: Local, w: WorkerId, a: WorkerAct)
    requires WorkerEnabled(s, w, a) && ExactOk(s) && TasksGrow(s.core.tasks, WorkerNext(s, w, a).core.tasks)
    requires WorkersOk(s.core.tasks, s.core.slots, s.threads) && ShapeOk(s.core, s.threads, s.dropped)
    ensures ExactOk(WorkerNext(s, w, a))
  {
    hide WorkerNext, TasksGrow, WorkerOk, ExactAt;
    assert w in s.dropped;
    WorkerLocality(s, w, a);
    WorkerExactAt(s, w, a);
    var s' := WorkerNext(s, w, a);
    assert s'.dropped == s.dropped[w := s.dropped[w]];
    ExactFrame(s, s', w);
  }

  /** Every step is one TaskManager call, or none. */
  ghost predicate IsCall(s: Local, s': Local, call: Option<Op>) {
    var u := if call.Some? then Perform(s.core.tasks, call.value) else Update(s.core.tasks, Ok, None);
    s'.core.tasks == u.tasks && s'.completions == Appended(s.completions, u.event)
  }

  lemma StepIsCall(s: Local, step: Step) returns (call: Option<Op>)
    requires Enabled(s, step) && Ready(s.core) && ShapeOk(s.core, s.threads, s.dropped)
    requires QueueOk(s.core.tasks, s.core.queue)
    ensures IsCall(s, Next(s, step), call)
  {
    call := None;
    match step
    case Client(SubmitRegister(t, request)) => call := RegisterIsCall(s, t, request);
    case Client(SubmitEnqueue) => call := EnqueueIsCall(s);
    case Client(CancelTask(t)) => call := CancelIsCall(s, t);
    case Scheduler(LoopWakes) =>
    case Scheduler(LoopChecks) =>
    case Scheduler(LoopTries(e, pick)) => call := TryIsCall(s, e, pick);
    case Worker(w, a) => call := WorkerIsCall(s, w, a);
    case Shutdown(a) =>
      ShutdownOnly(s, a);
  }

  lemma RegisterIsCall(s: Local, t: TaskId, request: Bag) returns (call: Option<Op>)
    requires ClientEnabled(s, SubmitRegister(t, request))
    ensures IsCall(s, ClientNext(s, SubmitRegister(t, request)), call)
  {
    call := if Admit(s, t, request) == Ok then Some(Register(t, request)) else None;
  }

  lemma EnqueueIsCall(s: Local) returns (call: Option<Op>)
    requires ClientEnabled(s, SubmitEnqueue)
    ensures IsCall(s, ClientNext(s, SubmitEnqueue), call)
  {
    hide Admit, Registered, Canonical;
    call := if s.core.started && !s.core.stopping then Some(MarkQueued(s.submitting.value)) else None;
  }

  lemma CancelIsCall(s: Local, t: TaskId) returns (call: Option<Op>)
    requires QueueOk(s.core.tasks, s.core.queue)
    ensures IsCall(s, ClientNext(s, CancelTask(t)), call)
  {
    hide CancelledIn, CancelledTask;
    CancelRecords(s.core, t);
    call := Some(Cancel(t));
  }

  lemma CancelRecords(c: Core, t: TaskId)
    requires t in c.tasks && c.tasks[t].state == Queued ==> t in c.queue
    ensures CancelledIn(c, t).core.tasks == CancelledTask(c.tasks, t).tasks
    ensures CancelledIn(c, t).event == CancelledTask(c.tasks, t).event
  {
    hide RemoveFirst;
    if t in c.tasks {
      if c.tasks[t].state == Queued {
        var c1 := c.(queue := RemoveFirst(c.queue, t));
        assert CancelledTask(c1.tasks, t).code == Ok;
      } else {
        assert CancelledIn(c, t).core.tasks == CancelledTask(c.tasks, t).tasks;
      }
    }
  }

  lemma TryIsCall(s: Local, e: ExecutionId, pick: Option<WorkerId>) returns (call: Option<Op>)
    requires Ready(s.core) && ShapeOk(s.core, s.threads, s.dropped) && MayPick(s, pick)
    ensures IsCall(s, Tried(s, e, pick), call)
  {
    hide Ready, ShapeOk, Tried, Choice, MayPick;
    PickIs(s, pick);
    TriedIs(s, e, pick);
    call := None;
    if !s.core.stopping && pick.Some? {
      assert s.core.queue[0] in s.core.tasks && s.core.tasks[s.core.queue[0]].state == Queued by {
        HeadIsQueued(s);
      }
      call := Some(MarkScheduled(s.core.queue[0], pick.value, e));
      var t := s.core.queue[0];
      var r := s.core.tasks[t];
      assert s.core.tasks[t := r.(state := Scheduled)][t := r.(state := Scheduled, attempt := r.attempt + 1,
                                                               worker := Some(pick.value), execution := Some(e))]
             == DispatchedTo(s, pick.value, e).core.tasks;
    }
  }

  lemma HeadIsQueued(s: Local)
    requires Ready(s.core) && s.core.queue != []
    ensures s.core.queue[0] in s.core.tasks && s.core.tasks[s.core.queue[0]].state == Queued
  {
  }

  lemma WorkerIsCall(s: Local, w: WorkerId, a: WorkerAct) returns (call: Option<Op>)
    requires WorkerEnabled(s, w, a)
    ensures IsCall(s, WorkerNext(s, w, a), call)
  {
    call := None;
    match a
    case Take =>
    case Start => call := Some(MarkRunning(s.threads[w].item.task));
    case HandlerReturns(o) =>
    case Finish => call := Some(Complete(s.threads[w].item.task, s.threads[w].outcome));
    case SetIdle =>
    case EraseReservation =>
    case ReturnResources =>
    case RequestWake =>
    case Exit =>
  }

  lemma CallGrows(s: Local, s': Local, call: Option<Op>)
    requires EventsOk(s) && IsCall(s, s', call)
    ensures TasksGrow(s.core.tasks, s'.core.tasks)
  {
    if call.Some? {
      PerformKeeps(s.core.tasks, call.value, s.completions);
    }
  }

  lemma StepGrows(s: Local, step: Step)
    requires Inv(s) && Enabled(s, step)
    ensures TasksGrow(s.core.tasks, Next(s, step).core.tasks)
    ensures Next(s, step).capacity == s.capacity
  {
    hide Next, Enabled, EventsOk, IsCall, TasksGrow, FifoOk, AlarmOk, HeldOk;
    hide Ready;
    InvReady(s);
    var call := StepIsCall(s, step);
    CallGrows(s, Next(s, step), call);
    SameCapacity(s, step);
  }

  lemma SameCapacity(s: Local, step: Step)
    requires Enabled(s, step) && Ready(s.core) && ShapeOk(s.core, s.threads, s.dropped)
    ensures Next(s, step).capacity == s.capacity
  {
    hide Ready, ShapeOk, ClientNext, Tried, WorkerNext, ShutdownNext;
    match step
    case Client(a) => ClientCapacity(s, a);
    case Scheduler(LoopWakes) =>
    case Scheduler(LoopChecks) =>
    case Scheduler(LoopTries(e, pick)) =>
      PickIs(s, pick);
      TriedIs(s, e, pick);
    case Worker(w, a) => WorkerLocality(s, w, a);
    case Shutdown(a) => ShutdownOnly(s, a);
  }

  lemma ClientCapacity(s: Local, a: ClientAct)
    requires ClientEnabled(s, a)
    ensures ClientNext(s, a).capacity == s.capacity
  {
    match a
    case SubmitRegister(_, _) =>
    case SubmitEnqueue =>
    case CancelTask(_) =>
  }

  /** Steps of clients, scheduler flags and Shutdown settle nothing and owe nothing new. */
  lemma ExactSameOwing(s: Local, s': Local)
    requires ExactOk(s) && TasksGrow(s.core.tasks, s'.core.tasks)
    requires s'.core.running == s.core.running && s'.threads == s.threads && s'.dropped == s.dropped
    requires forall w :: w in s'.core.slots ==> w in s.core.slots && s'.core.slots[w].mailbox == s.core.slots[w].mailbox
    ensures ExactOk(s')
  {
  }

  lemma ClientOwing(s: Local, a: ClientAct)
    requires ClientEnabled(s, a)
    ensures var s' := ClientNext(s, a);
            s'.core.running == s.core.running && s'.threads == s.threads && s'.dropped == s.dropped
            && s'.core.slots == s.core.slots
  {
    hide Admit, Registered, Enqueued, CancelledIn, Canonical;
    match a
    case SubmitRegister(_, _) =>
    case SubmitEnqueue => EnqueueOwing(s.core, s.submitting.value);
    case CancelTask(t) => CancelOwing(s.core, t);
  }

  lemma EnqueueOwing(c: Core, t: TaskId)
    ensures Enqueued(c, t).0.running == c.running && Enqueued(c, t).0.slots == c.slots
  {
    hide Moved;
  }

  lemma CancelOwing(c: Core, t: TaskId)
    ensures CancelledIn(c, t).core.running == c.running && CancelledIn(c, t).core.slots == c.slots
  {
    hide RemoveFirst, CancelledTask;
    if t !in c.tasks {
    } else if c.tasks[t].state != Queued {
    } else if t !in c.queue {
    } else {
      var c1 := c.(queue := RemoveFirst(c.queue, t));
      assert c1.running == c.running && c1.slots == c.slots;
    }
  }

  lemma ShutdownOwing(s: Local, a: ShutdownAct)
    requires ShutdownEnabled(s, a) && WorkersOk(s.core.tasks, s.core.slots, s.threads)
    ensures var s' := ShutdownNext(s, a);
            forall w :: w in s'.core.slots ==> w in s.core.slots && s'.core.slots[w].mailbox == s.core.slots[w].mailbox
  {
    match a
    case CloseAdmission =>
    case DrainReturns =>
    case StopLoop =>
    case JoinLoop =>
    case StopPool =>
    case StopWorker =>
    case JoinWorker => NothingThrownAway(s, s.core.order[s.phase.next]);
    case ShutdownReturns =>
  }

  lemma TriesExact(s: Local, e: ExecutionId, pick: Option<WorkerId>)
    requires Inv(s) && ExactOk(s) && NoTwoFit(s.core.tasks, s.capacity) && MayPick(s, pick)
    requires TasksGrow(s.core.tasks, Tried(s, e, pick).core.tasks)
    ensures ExactOk(Tried(s, e, pick))
  {
    hide HeldOk, RequestsOk, FifoOk, EventsOk, AlarmOk, Tried, Choice, DispatchedTo, NoTwoFit, ExactOk, TasksGrow, MayPick;
    assert Ready(s.core) by {
      InvReady(s);
    }
    PickIs(s, pick);
    TriedIs(s, e, pick);
    if s.core.stopping || pick.None? {
      ExactSameOwing(s, Tried(s, e, pick));
    } else {
      var w := pick.value;
      assert CanGo(s, w) by {
        NotJoined(s);
        AllWorkersUp(s.core, s.threads, s.phase);
        assert s.core.queue[0] in s.core.queue;
      }
      DispatchExact(s, w, e);
    }
  }

  lemma ClientExact(s: Local, a: ClientAct)
    requires ClientEnabled(s, a) && ExactOk(s) && TasksGrow(s.core.tasks, ClientNext(s, a).core.tasks)
    ensures ExactOk(ClientNext(s, a))
  {
    hide ClientNext, ExactOk, TasksGrow;
    ClientOwing(s, a);
    ExactSameOwing(s, ClientNext(s, a));
  }

  lemma ShutdownExact(s: Local, a: ShutdownAct)
    requires ShutdownEnabled(s, a) && ExactOk(s) && WorkersOk(s.core.tasks, s.core.slots, s.threads)
    ensures ExactOk(ShutdownNext(s, a))
  {
    hide ShutdownNext, ExactOk, WorkersOk, ShutdownEnabled;
    ShutdownOnly(s, a);
    ShutdownOwing(s, a);
    ExactSameOwing(s, ShutdownNext(s, a));
  }

  lemma StepExact(s: Local, step: Step)
    requires Inv(s) && Enabled(s, step) && ExactOk(s) && NoTwoFit(s.core.tasks, s.capacity)
    ensures ExactOk(Next(s, step))
  {
    hide WorkersOk, HeldOk, QueueOk, RequestsOk, LedgerOk, FlagsOk, WorkerFlagsOk, AlarmOk, FifoOk, EventsOk;
    hide ExactOk, TasksGrow, NoTwoFit, ClientNext, Tried, WorkerNext, ShutdownNext, ClientEnabled, ShutdownEnabled;
    hide WorkerEnabled;
    StepGrows(s, step);
    match step
    case Client(a) => ClientExact(s, a);
    case Scheduler(LoopWakes) => ExactSameOwing(s, LoopNext(s, LoopWakes));
    case Scheduler(LoopChecks) => ExactSameOwing(s, LoopNext(s, LoopChecks));
    case Scheduler(LoopTries(e, pick)) => TriesExact(s, e, pick);
    case Worker(w, a) => WorkerExact(s, w, a);
    case Shutdown(a) => ShutdownExact(s, a);
  }

  lemma {:induction false} RunExact(states: seq<Local>, steps: seq<Step>, i: nat)
    requires Run(states, steps) && i < |states|
    requires NoTwoFit(states[i].core.tasks, states[i].capacity)
    ensures ExactOk(states[i])
  {
    hide Inv, Next, Enabled;
    if i == 0 {
      InitInv(states[0]);
    } else {
      var s := states[i-1];
      RunKeeps(states, steps, i - 1);
      StepGrows(s, steps[i-1]);
      NoTwoFitBefore(s.core.tasks, states[i].core.tasks, s.capacity);
      RunExact(states, steps, i - 1);
      StepExact(s, steps[i-1]);
    }
  }

  lemma NoTwoFitBefore(tasks: Tasks, tasks': Tasks, capacity: Bag)
    requires TasksGrow(tasks, tasks') && NoTwoFit(tasks', capacity)
    ensures NoTwoFit(tasks, capacity)
  {
  }

  /** If no two accepted requests fit together on a worker, no reservation is dropped, and running_ lists exactly
      the dispatched tasks whose reservation has not been taken back. */
  lemma NothingDroppedUnlessTwoFit(states: seq<Local>, steps: seq<Step>, i: nat, w: WorkerId)
    requires Run(states, steps) && i < |states| && w in states[i].core.order
    requires NoTwoFit(states[i].core.tasks, states[i].capacity)
    ensures var s := states[i];
            && w in s.dropped && w in s.core.slots && w in s.threads
            && s.dropped[w] == map[]
            && (w in s.core.running <==> Outstanding(s.core.slots[w], s.threads[w]).Some?)
            && (w in s.core.running ==> s.core.running[w].task == Outstanding(s.core.slots[w], s.threads[w]).value.task)
  {
    hide Run;
    RunKeeps(states, steps, i);
    RunExact(states, steps, i);
    ExactEntry(states[i], w);
  }

  lemma ExactEntry(s: Local, w: WorkerId)
    requires ShapeOk(s.core, s.threads, s.dropped) && ExactOk(s) && w in s.core.order
    ensures w in s.dropped && w in s.core.slots && w in s.threads && s.dropped[w] == map[]
    ensures w in s.core.running <==> Outstanding(s.core.slots[w], s.threads[w]).Some?
    ensures w in s.core.running ==> s.core.running[w].task == Outstanding(s.core.slots[w], s.threads[w]).value.task
  {
  }

  // ---- Branches that cannot be rolled back are never taken

  /**
   * The calls whose failure the code cannot undo, or ignores, succeed in every reachable state. In particular, once
   * placement came to a worker the transaction dispatches to that worker; TryReserve and Acquire do not fail either.
   */
  lemma FailureBranchesUnreachable(states: seq<Local>, steps: seq<Step>, i: nat, e: ExecutionId, pick: Option<WorkerId>)
    requires Run(states, steps) && i < |states| && MayPick(states[i], pick)
    ensures var s := states[i];
            && TryScheduleAt(s.core, pick, e).code == Ok
            && TryScheduleAt(s.core, pick, e).worker == (if s.core.stopping then None else pick)
            && (TryScheduleAt(s.core, pick, e).worker.None? ==> TryScheduleAt(s.core, pick, e).core == s.core)
            && (s.submitting.Some? ==> Enqueued(s.core, s.submitting.value).1 == Ok)
            && (forall t :: t in s.core.tasks && s.core.tasks[t].state == Queued ==> CancelledIn(s.core, t).code == Ok)
  {
    hide Run, MayPick;
    RunKeeps(states, steps, i);
    SchedulerNeverFails(states[i], e, pick);
  }

  lemma SchedulerNeverFails(s: Local, e: ExecutionId, pick: Option<WorkerId>)
    requires Inv(s) && MayPick(s, pick)
    ensures TryScheduleAt(s.core, pick, e).code == Ok
    ensures TryScheduleAt(s.core, pick, e).worker == if s.core.stopping then None else pick
    ensures TryScheduleAt(s.core, pick, e).worker.None? ==> TryScheduleAt(s.core, pick, e).core == s.core
    ensures s.submitting.Some? ==> Enqueued(s.core, s.submitting.value).1 == Ok
    ensures forall t :: t in s.core.tasks && s.core.tasks[t].state == Queued ==> CancelledIn(s.core, t).code == Ok
  {
    hide ShapeOk, WorkersOk, HeldOk, RequestsOk, LedgerOk, WorkerFlagsOk, AlarmOk, FifoOk, EventsOk, Ready;
    hide TryScheduleAt, CancelledIn, MayPick, Placeable;
    InvReady(s);
    PickIs(s, pick);
    TryScheduleIsAtomic(s.core, pick, e);
    forall t | t in s.core.tasks && s.core.tasks[t].state == Queued
      ensures CancelledIn(s.core, t).code == Ok
    {
      CancelNeverHalfDone(s.core, t);
    }
  }

  /** In the worker thread MarkRunning, Complete and the discarded pool Release always succeed. */
  lemma WorkerCallsSucceed(states: seq<Local>, steps: seq<Step>, i: nat, w: WorkerId)
    requires Run(states, steps) && i < |states| && w in states[i].core.order
    ensures var s := states[i];
            && w in s.threads
            && (s.threads[w].Took? ==> Moved(s.core.tasks, s.threads[w].item.task, Running).code == Ok)
            && (s.threads[w].Decided? ==> Completed(s.core.tasks, s.threads[w].item.task, s.threads[w].outcome).code == Ok)
            && (s.threads[w].Returning? ==> PoolRelease(s.core, w, s.threads[w].resources).1 == Ok)
  {
    hide Run, WorkersOk, HeldOk, QueueOk, RequestsOk, LedgerOk, FlagsOk, WorkerFlagsOk, AlarmOk, FifoOk, EventsOk;
    hide Moved, Completed, PoolRelease, WorkerNext;
    RunKeeps(states, steps, i);
    WorkerCallSucceeds(states[i], w);
  }

  lemma WorkerCallSucceeds(s: Local, w: WorkerId)
    requires ShapeOk(s.core, s.threads, s.dropped) && w in s.core.order
    requires WorkersOk(s.core.tasks, s.core.slots, s.threads) && HeldOk(s.core.tasks, s.core.slots, s.threads)
    requires LedgerOk(s.capacity, s.core.pools, s.core.running, s.threads, s.dropped) && EventsOk(s)
    ensures w in s.threads
    ensures s.threads[w].Took? ==> Moved(s.core.tasks, s.threads[w].item.task, Running).code == Ok
    ensures s.threads[w].Decided? ==> Completed(s.core.tasks, s.threads[w].item.task, s.threads[w].outcome).code == Ok
    ensures s.threads[w].Returning? ==> PoolRelease(s.core, w, s.threads[w].resources).1 == Ok
  {
    hide WorkersOk, HeldOk, LedgerOk, EventsOk, Moved, Completed, PoolRelease, WorkerNext;
    assert w in s.threads && w in s.core.slots;
    if s.threads[w].Took? {
      StartHands(s, w);
    } else if s.threads[w].Decided? {
      FinishHands(s, w);
    } else if s.threads[w].Returning? {
      ReturnLedger(s, w);
    }
  }

  // ---- What is dropped stays dropped

  /** What one step may do to the histories that dispatching extends. */
  ghost predicate Dispatches(s: Local, s': Local) {
    && s.enqueued <= s'.enqueued && s'.core.order == s.core.order && s'.capacity == s.capacity
    && (forall w, n :: w in s.dropped ==> w in s'.dropped && Get(s.dropped[w], n) <= Get(s'.dropped[w], n))
    && (s'.dispatched == s.dispatched
        || (s.core.queue != [] && s'.dispatched == s.dispatched + [s.core.queue[0]] && exists w :: Placeable(s.core, w)))
  }

  lemma NextDispatches(s: Local, step: Step)
    requires Inv(s) && Enabled(s, step)
    ensures Dispatches(s, Next(s, step))
  {
    hide WorkersOk, HeldOk, QueueOk, RequestsOk, LedgerOk, FlagsOk, WorkerFlagsOk, AlarmOk, FifoOk, EventsOk, Inv;
    hide Ready, ClientNext, Tried, WorkerNext, ShutdownNext, MayPick, Placeable, ClientEnabled, WorkerEnabled, ShutdownEnabled;
    SameOrder(s, step);
    match step
    case Client(a) => ClientHistories(s, a);
    case Scheduler(LoopWakes) =>
    case Scheduler(LoopChecks) =>
    case Scheduler(LoopTries(e, pick)) => TryDispatches(s, e, pick);
    case Worker(w, a) => WorkerHistories(s, w, a);
    case Shutdown(a) => ShutdownOnly(s, a);
  }

  lemma ClientHistories(s: Local, a: ClientAct)
    requires ClientEnabled(s, a)
    ensures var s' := ClientNext(s, a);
            s.enqueued <= s'.enqueued && s'.dispatched == s.dispatched && s'.dropped == s.dropped && s'.capacity == s.capacity
  {
    hide Admit, Registered, Canonical, CancelledIn, Enqueued;
    match a
    case SubmitRegister(_, _) =>
    case SubmitEnqueue =>
    case CancelTask(t) =>
  }

  lemma WorkerHistories(s: Local, w: WorkerId, a: WorkerAct)
    requires WorkerEnabled(s, w, a)
    ensures var s' := WorkerNext(s, w, a);
            s'.enqueued == s.enqueued && s'.dispatched == s.dispatched && s'.dropped == s.dropped && s'.capacity == s.capacity
  {
    hide Moved, Completed, Released, Appended;
    match a
    case Take =>
    case Start =>
    case HandlerReturns(o) =>
    case Finish =>
    case SetIdle =>
    case EraseReservation =>
    case ReturnResources =>
    case RequestWake =>
    case Exit =>
  }

  lemma TryDispatches(s: Local, e: ExecutionId, pick: Option<WorkerId>)
    requires Inv(s) && MayPick(s, pick)
    ensures Dispatches(s, Tried(s, e, pick))
  {
    hide WorkersOk, HeldOk, QueueOk, LedgerOk, FlagsOk, WorkerFlagsOk, AlarmOk, FifoOk, EventsOk, Ready, Tried, MayPick, Dispatches;
    hide RequestsOk, ShapeOk, Canonical, Placeable, DispatchedTo;
    InvReady(s);
    PickIs(s, pick);
    TriedIs(s, e, pick);
    if s.core.stopping || pick.None? {
      DispatchesNothing(s, s.(loop := Parked));
    } else {
      DispatchDispatches(s, pick.value, e);
    }
  }

  lemma DispatchesNothing(s: Local, s': Local)
    requires s' == s.(loop := s'.loop)
    ensures Dispatches(s, s')
  {
  }

  lemma DispatchDispatches(s: Local, w: WorkerId, e: ExecutionId)
    requires RequestsOk(s.core.tasks, s.capacity) && ShapeOk(s.core, s.threads, s.dropped) && Placeable(s.core, w)
    ensures Dispatches(s, DispatchedTo(s, w, e))
  {
    hide Fits, FitsWorker, Plus, Get, Distinct;
    var request := s.core.tasks[s.core.queue[0]].request;
    forall n
      ensures Get(s.dropped[w], n) <= Get(Plus(s.dropped[w], request), n)
    {
      PlusGrows(s.dropped[w], request, n);
    }
  }

  lemma PlusGrows(a: Bag, b: Bag, n: string)
    requires Canonical(b)
    ensures Get(a, n) <= Get(Plus(a, b), n)
  {
  }

  /** A dropped reservation is never returned: per worker and resource, the dropped amount only grows. */
  lemma {:induction false} DroppedNeverReturns(states: seq<Local>, steps: seq<Step>, i: nat, j: nat, w: WorkerId, n: string)
    requires Run(states, steps) && i <= j < |states| && w in states[i].core.order
    ensures states[j].core.order == states[i].core.order && states[j].capacity == states[i].capacity
    ensures w in states[i].dropped && w in states[j].dropped && Get(states[i].dropped[w], n) <= Get(states[j].dropped[w], n)
  {
    hide Inv, Next, Enabled;
    RunKeeps(states, steps, i);
    WorkerIsKnown(states[i], w);
    if i < j {
      DroppedNeverReturns(states, steps, i, j - 1, w, n);
      RunKeeps(states, steps, j - 1);
      NextDispatches(states[j-1], steps[j-1]);
    }
  }

  lemma WorkerIsKnown(s: Local, w: WorkerId)
    requires Inv(s) && w in s.core.order
    ensures w in s.dropped && w in s.core.pools && w in s.core.slots && w in s.threads
  {
  }

  /** With what has been dropped, no worker can ever have room for this request again. */
  ghost predicate Starved(s: Local, request: Bag) {
    forall w :: w in s.core.order && w in s.dropped ==>
      exists n :: n in request && Get(s.capacity, n) - Get(s.dropped[w], n) < request[n]
  }

  lemma StarvedHasNoPlace(s: Local, w: WorkerId, request: Bag)
    requires Inv(s) && w in s.core.order && Starved(s, request)
    ensures !FitsWorker(s.core.pools, w, request)
  {
    hide WorkersOk, HeldOk, QueueOk, RequestsOk, FlagsOk, WorkerFlagsOk, AlarmOk, FifoOk, EventsOk;
    assert w in s.dropped;
    var n :| n in request && Get(s.capacity, n) - Get(s.dropped[w], n) < request[n];
    hide Inv;
    BalancedAt(s, w, n);
    EntryNotNegative(s, w, n);
  }

  lemma StarvedHeadHasNoPlace(s: Local, w: WorkerId)
    requires Inv(s) && s.core.queue != [] && s.core.queue[0] in s.core.tasks && Starved(s, s.core.tasks[s.core.queue[0]].request)
    ensures !Placeable(s.core, w)
  {
    hide Inv, Starved;
    if w in s.core.order {
      StarvedHasNoPlace(s, w, s.core.tasks[s.core.queue[0]].request);
    }
  }

  lemma EntryNotNegative(s: Local, w: WorkerId, n: string)
    requires Inv(s) && w in s.core.order
    ensures w in s.threads && 0 <= Get(Entry(s.core.running, w), n) && 0 <= Get(InFlight(s.threads[w]), n)
  {
    hide WorkersOk, HeldOk, QueueOk, RequestsOk, FlagsOk, WorkerFlagsOk, AlarmOk, FifoOk, EventsOk;
    assert Balanced(s.capacity, s.core.pools[w], Entry(s.core.running, w), InFlight(s.threads[w]), s.dropped[w]);
  }

  lemma StarvedStays(states: seq<Local>, steps: seq<Step>, i: nat, j: nat, request: Bag)
    requires Run(states, steps) && i <= j < |states| && Starved(states[i], request)
    ensures Starved(states[j], request)
  {
    hide Run;
    forall w | w in states[j].core.order && w in states[j].dropped
      ensures exists n :: n in request && Get(states[j].capacity, n) - Get(states[j].dropped[w], n) < request[n]
    {
      OrderStays(states, steps, i, j);
      DroppedNeverReturns(states, steps, i, j, w, "");
      var n :| n in request && Get(states[i].capacity, n) - Get(states[i].dropped[w], n) < request[n];
      DroppedNeverReturns(states, steps, i, j, w, n);
    }
  }

  lemma {:induction false} OrderStays(states: seq<Local>, steps: seq<Step>, i: nat, j: nat)
    requires Run(states, steps) && i <= j < |states|
    ensures states[j].core.order == states[i].core.order
  {
    hide Inv, Next, Enabled;
    if i < j {
      OrderStays(states, steps, i, j - 1);
      RunKeeps(states, steps, j - 1);
      SameOrder(states[j-1], steps[j-1]);
    }
  }

  /** A queued task that no worker can ever have room for is never dispatched: it waits until it is cancelled. */
  lemma {:induction false} StarvedTaskWaits(states: seq<Local>, steps: seq<Step>, i: nat, j: nat, t: TaskId)
    requires Run(states, steps) && i <= j < |states|
    requires t in states[i].core.queue && t in states[i].core.tasks && Starved(states[i], states[i].core.tasks[t].request)
    ensures t in states[j].core.tasks && states[j].core.tasks[t].request == states[i].core.tasks[t].request
    ensures t in states[j].enqueued && t !in states[j].dispatched
    ensures t in states[j].core.queue || t in states[j].withdrawn
  {
    hide Inv, Next, Enabled, Starved;
    RunKeeps(states, steps, j);
    if i == j {
      QueuedNotDispatched(states[i], t);
    } else {
      StarvedTaskWaits(states, steps, i, j - 1, t);
      StarvedStays(states, steps, i, j - 1, states[i].core.tasks[t].request);
      RunKeeps(states, steps, j - 1);
      StepGrows(states[j-1], steps[j-1]);
      NextDispatches(states[j-1], steps[j-1]);
      NotDispatchedNow(states[j-1], states[j], t);
    }
    WaitsOrWithdrawn(states[j], t);
  }

  lemma QueuedNotDispatched(s: Local, t: TaskId)
    requires Inv(s) && t in s.core.queue
    ensures t in s.enqueued && t !in s.dispatched
  {
    hide ShapeOk, WorkersOk, HeldOk, RequestsOk, LedgerOk, FlagsOk, WorkerFlagsOk, AlarmOk, EventsOk, Without, Distinct;
    assert t in s.dispatched + s.core.queue;
  }

  lemma NotDispatchedNow(s: Local, s': Local, t: TaskId)
    requires Inv(s) && Dispatches(s, s') && t in s.core.tasks && Starved(s, s.core.tasks[t].request) && t !in s.dispatched
    ensures t !in s'.dispatched
  {
    hide Inv, Starved;
    if s'.dispatched != s.dispatched {
      var w :| Placeable(s.core, w);
      if s.core.queue[0] == t {
        StarvedHeadHasNoPlace(s, w);
      }
    }
  }

  lemma WaitsOrWithdrawn(s: Local, t: TaskId)
    requires Inv(s) && t in s.enqueued && t !in s.dispatched
    ensures t in s.core.queue || t in s.withdrawn
  {
    hide ShapeOk, WorkersOk, HeldOk, RequestsOk, LedgerOk, FlagsOk, WorkerFlagsOk, AlarmOk, EventsOk, Without, Distinct;
    assert t in Without(s.enqueued, s.withdrawn) || t in s.withdrawn;
    assert t in s.dispatched + s.core.queue || t in s.withdrawn;
  }

  // ---- Strict FIFO

  /** What was dispatched, followed by what waits, is what was enqueued minus what was cancelled while queued. */
  lemma StrictFifo(states: seq<Local>, steps: seq<Step>, i: nat)
    requires Run(states, steps) && i < |states|
    ensures var s := states[i];
            && s.dispatched + s.core.queue == Without(s.enqueued, s.withdrawn)
            && Distinct(s.enqueued) && Distinct(s.core.queue)
            && (forall t :: t in s.core.queue <==> t in s.core.tasks && s.core.tasks[t].state == Queued)
  {
    hide Run;
    RunKeeps(states, steps, i);
    hide ShapeOk, WorkersOk, HeldOk, RequestsOk, LedgerOk, WorkerFlagsOk, AlarmOk, EventsOk, FlagsOk;
  }

  /** No overtaking: of two tasks that are both dispatched, the one enqueued first was dispatched first. */
  lemma NoOvertaking(states: seq<Local>, steps: seq<Step>, i: nat, a: nat, b: nat)
    requires Run(states, steps) && i < |states|
    requires a < b < |states[i].dispatched|
    ensures exists x, y :: 0 <= x < y < |states[i].enqueued|
              && states[i].enqueued[x] == states[i].dispatched[a] && states[i].enqueued[y] == states[i].dispatched[b]
  {
    StrictFifo(states, steps, i);
    hide Run;
    var s := states[i];
    var all := Without(s.enqueued, s.withdrawn);
    assert all[a] == s.dispatched[a] && all[b] == s.dispatched[b];
    OrderKept(s.enqueued, s.withdrawn, a, b);
  }

  lemma {:induction false} OrderKept<T(!new)>(s: seq<T>, gone: set<T>, a: nat, b: nat)
    requires a < b < |Without(s, gone)|
    ensures exists x, y :: 0 <= x < y < |s| && s[x] == Without(s, gone)[a] && s[y] == Without(s, gone)[b]
  {
    var front := s[..|s|-1];
    var kept := Without(front, gone);
    if b < |kept| {
      OrderKept(front, gone, a, b);
      var x, y :| 0 <= x < y < |front| && front[x] == kept[a] && front[y] == kept[b];
      assert s[x] == Without(s, gone)[a] && s[y] == Without(s, gone)[b];
    } else {
      assert kept[a] in kept;
      assert kept[a] in front;
      var x :| 0 <= x < |front| && front[x] == kept[a];
      assert s[x] == Without(s, gone)[a] && s[|s|-1] == Without(s, gone)[b];
    }
  }

  // ---- Wake-ups

  /** When the scheduler thread sleeps without a pending wake-up, the head is blocked or a callback will still wake it. */
  lemma NoLostWakeup(states: seq<Local>, steps: seq<Step>, i: nat)
    requires Run(states, steps) && i < |states|
    ensures var s := states[i];
            s.loop == Parked && !s.core.wake && !s.core.stopping ==>
              Choice(s.core).None? || exists w :: w in s.threads && InCallback(s.threads[w])
  {
    hide Run;
    RunKeeps(states, steps, i);
    hide ShapeOk, WorkersOk, HeldOk, RequestsOk, LedgerOk, WorkerFlagsOk, QueueOk, EventsOk, FifoOk, FlagsOk, HeadBlocked;
    BlockedMeansNoChoice(states[i].core);
  }

  /** Every running_ entry still has a task on its way through that worker, dropped reservations or not. */
  ghost predicate OwedOk(s: Local) {
    forall w :: w in s.core.running ==>
      w in s.core.slots && w in s.threads && Outstanding(s.core.slots[w], s.threads[w]).Some?
  }

  lemma OwedSame(s: Local, s': Local)
    requires OwedOk(s) && s'.core.running == s.core.running && s'.threads == s.threads
    requires s'.core.slots.Keys == s.core.slots.Keys
    requires forall w :: w in s'.core.slots ==> s'.core.slots[w].mailbox == s.core.slots[w].mailbox
    ensures OwedOk(s')
  {
  }

  lemma OwedDispatched(s: Local, w: WorkerId, e: ExecutionId)
    requires OwedOk(s) && |s.core.queue| > 0 && s.core.queue[0] in s.core.tasks
    requires w in s.core.pools && w in s.core.slots && w in s.dropped && w in s.threads
    ensures OwedOk(DispatchedTo(s, w, e))
  {
    hide Minus, Plus;
  }

  lemma OwedTried(s: Local, e: ExecutionId, pick: Option<WorkerId>)
    requires OwedOk(s) && Ready(s.core) && ShapeOk(s.core, s.threads, s.dropped) && MayPick(s, pick)
    ensures OwedOk(Tried(s, e, pick))
  {
    hide Ready, Tried, Choice, DispatchedTo, OwedOk, MayPick;
    PickIs(s, pick);
    TriedIs(s, e, pick);
    if s.core.stopping || pick.None? {
      OwedSame(s, Tried(s, e, pick));
    } else {
      OwedDispatched(s, pick.value, e);
    }
  }

  lemma OwedWorker(s: Local, w: WorkerId, a: WorkerAct)
    requires OwedOk(s) && WorkerEnabled(s, w, a) && w in s.dropped
    requires WorkerOk(s.core.tasks, w, s.core.slots[w], s.threads[w])
    ensures OwedOk(WorkerNext(s, w, a))
  {
    hide WorkerNext, WorkerEnabled, WorkerOk;
    WorkerSettles(s, w, a);
    WorkerLocality(s, w, a);
  }

  lemma WorkerOkAt(s: Local, w: WorkerId)
    requires WorkersOk(s.core.tasks, s.core.slots, s.threads) && w in s.core.slots && w in s.threads
    ensures WorkerOk(s.core.tasks, w, s.core.slots[w], s.threads[w])
  {
  }

  lemma OwedNext(s: Local, step: Step)
    requires Inv(s) && Enabled(s, step) && OwedOk(s)
    ensures OwedOk(Next(s, step))
  {
    hide HeldOk, QueueOk, RequestsOk, LedgerOk, FlagsOk, WorkerFlagsOk, AlarmOk, FifoOk, EventsOk;
    hide OwedOk, ClientNext, Tried, WorkerNext, ShutdownNext, ClientEnabled, ShutdownEnabled, WorkerOk, Ready, WorkersOk;
    InvReady(s);
    match step
    case Client(a) =>
      ClientOwing(s, a);
      OwedSame(s, ClientNext(s, a));
    case Scheduler(LoopWakes) => OwedSame(s, LoopNext(s, LoopWakes));
    case Scheduler(LoopChecks) => OwedSame(s, LoopNext(s, LoopChecks));
    case Scheduler(LoopTries(e, pick)) => OwedTried(s, e, pick);
    case Worker(w, a) =>
      WorkerOkAt(s, w);
      OwedWorker(s, w, a);
    case Shutdown(a) =>
      ShutdownOwing(s, a);
      ShutdownOnly(s, a);
      OwedSame(s, ShutdownNext(s, a));
  }

  lemma {:induction false} RunOwed(states: seq<Local>, steps: seq<Step>, i: nat)
    requires Run(states, steps) && i < |states|
    ensures OwedOk(states[i])
  {
    hide Inv, Next, Enabled, OwedOk;
    if i == 0 {
      StartOwed(states[0]);
    } else {
      RunOwed(states, steps, i - 1);
      RunKeeps(states, steps, i - 1);
      OwedNext(states[i-1], steps[i-1]);
    }
  }

  lemma StartOwed(s: Local)
    requires Init(s)
    ensures OwedOk(s)
  {
  }

  lemma NothingOwed(s: Local)
    requires OwedOk(s) && ShapeOk(s.core, s.threads, s.dropped) && AllQuiet(s.core.slots, s.threads)
    ensures s.core.running == map[]
  {
  }

  /**
   * With the loop asleep and every worker back at its mailbox, a task is left waiting only if no worker can ever have room
   * for the head again (and then it waits until it is cancelled: StarvedTaskWaits). With nothing dropped none is.
   */
  lemma NoStuckQueue(states: seq<Local>, steps: seq<Step>, i: nat)
    requires Run(states, steps) && i < |states|
    requires var s := states[i];
             s.loop == Parked && !s.core.wake && !s.core.stopping && AllQuiet(s.core.slots, s.threads)
    ensures var s := states[i];
            && (s.core.queue != [] ==> s.core.queue[0] in s.core.tasks && Starved(s, s.core.tasks[s.core.queue[0]].request))
            && ((forall w :: w in s.dropped ==> s.dropped[w] == map[]) ==> s.core.queue == [])
  {
    hide Run, WorkersOk, HeldOk, QueueOk, RequestsOk, LedgerOk, FlagsOk, WorkerFlagsOk, FifoOk, EventsOk, HeadBlocked, Starved, AllQuiet;
    RunKeeps(states, steps, i);
    var s := states[i];
    NoCallback(s.core.slots, s.threads);
    assert HeadBlocked(s.core);
    RunOwed(states, steps, i);
    NothingOwed(s);
    if s.core.queue != [] {
      BlockedIsStarved(s);
      if forall w :: w in s.dropped ==> s.dropped[w] == map[] {
        NotStarved(states, steps, i);
      }
    }
  }

  /** Every worker is back at its empty mailbox, so that no callback is pending. */
  predicate AllQuiet(slots: map<WorkerId, Slot>, threads: map<WorkerId, Thread>) {
    threads.Keys == slots.Keys && forall w :: w in threads ==> threads[w].AtWait? && slots[w].mailbox.None?
  }

  lemma NoCallback(slots: map<WorkerId, Slot>, threads: map<WorkerId, Thread>)
    requires AllQuiet(slots, threads)
    ensures forall w :: w in threads ==> !InCallback(threads[w])
  {
  }

  /** Without workers every submission is infeasible, so that there never is a task. */
  lemma {:induction false} NoWorkersNoTasks(states: seq<Local>, steps: seq<Step>, i: nat)
    requires Run(states, steps) && i < |states| && states[i].core.order == []
    ensures states[i].core.tasks == map[] && states[i].core.queue == []
  {
    hide Inv, Next, Enabled;
    RunKeeps(states, steps, i);
    if i > 0 {
      RunKeeps(states, steps, i - 1);
      SameOrder(states[i-1], steps[i-1]);
      NoWorkersNoTasks(states, steps, i - 1);
      NoTaskAppears(states[i-1], steps[i-1]);
    }
    QueuedAreTasks(states[i]);
  }

  lemma QueuedAreTasks(s: Local)
    requires Inv(s) && s.core.tasks == map[]
    ensures s.core.queue == []
  {
    hide ShapeOk, WorkersOk, HeldOk, RequestsOk, LedgerOk, FlagsOk, WorkerFlagsOk, AlarmOk, FifoOk, EventsOk;
    if s.core.queue != [] {
      SomebodyWaits(s.core.queue);
    }
  }

  lemma SomebodyWaits(queue: seq<TaskId>)
    requires queue != []
    ensures exists t :: t in queue
  {
    assert queue[0] in queue;
  }

  lemma SameOrder(s: Local, step: Step)
    requires Inv(s) && Enabled(s, step)
    ensures Next(s, step).core.order == s.core.order
  {
    hide WorkersOk, HeldOk, QueueOk, RequestsOk, LedgerOk, FlagsOk, WorkerFlagsOk, AlarmOk, FifoOk, EventsOk;
    hide Ready, ClientNext, Tried, WorkerNext, ShutdownNext, MayPick;
    InvReady(s);
    match step
    case Client(a) => ClientOrder(s, a);
    case Scheduler(LoopWakes) =>
    case Scheduler(LoopChecks) =>
    case Scheduler(LoopTries(e, pick)) =>
      PickIs(s, pick);
      TriedIs(s, e, pick);
    case Worker(w, a) => WorkerLocality(s, w, a);
    case Shutdown(a) => ShutdownOnly(s, a);
  }

  lemma ClientOrder(s: Local, a: ClientAct)
    requires ClientEnabled(s, a)
    ensures ClientNext(s, a).core.order == s.core.order
  {
    hide Admit, Registered, Canonical, RemoveFirst, CancelledTask, Moved;
    match a
    case SubmitRegister(_, _) =>
    case SubmitEnqueue =>
    case CancelTask(t) =>
  }

  lemma NoTaskAppears(s: Local, step: Step)
    requires Inv(s) && Enabled(s, step) && s.core.order == [] && s.core.tasks == map[]
    ensures Next(s, step).core.tasks == map[]
  {
    hide WorkersOk, HeldOk, RequestsOk, LedgerOk, FlagsOk, WorkerFlagsOk, AlarmOk, FifoOk, EventsOk, Ready, MayPick;
    InvReady(s);
    QueuedAreTasks(s);
    match step
    case Client(a) =>
      match a {
        case SubmitRegister(_, _) =>
        case SubmitEnqueue =>
        case CancelTask(_) =>
      }
    case Scheduler(LoopWakes) =>
    case Scheduler(LoopChecks) =>
    case Scheduler(LoopTries(e, pick)) =>
      PickIs(s, pick);
      TriedIs(s, e, pick);
    case Worker(w, a) => WorkerNoTask(s, w, a);
    case Shutdown(a) => ShutdownOnly(s, a);
  }

  lemma WorkerNoTask(s: Local, w: WorkerId, a: WorkerAct)
    requires WorkerEnabled(s, w, a) && s.core.tasks == map[]
    ensures WorkerNext(s, w, a).core.tasks == map[]
  {
    hide Released;
    match a
    case Take =>
    case Start =>
    case HandlerReturns(o) =>
    case Finish =>
    case SetIdle =>
    case EraseReservation =>
    case ReturnResources =>
    case RequestWake =>
    case Exit =>
  }

  /** In a quiet state what blocks the head is what has been dropped. */
  lemma BlockedIsStarved(s: Local)
    requires Inv(s) && s.core.queue != [] && HeadBlocked(s.core) && AllQuiet(s.core.slots, s.threads) && s.core.running == map[]
    ensures s.core.queue[0] in s.core.tasks && Starved(s, s.core.tasks[s.core.queue[0]].request)
  {
    hide Inv, FitsWorker, AllQuiet;
    HeadIsTask(s);
    var request := s.core.tasks[s.core.queue[0]].request;
    forall w | w in s.core.order && w in s.dropped
      ensures exists n :: n in request && Get(s.capacity, n) - Get(s.dropped[w], n) < request[n]
    {
      QuietIsIdle(s, w);
      var n := NoRoomFor(s, w, request);
    }
  }

  lemma HeadIsTask(s: Local)
    requires Inv(s) && s.core.queue != []
    ensures s.core.queue[0] in s.core.tasks && Fits(s.core.tasks[s.core.queue[0]].request, s.capacity)
  {
    hide ShapeOk, WorkersOk, HeldOk, LedgerOk, FlagsOk, WorkerFlagsOk, AlarmOk, FifoOk, EventsOk, Fits;
    assert s.core.queue[0] in s.core.queue;
  }

  lemma QuietIsIdle(s: Local, w: WorkerId)
    requires Inv(s) && w in s.core.order && AllQuiet(s.core.slots, s.threads)
    ensures w in s.core.slots && s.core.slots[w].state == Idle && w in s.threads && InFlight(s.threads[w]) == map[]
  {
    hide HeldOk, QueueOk, RequestsOk, LedgerOk, FlagsOk, WorkerFlagsOk, AlarmOk, FifoOk, EventsOk, WorkersOk;
    WorkerOkAt(s, w);
  }

  lemma NoRoomFor(s: Local, w: WorkerId, request: Bag) returns (n: string)
    requires Inv(s) && w in s.core.order && !FitsWorker(s.core.pools, w, request)
    requires s.core.running == map[] && w in s.threads && InFlight(s.threads[w]) == map[]
    ensures w in s.dropped && n in request && Get(s.capacity, n) - Get(s.dropped[w], n) < request[n]
  {
    hide Inv;
    BalancedAt(s, w, "");
    n :| n in request && !(request[n] <= Get(s.core.pools[w].available, n));
    BalancedAt(s, w, n);
  }

  /** Where nothing is dropped the head still fits on any worker. */
  lemma NotStarved(states: seq<Local>, steps: seq<Step>, i: nat)
    requires Run(states, steps) && i < |states| && states[i].core.queue != []
    requires forall w :: w in states[i].dropped ==> states[i].dropped[w] == map[]
    ensures states[i].core.queue[0] in states[i].core.tasks
    ensures !Starved(states[i], states[i].core.tasks[states[i].core.queue[0]].request)
  {
    hide Run, Inv;
    RunKeeps(states, steps, i);
    var s := states[i];
    HeadIsTask(s);
    if s.core.order == [] {
      NoWorkersNoTasks(states, steps, i);
    } else {
      var w := s.core.order[0];
      BalancedAt(s, w, "");
      assert forall n :: Get(s.dropped[w], n) == 0;
    }
  }

  // ---- Shutdown

  /** When Shutdown has returned, every task whose Submit returned OK is terminal, dropped reservations or not. */
  lemma ShutdownDrains(states: seq<Local>, steps: seq<Step>, i: nat, t: TaskId)
    requires Run(states, steps) && i < |states| && states[i].phase == Closed
    requires t in states[i].accepted
    ensures t in states[i].core.tasks && IsTerminal(states[i].core.tasks[t].state)
  {
    hide Run;
    RunKeeps(states, steps, i);
    ClosedMeansTerminal(states[i], t);
  }

  lemma ClosedMeansTerminal(s: Local, t: TaskId)
    requires Inv(s) && s.phase == Closed && t in s.accepted
    ensures t in s.core.tasks && IsTerminal(s.core.tasks[t].state)
  {
    hide RequestsOk, LedgerOk, AlarmOk, EventsOk;
    assert t in s.enqueued;
    var r := s.core.tasks[t];
    if Active(r) {
      assert IsHeld(s.core.slots, s.threads, t, r);
      var w := r.worker.value;
      assert w in s.core.order;
      var k :| 0 <= k < |s.core.order| && s.core.order[k] == w;
      assert s.threads[w].Exited?;
      NothingThrownAway(s, w);
    }
    assert r.state == Queued ==> t in s.core.queue;
  }

  // ---- The task records of a run are a TaskManager history

  /** Whatever the interleaving, the records and completion events are those of some sequence of TaskManager calls. */
  lemma {:induction false} RunIsHistory(states: seq<Local>, steps: seq<Step>, i: nat) returns (ops: seq<Op>)
    requires Run(states, steps) && i < |states|
    ensures After(ops) == (states[i].core.tasks, states[i].completions)
  {
    hide Inv, Next, Enabled, IsCall;
    if i == 0 {
      ops := [];
    } else {
      var s := states[i-1];
      var before := RunIsHistory(states, steps, i - 1);
      RunKeeps(states, steps, i - 1);
      var call := StepCall(s, steps[i-1]);
      ops := before;
      if call.Some? {
        ops := before + [call.value];
        assert ops[..|ops|-1] == before;
      }
      CallExtends(s, states[i], call, before, ops);
    }
  }

  lemma StepCall(s: Local, step: Step) returns (call: Option<Op>)
    requires Inv(s) && Enabled(s, step)
    ensures IsCall(s, Next(s, step), call)
  {
    hide Next, Enabled, IsCall, EventsOk, FifoOk, AlarmOk, HeldOk, Ready;
    InvReady(s);
    call := StepIsCall(s, step);
  }

  lemma CallExtends(s: Local, s': Local, call: Option<Op>, before: seq<Op>, ops: seq<Op>)
    requires IsCall(s, s', call) && After(before) == (s.core.tasks, s.completions)
    requires ops == if call.Some? then before + [call.value] else before
    ensures After(ops) == (s'.core.tasks, s'.completions)
  {
  }
}
