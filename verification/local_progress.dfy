/** Why Shutdown's wait for the queue to drain comes to an end, and the one case in which it does not. */
module LocalProgress {
  import opened Common
  import opened Resources
  import opened TaskManagement
  import opened Scheduling
  import opened LocalRuntime
  import opened LocalInvariant
  import opened LocalWorkerSteps
  import opened LocalOtherSteps
  import opened LocalTheorems

  // ---- The wait never deadlocks, unless the head is starved

  predicate ThreadStep(step: Step) {
    step.Scheduler? || step.Worker?
  }

  /**
   * While Shutdown waits for the queue to drain, the wait is over, or the scheduler thread or a worker thread can take a
   * step, or the runtime is quiet and no worker can ever have room for the head of the queue again.
   */
  lemma DrainCanProceed(states: seq<Local>, steps: seq<Step>, i: nat)
    requires Run(states, steps) && i < |states| && states[i].phase == Draining
    ensures var s := states[i];
            || Enabled(s, Shutdown(DrainReturns))
            || (exists step :: ThreadStep(step) && Enabled(s, step))
            || (AllQuiet(s.core.slots, s.threads) && s.core.queue != [] && s.core.queue[0] in s.core.tasks
                && Starved(s, s.core.tasks[s.core.queue[0]].request))
  {
    hide Run, Inv, AllQuiet, Starved, WorkerEnabled, LoopEnabled, MayPick;
    var s := states[i];
    RunKeeps(states, steps, i);
    if w :| w in s.threads && CanMove(s, w) {
      WorkerCanMove(s, w);
    } else if s.loop != Parked || s.core.wake {
      LoopCanMove(s);
    } else {
      NobodyMoves(s);
      NoStuckQueue(states, steps, i);
      if s.core.queue == [] {
        RunOwed(states, steps, i);
        QuietOwesNothing(s);
      }
    }
  }

  /** A thread that is not waiting at an empty mailbox. */
  predicate CanMove(s: Local, w: WorkerId) {
    w in s.threads && w in s.core.slots && !s.threads[w].Exited? && !(s.threads[w].AtWait? && s.core.slots[w].mailbox.None?)
  }

  lemma WorkerCanMove(s: Local, w: WorkerId)
    requires CanMove(s, w)
    ensures exists step :: ThreadStep(step) && Enabled(s, step)
  {
    var a :=
      match s.threads[w]
      case AtWait => Take
      case Took(_) => Start
      case Executing(_) => HandlerReturns(Outcome(OK, ""))
      case Decided(_, _) => Finish
      case Finished(_) => SetIdle
      case Erasing(_) => EraseReservation
      case Returning(_) => ReturnResources
      case Waking => RequestWake
      case Exited => Exit;
    assert ThreadStep(Worker(w, a)) && Enabled(s, Worker(w, a));
  }

  lemma LoopCanMove(s: Local)
    requires Inv(s) && s.phase == Draining && (s.loop != Parked || s.core.wake)
    ensures exists step :: ThreadStep(step) && Enabled(s, step)
  {
    hide ShapeOk, WorkersOk, HeldOk, QueueOk, RequestsOk, LedgerOk, WorkerFlagsOk, AlarmOk, FifoOk, EventsOk, Choice;
    var a :=
      match s.loop
      case Parked => LoopWakes
      case Checking => LoopChecks
      case Trying => LoopTries(ExecutionId(0), Choice(s.core))
      case Stopped => LoopWakes;
    assert ThreadStep(Scheduler(a)) && Enabled(s, Scheduler(a));
  }

  lemma NobodyMoves(s: Local)
    requires Inv(s) && s.phase == Draining && forall w :: w in s.threads ==> !CanMove(s, w)
    ensures AllQuiet(s.core.slots, s.threads) && !s.core.stopping
  {
    hide WorkersOk, HeldOk, QueueOk, RequestsOk, LedgerOk, AlarmOk, FifoOk, EventsOk;
    AllWorkersUp(s.core, s.threads, s.phase);
  }

  lemma QuietOwesNothing(s: Local)
    requires Inv(s) && OwedOk(s) && AllQuiet(s.core.slots, s.threads)
    ensures s.core.running == map[]
  {
    hide WorkersOk, HeldOk, QueueOk, RequestsOk, LedgerOk, FlagsOk, WorkerFlagsOk, AlarmOk, FifoOk, EventsOk, AllQuiet, OwedOk;
    NothingOwed(s);
  }

  /** And then the wait is not over before the starved task is cancelled. */
  lemma StarvedDrainHangs(states: seq<Local>, steps: seq<Step>, i: nat, j: nat, t: TaskId)
    requires Run(states, steps) && i <= j < |states|
    requires t in states[i].core.queue && t in states[i].core.tasks && Starved(states[i], states[i].core.tasks[t].request)
    requires t !in states[j].withdrawn
    ensures !Enabled(states[j], Shutdown(DrainReturns))
  {
    hide Run, Starved;
    StarvedTaskWaits(states, steps, i, j, t);
  }

  // ---- The wait does not go on for ever otherwise

  /** How many steps a worker thread may still take by itself, with the wake-up it owes. */
  function Ahead(slot: Slot, pc: Thread): int {
    (if slot.mailbox.Some? then 12 else 0)
    + match pc
      case AtWait => 1
      case Took(_) => 11
      case Executing(_) => 10
      case Decided(_, _) => 9
      case Finished(_) => 8
      case Erasing(_) => 7
      case Returning(_) => 6
      case Waking => 5
      case Exited => 0
  }

  function LoopAhead(loop: Loop): int {
    match loop
    case Checking => 2
    case Trying => 1
    case _ => 0
  }

  function WorkersAhead(slots: map<WorkerId, Slot>, threads: map<WorkerId, Thread>): map<WorkerId, int> {
    map w | w in slots && w in threads :: Ahead(slots[w], threads[w])
  }

  /** A bound on how many steps the threads can take before the next submission. */
  ghost function Potential(s: Local): int {
    14 * |s.core.queue| + Total(WorkersAhead(s.core.slots, s.threads)) + LoopAhead(s.loop) + if s.core.wake then 3 else 0
  }

  lemma PotentialBounds(s: Local)
    requires Inv(s)
    ensures 0 <= Potential(s) <= 14 * |s.core.queue| + 23 * |s.core.slots| + 5
  {
    hide Inv;
    var ahead := WorkersAhead(s.core.slots, s.threads);
    TotalNonNegative(ahead);
    TotalAtMost(ahead, 23);
    SlotsHaveThreads(s);
    assert ahead.Keys == s.core.slots.Keys;
  }

  lemma SlotsHaveThreads(s: Local)
    requires Inv(s)
    ensures s.threads.Keys == s.core.slots.Keys
  {
    hide WorkersOk, HeldOk, QueueOk, RequestsOk, LedgerOk, FlagsOk, WorkerFlagsOk, AlarmOk, FifoOk, EventsOk;
  }

  /** Only one worker changes. */
  lemma OneAhead(slots: map<WorkerId, Slot>, threads: map<WorkerId, Thread>, w: WorkerId,
                 slots': map<WorkerId, Slot>, threads': map<WorkerId, Thread>)
    requires w in slots && w in threads && w in slots' && w in threads'
    requires slots' == slots[w := slots'[w]] && threads' == threads[w := threads'[w]]
    ensures Total(WorkersAhead(slots', threads'))
            == Total(WorkersAhead(slots, threads)) + Ahead(slots'[w], threads'[w]) - Ahead(slots[w], threads[w])
  {
    hide Ahead, Total;
    var before, after := WorkersAhead(slots, threads), WorkersAhead(slots', threads');
    assert after == before[w := Ahead(slots'[w], threads'[w])];
    TotalUpdate(before, w, Ahead(slots'[w], threads'[w]));
  }

  lemma WorkerSpends(s: Local, w: WorkerId, a: WorkerAct)
    requires WorkerEnabled(s, w, a)
    ensures Potential(WorkerNext(s, w, a)) < Potential(s)
  {
    hide Total, WorkersAhead, WorkerNext, WorkerEnabled, Ahead;
    WorkerLocality(s, w, a);
    var s' := WorkerNext(s, w, a);
    WorkerMoves(s, w, a);
    OneAhead(s.core.slots, s.threads, w, s'.core.slots, s'.threads);
  }

  lemma WorkerMoves(s: Local, w: WorkerId, a: WorkerAct)
    requires WorkerEnabled(s, w, a)
    ensures var s' := WorkerNext(s, w, a);
            && w in s.core.slots && w in s.threads && w in s'.core.slots && w in s'.threads
            && s'.core.queue == s.core.queue && s'.loop == s.loop
            && Ahead(s'.core.slots[w], s'.threads[w]) + (if s'.core.wake then 3 else 0)
               < Ahead(s.core.slots[w], s.threads[w]) + (if s.core.wake then 3 else 0)
  {
    hide Moved, Completed, Released, Appended;
    match a
    case Take =>
    case Start =>
    case HandlerReturns(o) =>
    case Finish =>
    case SetIdle =>
    case EraseReservation =>
    case ReturnResources =>
    case RequestWake =>
    case Exit =>
  }

  lemma DispatchSpends(s: Local, w: WorkerId, e: ExecutionId)
    requires ShapeOk(s.core, s.threads, s.dropped) && Ready(s.core) && Placeable(s.core, w) && s.loop == Trying
    requires w in s.dropped
    ensures Potential(DispatchedTo(s, w, e)) < Potential(s)
  {
    hide Total, WorkersAhead, Plus, Minus, Distinct, Canonical, PoolOk, Fits;
    var s' := DispatchedTo(s, w, e);
    OneAhead(s.core.slots, s.threads, w, s'.core.slots, s'.threads);
  }

  lemma LoopSpends(s: Local, a: LoopAct)
    requires Inv(s) && LoopEnabled(s, a) && !s.core.stopping
    ensures Potential(LoopNext(s, a)) < Potential(s)
  {
    hide ShapeOk, WorkersOk, HeldOk, QueueOk, RequestsOk, LedgerOk, FlagsOk, WorkerFlagsOk, AlarmOk, FifoOk, EventsOk;
    hide Ready, MayPick, Tried, Placeable, DispatchedTo, Total, WorkersAhead;
    InvReady(s);
    match a
    case LoopWakes =>
    case LoopChecks =>
    case LoopTries(e, pick) =>
      PickIs(s, pick);
      TriedIs(s, e, pick);
      if pick.Some? {
        DispatchSpends(s, pick.value, e);
      }
  }

  lemma CancelSpends(s: Local, t: TaskId)
    ensures Potential(ClientNext(s, CancelTask(t))) <= Potential(s)
  {
    hide Total, WorkersAhead, CancelledIn, Appended;
    CancelShrinks(s.core, t);
  }

  lemma CancelShrinks(c: Core, t: TaskId)
    ensures var c' := CancelledIn(c, t).core;
            c'.slots == c.slots && ((c'.queue == c.queue && c'.wake == c.wake) || |c'.queue| == |c.queue| - 1)
  {
    hide CancelledTask, RemoveFirst;
    if t in c.queue {
      RemoveShrinks(c.queue, t);
      QueuedIsCancelled(c.tasks, t);
    }
  }

  lemma QueuedIsCancelled(tasks: Tasks, t: TaskId)
    ensures t in tasks && tasks[t].state == Queued ==> CancelledTask(tasks, t).code == Ok
  {
  }

  lemma {:induction false} RemoveShrinks(q: seq<TaskId>, t: TaskId)
    requires t in q
    ensures |RemoveFirst(q, t)| == |q| - 1
  {
    if q[0] != t {
      RemoveShrinks(q[1..], t);
    }
  }

  lemma RefusedChangesNothing(s: Local, t: TaskId, request: Bag)
    requires Inv(s) && s.phase == Draining && ClientEnabled(s, SubmitRegister(t, request))
    ensures ClientNext(s, SubmitRegister(t, request)) == s
  {
    hide ShapeOk, WorkersOk, HeldOk, QueueOk, RequestsOk, LedgerOk, WorkerFlagsOk, AlarmOk, FifoOk, EventsOk, Canonical, Fits;
  }

  lemma FlagsWhileDraining(s: Local)
    requires Inv(s) && s.phase == Draining
    ensures !s.core.stopping && s.submitting.None?
  {
    hide ShapeOk, WorkersOk, HeldOk, QueueOk, RequestsOk, LedgerOk, WorkerFlagsOk, AlarmOk, FifoOk, EventsOk;
  }

  /** While Shutdown waits, a step of a thread spends potential and a step of a client adds none. */
  lemma StepSpends(s: Local, step: Step)
    requires Inv(s) && Enabled(s, step) && s.phase == Draining && Next(s, step).phase == Draining
    ensures Potential(Next(s, step)) + (if ThreadStep(step) then 1 else 0) <= Potential(s)
  {
    hide Inv, Potential, LoopNext, WorkerNext, ClientNext, ShutdownNext, LoopEnabled, WorkerEnabled, ShutdownEnabled, Canonical;
    FlagsWhileDraining(s);
    match step
    case Client(SubmitRegister(t, request)) => RefusedChangesNothing(s, t, request);
    case Client(SubmitEnqueue) =>
    case Client(CancelTask(t)) => CancelSpends(s, t);
    case Scheduler(a) => LoopSpends(s, a);
    case Worker(w, a) => WorkerSpends(s, w, a);
    case Shutdown(a) => ShutdownGoesOn(s, a);
  }

  lemma ShutdownGoesOn(s: Local, a: ShutdownAct)
    requires ShutdownEnabled(s, a) && s.phase == Draining
    ensures ShutdownNext(s, a).phase != Draining
  {
  }

  /** How many steps the threads take between two points of a run. */
  function ThreadSteps(steps: seq<Step>, i: nat, j: nat): nat
    requires i <= j <= |steps|
    decreases j - i
  {
    if i == j then 0 else ThreadSteps(steps, i, j - 1) + if ThreadStep(steps[j-1]) then 1 else 0
  }

  lemma {:induction false} DrainSpends(states: seq<Local>, steps: seq<Step>, i: nat, j: nat)
    requires Run(states, steps) && i <= j < |states|
    requires forall k :: i <= k <= j ==> states[k].phase == Draining
    ensures ThreadSteps(steps, i, j) + Potential(states[j]) <= Potential(states[i])
  {
    hide Inv, Enabled, Next, Potential;
    if i < j {
      DrainSpends(states, steps, i, j - 1);
      RunKeeps(states, steps, j - 1);
      assert Enabled(states[j-1], steps[j-1]) && states[j] == Next(states[j-1], steps[j-1]);
      StepSpends(states[j-1], steps[j-1]);
    }
  }

  /**
   * However clients, scheduler thread and worker threads interleave while Shutdown waits for the queue to drain, the threads
   * take a bounded number of steps. So the wait ends once handlers return and threads that can move do, unless the head of
   * the queue is starved (DrainCanProceed).
   */
  lemma DrainIsBounded(states: seq<Local>, steps: seq<Step>, i: nat, j: nat)
    requires Run(states, steps) && i <= j < |states|
    requires forall k :: i <= k <= j ==> states[k].phase == Draining
    ensures ThreadSteps(steps, i, j) <= 14 * |states[i].core.queue| + 23 * |states[i].core.slots| + 5
  {
    hide Run, Inv, Potential;
    RunKeeps(states, steps, i);
    RunKeeps(states, steps, j);
    PotentialBounds(states[i]);
    PotentialBounds(states[j]);
    DrainSpends(states, steps, i, j);
  }
}
