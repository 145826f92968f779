/**
 * The one condition variable behind the scheduler thread and Drain: who is asleep on it, and whom a notification reaches.
 * The step system of LocalRuntime waits on conditions alone; here a thread that went to sleep must be notified as well.
 */
module LocalNotification {
  import opened Common
  import opened Resources
  import opened TaskManagement
  import opened Scheduling
  import opened LocalRuntime
  import opened LocalInvariant
  import opened LocalWorkerSteps
  import opened LocalOtherSteps
  import LocalLeak
  import LocalProgress
  import LocalTheorems

  /** The runtime, and which of the two threads that wait on Scheduler::cv_ are asleep there. */
  datatype Alarm = Alarm(local: Local, loopSleeps: bool, drainSleeps: bool)

  datatype Act =
    | Do(step: Step, toLoop: bool)   // a step; `toLoop` is whom notify_one reaches if both are asleep
    | LoopSleeps                     // the scheduler thread finds nothing to do and blocks
    | DrainSleeps                    // Drain finds the queue not drained and blocks

  datatype Notice = Nobody | One | All

  /** Taking a queued task out of the queue, the one cancellation that notifies. */
  predicate Withdraws(c: Core, t: TaskId) {
    t in c.tasks && c.tasks[t].state == Queued && t in c.queue
  }

  /** Whom a step notifies. */
  function NoticeOf(s: Local, step: Step): Notice
    requires LocalRuntime.Enabled(s, step)
  {
    match step
    case Client(SubmitEnqueue) => if Enqueued(s.core, s.submitting.value).1 == Ok then One else Nobody
    case Client(CancelTask(t)) => if Withdraws(s.core, t) then One else Nobody
    case Worker(_, RequestWake) => All
    case Shutdown(StopLoop) => One
    case _ => Nobody
  }

  predicate Drained(c: Core) {
    c.queue == [] && c.running == map[]
  }

  predicate Enabled(a: Alarm, act: Act) {
    match act
    case Do(step, _) =>
      && LocalRuntime.Enabled(a.local, step)
      && (step == Scheduler(LoopWakes) ==> !a.loopSleeps)
      && (step == Shutdown(DrainReturns) ==> !a.drainSleeps)
    case LoopSleeps => a.local.loop == Parked && !a.loopSleeps && !a.local.core.wake && !a.local.core.stopping
    case DrainSleeps => a.local.phase == Draining && !a.drainSleeps && !Drained(a.local.core)
  }

  function Next(a: Alarm, act: Act): Alarm
    requires Enabled(a, act)
  {
    match act
    case Do(step, toLoop) =>
      var n := NoticeOf(a.local, step);
      Alarm(LocalRuntime.Next(a.local, step),
            a.loopSleeps && !(n == All || (n == One && (!a.drainSleeps || toLoop))),
            a.drainSleeps && !(n == All || (n == One && !(a.loopSleeps && toLoop))))
    case LoopSleeps => a.(loopSleeps := true)
    case DrainSleeps => a.(drainSleeps := true)
  }

  ghost predicate Run(states: seq<Alarm>, acts: seq<Act>) {
    && |states| == |acts| + 1
    && Init(states[0].local) && !states[0].loopSleeps && !states[0].drainSleeps
    && forall i :: 0 <= i < |acts| ==> Enabled(states[i], acts[i]) && states[i+1] == Next(states[i], acts[i])
  }

  // ---- Every run with sleeping threads is a run of the runtime

  lemma {:induction false} LocalRuns(states: seq<Alarm>, acts: seq<Act>, i: nat)
    returns (locals: seq<Local>, steps: seq<Step>)
    requires Run(states, acts) && i < |states|
    ensures LocalRuntime.Run(locals, steps) && locals[|steps|] == states[i].local
  {
    hide Enabled, Next, LocalRuntime.Enabled, LocalRuntime.Next, Init;
    if i == 0 {
      locals, steps := [states[0].local], [];
    } else {
      locals, steps := LocalRuns(states, acts, i - 1);
      LocalMoves(states[i-1], acts[i-1]);
      if acts[i-1].Do? {
        locals, steps := Longer(locals, steps, acts[i-1].step, states[i].local);
      }
    }
  }

  lemma LocalMoves(a: Alarm, act: Act)
    requires Enabled(a, act)
    ensures act.Do? ==> LocalRuntime.Enabled(a.local, act.step) && Next(a, act).local == LocalRuntime.Next(a.local, act.step)
    ensures !act.Do? ==> Next(a, act).local == a.local
  {
    hide LocalRuntime.Enabled, LocalRuntime.Next, NoticeOf;
  }

  lemma Longer(locals: seq<Local>, steps: seq<Step>, step: Step, next: Local) returns (locals': seq<Local>, steps': seq<Step>)
    requires LocalRuntime.Run(locals, steps)
    requires LocalRuntime.Enabled(locals[|steps|], step) && LocalRuntime.Next(locals[|steps|], step) == next
    ensures LocalRuntime.Run(locals', steps') && locals'[|steps'|] == next
  {
    hide LocalRuntime.Enabled, LocalRuntime.Next, Init;
    locals', steps' := locals + [next], steps + [step];
    forall i | 0 <= i < |steps'|
      ensures LocalRuntime.Enabled(locals'[i], steps'[i]) && locals'[i+1] == LocalRuntime.Next(locals'[i], steps'[i])
    {
      if i < |steps| {
        assert locals'[i] == locals[i] && locals'[i+1] == locals[i+1];
      }
    }
  }

  lemma AlarmKeeps(states: seq<Alarm>, acts: seq<Act>, i: nat)
    requires Run(states, acts) && i < |states|
    ensures Inv(states[i].local)
  {
    hide Run, Inv, LocalRuntime.Run;
    var locals, steps := LocalRuns(states, acts, i);
    RunsHaveEnds(locals, steps);
    RunKeeps(locals, steps, |steps|);
  }

  lemma RunsHaveEnds(locals: seq<Local>, steps: seq<Step>)
    requires LocalRuntime.Run(locals, steps)
    ensures |locals| == |steps| + 1
  {
  }

  // ---- When a notification is missed

  predicate CallbackPending(threads: map<WorkerId, Thread>) {
    exists w :: w in threads && InCallback(threads[w])
  }

  /** The scheduler thread sleeps although there is something to do. */
  predicate LoopMissed(a: Alarm) {
    a.loopSleeps && (a.local.core.wake || a.local.core.stopping)
  }

  /** Drain sleeps although the queue has drained, and no callback is going to notify it. */
  predicate DrainMissed(a: Alarm) {
    a.drainSleeps && Drained(a.local.core) && !CallbackPending(a.local.threads)
  }

  predicate NothingMissed(a: Alarm) {
    !LoopMissed(a) && !DrainMissed(a)
  }

  /**
   * A queued task is withdrawn while both threads sleep, and the one notification reaches Drain, or it reaches the
   * scheduler thread although the withdrawal drained the queue.
   */
  predicate Misses(a: Alarm, act: Act) {
    && act.Do? && act.step.Client? && act.step.client.CancelTask? && Withdraws(a.local.core, act.step.client.task)
    && a.loopSleeps && a.drainSleeps
    && (act.toLoop ==> Drained(CancelledIn(a.local.core, act.step.client.task).core) && !CallbackPending(a.local.threads))
  }

  /** Threads sleep only where they wait. */
  predicate SleepsOk(a: Alarm) {
    (a.loopSleeps ==> a.local.loop == Parked) && (a.drainSleeps ==> a.local.phase == Draining)
  }

  lemma WorkerFrame(s: Local, w: WorkerId, a: WorkerAct)
    requires WorkerEnabled(s, w, a)
    ensures var s' := WorkerNext(s, w, a);
            && s'.core.queue == s.core.queue && s'.loop == s.loop && s'.phase == s.phase && s'.core.stopping == s.core.stopping
            && (!a.RequestWake? ==> s'.core.wake == s.core.wake)
            && (!a.EraseReservation? ==> s'.core.running == s.core.running)
            && w in s.threads && w in s'.threads && s'.threads == s.threads[w := s'.threads[w]]
            && (a.EraseReservation? || (InCallback(s.threads[w]) && !a.RequestWake?) ==> InCallback(s'.threads[w]))
  {
    hide Moved, Completed, Released, Appended;
    match a
    case Take =>
    case Start =>
    case HandlerReturns(o) =>
    case Finish =>
    case SetIdle =>
    case EraseReservation =>
    case ReturnResources =>
    case RequestWake =>
    case Exit =>
  }

  lemma WorkerMisses(a: Alarm, w: WorkerId, act: WorkerAct, toLoop: bool)
    requires SleepsOk(a) && NothingMissed(a) && WorkerEnabled(a.local, w, act)
    ensures var a' := Next(a, Do(Worker(w, act), toLoop)); SleepsOk(a') && NothingMissed(a')
  {
    hide WorkerEnabled, WorkerNext, InCallback, CallbackPending, Drained;
    WorkerFrame(a.local, w, act);
    var s, s' := a.local, WorkerNext(a.local, w, act);
    if !act.RequestWake? {
      CallbackStays(s.threads, w, s'.threads, act.EraseReservation?);
      SameDrained(s.core, s'.core);
    }
  }

  lemma CallbackStays(threads: map<WorkerId, Thread>, w: WorkerId, threads': map<WorkerId, Thread>, erasing: bool)
    requires w in threads && w in threads' && threads' == threads[w := threads'[w]]
    requires erasing || InCallback(threads[w]) ==> InCallback(threads'[w])
    ensures erasing || CallbackPending(threads) ==> CallbackPending(threads')
  {
    hide InCallback;
    if erasing {
      assert InCallback(threads'[w]);
    } else if CallbackPending(threads) {
      var x :| x in threads && InCallback(threads[x]);
      assert x in threads' && InCallback(threads'[x]);
    }
  }

  lemma SameDrained(c: Core, c': Core)
    ensures c'.queue == c.queue && c'.running == c.running ==> (Drained(c') <==> Drained(c))
  {
  }

  lemma LoopMisses(a: Alarm, act: LoopAct, toLoop: bool)
    requires Inv(a.local) && SleepsOk(a) && NothingMissed(a) && Enabled(a, Do(Scheduler(act), toLoop))
    ensures var a' := Next(a, Do(Scheduler(act), toLoop)); SleepsOk(a') && NothingMissed(a')
  {
    hide Inv, MayPick, Tried, CallbackPending;
    match act
    case LoopWakes =>
    case LoopChecks =>
    case LoopTries(e, pick) => TriedDrains(a.local, e, pick);
  }

  /** Dispatching does not drain: the worker it dispatches to is in running_ then. */
  lemma TriedDrains(s: Local, e: ExecutionId, pick: Option<WorkerId>)
    requires Inv(s) && MayPick(s, pick)
    ensures var s' := Tried(s, e, pick);
            && s'.threads == s.threads && s'.phase == s.phase && s'.core.stopping == s.core.stopping && s'.core.wake == s.core.wake
            && (Drained(s'.core) ==> Drained(s.core))
  {
    hide WorkersOk, HeldOk, QueueOk, RequestsOk, LedgerOk, FlagsOk, WorkerFlagsOk, AlarmOk, FifoOk, EventsOk, Ready, Tried, MayPick, Plus;
    InvReady(s);
    PickIs(s, pick);
    TriedIs(s, e, pick);
    if !s.core.stopping && pick.Some? {
      assert pick.value in Tried(s, e, pick).core.running;
    }
  }

  lemma ClientMisses(a: Alarm, act: ClientAct, toLoop: bool)
    requires Inv(a.local) && SleepsOk(a) && NothingMissed(a) && Enabled(a, Do(Client(act), toLoop))
    ensures var a' := Next(a, Do(Client(act), toLoop)); SleepsOk(a') && (NothingMissed(a') <==> !Misses(a, Do(Client(act), toLoop)))
  {
    hide Inv, CallbackPending, Canonical, Admit, Registered, CancelledIn, Moved, Appended;
    match act
    case SubmitRegister(t, request) =>
    case SubmitEnqueue => SubmittingIsOpen(a.local);
    case CancelTask(t) =>
      CancelFrame(a.local.core, t);
  }

  lemma SubmittingIsOpen(s: Local)
    requires Inv(s) && s.submitting.Some?
    ensures s.phase == Open
  {
    hide ShapeOk, WorkersOk, HeldOk, QueueOk, RequestsOk, LedgerOk, WorkerFlagsOk, AlarmOk, FifoOk, EventsOk;
  }

  lemma CancelFrame(c: Core, t: TaskId)
    ensures var c' := CancelledIn(c, t).core;
            && c'.running == c.running && c'.stopping == c.stopping
            && (if Withdraws(c, t) then c'.wake else c'.wake == c.wake && c'.queue == c.queue)
  {
    hide RemoveFirst, CancelledTask;
    if Withdraws(c, t) {
      LocalProgress.QueuedIsCancelled(c.tasks, t);
      assert CancelledIn(c, t).code == Ok;
    } else if t in c.tasks {
      if c.tasks[t].state == Queued {
        assert CancelledIn(c, t).core == c;
      }
    }
  }

  lemma ShutdownMisses(a: Alarm, act: ShutdownAct, toLoop: bool)
    requires SleepsOk(a) && NothingMissed(a) && Enabled(a, Do(Shutdown(act), toLoop))
    ensures var a' := Next(a, Do(Shutdown(act), toLoop)); SleepsOk(a') && NothingMissed(a')
  {
    hide CallbackPending;
    match act
    case CloseAdmission =>
    case DrainReturns =>
    case StopLoop =>
    case JoinLoop =>
    case StopPool =>
    case StopWorker =>
    case JoinWorker =>
    case ShutdownReturns =>
  }

  lemma StepMissesExactlyWhen(a: Alarm, act: Act)
    requires Inv(a.local) && SleepsOk(a) && NothingMissed(a) && Enabled(a, act)
    ensures SleepsOk(Next(a, act)) && (NothingMissed(Next(a, act)) <==> !Misses(a, act))
  {
    hide Inv;
    match act
    case Do(step, toLoop) =>
      hide Next, SleepsOk, NothingMissed;
      match step {
        case Client(c) => ClientMisses(a, c, toLoop);
        case Scheduler(l) => LoopMisses(a, l, toLoop);
        case Worker(w, x) => WorkerMisses(a, w, x, toLoop);
        case Shutdown(x) => ShutdownMisses(a, x, toLoop);
      }
    case LoopSleeps =>
    case DrainSleeps =>
  }

  /** On every run no notification has ever been missed if and only if no step so far was one that misses. */
  lemma {:induction false} NothingMissedExactlyWhen(states: seq<Alarm>, acts: seq<Act>, i: nat)
    requires Run(states, acts) && i < |states|
    ensures (forall k :: 0 <= k <= i ==> NothingMissed(states[k])) <==> (forall k :: 0 <= k < i ==> !Misses(states[k], acts[k]))
    ensures (forall k :: 0 <= k <= i ==> NothingMissed(states[k])) ==> SleepsOk(states[i])
  {
    hide Enabled, Next, Init, NothingMissed, Misses, SleepsOk, Inv;
    if i == 0 {
      AwakeMissesNothing(states[0]);
    } else {
      NothingMissedExactlyWhen(states, acts, i - 1);
      AlarmKeeps(states, acts, i - 1);
      if forall k :: 0 <= k <= i - 1 ==> NothingMissed(states[k]) {
        assert NothingMissed(states[i-1]);
        StepMissesExactlyWhen(states[i-1], acts[i-1]);
        assert NothingMissed(states[i]) <==> !Misses(states[i-1], acts[i-1]);
        assert (forall k :: 0 <= k < i ==> !Misses(states[k], acts[k])) <==> !Misses(states[i-1], acts[i-1]);
      } else {
        var k :| 0 <= k <= i - 1 && !NothingMissed(states[k]);
        assert exists m :: 0 <= m < i - 1 && Misses(states[m], acts[m]);
      }
    }
  }

  lemma AwakeMissesNothing(a: Alarm)
    requires !a.loopSleeps && !a.drainSleeps
    ensures NothingMissed(a) && SleepsOk(a)
  {
  }

  // ---- What the wait of Drain comes to

  /** What the scheduler thread, a worker thread or Drain itself does. */
  predicate OwnAct(act: Act) {
    match act
    case Do(step, _) => LocalProgress.ThreadStep(step) || step == Shutdown(DrainReturns)
    case _ => true
  }

  /**
   * While Drain waits and no notification has been missed, one of the threads can act, or the runtime is quiet and the head
   * of the queue is starved.
   */
  lemma DrainNeverDeadlocks(states: seq<Alarm>, acts: seq<Act>, i: nat)
    requires Run(states, acts) && i < |states| && states[i].local.phase == Draining
    requires forall k :: 0 <= k < i ==> !Misses(states[k], acts[k])
    ensures var s := states[i].local;
            || (exists act :: OwnAct(act) && Enabled(states[i], act))
            || (AllWaiting(s) && s.core.queue != [] && s.core.queue[0] in s.core.tasks
                && LocalTheorems.Starved(s, s.core.tasks[s.core.queue[0]].request))
  {
    hide Run, Inv, Misses, LocalTheorems.Starved, LocalRuntime.Run, LocalTheorems.AllQuiet, LocalRuntime.Enabled;
    var locals, steps := LocalRuns(states, acts, i);
    RunsHaveEnds(locals, steps);
    LocalProgress.DrainCanProceed(locals, steps, |steps|);
    NothingMissedExactlyWhen(states, acts, i);
    var a := states[i];
    assert NothingMissed(a);
    AlarmKeeps(states, acts, i);
    LocalProgress.SlotsHaveThreads(a.local);
    if LocalRuntime.Enabled(a.local, Shutdown(DrainReturns)) {
      DrainReturnsOrCallback(a);
    } else if step :| LocalProgress.ThreadStep(step) && LocalRuntime.Enabled(a.local, step) {
      ThreadActs(a, step);
    }
  }

  predicate AllWaiting(s: Local) {
    LocalTheorems.AllQuiet(s.core.slots, s.threads)
  }

  lemma DrainReturnsOrCallback(a: Alarm)
    requires NothingMissed(a) && LocalRuntime.Enabled(a.local, Shutdown(DrainReturns)) && a.local.threads.Keys <= a.local.core.slots.Keys
    ensures exists act :: OwnAct(act) && Enabled(a, act)
  {
    if a.drainSleeps {
      var w :| w in a.local.threads && InCallback(a.local.threads[w]);
      LocalProgress.WorkerCanMove(a.local, w);
      var step :| LocalProgress.ThreadStep(step) && LocalRuntime.Enabled(a.local, step);
      ThreadActs(a, step);
    } else {
      assert OwnAct(Do(Shutdown(DrainReturns), true)) && Enabled(a, Do(Shutdown(DrainReturns), true));
    }
  }

  lemma ThreadActs(a: Alarm, step: Step)
    requires !LoopMissed(a) && LocalProgress.ThreadStep(step) && LocalRuntime.Enabled(a.local, step)
    ensures exists act :: OwnAct(act) && Enabled(a, act)
  {
    assert OwnAct(Do(step, true)) && Enabled(a, Do(step, true));
  }

  // ---- A missed notification can be the last one

  ghost predicate Reaches(states: seq<Alarm>, acts: seq<Act>, a: Alarm) {
    Run(states, acts) && states[|acts|] == a
  }

  lemma Extend(states: seq<Alarm>, acts: seq<Act>, a: Alarm, act: Act, a': Alarm) returns (states': seq<Alarm>, acts': seq<Act>)
    requires Reaches(states, acts, a) && Enabled(a, act) && Next(a, act) == a'
    ensures Reaches(states', acts', a') && acts' == acts + [act]
  {
    hide Enabled, Next, Init;
    states', acts' := states + [a'], acts + [act];
    forall i | 0 <= i < |acts'|
      ensures Enabled(states'[i], acts'[i]) && states'[i+1] == Next(states'[i], acts'[i])
    {
      if i < |acts| {
        assert states'[i] == states[i] && states'[i+1] == states[i+1];
      }
    }
  }

  /** Threads that never go to sleep can do whatever the runtime can. */
  lemma {:induction false} AwakeRuns(locals: seq<Local>, steps: seq<Step>, i: nat) returns (states: seq<Alarm>, acts: seq<Act>)
    requires LocalRuntime.Run(locals, steps) && i < |locals|
    ensures Reaches(states, acts, Alarm(locals[i], false, false))
  {
    hide LocalRuntime.Enabled, LocalRuntime.Next, Init, Reaches;
    if i == 0 {
      states, acts := StartsAwake(locals[0]);
    } else {
      states, acts := AwakeRuns(locals, steps, i - 1);
      AwakeStep(locals[i-1], steps[i-1]);
      states, acts := Extend(states, acts, Alarm(locals[i-1], false, false), Do(steps[i-1], true), Alarm(locals[i], false, false));
    }
  }

  lemma StartsAwake(s: Local) returns (states: seq<Alarm>, acts: seq<Act>)
    requires Init(s)
    ensures Reaches(states, acts, Alarm(s, false, false))
  {
    states, acts := [Alarm(s, false, false)], [];
  }

  lemma AwakeStep(s: Local, step: Step)
    requires LocalRuntime.Enabled(s, step)
    ensures Enabled(Alarm(s, false, false), Do(step, true))
    ensures Next(Alarm(s, false, false), Do(step, true)) == Alarm(LocalRuntime.Next(s, step), false, false)
  {
    hide LocalRuntime.Enabled, LocalRuntime.Next, NoticeOf;
  }

  /** Everything has drained, everything is asleep or waiting, and nobody is left to notify Drain. */
  predicate Stuck(a: Alarm) {
    && a.loopSleeps && a.drainSleeps && a.local.phase == Draining && a.local.loop == Parked
    && !a.local.core.wake && !a.local.core.stopping && Drained(a.local.core)
    && !a.local.accepting && a.local.submitting.None?
    && LocalTheorems.AllQuiet(a.local.core.slots, a.local.threads) && NoneStopping(a.local.core.slots)
  }

  predicate NoneStopping(slots: map<WorkerId, Slot>) {
    forall w :: w in slots ==> !slots[w].stopping
  }

  lemma StuckNext(a: Alarm, act: Act)
    requires Stuck(a) && Enabled(a, act)
    ensures Stuck(Next(a, act)) && !OwnAct(act)
  {
    hide LocalTheorems.AllQuiet, NoneStopping, Canonical, CancelledTask, Appended, MayPick, WorkerNext;
    match act
    case Do(step, toLoop) =>
      match step {
        case Client(SubmitRegister(t, request)) =>
        case Client(SubmitEnqueue) =>
        case Client(CancelTask(t)) => NothingToWithdraw(a.local.core, t);
        case Scheduler(l) =>
          match l {
            case LoopWakes =>
            case LoopChecks =>
            case LoopTries(_, _) =>
          }
        case Worker(w, x) => QuietWorker(a.local, w, x);
        case Shutdown(x) =>
          match x {
            case CloseAdmission =>
            case DrainReturns =>
            case StopLoop =>
            case JoinLoop =>
            case StopPool =>
            case StopWorker =>
            case JoinWorker =>
            case ShutdownReturns =>
          }
      }
    case LoopSleeps =>
    case DrainSleeps =>
  }

  lemma QuietWorker(s: Local, w: WorkerId, a: WorkerAct)
    requires LocalTheorems.AllQuiet(s.core.slots, s.threads) && NoneStopping(s.core.slots)
    ensures !WorkerEnabled(s, w, a)
  {
  }

  lemma NothingToWithdraw(c: Core, t: TaskId)
    requires c.queue == []
    ensures var c' := CancelledIn(c, t).core;
            c' == c.(tasks := c'.tasks)
  {
    hide CancelledTask;
  }

  lemma {:induction false} StuckForEver(states: seq<Alarm>, acts: seq<Act>, i: nat, j: nat)
    requires Run(states, acts) && i <= j < |states| && Stuck(states[i])
    ensures Stuck(states[j]) && forall k :: i <= k < j ==> !OwnAct(acts[k])
  {
    hide Enabled, Next, Stuck, OwnAct;
    if i < j {
      StuckForEver(states, acts, i, j - 1);
      StuckNext(states[j-1], acts[j-1]);
    }
  }

  /**
   * With a starved task in the queue, Shutdown waits; its cancellation drains the queue, but the one notification wakes the
   * scheduler thread instead of Drain. A state is reachable in which the condition Drain waits for holds, and on every
   * continuation Drain sleeps on: Shutdown never returns.
   */
  lemma CancelCanHangShutdown(cap: Bag, w: WorkerId, r0: Bag, r1: Bag, r2: Bag, e: ExecutionId)
    returns (states: seq<Alarm>, acts: seq<Act>)
    requires Canonical(cap) && Canonical(r0) && Canonical(r1) && Canonical(r2) && Fits(Plus(r0, r1), cap)
    requires Fits(r2, cap) && !Fits(r2, Minus(cap, r1))
    ensures Run(states, acts)
    ensures var s := states[|acts|].local;
            s.phase == Draining && LocalRuntime.Enabled(s, Shutdown(DrainReturns)) && Stuck(states[|acts|])
    ensures forall states': seq<Alarm>, acts': seq<Act>, i: nat, j: nat ::
              Run(states', acts') && i <= j < |states'| && states'[i] == states[|acts|] ==>
                states'[j].local.phase == Draining && states'[j].drainSleeps
  {
    hide Run, Reachable, Canonical, Fits, Plus, Stuck, Reaches;
    states, acts := HangIsReached(cap, w, r0, r1, r2, e);
    var a := Hung(cap, w, r0, r1, r2);
    EndIs(states, acts, a);
    HungIsStuck(cap, w, r0, r1, r2);
    forall states': seq<Alarm>, acts': seq<Act>, i: nat, j: nat | Run(states', acts') && i <= j < |states'| && states'[i] == a
      ensures states'[j].local.phase == Draining && states'[j].drainSleeps
    {
      StuckForEver(states', acts', i, j);
      StuckSleeps(states'[j]);
    }
  }

  lemma EndIs(states: seq<Alarm>, acts: seq<Act>, a: Alarm)
    requires Reaches(states, acts, a)
    ensures Run(states, acts) && |states| == |acts| + 1 && states[|acts|] == a
  {
  }

  lemma StuckSleeps(a: Alarm)
    requires Stuck(a)
    ensures a.local.phase == Draining && a.drainSleeps
  {
  }

  /** The state after the cancellation, with the scheduler thread asleep again. */
  function Hung(cap: Bag, w: WorkerId, r0: Bag, r1: Bag, r2: Bag): Alarm {
    var s := LocalLeak.Starving(cap, w, r0, r1, r2);
    Alarm(Cancelled(s).(core := Cancelled(s).core.(wake := false)), true, true)
  }

  function Cancelled(s: Local): Local {
    var u := CancelledTask(s.core.tasks, LocalLeak.C);
    s.(accepting := false, phase := Draining, core := s.core.(queue := [], tasks := u.tasks, wake := true),
       completions := Appended(s.completions, u.event), withdrawn := {LocalLeak.C})
  }

  lemma HungIsStuck(cap: Bag, w: WorkerId, r0: Bag, r1: Bag, r2: Bag)
    ensures var a := Hung(cap, w, r0, r1, r2);
            Stuck(a) && LocalRuntime.Enabled(a.local, Shutdown(DrainReturns)) && a.local.phase == Draining
  {
    hide Minus, CancelledTask, Appended;
  }

  lemma HangIsReached(cap: Bag, w: WorkerId, r0: Bag, r1: Bag, r2: Bag, e: ExecutionId)
    returns (states: seq<Alarm>, acts: seq<Act>)
    requires Canonical(cap) && Canonical(r0) && Canonical(r1) && Canonical(r2) && Fits(Plus(r0, r1), cap)
    requires Fits(r2, cap) && !Fits(r2, Minus(cap, r1))
    ensures Reaches(states, acts, Hung(cap, w, r0, r1, r2))
  {
    hide Reaches, Canonical, Fits, Plus, Minus, LocalRuntime.Run, LocalLeak.Starving, Cancelled, CancelledTask;
    LocalLeak.LeakedIsReached(cap, w, r0, r1);
    LocalLeak.BothFit(cap, r0, r1);
    LocalLeak.StarvingReached(cap, w, r0, r1, r2);
    var s := LocalLeak.Starving(cap, w, r0, r1, r2);
    StarvingIs(cap, w, r0, r1, r2);
    var locals, steps := RunTo(s);
    states, acts := AwakeRuns(locals, steps, |steps|);
    states, acts := FallsAsleep(states, acts, s);
    CancelIs(s);
    var c := Cancelled(s);
    var draining := s.(accepting := false, phase := Draining);
    states, acts := Extend(states, acts, Alarm(draining, true, true), Do(Client(CancelTask(LocalLeak.C)), true), Alarm(c, false, true));
    states, acts := LooksOnce(states, acts, c, e);
  }

  lemma RunTo(s: Local) returns (locals: seq<Local>, steps: seq<Step>)
    requires Reachable(s)
    ensures LocalRuntime.Run(locals, steps) && |locals| == |steps| + 1 && locals[|steps|] == s
  {
    locals, steps :| LocalRuntime.Run(locals, steps) && locals[|steps|] == s;
  }

  lemma StarvingIs(cap: Bag, w: WorkerId, r0: Bag, r1: Bag, r2: Bag)
    ensures var s := LocalLeak.Starving(cap, w, r0, r1, r2);
            && s.loop == Parked && !s.core.wake && !s.core.stopping && s.phase == Open && s.submitting.None?
            && s.core.queue == [LocalLeak.C] && LocalLeak.C in s.core.tasks && s.core.tasks[LocalLeak.C].state == Queued
            && s.withdrawn == {}
  {
    hide Minus;
  }

  /** Both threads go to sleep, and Shutdown has closed admission. */
  lemma FallsAsleep(states: seq<Alarm>, acts: seq<Act>, s: Local) returns (states': seq<Alarm>, acts': seq<Act>)
    requires Reaches(states, acts, Alarm(s, false, false))
    requires s.loop == Parked && !s.core.wake && !s.core.stopping && s.phase == Open && s.submitting.None? && s.core.queue != []
    ensures Reaches(states', acts', Alarm(s.(accepting := false, phase := Draining), true, true))
  {
    hide Reaches;
    var draining := s.(accepting := false, phase := Draining);
    states', acts' := Extend(states, acts, Alarm(s, false, false), LoopSleeps, Alarm(s, true, false));
    states', acts' := Extend(states', acts', Alarm(s, true, false), Do(Shutdown(CloseAdmission), true), Alarm(draining, true, false));
    states', acts' := Extend(states', acts', Alarm(draining, true, false), DrainSleeps, Alarm(draining, true, true));
  }

  lemma CancelIs(s: Local)
    requires s.core.queue == [LocalLeak.C] && LocalLeak.C in s.core.tasks && s.core.tasks[LocalLeak.C].state == Queued
    requires s.withdrawn == {}
    ensures var draining := s.(accepting := false, phase := Draining);
            ClientNext(draining, CancelTask(LocalLeak.C)) == Cancelled(s) && Withdraws(draining.core, LocalLeak.C)
    ensures Cancelled(s).loop == s.loop && Cancelled(s).core.wake && Cancelled(s).core.stopping == s.core.stopping
    ensures Cancelled(s).core.queue == []
  {
    assert RemoveFirst([LocalLeak.C], LocalLeak.C) == [];
    assert {} + {LocalLeak.C} == {LocalLeak.C};
  }

  /** The scheduler thread wakes, finds nothing to schedule, and sleeps again. */
  lemma LooksOnce(states: seq<Alarm>, acts: seq<Act>, c: Local, e: ExecutionId) returns (states': seq<Alarm>, acts': seq<Act>)
    requires Reaches(states, acts, Alarm(c, false, true))
    requires c.loop == Parked && c.core.wake && !c.core.stopping && c.core.queue == []
    ensures Reaches(states', acts', Alarm(c.(core := c.core.(wake := false)), true, true))
  {
    hide Reaches;
    var quiet := c.(core := c.core.(wake := false));
    states', acts' := Extend(states, acts, Alarm(c, false, true), Do(Scheduler(LoopWakes), true),
                             Alarm(quiet.(loop := Checking), false, true));
    states', acts' := Extend(states', acts', Alarm(quiet.(loop := Checking), false, true), Do(Scheduler(LoopChecks), true),
                             Alarm(quiet.(loop := Trying), false, true));
    NothingChosen(quiet, e);
    states', acts' := Extend(states', acts', Alarm(quiet.(loop := Trying), false, true), Do(Scheduler(LoopTries(e, None)), true),
                             Alarm(quiet, false, true));
    states', acts' := Extend(states', acts', Alarm(quiet, false, true), LoopSleeps, Alarm(quiet, true, true));
  }

  lemma NothingChosen(s: Local, e: ExecutionId)
    requires s.core.queue == [] && s.loop == Parked && !s.core.stopping
    ensures MayPick(s.(loop := Trying), None) && Tried(s.(loop := Trying), e, None) == s
  {
  }
}
