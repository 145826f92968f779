/** The worker threads' steps keep the invariant of the local runtime. */
module LocalWorkerSteps {
  import opened Common
  import opened Resources
  import opened TaskManagement
  import opened Scheduling
  import opened LocalRuntime
  import opened LocalInvariant

  /** A step that changes neither what a worker owes nor what it is owed keeps the ledger. */
  lemma LedgerUntouched(s: Local, s': Local, w: WorkerId)
    requires LedgerOk(s.capacity, s.core.pools, s.core.running, s.threads, s.dropped)
    requires s'.capacity == s.capacity && s'.core.pools == s.core.pools && s'.core.running == s.core.running && s'.dropped == s.dropped
    requires w in s.threads && w in s'.threads && s'.threads == s.threads[w := s'.threads[w]]
    requires InFlight(s'.threads[w]) == InFlight(s.threads[w])
    ensures LedgerOk(s'.capacity, s'.core.pools, s'.core.running, s'.threads, s'.dropped)
  {
  }

  /** A step of one thread that neither starts nor ends it, and leaves the slot's flags alone. */
  lemma WorkerFlagsUntouched(s: Local, s': Local, w: WorkerId)
    requires WorkerFlagsOk(s.core.order, s.core.slots, s.threads, s.phase)
    requires s'.core.order == s.core.order && s'.phase == s.phase
    requires w in s.threads && w in s'.threads && s'.threads == s.threads[w := s'.threads[w]]
    requires w in s.core.slots && w in s'.core.slots && s'.core.slots == s.core.slots[w := s'.core.slots[w]]
    requires s.threads[w].Exited? == s'.threads[w].Exited?
    requires s.core.slots[w].started == s'.core.slots[w].started && s.core.slots[w].stopping == s'.core.slots[w].stopping
    ensures WorkerFlagsOk(s'.core.order, s'.core.slots, s'.threads, s'.phase)
  {
  }

  lemma ShapeUntouched(s: Local, s': Local, w: WorkerId)
    requires ShapeOk(s.core, s.threads, s.dropped)
    requires w in s.threads && w in s'.threads && s'.threads == s.threads[w := s'.threads[w]]
    requires w in s.core.slots && w in s'.core.slots && s'.core.slots == s.core.slots[w := s'.core.slots[w]]
    requires s'.core.order == s.core.order && s'.core.pools.Keys == s.core.pools.Keys
    requires s'.core.running.Keys <= s.core.running.Keys && s'.dropped == s.dropped
    ensures ShapeOk(s'.core, s'.threads, s'.dropped)
  {
  }

  /** Wake-ups: nothing a blocked head could use became free, or a callback is under way. */
  lemma AlarmUntouched(s: Local, s': Local, w: WorkerId)
    requires AlarmOk(s)
    requires s'.loop == s.loop && s'.core.wake == s.core.wake && s'.core.stopping == s.core.stopping
    requires w in s.threads && w in s'.threads && s'.threads == s.threads[w := s'.threads[w]]
    requires InCallback(s.threads[w]) ==> InCallback(s'.threads[w])
    requires HeadBlocked(s.core) ==> HeadBlocked(s'.core) || InCallback(s'.threads[w])
    ensures AlarmOk(s')
  {
    if s'.loop == Parked && !s'.core.wake && !s'.core.stopping {
      if !HeadBlocked(s.core) {
        var x :| x in s.threads && InCallback(s.threads[x]);
        assert x in s'.threads && InCallback(s'.threads[x]);
      }
    }
  }

  lemma SameStatesSameHead(c: Core, c': Core, w: WorkerId, t: TaskId)
    requires HeadBlocked(c)
    requires c'.queue == c.queue && c'.order == c.order && c'.pools == c.pools
    requires c'.tasks == c.tasks || QuietChange(c.tasks, c'.tasks, t)
    requires w in c.slots && w in c'.slots && c'.slots == c.slots[w := c'.slots[w]] && c'.slots[w].state == c.slots[w].state
    ensures HeadBlocked(c')
  {
  }

  lemma FlagsSame(s: Local, s': Local)
    requires FlagsOk(s)
    requires s'.core.queue == s.core.queue && s'.core.tasks == s.core.tasks && s'.core.order == s.core.order
    requires s'.core.started == s.core.started && s'.core.stopping == s.core.stopping && s'.core.poolStarted == s.core.poolStarted
    requires s'.loop == s.loop && s'.phase == s.phase && s'.up == s.up && s'.accepting == s.accepting && s'.submitting == s.submitting
    ensures FlagsOk(s')
  {
  }

  lemma FifoSame(s: Local, s': Local)
    requires FifoOk(s)
    requires s'.core.queue == s.core.queue && s'.core.tasks == s.core.tasks && s'.enqueued == s.enqueued
    requires s'.dispatched == s.dispatched && s'.withdrawn == s.withdrawn && s'.accepted == s.accepted
    ensures FifoOk(s')
  {
  }

  lemma EventsSame(s: Local, s': Local)
    requires EventsOk(s) && s'.core.tasks == s.core.tasks && s'.completions == s.completions
    ensures EventsOk(s')
  {
  }

  /** The steps between two callbacks: they move one task through one worker's hands. */
  lemma HandStepKeeps(s: Local, s': Local, w: WorkerId, t: TaskId)
    requires Inv(s) && w in s.threads && w in s.core.slots && w in s'.threads && w in s'.core.slots
    requires s' == s.(core := s.core.(tasks := s'.core.tasks, slots := s.core.slots[w := s'.core.slots[w]]),
                      threads := s.threads[w := s'.threads[w]], completions := s'.completions)
    requires s'.core.tasks == s.core.tasks || QuietChange(s.core.tasks, s'.core.tasks, t)
    requires WorkersOk(s'.core.tasks, s'.core.slots, s'.threads) && HeldOk(s'.core.tasks, s'.core.slots, s'.threads)
    requires EventsOk(s')
    requires InFlight(s'.threads[w]) == InFlight(s.threads[w]) && s.threads[w].Exited? == s'.threads[w].Exited?
    requires s'.core.slots[w] == s.core.slots[w].(state := s'.core.slots[w].state, mailbox := s'.core.slots[w].mailbox)
    requires !InCallback(s.threads[w])
    requires s'.core.slots[w].state == s.core.slots[w].state || InCallback(s'.threads[w])
    ensures Inv(s')
  {
    hide ShapeOk, WorkersOk, HeldOk, QueueOk, RequestsOk, LedgerOk, FlagsOk, WorkerFlagsOk, AlarmOk, FifoOk, EventsOk, HeadBlocked;
    ShapeUntouched(s, s', w);
    LedgerUntouched(s, s', w);
    WorkerFlagsUntouched(s, s', w);
    if HeadBlocked(s.core) && !InCallback(s'.threads[w]) {
      SameStatesSameHead(s.core, s'.core, w, t);
    }
    AlarmUntouched(s, s', w);
    if s'.core.tasks == s.core.tasks {
      FlagsSame(s, s');
      FifoSame(s, s');
    } else {
      QuietFlags(s, s', t);
      QuietFifo(s, s', t);
      QuietRequestsAndQueue(s.core.tasks, s'.core.tasks, t, s.core.queue, s.capacity);
    }
  }

  // ---- The steps, one by one.

  lemma TakeHands(s: Local, w: WorkerId)
    requires WorkerEnabled(s, w, Take)
    requires WorkersOk(s.core.tasks, s.core.slots, s.threads) && HeldOk(s.core.tasks, s.core.slots, s.threads)
    ensures var s' := WorkerNext(s, w, Take);
            WorkersOk(s'.core.tasks, s'.core.slots, s'.threads) && HeldOk(s'.core.tasks, s'.core.slots, s'.threads)
  {
    var s' := WorkerNext(s, w, Take);
    forall t | t in s.core.tasks && Active(s.core.tasks[t])
      ensures IsHeld(s'.core.slots, s'.threads, t, s.core.tasks[t])
    {
      assert IsHeld(s.core.slots, s.threads, t, s.core.tasks[t]);
    }
  }

  lemma TakeKeeps(s: Local, w: WorkerId)
    requires Inv(s) && WorkerEnabled(s, w, Take)
    ensures Inv(WorkerNext(s, w, Take))
  {
    hide ShapeOk, WorkersOk, HeldOk, QueueOk, RequestsOk, LedgerOk, FlagsOk, WorkerFlagsOk, AlarmOk, FifoOk, EventsOk, HeadBlocked;
    TakeHands(s, w);
    var s' := WorkerNext(s, w, Take);
    EventsSame(s, s');
    HandStepKeeps(s, s', w, TaskId(0));
  }

  /** MarkRunning cannot fail: the task in hand is scheduled. */
  lemma StartHands(s: Local, w: WorkerId)
    requires WorkerEnabled(s, w, Start)
    requires WorkersOk(s.core.tasks, s.core.slots, s.threads) && HeldOk(s.core.tasks, s.core.slots, s.threads)
    requires EventsOk(s)
    ensures var s' := WorkerNext(s, w, Start);
            && Moved(s.core.tasks, s.threads[w].item.task, Running).code == Ok
            && s'.threads[w] == Executing(s.threads[w].item)
            && QuietChange(s.core.tasks, s'.core.tasks, s.threads[w].item.task)
            && WorkersOk(s'.core.tasks, s'.core.slots, s'.threads) && HeldOk(s'.core.tasks, s'.core.slots, s'.threads)
            && EventsOk(s')
  {
    hide EventsMatch, RecordsOk, Evolves;
    var item := s.threads[w].item;
    assert WorkerOk(s.core.tasks, w, s.core.slots[w], s.threads[w]);
    PerformKeeps(s.core.tasks, MarkRunning(item.task), s.completions);
    HandsMove(s, WorkerNext(s, w, Start), w, item.task);
  }

  /** Only `w` and its own task `t` changed, consistently; every other worker still holds what it held. */
  lemma HandsMove(s: Local, s': Local, w: WorkerId, t: TaskId)
    requires w in s.threads && w in s.core.slots && w in s'.threads && w in s'.core.slots
    requires WorkersOk(s.core.tasks, s.core.slots, s.threads) && HeldOk(s.core.tasks, s.core.slots, s.threads)
    requires s'.core.slots == s.core.slots[w := s'.core.slots[w]] && s'.threads == s.threads[w := s'.threads[w]]
    requires QuietChange(s.core.tasks, s'.core.tasks, t)
    requires s.core.tasks[t].worker == Some(w) && s'.core.tasks[t].worker == Some(w)
    requires WorkerOk(s'.core.tasks, w, s'.core.slots[w], s'.threads[w])
    requires Active(s'.core.tasks[t]) ==> IsHeld(s'.core.slots, s'.threads, t, s'.core.tasks[t])
    ensures WorkersOk(s'.core.tasks, s'.core.slots, s'.threads) && HeldOk(s'.core.tasks, s'.core.slots, s'.threads)
  {
    forall x | x in s'.core.tasks && Active(s'.core.tasks[x])
      ensures IsHeld(s'.core.slots, s'.threads, x, s'.core.tasks[x])
    {
      assert IsHeld(s.core.slots, s.threads, x, s.core.tasks[x]);
      assert IsHeld(s.core.slots, s.threads, t, s.core.tasks[t]);
    }
  }

  lemma StartKeeps(s: Local, w: WorkerId)
    requires Inv(s) && WorkerEnabled(s, w, Start)
    ensures Inv(WorkerNext(s, w, Start))
  {
    hide ShapeOk, WorkersOk, HeldOk, QueueOk, RequestsOk, LedgerOk, FlagsOk, WorkerFlagsOk, AlarmOk, FifoOk, EventsOk, HeadBlocked;
    StartHands(s, w);
    HandStepKeeps(s, WorkerNext(s, w, Start), w, s.threads[w].item.task);
  }

  lemma HandlerReturnsHands(s: Local, w: WorkerId, o: Outcome)
    requires WorkerEnabled(s, w, HandlerReturns(o))
    requires WorkersOk(s.core.tasks, s.core.slots, s.threads) && HeldOk(s.core.tasks, s.core.slots, s.threads)
    ensures var s' := WorkerNext(s, w, HandlerReturns(o));
            WorkersOk(s'.core.tasks, s'.core.slots, s'.threads) && HeldOk(s'.core.tasks, s'.core.slots, s'.threads)
  {
    var s' := WorkerNext(s, w, HandlerReturns(o));
    forall t | t in s.core.tasks && Active(s.core.tasks[t])
      ensures IsHeld(s'.core.slots, s'.threads, t, s.core.tasks[t])
    {
      assert IsHeld(s.core.slots, s.threads, t, s.core.tasks[t]);
    }
  }

  lemma HandlerReturnsKeeps(s: Local, w: WorkerId, o: Outcome)
    requires Inv(s) && WorkerEnabled(s, w, HandlerReturns(o))
    ensures Inv(WorkerNext(s, w, HandlerReturns(o)))
  {
    hide ShapeOk, WorkersOk, HeldOk, QueueOk, RequestsOk, LedgerOk, FlagsOk, WorkerFlagsOk, AlarmOk, FifoOk, EventsOk, HeadBlocked;
    HandlerReturnsHands(s, w, o);
    var s' := WorkerNext(s, w, HandlerReturns(o));
    EventsSame(s, s');
    HandStepKeeps(s, s', w, TaskId(0));
  }

  /** Complete cannot fail: the task in hand is running. */
  lemma FinishHands(s: Local, w: WorkerId)
    requires WorkerEnabled(s, w, Finish)
    requires WorkersOk(s.core.tasks, s.core.slots, s.threads) && HeldOk(s.core.tasks, s.core.slots, s.threads)
    requires EventsOk(s)
    ensures var s' := WorkerNext(s, w, Finish);
            && Completed(s.core.tasks, s.threads[w].item.task, s.threads[w].outcome).code == Ok
            && QuietChange(s.core.tasks, s'.core.tasks, s.threads[w].item.task)
            && IsTerminal(s'.core.tasks[s.threads[w].item.task].state)
            && WorkersOk(s'.core.tasks, s'.core.slots, s'.threads) && HeldOk(s'.core.tasks, s'.core.slots, s'.threads)
            && EventsOk(s')
  {
    hide EventsMatch, RecordsOk, Evolves;
    var item := s.threads[w].item;
    assert WorkerOk(s.core.tasks, w, s.core.slots[w], s.threads[w]);
    PerformKeeps(s.core.tasks, Complete(item.task, s.threads[w].outcome), s.completions);
    HandsMove(s, WorkerNext(s, w, Finish), w, item.task);
  }

  lemma FinishKeeps(s: Local, w: WorkerId)
    requires Inv(s) && WorkerEnabled(s, w, Finish)
    ensures Inv(WorkerNext(s, w, Finish))
  {
    hide ShapeOk, WorkersOk, HeldOk, QueueOk, RequestsOk, LedgerOk, FlagsOk, WorkerFlagsOk, AlarmOk, FifoOk, EventsOk, HeadBlocked;
    FinishHands(s, w);
    HandStepKeeps(s, WorkerNext(s, w, Finish), w, s.threads[w].item.task);
  }

  lemma SetIdleHands(s: Local, w: WorkerId)
    requires WorkerEnabled(s, w, SetIdle)
    requires WorkersOk(s.core.tasks, s.core.slots, s.threads) && HeldOk(s.core.tasks, s.core.slots, s.threads)
    ensures var s' := WorkerNext(s, w, SetIdle);
            WorkersOk(s'.core.tasks, s'.core.slots, s'.threads) && HeldOk(s'.core.tasks, s'.core.slots, s'.threads)
  {
    var s' := WorkerNext(s, w, SetIdle);
    assert WorkerOk(s.core.tasks, w, s.core.slots[w], s.threads[w]);
    forall t | t in s.core.tasks && Active(s.core.tasks[t])
      ensures IsHeld(s'.core.slots, s'.threads, t, s.core.tasks[t])
    {
      assert IsHeld(s.core.slots, s.threads, t, s.core.tasks[t]);
    }
  }

  lemma SetIdleKeeps(s: Local, w: WorkerId)
    requires Inv(s) && WorkerEnabled(s, w, SetIdle)
    ensures Inv(WorkerNext(s, w, SetIdle))
  {
    hide ShapeOk, WorkersOk, HeldOk, QueueOk, RequestsOk, LedgerOk, FlagsOk, WorkerFlagsOk, AlarmOk, FifoOk, EventsOk, HeadBlocked;
    SetIdleHands(s, w);
    var s' := WorkerNext(s, w, SetIdle);
    EventsSame(s, s');
    HandStepKeeps(s, s', w, TaskId(0));
  }

  /** The callback and the exit touch neither slots nor tasks. */
  lemma CallbackHands(s: Local, w: WorkerId, pc: Thread)
    requires w in s.threads && w in s.core.slots
    requires WorkersOk(s.core.tasks, s.core.slots, s.threads) && HeldOk(s.core.tasks, s.core.slots, s.threads)
    requires !InHand(s.threads[w]) && !InHand(pc) && (pc.Exited? ==> s.core.slots[w].mailbox.None?)
    ensures WorkersOk(s.core.tasks, s.core.slots, s.threads[w := pc]) && HeldOk(s.core.tasks, s.core.slots, s.threads[w := pc])
  {
  }

  /** The running_ entry becomes a release in flight. */
  lemma EraseLedger(s: Local, w: WorkerId)
    requires WorkerEnabled(s, w, EraseReservation)
    requires LedgerOk(s.capacity, s.core.pools, s.core.running, s.threads, s.dropped)
    ensures var s' := WorkerNext(s, w, EraseReservation);
            LedgerOk(s'.capacity, s'.core.pools, s'.core.running, s'.threads, s'.dropped)
  {
    var s' := WorkerNext(s, w, EraseReservation);
    forall x | x in s'.core.pools && x in s'.threads && x in s'.dropped
      ensures Balanced(s'.capacity, s'.core.pools[x], Entry(s'.core.running, x), InFlight(s'.threads[x]), s'.dropped[x])
    {
      assert Balanced(s.capacity, s.core.pools[x], Entry(s.core.running, x), InFlight(s.threads[x]), s.dropped[x]);
    }
  }

  /** The steps of the idle callback: they move resources, not tasks. */
  lemma CallbackStepKeeps(s: Local, s': Local, w: WorkerId)
    requires Inv(s) && w in s.threads && w in s.core.slots && w in s'.threads
    requires s' == s.(core := s.core.(pools := s'.core.pools, running := s'.core.running, wake := s'.core.wake),
                      threads := s.threads[w := s'.threads[w]])
    requires s'.core.pools.Keys == s.core.pools.Keys && s'.core.running.Keys <= s.core.running.Keys
    requires InCallback(s.threads[w]) && (InCallback(s'.threads[w]) || s'.threads[w].AtWait?)
    requires LedgerOk(s'.capacity, s'.core.pools, s'.core.running, s'.threads, s'.dropped)
    requires AlarmOk(s')
    ensures Inv(s')
  {
    hide ShapeOk, WorkersOk, HeldOk, QueueOk, RequestsOk, LedgerOk, FlagsOk, WorkerFlagsOk, AlarmOk, FifoOk, EventsOk, HeadBlocked;
    assert s'.core.slots == s.core.slots[w := s.core.slots[w]];
    ShapeUntouched(s, s', w);
    CallbackHands(s, w, s'.threads[w]);
    WorkerFlagsUntouched(s, s', w);
    FlagsSame(s, s');
    FifoSame(s, s');
    EventsSame(s, s');
  }

  lemma EraseKeeps(s: Local, w: WorkerId)
    requires Inv(s) && WorkerEnabled(s, w, EraseReservation)
    ensures Inv(WorkerNext(s, w, EraseReservation))
  {
    hide ShapeOk, WorkersOk, HeldOk, QueueOk, RequestsOk, LedgerOk, FlagsOk, WorkerFlagsOk, AlarmOk, FifoOk, EventsOk, HeadBlocked;
    var s' := WorkerNext(s, w, EraseReservation);
    EraseLedger(s, w);
    AlarmUntouched(s, s', w);
    CallbackStepKeeps(s, s', w);
  }

  /** The discarded Release cannot fail: what is in flight was acquired from this very pool. */
  lemma InFlightIsLent(capacity: Bag, pool: Pool, entry: Bag, inFlight: Bag, dropped: Bag)
    requires Balanced(capacity, pool, entry, inFlight, dropped)
    ensures Released(pool, inFlight).1 == Ok
    ensures Balanced(capacity, Released(pool, inFlight).0, entry, map[], dropped)
  {
    forall n | n in inFlight
      ensures inFlight[n] <= Get(pool.total, n) - Get(pool.available, n)
    {
      assert Get(capacity, n) == Get(pool.available, n) + Get(entry, n) + Get(inFlight, n) + Get(dropped, n);
      assert 0 <= Get(entry, n) && 0 <= Get(dropped, n);
    }
    PoolStaysOk(pool, inFlight);
  }

  lemma LedgerAfter(s: Local, s': Local, w: WorkerId)
    requires LedgerOk(s.capacity, s.core.pools, s.core.running, s.threads, s.dropped)
    requires s'.capacity == s.capacity && s'.core.running == s.core.running && s'.dropped == s.dropped
    requires w in s.core.pools && w in s'.core.pools && s'.core.pools == s.core.pools[w := s'.core.pools[w]]
    requires w in s.threads && w in s'.threads && s'.threads == s.threads[w := s'.threads[w]] && w in s.dropped
    requires Balanced(s.capacity, s'.core.pools[w], Entry(s.core.running, w), InFlight(s'.threads[w]), s.dropped[w])
    ensures LedgerOk(s'.capacity, s'.core.pools, s'.core.running, s'.threads, s'.dropped)
  {
  }

  lemma BalancedOf(s: Local, w: WorkerId)
    requires LedgerOk(s.capacity, s.core.pools, s.core.running, s.threads, s.dropped)
    requires w in s.core.pools && w in s.threads && w in s.dropped
    ensures Balanced(s.capacity, s.core.pools[w], Entry(s.core.running, w), InFlight(s.threads[w]), s.dropped[w])
  {
  }

  lemma ReturnLedger(s: Local, w: WorkerId)
    requires WorkerEnabled(s, w, ReturnResources) && ShapeOk(s.core, s.threads, s.dropped)
    requires LedgerOk(s.capacity, s.core.pools, s.core.running, s.threads, s.dropped)
    ensures var s' := WorkerNext(s, w, ReturnResources);
            && PoolRelease(s.core, w, s.threads[w].resources).1 == Ok
            && s'.core.pools.Keys == s.core.pools.Keys
            && LedgerOk(s'.capacity, s'.core.pools, s'.core.running, s'.threads, s'.dropped)
  {
    hide Balanced, Released, LedgerOk, Distinct;
    var s' := WorkerNext(s, w, ReturnResources);
    var p := s.core.pools[w];
    BalancedOf(s, w);
    InFlightIsLent(s.capacity, p, Entry(s.core.running, w), InFlight(s.threads[w]), s.dropped[w]);
    LedgerAfter(s, s', w);
  }

  lemma ReturnKeeps(s: Local, w: WorkerId)
    requires Inv(s) && WorkerEnabled(s, w, ReturnResources)
    ensures Inv(WorkerNext(s, w, ReturnResources))
  {
    hide ShapeOk, WorkersOk, HeldOk, QueueOk, RequestsOk, LedgerOk, FlagsOk, WorkerFlagsOk, AlarmOk, FifoOk, EventsOk;
    hide HeadBlocked, Released;
    var s' := WorkerNext(s, w, ReturnResources);
    ReturnLedger(s, w);
    AlarmUntouched(s, s', w);
    CallbackStepKeeps(s, s', w);
  }

  lemma RequestWakeKeeps(s: Local, w: WorkerId)
    requires Inv(s) && WorkerEnabled(s, w, RequestWake)
    ensures Inv(WorkerNext(s, w, RequestWake))
  {
    hide ShapeOk, WorkersOk, HeldOk, QueueOk, RequestsOk, LedgerOk, FlagsOk, WorkerFlagsOk, FifoOk, EventsOk, HeadBlocked;
    var s' := WorkerNext(s, w, RequestWake);
    StartedUntilStopped(s);
    LedgerUntouched(s, s', w);
    CallbackStepKeeps(s, s', w);
  }

  lemma StartedUntilStopped(s: Local)
    requires FlagsOk(s)
    ensures !s.core.stopping ==> s.core.started
  {
  }

  lemma ExitKeeps(s: Local, w: WorkerId)
    requires Inv(s) && WorkerEnabled(s, w, Exit)
    ensures Inv(WorkerNext(s, w, Exit))
  {
    hide Moved, Completed, PoolRelease, Erased, Woken;
    hide ShapeOk, WorkersOk, HeldOk, QueueOk, RequestsOk, LedgerOk, FlagsOk, AlarmOk, FifoOk, EventsOk, HeadBlocked;
    var s' := WorkerNext(s, w, Exit);
    ShapeUntouched(s, s', w);
    CallbackHands(s, w, Exited);
    LedgerUntouched(s, s', w);
    AlarmUntouched(s, s', w);
    FlagsSame(s, s');
    FifoSame(s, s');
    EventsSame(s, s');
  }

  lemma WorkerKeeps(s: Local, w: WorkerId, a: WorkerAct)
    requires Inv(s) && WorkerEnabled(s, w, a)
    ensures Inv(WorkerNext(s, w, a))
  {
    hide Inv, WorkerNext, WorkerEnabled;
    match a
    case Take => TakeKeeps(s, w);
    case Start => StartKeeps(s, w);
    case HandlerReturns(o) => HandlerReturnsKeeps(s, w, o);
    case Finish => FinishKeeps(s, w);
    case SetIdle => SetIdleKeeps(s, w);
    case EraseReservation => EraseKeeps(s, w);
    case ReturnResources => ReturnKeeps(s, w);
    case RequestWake => RequestWakeKeeps(s, w);
    case Exit => ExitKeeps(s, w);
  }
}
