/** The clients', the scheduler thread's and Shutdown's steps keep the invariant of the local runtime. */
module LocalOtherSteps {
  import opened Common
  import opened Resources
  import opened TaskManagement
  import opened Scheduling
  import opened LocalRuntime
  import opened LocalInvariant
  import opened LocalWorkerSteps

  // ---- Clients

  /** The record of `t`, which no worker holds before or after, changes; the worker side of the state does not. */
  lemma WaitingRecordHands(tasks: Tasks, t: TaskId, r: TaskRecord, slots: map<WorkerId, Slot>, threads: map<WorkerId, Thread>)
    requires WorkersOk(tasks, slots, threads) && HeldOk(tasks, slots, threads)
    requires t in tasks ==> !Active(tasks[t])
    requires !Active(r)
    ensures WorkersOk(tasks[t := r], slots, threads) && HeldOk(tasks[t := r], slots, threads)
  {
  }

  lemma ClientStepKeeps(s: Local, s': Local)
    requires Inv(s)
    requires s' == s.(core := s.core.(tasks := s'.core.tasks, queue := s'.core.queue, wake := s'.core.wake),
                      submitting := s'.submitting, enqueued := s'.enqueued, withdrawn := s'.withdrawn,
                      accepted := s'.accepted, completions := s'.completions)
    requires WorkersOk(s'.core.tasks, s.core.slots, s.threads) && HeldOk(s'.core.tasks, s.core.slots, s.threads)
    requires QueueOk(s'.core.tasks, s'.core.queue) && RequestsOk(s'.core.tasks, s.capacity)
    requires FlagsOk(s') && AlarmOk(s') && FifoOk(s') && EventsOk(s')
    ensures Inv(s')
  {
    hide WorkersOk, HeldOk, QueueOk, RequestsOk, LedgerOk, FlagsOk, WorkerFlagsOk, AlarmOk, FifoOk, EventsOk, HeadBlocked;
  }

  lemma RegisterKeeps(s: Local, t: TaskId, request: Bag)
    requires Inv(s) && ClientEnabled(s, SubmitRegister(t, request))
    ensures Inv(ClientNext(s, SubmitRegister(t, request)))
  {
    hide ShapeOk, WorkersOk, HeldOk, QueueOk, RequestsOk, LedgerOk, FlagsOk, WorkerFlagsOk, AlarmOk, FifoOk, EventsOk, HeadBlocked;
    if Admit(s, t, request) == Ok {
      var s' := ClientNext(s, SubmitRegister(t, request));
      AdmittedFits(s, t, request);
      WaitingRecordHands(s.core.tasks, t, Fresh(request), s.core.slots, s.threads);
      RegisterQueue(s, s', t, request);
      RegisterEvents(s, s', t, request);
      ClientStepKeeps(s, s');
    }
  }

  /** Admission by total capacity: an accepted request fits on a whole worker. */
  lemma AdmittedFits(s: Local, t: TaskId, request: Bag)
    requires ShapeOk(s.core, s.threads, s.dropped)
    requires LedgerOk(s.capacity, s.core.pools, s.core.running, s.threads, s.dropped)
    requires Admit(s, t, request) == Ok
    ensures Fits(request, s.capacity) && t !in s.core.tasks && s.up && s.accepting
  {
    var w :| w in s.core.order && w in s.core.pools && Fits(request, s.core.pools[w].total);
    assert Balanced(s.capacity, s.core.pools[w], Entry(s.core.running, w), InFlight(s.threads[w]), s.dropped[w]);
  }

  lemma RegisterQueue(s: Local, s': Local, t: TaskId, request: Bag)
    requires QueueOk(s.core.tasks, s.core.queue) && RequestsOk(s.core.tasks, s.capacity)
    requires FlagsOk(s) && AlarmOk(s) && FifoOk(s) && s.accepting
    requires t !in s.core.tasks && Canonical(request) && Fits(request, s.capacity)
    requires s' == s.(core := s.core.(tasks := s.core.tasks[t := Fresh(request)]), submitting := Some(t))
    ensures QueueOk(s'.core.tasks, s'.core.queue) && RequestsOk(s'.core.tasks, s.capacity)
    ensures FlagsOk(s') && AlarmOk(s') && FifoOk(s')
  {
  }

  lemma RegisterEvents(s: Local, s': Local, t: TaskId, request: Bag)
    requires EventsOk(s) && t !in s.core.tasks
    requires s'.core.tasks == s.core.tasks[t := Fresh(request)] && s'.completions == s.completions
    ensures EventsOk(s')
  {
    hide EventsMatch, RecordsOk, Evolves;
    PerformKeeps(s.core.tasks, Register(t, request), s.completions);
  }

  /** The Enqueue inside Submit cannot fail, because Shutdown waits for the lifecycle lock that Submit holds. */
  lemma EnqueueSucceeds(s: Local)
    requires FlagsOk(s) && s.submitting.Some?
    ensures Enqueued(s.core, s.submitting.value).1 == Ok
    ensures s.submitting.value in s.core.tasks && s.core.tasks[s.submitting.value].state == Pending
    ensures s.phase.Open?
  {
  }

  lemma EnqueueKeeps(s: Local)
    requires Inv(s) && ClientEnabled(s, SubmitEnqueue)
    ensures Inv(ClientNext(s, SubmitEnqueue))
  {
    hide ShapeOk, WorkersOk, HeldOk, QueueOk, RequestsOk, LedgerOk, FlagsOk, WorkerFlagsOk, AlarmOk, FifoOk, EventsOk, HeadBlocked;
    EnqueueSucceeds(s);
    var s' := ClientNext(s, SubmitEnqueue);
    var t := s.submitting.value;
    var r := s.core.tasks[t].(state := Queued);
    WaitingRecordHands(s.core.tasks, t, r, s.core.slots, s.threads);
    EnqueueQueue(s, s', t);
    EnqueueEvents(s, s', t);
    ClientStepKeeps(s, s');
  }

  lemma EnqueueQueue(s: Local, s': Local, t: TaskId)
    requires QueueOk(s.core.tasks, s.core.queue) && RequestsOk(s.core.tasks, s.capacity)
    requires FlagsOk(s) && FifoOk(s) && s.phase.Open?
    requires t in s.core.tasks && s.core.tasks[t].state == Pending
    requires s' == s.(core := s.core.(tasks := s.core.tasks[t := s.core.tasks[t].(state := Queued)],
                                      queue := s.core.queue + [t], wake := true),
                      submitting := None, enqueued := s.enqueued + [t], accepted := s.accepted + {t})
    ensures QueueOk(s'.core.tasks, s'.core.queue) && RequestsOk(s'.core.tasks, s.capacity)
    ensures FlagsOk(s') && AlarmOk(s') && FifoOk(s')
  {
    var q, q' := s.core.queue, s'.core.queue;
    assert forall i :: 0 <= i < |q'| ==> q'[i] == if i < |q| then q[i] else t;
    assert t !in s.enqueued && t !in s.withdrawn;
    assert (s.enqueued + [t])[..|s.enqueued + [t]|-1] == s.enqueued;
    assert s'.dispatched + s'.core.queue == (s.dispatched + s.core.queue) + [t];
  }

  lemma EnqueueEvents(s: Local, s': Local, t: TaskId)
    requires EventsOk(s) && t in s.core.tasks && s.core.tasks[t].state == Pending
    requires s'.core.tasks == s.core.tasks[t := s.core.tasks[t].(state := Queued)] && s'.completions == s.completions
    ensures EventsOk(s')
  {
    hide EventsMatch, RecordsOk, Evolves;
    PerformKeeps(s.core.tasks, MarkQueued(t), s.completions);
  }

  lemma CancelKeeps(s: Local, t: TaskId)
    requires Inv(s)
    ensures Inv(ClientNext(s, CancelTask(t)))
  {
    hide ShapeOk, WorkersOk, HeldOk, QueueOk, RequestsOk, LedgerOk, FlagsOk, WorkerFlagsOk, AlarmOk, FifoOk, EventsOk, HeadBlocked;
    hide Ready;
    var s' := ClientNext(s, CancelTask(t));
    if t in s.core.tasks && s.core.tasks[t].state == Queued {
      CancelQueuedKeeps(s, t);
    } else if t in s.core.tasks && s.core.tasks[t].state == Running {
      CancelRunningKeeps(s, s', t);
    } else if t in s.core.tasks {
      assert s' == s;
    }
  }

  lemma CancelRunningKeeps(s: Local, s': Local, t: TaskId)
    requires Inv(s) && t in s.core.tasks && s.core.tasks[t].state == Running
    requires s' == s.(core := s.core.(tasks := s.core.tasks[t := s.core.tasks[t].(cancelToken := true)]))
    ensures Inv(s')
  {
    hide ShapeOk, WorkersOk, HeldOk, QueueOk, RequestsOk, LedgerOk, FlagsOk, WorkerFlagsOk, AlarmOk, FifoOk, EventsOk, HeadBlocked;
    TokenHands(s.core.tasks, t, s.core.slots, s.threads);
    QuietRequestsAndQueue(s.core.tasks, s'.core.tasks, t, s.core.queue, s.capacity);
    QuietFlags(s, s', t);
    QuietFifo(s, s', t);
    assert AlarmOk(s') by {
      TokenAlarm(s, s', t);
    }
    TokenEvents(s, s', t);
    ClientStepKeeps(s, s');
  }

  lemma TokenAlarm(s: Local, s': Local, t: TaskId)
    requires AlarmOk(s) && QuietChange(s.core.tasks, s'.core.tasks, t)
    requires s' == s.(core := s.core.(tasks := s'.core.tasks))
    ensures AlarmOk(s')
  {
  }

  lemma TokenHands(tasks: Tasks, t: TaskId, slots: map<WorkerId, Slot>, threads: map<WorkerId, Thread>)
    requires WorkersOk(tasks, slots, threads) && HeldOk(tasks, slots, threads) && t in tasks
    ensures var tasks' := tasks[t := tasks[t].(cancelToken := true)];
            WorkersOk(tasks', slots, threads) && HeldOk(tasks', slots, threads)
  {
  }

  lemma TokenEvents(s: Local, s': Local, t: TaskId)
    requires EventsOk(s) && t in s.core.tasks && s.core.tasks[t].state == Running
    requires s'.core.tasks == s.core.tasks[t := s.core.tasks[t].(cancelToken := true)] && s'.completions == s.completions
    ensures EventsOk(s')
  {
    hide EventsMatch, RecordsOk, Evolves;
    PerformKeeps(s.core.tasks, Cancel(t), s.completions);
  }

  lemma CancelQueuedKeeps(s: Local, t: TaskId)
    requires Inv(s) && t in s.core.tasks && s.core.tasks[t].state == Queued
    ensures Inv(ClientNext(s, CancelTask(t)))
    ensures CancelledIn(s.core, t).code == Ok
  {
    hide ShapeOk, WorkersOk, HeldOk, RequestsOk, LedgerOk, FlagsOk, WorkerFlagsOk, AlarmOk, FifoOk, EventsOk, HeadBlocked;
    hide Ready;
    InvReady(s);
    CancelNeverHalfDone(s.core, t);
    var s' := ClientNext(s, CancelTask(t));
    var r := s'.core.tasks[t];
    WaitingRecordHands(s.core.tasks, t, r, s.core.slots, s.threads);
    CancelQueuedQueue(s, s', t, r);
    CancelQueuedEvents(s, s', t);
    ClientStepKeeps(s, s');
  }

  lemma CancelQueuedQueue(s: Local, s': Local, t: TaskId, r: TaskRecord)
    requires QueueOk(s.core.tasks, s.core.queue) && RequestsOk(s.core.tasks, s.capacity)
    requires FlagsOk(s) && FifoOk(s)
    requires t in s.core.tasks && s.core.tasks[t].state == Queued
    requires r.state == Aborted && r.request == s.core.tasks[t].request
    requires s' == s.(core := s.core.(tasks := s.core.tasks[t := r], queue := Without(s.core.queue, {t}), wake := true),
                      withdrawn := s.withdrawn + {t}, completions := s'.completions)
    ensures QueueOk(s'.core.tasks, s'.core.queue) && RequestsOk(s'.core.tasks, s.capacity)
    ensures FlagsOk(s') && AlarmOk(s') && FifoOk(s')
  {
    hide QueueOk, RequestsOk, FlagsOk, FifoOk;
    WithdrawnQueue(s.core.tasks, s.core.queue, t, r, s.capacity);
    WithdrawnFlags(s, s', t);
    WithdrawnFifo(s, s', t);
  }

  lemma WithdrawnQueue(tasks: Tasks, queue: seq<TaskId>, t: TaskId, r: TaskRecord, capacity: Bag)
    requires QueueOk(tasks, queue) && RequestsOk(tasks, capacity)
    requires t in tasks && tasks[t].state == Queued && r.state == Aborted && r.request == tasks[t].request
    ensures QueueOk(tasks[t := r], Without(queue, {t})) && RequestsOk(tasks[t := r], capacity)
  {
    RemoveFirstOnce(queue, t);
    hide Distinct, RemoveFirst, Without;
  }

  lemma WithdrawnFlags(s: Local, s': Local, t: TaskId)
    requires QueueOk(s.core.tasks, s.core.queue) && FlagsOk(s) && t in s.core.tasks && s.core.tasks[t].state == Queued
    requires t in s'.core.tasks && s'.core.tasks == s.core.tasks[t := s'.core.tasks[t]] && s'.core.queue == Without(s.core.queue, {t})
    requires s' == s.(core := s.core.(tasks := s'.core.tasks, queue := s'.core.queue, wake := true),
                      withdrawn := s'.withdrawn, completions := s'.completions)
    ensures FlagsOk(s') && AlarmOk(s')
  {
    hide Without, Distinct;
  }

  lemma WithdrawnFifo(s: Local, s': Local, t: TaskId)
    requires QueueOk(s.core.tasks, s.core.queue) && FifoOk(s) && t in s.core.tasks && s.core.tasks[t].state == Queued
    requires t in s'.core.tasks && s'.core.tasks[t].state == Aborted && s'.core.tasks == s.core.tasks[t := s'.core.tasks[t]]
    requires s'.core.queue == Without(s.core.queue, {t}) && s'.withdrawn == s.withdrawn + {t}
    requires s'.enqueued == s.enqueued && s'.dispatched == s.dispatched && s'.accepted == s.accepted
    ensures FifoOk(s')
  {
    hide Without, Distinct;
    assert t !in s.dispatched;
    WithdrawnOrder(s.enqueued, s.withdrawn, s.dispatched, s.core.queue, t);
  }

  lemma WithdrawnOrder(enqueued: seq<TaskId>, withdrawn: set<TaskId>, dispatched: seq<TaskId>, queue: seq<TaskId>, t: TaskId)
    requires dispatched + queue == Without(enqueued, withdrawn) && t !in dispatched
    ensures dispatched + Without(queue, {t}) == Without(enqueued, withdrawn + {t})
  {
    hide Without;
    WithoutOneMore(enqueued, withdrawn, t);
    WithoutAppend(dispatched, queue, {t});
    WithoutNothing(dispatched, {t});
  }

  lemma CancelQueuedEvents(s: Local, s': Local, t: TaskId)
    requires EventsOk(s) && t in s.core.tasks && s.core.tasks[t].state == Queued
    requires s'.core.tasks == CancelledTask(s.core.tasks, t).tasks
    requires s'.completions == Appended(s.completions, CancelledTask(s.core.tasks, t).event)
    ensures EventsOk(s')
  {
    hide EventsMatch, RecordsOk, Evolves;
    PerformKeeps(s.core.tasks, Cancel(t), s.completions);
  }

  lemma ClientKeeps(s: Local, a: ClientAct)
    requires Inv(s) && ClientEnabled(s, a)
    ensures Inv(ClientNext(s, a))
  {
    hide Inv, ClientNext;
    match a
    case SubmitRegister(t, request) => RegisterKeeps(s, t, request);
    case SubmitEnqueue => EnqueueKeeps(s);
    case CancelTask(t) => CancelKeeps(s, t);
  }

  // ---- The scheduler thread

  lemma LoopFlagKeeps(s: Local, s': Local)
    requires Inv(s)
    requires s' == s.(core := s.core.(wake := s'.core.wake), loop := s'.loop)
    requires FlagsOk(s') && AlarmOk(s')
    ensures Inv(s')
  {
    hide WorkersOk, HeldOk, QueueOk, RequestsOk, LedgerOk, FlagsOk, WorkerFlagsOk, AlarmOk, FifoOk, EventsOk, HeadBlocked;
    FifoSame(s, s');
    EventsSame(s, s');
  }

  lemma WakesKeeps(s: Local)
    requires Inv(s) && LoopEnabled(s, LoopWakes)
    ensures Inv(LoopNext(s, LoopWakes))
  {
    hide ShapeOk, WorkersOk, HeldOk, QueueOk, RequestsOk, LedgerOk, WorkerFlagsOk, FifoOk, EventsOk, HeadBlocked;
    LoopFlagKeeps(s, LoopNext(s, LoopWakes));
  }

  lemma ChecksKeeps(s: Local)
    requires Inv(s) && LoopEnabled(s, LoopChecks)
    ensures Inv(LoopNext(s, LoopChecks))
  {
    hide ShapeOk, WorkersOk, HeldOk, QueueOk, RequestsOk, LedgerOk, WorkerFlagsOk, FifoOk, EventsOk, HeadBlocked;
    LoopFlagKeeps(s, LoopNext(s, LoopChecks));
  }

  lemma TriesKeeps(s: Local, e: ExecutionId, pick: Option<WorkerId>)
    requires Inv(s) && LoopEnabled(s, LoopTries(e, pick))
    ensures Inv(LoopNext(s, LoopTries(e, pick)))
  {
    hide ShapeOk, WorkersOk, HeldOk, QueueOk, RequestsOk, LedgerOk, WorkerFlagsOk, FifoOk, EventsOk, HeadBlocked;
    hide Ready, Choice, Tried, DispatchedTo, FitsWorker, MayPick;
    InvReady(s);
    PickIs(s, pick);
    TriedIs(s, e, pick);
    if s.core.stopping || pick.None? {
      LoopFlagKeeps(s, Tried(s, e, pick));
    } else {
      DispatchKeeps(s, pick.value, e);
    }
  }

  /** What is known of a worker the head can be dispatched to. */
  ghost predicate CanGo(s: Local, w: WorkerId) {
    && s.core.queue != [] && s.core.queue[0] in s.core.tasks && s.core.tasks[s.core.queue[0]].state == Queued
    && w in s.core.slots && w in s.core.pools && w in s.threads && w in s.dropped
    && s.core.slots[w].state == Idle && !s.threads[w].Exited?
    && Fits(s.core.tasks[s.core.queue[0]].request, s.core.pools[w].available)
  }

  lemma DispatchHands(s: Local, w: WorkerId, e: ExecutionId)
    requires CanGo(s, w)
    requires WorkersOk(s.core.tasks, s.core.slots, s.threads) && HeldOk(s.core.tasks, s.core.slots, s.threads)
    ensures var s' := DispatchedTo(s, w, e);
            WorkersOk(s'.core.tasks, s'.core.slots, s'.threads) && HeldOk(s'.core.tasks, s'.core.slots, s'.threads)
  {
    var s' := DispatchedTo(s, w, e);
    assert WorkerOk(s.core.tasks, w, s.core.slots[w], s.threads[w]);
    forall x | x in s'.core.tasks && Active(s'.core.tasks[x])
      ensures IsHeld(s'.core.slots, s'.threads, x, s'.core.tasks[x])
    {
      if x != s.core.queue[0] {
        assert IsHeld(s.core.slots, s.threads, x, s.core.tasks[x]);
      }
    }
  }

  lemma DispatchQueue(s: Local, w: WorkerId, e: ExecutionId)
    requires CanGo(s, w) && QueueOk(s.core.tasks, s.core.queue) && RequestsOk(s.core.tasks, s.capacity)
    ensures var s' := DispatchedTo(s, w, e);
            QueueOk(s'.core.tasks, s'.core.queue) && RequestsOk(s'.core.tasks, s'.capacity)
  {
    hide Canonical, Fits;
  }

  lemma DispatchFifo(s: Local, w: WorkerId, e: ExecutionId)
    requires CanGo(s, w) && FifoOk(s)
    ensures FifoOk(DispatchedTo(s, w, e))
  {
    hide Without, Distinct, Minus, Plus, Fits;
    var q := s.core.queue;
    assert (s.dispatched + [q[0]]) + q[1..] == s.dispatched + q;
  }

  lemma DispatchEvents(s: Local, w: WorkerId, e: ExecutionId)
    requires CanGo(s, w) && EventsOk(s)
    ensures EventsOk(DispatchedTo(s, w, e))
  {
    hide EventsMatch, RecordsOk, Evolves;
    var t := s.core.queue[0];
    var r := s.core.tasks[t];
    PerformKeeps(s.core.tasks, MarkScheduled(t, w, e), s.completions);
    assert s.core.tasks[t := r.(state := Scheduled)][t := r.(state := Scheduled, attempt := r.attempt + 1,
                                                             worker := Some(w), execution := Some(e))]
           == DispatchedTo(s, w, e).core.tasks;
  }

  /** Acquiring keeps the balance: the request moves to the empty entry, or to the dropped reservations. */
  lemma BalanceAfterAcquire(capacity: Bag, pool: Pool, entry: Bag, inFlight: Bag, dropped: Bag, request: Bag)
    requires Balanced(capacity, pool, entry, inFlight, dropped)
    requires Canonical(request) && Fits(request, pool.available)
    ensures var p := pool.(available := Minus(pool.available, request));
            && (entry == map[] ==> Balanced(capacity, p, request, inFlight, dropped))
            && Balanced(capacity, p, entry, inFlight, Plus(dropped, request))
  {
    var p := pool.(available := Minus(pool.available, request));
    PoolStaysOk(pool, request);
    assert p == Acquired(pool, request).0;
    var d := Plus(dropped, request);
    assert Positive(d);
    forall n
      ensures Get(p.available, n) == Get(pool.available, n) - Get(request, n)
      ensures Get(d, n) == Get(dropped, n) + Get(request, n)
    {
    }
  }

  lemma DispatchLedger(s: Local, w: WorkerId, e: ExecutionId)
    requires CanGo(s, w) && RequestsOk(s.core.tasks, s.capacity)
    requires LedgerOk(s.capacity, s.core.pools, s.core.running, s.threads, s.dropped)
    ensures var s' := DispatchedTo(s, w, e);
            LedgerOk(s'.capacity, s'.core.pools, s'.core.running, s'.threads, s'.dropped)
  {
    hide Balanced, Minus, Plus;
    var s' := DispatchedTo(s, w, e);
    BalanceAfterAcquire(s.capacity, s.core.pools[w], Entry(s.core.running, w), InFlight(s.threads[w]), s.dropped[w],
                        s.core.tasks[s.core.queue[0]].request);
    forall x | x in s'.core.pools && x in s'.threads && x in s'.dropped
      ensures Balanced(s'.capacity, s'.core.pools[x], Entry(s'.core.running, x), InFlight(s'.threads[x]), s'.dropped[x])
    {
      assert Balanced(s.capacity, s.core.pools[x], Entry(s.core.running, x), InFlight(s.threads[x]), s.dropped[x]);
    }
  }

  lemma DispatchFlags(s: Local, w: WorkerId, e: ExecutionId)
    requires CanGo(s, w) && FlagsOk(s) && WorkerFlagsOk(s.core.order, s.core.slots, s.threads, s.phase)
    requires ShapeOk(s.core, s.threads, s.dropped)
    ensures var s' := DispatchedTo(s, w, e);
            && FlagsOk(s') && WorkerFlagsOk(s'.core.order, s'.core.slots, s'.threads, s'.phase)
            && ShapeOk(s'.core, s'.threads, s'.dropped) && AlarmOk(s')
  {
    hide ShapeOk, FlagsOk, WorkerFlagsOk, Minus, Plus, Fits;
    DispatchFlagsOnly(s, w, e);
    DispatchShape(s, w, e);
    DispatchWorkerFlags(s, w, e);
  }

  lemma DispatchFlagsOnly(s: Local, w: WorkerId, e: ExecutionId)
    requires CanGo(s, w) && FlagsOk(s)
    ensures FlagsOk(DispatchedTo(s, w, e)) && AlarmOk(DispatchedTo(s, w, e))
  {
    hide Minus, Plus, Fits, HeadBlocked;
  }

  lemma DispatchShape(s: Local, w: WorkerId, e: ExecutionId)
    requires CanGo(s, w) && ShapeOk(s.core, s.threads, s.dropped)
    ensures var s' := DispatchedTo(s, w, e);
            ShapeOk(s'.core, s'.threads, s'.dropped)
  {
    hide Minus, Plus, Fits, Distinct;
  }

  lemma DispatchWorkerFlags(s: Local, w: WorkerId, e: ExecutionId)
    requires CanGo(s, w) && WorkerFlagsOk(s.core.order, s.core.slots, s.threads, s.phase)
    ensures var s' := DispatchedTo(s, w, e);
            WorkerFlagsOk(s'.core.order, s'.core.slots, s'.threads, s'.phase)
  {
    hide Minus, Plus, Fits;
  }

  lemma DispatchKeeps(s: Local, w: WorkerId, e: ExecutionId)
    requires Inv(s) && !s.core.stopping
    requires w in s.core.slots && s.core.slots[w].state == Idle
    requires s.core.queue != [] && s.core.queue[0] in s.core.tasks
    requires FitsWorker(s.core.pools, w, s.core.tasks[s.core.queue[0]].request)
    requires w in s.dropped
    ensures Inv(DispatchedTo(s, w, e))
  {
    hide WorkersOk, HeldOk, RequestsOk, LedgerOk, FlagsOk, WorkerFlagsOk, AlarmOk, FifoOk, EventsOk, HeadBlocked;
    hide DispatchedTo;
    assert CanGo(s, w) by {
      NotJoined(s);
      AllWorkersUp(s.core, s.threads, s.phase);
      assert s.core.queue[0] in s.core.queue;
    }
    DispatchHands(s, w, e);
    DispatchQueue(s, w, e);
    DispatchFifo(s, w, e);
    DispatchEvents(s, w, e);
    DispatchLedger(s, w, e);
    DispatchFlags(s, w, e);
    assert DispatchedTo(s, w, e).capacity == s.capacity by {
      DispatchCapacity(s, w, e);
    }
  }

  lemma DispatchCapacity(s: Local, w: WorkerId, e: ExecutionId)
    requires CanGo(s, w)
    ensures DispatchedTo(s, w, e).capacity == s.capacity
  {
  }

  lemma NotJoined(s: Local)
    requires FlagsOk(s) && !s.core.stopping
    ensures JoinedCount(s.phase, s.core.order) == 0 && !s.phase.JoiningWorker?
  {
  }

  lemma LoopKeeps(s: Local, a: LoopAct)
    requires Inv(s) && LoopEnabled(s, a)
    ensures Inv(LoopNext(s, a))
  {
    hide Inv, LoopNext;
    match a
    case LoopWakes => WakesKeeps(s);
    case LoopChecks => ChecksKeeps(s);
    case LoopTries(e, pick) => TriesKeeps(s, e, pick);
  }

  // ---- Shutdown

  lemma ShutdownFlags(s: Local, a: ShutdownAct)
    requires ShutdownEnabled(s, a) && FlagsOk(s)
    ensures FlagsOk(ShutdownNext(s, a))
  {
    match a
    case CloseAdmission =>
    case DrainReturns =>
    case StopLoop =>
    case JoinLoop =>
    case StopPool =>
    case StopWorker =>
    case JoinWorker =>
    case ShutdownReturns =>
  }

  /** Workers are stopped and joined one after the other, in the pool's order. */
  lemma NextWorkerFlags(order: seq<WorkerId>, slots: map<WorkerId, Slot>, threads: map<WorkerId, Thread>,
                        phase: Phase, slot: Slot, phase': Phase, i: nat)
    requires Distinct(order) && WorkerFlagsOk(order, slots, threads, phase)
    requires i < |order| && order[i] in slots && order[i] in threads
    requires || (phase == StoppingWorker(i) && phase' == JoiningWorker(i) && slot == slots[order[i]].(stopping := true))
             || (phase == JoiningWorker(i) && phase' == StoppingWorker(i + 1) && slot == Slot(Idle, None, false, false)
                 && threads[order[i]].Exited?)
    ensures WorkerFlagsOk(order, slots[order[i] := slot], threads, phase')
  {
  }

  lemma ShutdownWorkerFlags(s: Local, a: ShutdownAct)
    requires ShutdownEnabled(s, a) && ShapeOk(s.core, s.threads, s.dropped) && FlagsOk(s)
    requires WorkerFlagsOk(s.core.order, s.core.slots, s.threads, s.phase)
    ensures var s' := ShutdownNext(s, a);
            WorkerFlagsOk(s'.core.order, s'.core.slots, s'.threads, s'.phase)
  {
    hide WorkerFlagsOk;
    match a
    case CloseAdmission => SameWorkerFlags(s.core.order, s.core.slots, s.threads, s.phase, Draining);
    case DrainReturns => SameWorkerFlags(s.core.order, s.core.slots, s.threads, s.phase, Drained);
    case StopLoop => SameWorkerFlags(s.core.order, s.core.slots, s.threads, s.phase, JoiningLoop);
    case JoinLoop => SameWorkerFlags(s.core.order, s.core.slots, s.threads, s.phase, LoopJoined);
    case StopPool => SameWorkerFlags(s.core.order, s.core.slots, s.threads, s.phase, StoppingWorker(0));
    case StopWorker =>
      var w := s.core.order[s.phase.next];
      NextWorkerFlags(s.core.order, s.core.slots, s.threads, s.phase, s.core.slots[w].(stopping := true),
                      JoiningWorker(s.phase.next), s.phase.next);
    case JoinWorker =>
      NextWorkerFlags(s.core.order, s.core.slots, s.threads, s.phase, Slot(Idle, None, false, false),
                      StoppingWorker(s.phase.next + 1), s.phase.next);
    case ShutdownReturns => SameWorkerFlags(s.core.order, s.core.slots, s.threads, s.phase, Closed);
  }

  lemma SameWorkerFlags(order: seq<WorkerId>, slots: map<WorkerId, Slot>, threads: map<WorkerId, Thread>, phase: Phase, phase': Phase)
    requires WorkerFlagsOk(order, slots, threads, phase)
    requires JoinedCount(phase', order) == JoinedCount(phase, order) && !phase.JoiningWorker? && !phase'.JoiningWorker?
    ensures WorkerFlagsOk(order, slots, threads, phase')
  {
  }

  /** The mailbox that Worker::Shutdown resets is already empty: no dispatched work is thrown away. */
  lemma NothingThrownAway(s: Local, w: WorkerId)
    requires WorkersOk(s.core.tasks, s.core.slots, s.threads)
    requires w in s.core.slots && w in s.threads && s.threads[w].Exited?
    ensures s.core.slots[w].mailbox.None? && s.core.slots[w].state == Idle
  {
  }

  /** Stopping or joining a worker changes only the flags of its slot. */
  lemma SlotFlagsHands(tasks: Tasks, slots: map<WorkerId, Slot>, threads: map<WorkerId, Thread>, w: WorkerId, slot: Slot)
    requires WorkersOk(tasks, slots, threads) && HeldOk(tasks, slots, threads)
    requires w in slots && slot.state == slots[w].state && slot.mailbox == slots[w].mailbox
    ensures WorkersOk(tasks, slots[w := slot], threads) && HeldOk(tasks, slots[w := slot], threads)
  {
  }

  lemma ShutdownStepKeeps(s: Local, s': Local)
    requires Inv(s)
    requires s' == s.(core := s.core.(slots := s'.core.slots, started := s'.core.started, stopping := s'.core.stopping,
                                      poolStarted := s'.core.poolStarted, wake := s'.core.wake),
                      phase := s'.phase, up := s'.up, accepting := s'.accepting)
    requires s'.core.slots.Keys == s.core.slots.Keys
    requires WorkersOk(s.core.tasks, s'.core.slots, s.threads) && HeldOk(s.core.tasks, s'.core.slots, s.threads)
    requires FlagsOk(s') && WorkerFlagsOk(s'.core.order, s'.core.slots, s'.threads, s'.phase) && AlarmOk(s')
    ensures Inv(s')
  {
    hide WorkersOk, HeldOk, QueueOk, RequestsOk, LedgerOk, FlagsOk, WorkerFlagsOk, AlarmOk, FifoOk, EventsOk, HeadBlocked;
    FifoSame(s, s');
    EventsSame(s, s');
  }

  lemma ShutdownAlarm(s: Local, a: ShutdownAct)
    requires ShutdownEnabled(s, a) && AlarmOk(s) && FlagsOk(s)
    ensures AlarmOk(ShutdownNext(s, a))
  {
  }

  lemma ShutdownHands(s: Local, a: ShutdownAct)
    requires ShutdownEnabled(s, a)
    requires WorkersOk(s.core.tasks, s.core.slots, s.threads) && HeldOk(s.core.tasks, s.core.slots, s.threads)
    ensures var s' := ShutdownNext(s, a);
            WorkersOk(s.core.tasks, s'.core.slots, s.threads) && HeldOk(s.core.tasks, s'.core.slots, s.threads)
  {
    match a
    case CloseAdmission =>
    case DrainReturns =>
    case StopLoop =>
    case JoinLoop =>
    case StopPool =>
    case StopWorker =>
      var w := s.core.order[s.phase.next];
      SlotFlagsHands(s.core.tasks, s.core.slots, s.threads, w, s.core.slots[w].(stopping := true));
    case JoinWorker =>
      var w := s.core.order[s.phase.next];
      NothingThrownAway(s, w);
      SlotFlagsHands(s.core.tasks, s.core.slots, s.threads, w, Slot(Idle, None, false, false));
    case ShutdownReturns =>
  }

  lemma ShutdownOnly(s: Local, a: ShutdownAct)
    requires ShutdownEnabled(s, a)
    ensures var s' := ShutdownNext(s, a);
            && s' == s.(core := s.core.(slots := s'.core.slots, started := s'.core.started, stopping := s'.core.stopping,
                                        poolStarted := s'.core.poolStarted, wake := s'.core.wake),
                        phase := s'.phase, up := s'.up, accepting := s'.accepting)
            && s'.core.slots.Keys == s.core.slots.Keys
  {
    hide JoinedCount;
    match a
    case CloseAdmission =>
    case DrainReturns =>
    case StopLoop =>
    case JoinLoop =>
    case StopPool =>
    case StopWorker =>
    case JoinWorker =>
    case ShutdownReturns =>
  }

  lemma ShutdownKeeps(s: Local, a: ShutdownAct)
    requires Inv(s) && ShutdownEnabled(s, a)
    ensures Inv(ShutdownNext(s, a))
  {
    hide ShapeOk, WorkersOk, HeldOk, QueueOk, RequestsOk, LedgerOk, FlagsOk, WorkerFlagsOk, AlarmOk, FifoOk, EventsOk, HeadBlocked;
    hide ShutdownNext, ShutdownEnabled;
    ShutdownOnly(s, a);
    ShutdownHands(s, a);
    ShutdownFlags(s, a);
    ShutdownWorkerFlags(s, a);
    ShutdownAlarm(s, a);
    ShutdownStepKeeps(s, ShutdownNext(s, a));
  }

  // ---- Every step, every run

  lemma StepKeeps(s: Local, step: Step)
    requires Inv(s) && Enabled(s, step)
    ensures Inv(Next(s, step))
  {
    hide Inv;
    match step
    case Client(a) => ClientKeeps(s, a);
    case Scheduler(a) => LoopKeeps(s, a);
    case Worker(w, a) => WorkerKeeps(s, w, a);
    case Shutdown(a) => ShutdownKeeps(s, a);
  }

  /** The invariant holds at every point of every run. */
  lemma {:induction false} RunKeeps(states: seq<Local>, steps: seq<Step>, i: nat)
    requires Run(states, steps) && i < |states|
    ensures Inv(states[i])
  {
    hide Inv, Next, Enabled, Init;
    if i == 0 {
      InitInv(states[0]);
    } else {
      RunKeeps(states, steps, i - 1);
      StepKeeps(states[i-1], steps[i-1]);
    }
  }
}
