/** What the scheduler's transactions come to, read off the state they start from. */
module SchedulingOutcomes {
  import opened Common
  import opened Resources
  import opened TaskManagement
  import opened Scheduling

  // ---- Placement

  /** `x` is idle and has every quantity of `request` left. */
  predicate CanTake(c: Core, x: WorkerId, request: Bag) {
    && x in c.slots && c.slots[x].state == Idle && x in c.pools
    && forall n :: n in request ==> n in c.pools[x].available && request[n] <= c.pools[x].available[n]
  }

  /** `w` is the earliest worker of `order` that can take the request. */
  predicate IsEarliest(c: Core, order: seq<WorkerId>, request: Bag, w: WorkerId) {
    exists k :: 0 <= k < |order| && order[k] == w && CanTake(c, w, request) && forall j :: 0 <= j < k ==> !CanTake(c, order[j], request)
  }

  /** The idle list is the pool's order with every worker left out that is not idle. */
  lemma {:induction false} IdleIsOrderWithoutBusy(order: seq<WorkerId>, slots: map<WorkerId, Slot>)
    ensures IdleWorkers(order, slots) == Without(order, set w | w in order && !(w in slots && slots[w].state == Idle))
  {
    if order != [] {
      var front, w := order[..|order|-1], order[|order|-1];
      IdleIsOrderWithoutBusy(front, slots);
      var busy := set x | x in order && !(x in slots && slots[x].state == Idle);
      var less := set x | x in front && !(x in slots && slots[x].state == Idle);
      SameWithout(front, less, busy);
    }
  }

  lemma FitsMeans(c: Core, x: WorkerId, request: Bag)
    requires Ready(c) && Canonical(request)
    ensures x in c.slots && c.slots[x].state == Idle ==> (FitsWorker(c.pools, x, request) <==> CanTake(c, x, request))
  {
    if x in c.pools {
      assert PoolOk(c.pools[x]);
      assert forall n :: n in request && request[n] <= Get(c.pools[x].available, n) ==> n in c.pools[x].available;
    }
  }

  lemma {:induction false} FirstFitAppend(pools: map<WorkerId, Pool>, offered: seq<WorkerId>, w: WorkerId, request: Bag)
    ensures FirstFit(pools, offered + [w], request) ==
            if FirstFit(pools, offered, request).Some? then FirstFit(pools, offered, request)
            else if FitsWorker(pools, w, request) then Some(w) else None
  {
    hide FitsWorker, IsFirstFit;
    if offered == [] {
      assert [w][1..] == [];
      assert FirstFit(pools, [], request) == None;
    } else {
      assert (offered + [w])[1..] == offered[1..] + [w];
      FirstFitAppend(pools, offered[1..], w, request);
    }
  }

  /** Placement over any order comes to the earliest worker that can take the request, or to none if none can. */
  lemma {:induction false} PlacementIsEarliest(c: Core, order: seq<WorkerId>, request: Bag)
    requires Ready(c) && Canonical(request)
    ensures var w := FirstFit(c.pools, IdleWorkers(order, c.slots), request);
            && (w.Some? ==> IsEarliest(c, order, request, w.value))
            && (w.None? ==> forall x :: x in order ==> !CanTake(c, x, request))
  {
    hide Ready, Canonical, FitsWorker, CanTake, IsFirstFit, IsEarliest;
    if order == [] {
      assert FirstFit(c.pools, [], request) == None;
    } else {
      var front, x := order[..|order|-1], order[|order|-1];
      PlacementIsEarliest(c, front, request);
      FitsMeans(c, x, request);
      NotIdleCannot(c, x, request);
      FirstFitAppend(c.pools, IdleWorkers(front, c.slots), x, request);
      EarliestAppend(c, front, x, request);
      assert order == front + [x];
    }
  }

  /** One more worker at the end: it is the earliest only if nobody before it can. */
  lemma EarliestAppend(c: Core, front: seq<WorkerId>, x: WorkerId, request: Bag)
    ensures forall w :: IsEarliest(c, front, request, w) ==> IsEarliest(c, front + [x], request, w)
    ensures (forall y :: y in front ==> !CanTake(c, y, request)) && CanTake(c, x, request) ==> IsEarliest(c, front + [x], request, x)
  {
    hide CanTake;
    forall w | IsEarliest(c, front, request, w)
      ensures IsEarliest(c, front + [x], request, w)
    {
      var k :| 0 <= k < |front| && front[k] == w && CanTake(c, w, request)
               && forall j :: 0 <= j < k ==> !CanTake(c, front[j], request);
      assert (front + [x])[k] == w && forall j :: 0 <= j < k ==> (front + [x])[j] == front[j];
    }
    if (forall y :: y in front ==> !CanTake(c, y, request)) && CanTake(c, x, request) {
      assert (front + [x])[|front|] == x;
      assert forall j :: 0 <= j < |front| ==> (front + [x])[j] in front;
    }
  }

  lemma NotIdleCannot(c: Core, x: WorkerId, request: Bag)
    ensures CanTake(c, x, request) ==> x in c.slots && c.slots[x].state == Idle
  {
  }

  /** There is at most one earliest worker. */
  lemma EarliestIsUnique(c: Core, order: seq<WorkerId>, request: Bag, w: WorkerId, v: WorkerId)
    requires IsEarliest(c, order, request, w) && IsEarliest(c, order, request, v)
    ensures w == v
  {
    hide CanTake;
    var k :| 0 <= k < |order| && order[k] == w && CanTake(c, w, request) && forall j :: 0 <= j < k ==> !CanTake(c, order[j], request);
    var m :| 0 <= m < |order| && order[m] == v && CanTake(c, v, request) && forall j :: 0 <= j < m ==> !CanTake(c, order[j], request);
  }

  // ---- The scheduling transaction

  /** The worker can be reserved: its pool runs, and it is started, not stopping and idle. */
  predicate Reservable(c: Core, w: WorkerId) {
    c.poolStarted && w in c.slots && c.slots[w].started && !c.slots[w].stopping && c.slots[w].state == Idle
  }

  /**
   * Everything TryScheduleOne can come to once placement has come to `chosen`. Whatever makes it give up, pools and worker
   * slots end up exactly as they were; only a head that turns out not to be queued is lost from the queue.
   */
  lemma TransactionOutcomes(c: Core, chosen: Option<WorkerId>, e: ExecutionId)
    requires forall t :: t in c.tasks ==> Canonical(c.tasks[t].request)
    requires forall w :: w in c.pools ==> PoolOk(c.pools[w])
    requires forall w :: w in c.slots && c.slots[w].state == Idle ==> c.slots[w].mailbox.None?
    ensures var a := TryScheduleAt(c, chosen, e);
            if c.stopping || c.queue == [] then a == Attempt(c, Ok, None)
            else if c.queue[0] !in c.tasks then a == Attempt(c, NotFound, None)
            else if chosen.None? || !Reservable(c, chosen.value) || !CanTake(c, chosen.value, c.tasks[c.queue[0]].request) then
              a == Attempt(c, Ok, None)
            else if c.tasks[c.queue[0]].state != Queued then a == Attempt(c.(queue := c.queue[1..]), FailedPrecondition, None)
            else a.code == Ok && a.worker == chosen && DispatchesHead(c, chosen.value, e, a.core)
  {
    hide Canonical, PoolOk, Acquired, Released;
    if !c.stopping && c.queue != [] && c.queue[0] in c.tasks && chosen.Some? {
      var t := c.queue[0];
      HeadOutcomes(c, t, c.tasks[t].request, chosen.value, e);
    }
  }

  /** The head, and only the head, went to `w`: its record, the worker's slot, its pool and the ledger say so. */
  ghost predicate DispatchesHead(c: Core, w: WorkerId, e: ExecutionId, c': Core)
    requires c.queue != [] && c.queue[0] in c.tasks && w in c.slots && w in c.pools
  {
    var t := c.queue[0];
    var r := c.tasks[t];
    && c' == c.(tasks := c'.tasks, queue := c.queue[1..], pools := c'.pools, slots := c'.slots, running := c'.running)
    && c'.tasks == c.tasks[t := r.(state := Scheduled, attempt := r.attempt + 1, worker := Some(w), execution := Some(e))]
    && c'.slots == c.slots[w := Slot(Busy, Some(WorkItem(t, e)), true, false)]
    && w in c'.pools && c'.pools == c.pools[w := c'.pools[w]] && c'.pools[w].total == c.pools[w].total
    && (forall n :: Get(c'.pools[w].available, n) == Get(c.pools[w].available, n) - Get(r.request, n))
    && (w in c.running ==> c'.running == c.running)
    && (w !in c.running ==> c'.running == c.running[w := Reservation(t, r.request)])
  }

  lemma HeadOutcomes(c: Core, t: TaskId, request: Bag, w: WorkerId, e: ExecutionId)
    requires c.queue != [] && t == c.queue[0] && t in c.tasks && request == c.tasks[t].request
    requires Canonical(request) && (w in c.pools ==> PoolOk(c.pools[w]))
    requires w in c.slots && c.slots[w].state == Idle ==> c.slots[w].mailbox.None?
    ensures var a := ScheduleOn(c, t, request, w, e);
            if !Reservable(c, w) || !CanTake(c, w, request) then a == Attempt(c, Ok, None)
            else if c.tasks[t].state != Queued then a == Attempt(c.(queue := c.queue[1..]), FailedPrecondition, None)
            else a.code == Ok && a.worker == Some(w) && DispatchesHead(c, w, e, a.core)
  {
    hide Canonical, PoolOk, CanTake, DispatchesHead, ScheduleOn;
    if !Reservable(c, w) {
      NotReserved(c, w);
      GivesUp(c, t, request, w, e);
    } else if !CanTake(c, w, request) {
      NoRoom(c, t, request, w, e);
    } else if c.tasks[t].state != Queued {
      TakenFromPool(c, w, request);
      NotQueued(c, t, request, w, e);
    } else {
      TakenFromPool(c, w, request);
      Goes(c, t, request, w, e);
    }
  }

  lemma TakenFromPool(c: Core, w: WorkerId, request: Bag)
    requires CanTake(c, w, request)
    ensures w in c.pools
  {
  }

  lemma GivesUp(c: Core, t: TaskId, request: Bag, w: WorkerId, e: ExecutionId)
    requires TryReserve(c, w).0 == c && TryReserve(c, w).1 != Ok
    ensures ScheduleOn(c, t, request, w, e) == Attempt(c, Ok, None)
  {
    hide TryReserve, PoolAcquire, RolledBack, Handover;
  }

  /** The state once the worker is reserved. */
  function Held(c: Core, w: WorkerId): Core {
    c.(slots := c.slots[w := Slot(Reserved, None, true, false)])
  }

  lemma NoRoom(c: Core, t: TaskId, request: Bag, w: WorkerId, e: ExecutionId)
    requires Reservable(c, w) && c.slots[w].mailbox.None? && !CanTake(c, w, request)
    requires Canonical(request) && (w in c.pools ==> PoolOk(c.pools[w]))
    ensures ScheduleOn(c, t, request, w, e) == Attempt(c, Ok, None)
  {
    ReserveThenRelease(c, w);
    var c1 := Held(c, w);
    assert PoolAcquire(c1, w, request).0 == c1 && PoolAcquire(c1, w, request).1 != Ok by {
      hide Canonical, PoolOk, TryReserve, ReleaseReservation;
      if w in c.pools {
        PoolAnswers(c.pools[w], request);
        assert c.pools[w := c.pools[w]] == c.pools;
      }
    }
    hide TryReserve, ReleaseReservation, PoolAcquire, RolledBack, Handover, CanTake, Canonical, PoolOk;
    assert ReleaseReservation(c1, w) == (c1.(slots := c.slots), Ok);
  }

  /** The state once the request is taken from the reserved worker's pool as well. */
  function Charged(c: Core, w: WorkerId, request: Bag): Core
    requires w in c.pools
  {
    Held(c, w).(pools := c.pools[w := Acquired(c.pools[w], request).0])
  }

  lemma Taken(c: Core, w: WorkerId, request: Bag)
    requires Reservable(c, w) && CanTake(c, w, request) && Canonical(request) && PoolOk(c.pools[w])
    ensures PoolAcquire(Held(c, w), w, request) == (Charged(c, w, request), Ok)
  {
    hide Canonical, PoolOk, Reservable;
    FitsWhatCanBeTaken(c, w, request);
    hide CanTake;
  }

  /** The two reservations are undone exactly. */
  lemma Undone(c: Core, w: WorkerId, request: Bag, c': Core)
    requires Reservable(c, w) && c.slots[w].mailbox.None? && CanTake(c, w, request) && Canonical(request) && PoolOk(c.pools[w])
    requires c'.poolStarted && c'.pools == Charged(c, w, request).pools && c'.slots == Charged(c, w, request).slots
    ensures RolledBack(c', w, request) == c'.(pools := c.pools, slots := c.slots)
  {
    hide Canonical, PoolOk, TryReserve, ReleaseReservation, Acquired, Released;
    FitsWhatCanBeTaken(c, w, request);
    AcquireReleaseRestores(c.pools[w], request);
    ReserveThenRelease(c, w);
    hide CanTake;
    assert c'.pools[w := c.pools[w]] == c.pools;
  }

  lemma FitsWhatCanBeTaken(c: Core, w: WorkerId, request: Bag)
    requires CanTake(c, w, request)
    ensures Fits(request, c.pools[w].available)
  {
  }

  lemma NotQueued(c: Core, t: TaskId, request: Bag, w: WorkerId, e: ExecutionId)
    requires Reservable(c, w) && c.slots[w].mailbox.None? && CanTake(c, w, request) && Canonical(request) && PoolOk(c.pools[w])
    requires c.queue != [] && t == c.queue[0] && t in c.tasks && c.tasks[t].state != Queued
    ensures ScheduleOn(c, t, request, w, e) == Attempt(c.(queue := c.queue[1..]), FailedPrecondition, None)
  {
    hide TryReserve, ReleaseReservation, PoolAcquire, RolledBack, Sent, CanTake, Canonical, PoolOk, Acquired;
    TakenFromPool(c, w, request);
    ReserveThenRelease(c, w);
    Taken(c, w, request);
    Undone(c, w, request, Charged(c, w, request).(queue := c.queue[1..]));
  }

  lemma Goes(c: Core, t: TaskId, request: Bag, w: WorkerId, e: ExecutionId)
    requires Reservable(c, w) && c.slots[w].mailbox.None? && CanTake(c, w, request) && Canonical(request) && PoolOk(c.pools[w])
    requires c.queue != [] && t == c.queue[0] && t in c.tasks && c.tasks[t].state == Queued && request == c.tasks[t].request
    ensures var a := ScheduleOn(c, t, request, w, e);
            a.code == Ok && a.worker == Some(w) && DispatchesHead(c, w, e, a.core)
  {
    FitsWhatCanBeTaken(c, w, request);
    TakenFromPool(c, w, request);
    hide ScheduleOn, CanTake, Canonical, PoolOk, DispatchesHead, Fits;
    ScheduleOnSucceeds(c, w, e);
    DispatchedIs(c, w, e);
  }

  lemma DispatchedIs(c: Core, w: WorkerId, e: ExecutionId)
    requires c.queue != [] && c.queue[0] in c.tasks && w in c.pools && w in c.slots && c.slots[w].started && !c.slots[w].stopping
    requires Canonical(c.tasks[c.queue[0]].request) && PoolOk(c.pools[w]) && Fits(c.tasks[c.queue[0]].request, c.pools[w].available)
    ensures DispatchesHead(c, w, e, Dispatched(c, w, e))
  {
    hide Canonical, PoolOk, Minus;
    PoolAnswers(c.pools[w], c.tasks[c.queue[0]].request);
    hide Fits;
  }

  lemma NotReserved(c: Core, w: WorkerId)
    requires !Reservable(c, w)
    ensures TryReserve(c, w).0 == c && TryReserve(c, w).1 != Ok
  {
    if c.poolStarted && w in c.slots {
      assert c.slots[w := c.slots[w]] == c.slots;
    }
  }

  lemma ReserveThenRelease(c: Core, w: WorkerId)
    requires Reservable(c, w) && c.slots[w].mailbox.None?
    ensures TryReserve(c, w) == (c.(slots := c.slots[w := Slot(Reserved, None, true, false)]), Ok)
    ensures c.slots[w := Slot(Reserved, None, true, false)][w := c.slots[w]] == c.slots
    ensures forall c': Core {:trigger ReleaseReservation(c', w)} ::
              c'.poolStarted && c'.slots == c.slots[w := Slot(Reserved, None, true, false)] ==>
                ReleaseReservation(c', w) == (c'.(slots := c.slots), Ok)
  {
  }

  /**
   * The transaction when nothing changes while placement looks: the head goes to the earliest idle worker of the pool's order
   * that has room for it; it goes nowhere, and nothing changes, exactly if there is none or the scheduler is stopping.
   */
  lemma HeadGoesToEarliest(c: Core, e: ExecutionId)
    requires Ready(c)
    ensures var a := TrySchedule(c, e);
            && a.code == Ok
            && (a.worker.Some? <==> !c.stopping && c.queue != [] && exists w :: w in c.order && CanTake(c, w, c.tasks[c.queue[0]].request))
            && (a.worker.Some? ==> IsEarliest(c, c.order, c.tasks[c.queue[0]].request, a.worker.value)
                                   && DispatchesHead(c, a.worker.value, e, a.core))
            && (a.worker.None? ==> a.core == c)
  {
    if c.queue != [] && !c.stopping {
      assert c.queue[0] in c.queue;
      var request := c.tasks[c.queue[0]].request;
      PlacementIsEarliest(c, c.order, request);
      TransactionOutcomes(c, Choice(c), e);
      if Choice(c).Some? {
        EarliestIsReservable(c, request, Choice(c).value);
      }
    }
  }

  /** The same of what an attempt came to. */
  ghost predicate WentToEarliest(c: Core, e: ExecutionId, a: Attempt) {
    Ready(c) && a.worker.Some? ==>
      && c.queue != [] && c.queue[0] in c.tasks
      && IsEarliest(c, c.order, c.tasks[c.queue[0]].request, a.worker.value)
      && a.worker.value in c.slots && a.worker.value in c.pools && DispatchesHead(c, a.worker.value, e, a.core)
  }

  lemma GoesToEarliest(c: Core, e: ExecutionId)
    ensures WentToEarliest(c, e, TrySchedule(c, e))
  {
    if Ready(c) {
      HeadGoesToEarliest(c, e);
    }
  }

  lemma EarliestIsReservable(c: Core, request: Bag, w: WorkerId)
    requires Ready(c) && !c.stopping && IsEarliest(c, c.order, request, w)
    ensures w in c.order && CanTake(c, w, request) && Reservable(c, w)
  {
  }

  // ---- Enqueue and Cancel

  /** Enqueue takes exactly a pending task of a started scheduler that is not stopping; otherwise nothing changes. */
  lemma EnqueueOutcomes(c: Core, t: TaskId)
    ensures var (c', code) := Enqueued(c, t);
            if !c.started || c.stopping then code == Unavailable && c' == c
            else if t !in c.tasks then code == NotFound && c' == c
            else if c.tasks[t].state != Pending then code == FailedPrecondition && c' == c
            else code == Ok && c' == c.(tasks := c.tasks[t := c.tasks[t].(state := Queued)], queue := c.queue + [t], wake := true)
  {
  }

  /**
   * Cancel: an unknown task and a queued one that is in no queue are NotFound; a queued one leaves the queue, ends, and asks
   * for a wake-up; a running one has its token set; any other is refused. What is refused changes nothing.
   */
  lemma CancelOutcomes(c: Core, t: TaskId)
    requires Distinct(c.queue)
    ensures var r := CancelledIn(c, t);
            if t !in c.tasks || (c.tasks[t].state == Queued && t !in c.queue) then r == CancelResult(c, NotFound, None)
            else if c.tasks[t].state == Queued then
              && r.code == Ok && r.event.Some? && t in r.core.tasks
              && r.core == c.(tasks := c.tasks[t := r.core.tasks[t]], queue := Without(c.queue, {t}), wake := true)
              && r.core.tasks[t].state == Aborted && r.core.tasks[t].cancelToken && r.core.tasks[t].terminalStatus.code == Cancelled
            else if c.tasks[t].state == Running then
              r == CancelResult(c.(tasks := c.tasks[t := c.tasks[t].(cancelToken := true)]), Ok, None)
            else r == CancelResult(c, FailedPrecondition, None)
  {
    hide RemoveFirst;
    RemoveFirstOnce(c.queue, t);
  }

  /** The sections of OnWorkerIdle: the ledger entry is taken out, if there is one, and a running scheduler is asked to look. */
  lemma IdleOutcomes(c: Core, w: WorkerId)
    ensures var (c', found) := Erased(c, w);
            && found == (if w in c.running then Some(c.running[w].resources) else None)
            && w !in c'.running && c' == c.(running := c'.running)
            && forall x :: x != w ==> (x in c'.running <==> x in c.running) && (x in c.running ==> c'.running[x] == c.running[x])
    ensures Woken(c) == c.(wake := c.wake || (c.started && !c.stopping))
  {
  }

  // ---- Worker slots

  /** A slot accepts each of the three calls in one situation only; a refusal changes nothing. */
  lemma SlotAnswers(s: Slot, item: WorkItem)
    ensures var (s', code) := SlotReserve(s);
            && (code == Ok <==> s.started && !s.stopping && s.state == Idle)
            && (code == Unavailable <==> !s.started || s.stopping)
            && s' == (if code == Ok then s.(state := Reserved) else s)
    ensures var (s', code) := SlotDispatch(s, item);
            && (code == Ok <==> s.started && !s.stopping && s.state == Reserved && s.mailbox == None)
            && (code == Unavailable <==> !s.started || s.stopping)
            && s' == (if code == Ok then s.(state := Busy, mailbox := Some(item)) else s)
    ensures var (s', code) := SlotReleaseReservation(s);
            && (code == Ok <==> s.started && !s.stopping && s.state == Reserved && s.mailbox == None)
            && (code == Unavailable <==> !s.started || s.stopping)
            && s' == (if code == Ok then s.(state := Idle) else s)
    ensures SlotReserve(s).1 in {Ok, Unavailable, FailedPrecondition} && SlotDispatch(s, item).1 in {Ok, Unavailable, FailedPrecondition}
    ensures SlotReleaseReservation(s).1 in {Ok, Unavailable, FailedPrecondition}
  {
  }
}
