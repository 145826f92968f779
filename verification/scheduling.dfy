/** The scheduler's transactions as functions on the state they share: tasks, queue, pools, worker slots, ledger. */
module Scheduling {
  import opened Common
  import opened Resources
  import opened TaskManagement

  datatype WorkerState = Idle | Reserved | Busy

  datatype WorkItem = WorkItem(task: TaskId, execution: ExecutionId)

  datatype Slot = Slot(state: WorkerState, mailbox: Option<WorkItem>, started: bool, stopping: bool)

  datatype Reservation = Reservation(task: TaskId, resources: Bag)

  datatype Core = Core(
    tasks: Tasks,
    queue: seq<TaskId>,
    pools: map<WorkerId, Pool>,
    order: seq<WorkerId>,
    poolStarted: bool,
    slots: map<WorkerId, Slot>,
    running: map<WorkerId, Reservation>,
    started: bool,
    stopping: bool,
    wake: bool)

  // ---- ResourceManager

  function PoolAcquire(c: Core, w: WorkerId, request: Bag): (Core, StatusCode) {
    if w !in c.pools then (c, NotFound)
    else
      var (p, code) := Acquired(c.pools[w], request);
      (c.(pools := c.pools[w := p]), code)
  }

  function PoolRelease(c: Core, w: WorkerId, request: Bag): (Core, StatusCode) {
    if w !in c.pools then (c, NotFound)
    else
      var (p, code) := Released(c.pools[w], request);
      (c.(pools := c.pools[w := p]), code)
  }

  // ---- WorkerPool and Worker

  function SlotReserve(s: Slot): (Slot, StatusCode) {
    if !s.started || s.stopping then (s, Unavailable)
    else if s.state != Idle then (s, FailedPrecondition)
    else (s.(state := Reserved), Ok)
  }

  function SlotDispatch(s: Slot, item: WorkItem): (Slot, StatusCode) {
    if !s.started || s.stopping then (s, Unavailable)
    else if s.state != Reserved then (s, FailedPrecondition)
    else if s.mailbox.Some? then (s, FailedPrecondition)
    else (s.(mailbox := Some(item), state := Busy), Ok)
  }

  function SlotReleaseReservation(s: Slot): (Slot, StatusCode) {
    if !s.started || s.stopping then (s, Unavailable)
    else if s.state != Reserved then (s, FailedPrecondition)
    else if s.mailbox.Some? then (s, FailedPrecondition)
    else (s.(state := Idle), Ok)
  }

  function TryReserve(c: Core, w: WorkerId): (Core, StatusCode) {
    if !c.poolStarted then (c, Unavailable)
    else if w !in c.slots then (c, NotFound)
    else
      var (s, code) := SlotReserve(c.slots[w]);
      (c.(slots := c.slots[w := s]), code)
  }

  function ReleaseReservation(c: Core, w: WorkerId): (Core, StatusCode) {
    if !c.poolStarted then (c, Unavailable)
    else if w !in c.slots then (c, NotFound)
    else
      var (s, code) := SlotReleaseReservation(c.slots[w]);
      (c.(slots := c.slots[w := s]), code)
  }

  function DispatchReserved(c: Core, w: WorkerId, item: WorkItem): (Core, StatusCode) {
    if !c.poolStarted then (c, Unavailable)
    else if w !in c.slots then (c, NotFound)
    else
      var (s, code) := SlotDispatch(c.slots[w], item);
      (c.(slots := c.slots[w := s]), code)
  }

  /** The workers observed idle, in the pool's own order. */
  function IdleWorkers(order: seq<WorkerId>, slots: map<WorkerId, Slot>): (idle: seq<WorkerId>)
    ensures forall w :: w in idle <==> w in order && w in slots && slots[w].state == Idle
  {
    if order == [] then []
    else
      var rest := IdleWorkers(order[..|order|-1], slots);
      var w := order[|order|-1];
      if w in slots && slots[w].state == Idle then rest + [w] else rest
  }

  // ---- PlacementPolicy

  predicate FitsWorker(pools: map<WorkerId, Pool>, w: WorkerId, request: Bag) {
    w in pools && Fits(request, pools[w].available)
  }

  ghost predicate IsFirstFit(pools: map<WorkerId, Pool>, offered: seq<WorkerId>, request: Bag, w: WorkerId) {
    FitsWorker(pools, w, request) &&
    exists i :: 0 <= i < |offered| && offered[i] == w && forall j :: 0 <= j < i ==> !FitsWorker(pools, offered[j], request)
  }

  /** The first of the offered workers whose available capacity fits. */
  function FirstFit(pools: map<WorkerId, Pool>, offered: seq<WorkerId>, request: Bag): (r: Option<WorkerId>)
    ensures r.Some? ==> IsFirstFit(pools, offered, request, r.value) && r.value in offered
    ensures r.None? ==> forall w :: w in offered ==> !FitsWorker(pools, w, request)
  {
    if offered == [] then None
    else if FitsWorker(pools, offered[0], request) then Some(offered[0])
    else
      var r := FirstFit(pools, offered[1..], request);
      assert forall w :: w in offered ==> w == offered[0] || w in offered[1..];
      assert r.Some? ==> IsFirstFit(pools, offered, request, r.value) by {
        if r.Some? {
          var k :| 0 <= k < |offered[1..]| && offered[1..][k] == r.value
                   && forall j :: 0 <= j < k ==> !FitsWorker(pools, offered[1..][j], request);
          assert offered[k+1] == r.value;
          assert forall j :: 0 <= j < k + 1 ==> j == 0 || offered[j] == offered[1..][j-1];
        }
      }
      r
  }

  /** The worker the FIFO head would go to right now, if any. */
  function Choice(c: Core): Option<WorkerId> {
    if c.queue == [] || c.queue[0] !in c.tasks then None
    else FirstFit(c.pools, IdleWorkers(c.order, c.slots), c.tasks[c.queue[0]].request)
  }

  // ---- Scheduler

  function Enqueued(c: Core, t: TaskId): (Core, StatusCode) {
    if !c.started || c.stopping then (c, Unavailable)
    else
      var u := Moved(c.tasks, t, Queued);
      if u.code != Ok then (c, u.code)
      else (c.(tasks := u.tasks, queue := c.queue + [t], wake := true), Ok)
  }

  /** The result of Scheduler::Cancel: the new state, the code, and the completion event of a queued task. */
  datatype CancelResult = CancelResult(core: Core, code: StatusCode, event: Option<Completion>)

  function CancelledIn(c: Core, t: TaskId): CancelResult {
    if t !in c.tasks then CancelResult(c, NotFound, None)
    else if c.tasks[t].state == Queued then
      if t !in c.queue then CancelResult(c, NotFound, None)
      else
        var c1 := c.(queue := RemoveFirst(c.queue, t));
        var u := CancelledTask(c1.tasks, t);
        if u.code != Ok then CancelResult(c1, u.code, u.event)
        else CancelResult(c1.(tasks := u.tasks, wake := true), Ok, u.event)
    else
      var u := CancelledTask(c.tasks, t);
      CancelResult(c.(tasks := u.tasks), u.code, u.event)
  }

  /** std::find followed by erase. */
  function RemoveFirst(q: seq<TaskId>, t: TaskId): seq<TaskId> {
    if q == [] then []
    else if q[0] == t then q[1..]
    else [q[0]] + RemoveFirst(q[1..], t)
  }

  /** The result of TryScheduleOne; `worker` is where the head was dispatched. */
  datatype Attempt = Attempt(core: Core, code: StatusCode, worker: Option<WorkerId>)

  /** Undo of the two reservations; the statuses are discarded, as in the source. */
  function RolledBack(c: Core, w: WorkerId, request: Bag): Core {
    ReleaseReservation(PoolRelease(c, w, request).0, w).0
  }

  /** The whole scheduling transaction, branch for branch, given the worker that placement comes to. */
  function TryScheduleAt(c: Core, chosen: Option<WorkerId>, e: ExecutionId): Attempt {
    if c.stopping then Attempt(c, Ok, None)
    else if c.queue == [] then Attempt(c, Ok, None)
    else if c.queue[0] !in c.tasks then Attempt(c, NotFound, None)
    else if chosen.None? then Attempt(c, Ok, None)
    else ScheduleOn(c, c.queue[0], c.tasks[c.queue[0]].request, chosen.value, e)
  }

  /** The transaction when nothing changes while placement looks at one worker after the other. */
  function TrySchedule(c: Core, e: ExecutionId): Attempt {
    TryScheduleAt(c, Choice(c), e)
  }

  /** The transaction from the reservation of the placed worker on; `t` and `request` are the head and its copied spec. */
  function ScheduleOn(c: Core, t: TaskId, request: Bag, w: WorkerId, e: ExecutionId): Attempt {
    var (c1, reserved) := TryReserve(c, w);
    if reserved != Ok then Attempt(c1, Ok, None)
    else
      var (c2, acquired) := PoolAcquire(c1, w, request);
      if acquired != Ok then Attempt(ReleaseReservation(c2, w).0, Ok, None)
      // GetHandler and GetCancellationToken fail only for an unknown task
      else if t !in c2.tasks then Attempt(RolledBack(c2, w, request), NotFound, None)
      else if c2.queue == [] then Attempt(RolledBack(c2, w, request), NotFound, None)
      else
        var c3 := c2.(queue := c2.queue[1..]);
        if c2.queue[0] != t then Attempt(RolledBack(c3, w, request), Internal, None)
        else Handover(c3, t, w, request, e)
  }

  /** The part of the transaction after Pop, which can no longer restore the queue. */
  function Handover(c: Core, t: TaskId, w: WorkerId, request: Bag, e: ExecutionId): Attempt {
    var u := MovedToScheduled(c.tasks, t, w, e);
    if u.code != Ok then Attempt(RolledBack(c, w, request), u.code, None)
    else Sent(c.(tasks := u.tasks), t, w, request, e)
  }

  /** emplace, which keeps an entry that is already there, and the dispatch to the reserved worker. */
  function Sent(c: Core, t: TaskId, w: WorkerId, request: Bag, e: ExecutionId): Attempt {
    var c1 := c.(running := if w in c.running then c.running else c.running[w := Reservation(t, request)]);
    var (c2, dispatched) := DispatchReserved(c1, w, WorkItem(t, e));
    if dispatched != Ok then Attempt(RolledBack(c2.(running := c2.running - {w}), w, request), dispatched, None)
    else Attempt(c2, Ok, Some(w))
  }

  // The three critical sections of OnWorkerIdle.

  function Erased(c: Core, w: WorkerId): (Core, Option<Bag>) {
    if w in c.running then (c.(running := c.running - {w}), Some(c.running[w].resources)) else (c, None)
  }

  function Woken(c: Core): Core {
    if c.started && !c.stopping then c.(wake := true) else c
  }

  /** What every transaction can rely on whenever Scheduler::mu_ is free in a started runtime. */
  ghost predicate Ready(c: Core) {
    && (forall t :: t in c.tasks ==> Canonical(c.tasks[t].request))
    && (forall t :: t in c.queue ==> t in c.tasks && c.tasks[t].state == Queued)
    && (forall w :: w in c.pools ==> PoolOk(c.pools[w]))
    && (forall w :: w in c.slots && c.slots[w].state == Idle ==> c.slots[w].mailbox.None?)
    && (!c.stopping ==> c.poolStarted && forall w :: w in c.slots ==> c.slots[w].started && !c.slots[w].stopping)
  }

  /** The state after the FIFO head `t` went to worker `w`. */
  function Dispatched(c: Core, w: WorkerId, e: ExecutionId): Core
    requires |c.queue| > 0 && c.queue[0] in c.tasks && w in c.pools && w in c.slots
  {
    var t := c.queue[0];
    var r := c.tasks[t];
    c.(queue := c.queue[1..],
       tasks := c.tasks[t := r.(state := Scheduled, attempt := r.attempt + 1, worker := Some(w), execution := Some(e))],
       pools := c.pools[w := c.pools[w].(available := Minus(c.pools[w].available, r.request))],
       slots := c.slots[w := c.slots[w].(state := Busy, mailbox := Some(WorkItem(t, e)))],
       running := if w in c.running then c.running else c.running[w := Reservation(t, r.request)])
  }

  /** The head exists and `w` is an idle worker with room for it. */
  predicate Placeable(c: Core, w: WorkerId) {
    && c.queue != [] && c.queue[0] in c.tasks
    && w in c.order && w in c.slots && c.slots[w].state == Idle
    && FitsWorker(c.pools, w, c.tasks[c.queue[0]].request)
  }

  /**
   * In a ready state, whichever idle worker with room placement comes to, no failure and no rollback branch is taken:
   * the head is dispatched to that very worker, or, if there is none, nothing changes.
   */
  lemma TryScheduleIsAtomic(c: Core, chosen: Option<WorkerId>, e: ExecutionId)
    requires Ready(c) && (chosen.Some? ==> Placeable(c, chosen.value))
    ensures TryScheduleAt(c, chosen, e) ==
            if c.stopping || chosen.None? then Attempt(c, Ok, None) else Attempt(Dispatched(c, chosen.value, e), Ok, chosen)
  {
    if !c.stopping && chosen.Some? {
      ScheduleOnSucceeds(c, chosen.value, e);
    }
  }

  /** Placement itself comes to an idle worker with room, or to none if there is none. */
  lemma ChoiceIsPlaceable(c: Core)
    ensures Choice(c).Some? ==> Placeable(c, Choice(c).value)
  {
    ChoiceIsIdleAndFits(c);
  }

  lemma ChoiceIsIdleAndFits(c: Core)
    ensures Choice(c).Some? ==>
              var w := Choice(c).value;
              && w in c.order && w in c.slots && c.slots[w].state == Idle
              && c.queue != [] && c.queue[0] in c.tasks
              && FitsWorker(c.pools, w, c.tasks[c.queue[0]].request)
  {
  }

  lemma ScheduleOnSucceeds(c: Core, w: WorkerId, e: ExecutionId)
    requires c.queue != [] && c.queue[0] in c.tasks
    requires c.tasks[c.queue[0]].state == Queued && Canonical(c.tasks[c.queue[0]].request)
    requires c.poolStarted && w in c.slots && c.slots[w] == Slot(Idle, None, true, false)
    requires FitsWorker(c.pools, w, c.tasks[c.queue[0]].request)
    ensures ScheduleOn(c, c.queue[0], c.tasks[c.queue[0]].request, w, e) == Attempt(Dispatched(c, w, e), Ok, Some(w))
  {
    var t := c.queue[0];
    var request := c.tasks[t].request;
    ReservationsSucceed(c, w, request);
    var (slots, pools) := Reservations(c, w, request);
    var c3 := c.(slots := slots, pools := pools, queue := c.queue[1..]);
    HandoverSucceeds(c3, t, w, request, e);
    assert c.slots[w := c.slots[w].(state := Busy, mailbox := Some(WorkItem(t, e)))]
           == slots[w := slots[w].(state := Busy, mailbox := Some(WorkItem(t, e)))];
    assert ScheduleOn(c, t, request, w, e) == Handover(c3, t, w, request, e);
  }

  /** The slots and pools after worker `w` and `request` are reserved. */
  function Reservations(c: Core, w: WorkerId, request: Bag): (map<WorkerId, Slot>, map<WorkerId, Pool>)
    requires w in c.slots && w in c.pools
  {
    (c.slots[w := c.slots[w].(state := Reserved)],
     c.pools[w := c.pools[w].(available := Minus(c.pools[w].available, request))])
  }

  lemma ReservationsSucceed(c: Core, w: WorkerId, request: Bag)
    requires Canonical(request) && w in c.slots && w in c.pools
    requires c.poolStarted && c.slots[w].started && !c.slots[w].stopping && c.slots[w].state == Idle
    requires Fits(request, c.pools[w].available)
    ensures var (slots, pools) := Reservations(c, w, request);
            && TryReserve(c, w) == (c.(slots := slots), Ok)
            && PoolAcquire(c.(slots := slots), w, request) == (c.(slots := slots, pools := pools), Ok)
  {
  }

  lemma HandoverSucceeds(c: Core, t: TaskId, w: WorkerId, request: Bag, e: ExecutionId)
    requires t in c.tasks && c.tasks[t].state == Queued
    requires c.poolStarted && w in c.slots && c.slots[w] == Slot(Reserved, None, true, false)
    ensures var r := c.tasks[t];
            Handover(c, t, w, request, e) ==
            Attempt(c.(tasks := c.tasks[t := r.(state := Scheduled, attempt := r.attempt + 1,
                                                worker := Some(w), execution := Some(e))],
                       slots := c.slots[w := c.slots[w].(state := Busy, mailbox := Some(WorkItem(t, e)))],
                       running := if w in c.running then c.running else c.running[w := Reservation(t, request)]),
                    Ok, Some(w))
  {
    var r := c.tasks[t];
    assert c.tasks[t := r.(state := Scheduled)][t := r.(state := Scheduled, attempt := r.attempt + 1,
                                                        worker := Some(w), execution := Some(e))]
           == c.tasks[t := r.(state := Scheduled, attempt := r.attempt + 1, worker := Some(w), execution := Some(e))];
  }

  lemma WithoutCons(q: seq<TaskId>, t: TaskId)
    requires q != []
    ensures Without(q, {t}) == (if q[0] == t then [] else [q[0]]) + Without(q[1..], {t})
  {
    assert q == [q[0]] + q[1..] && [q[0]][..0] == [];
    WithoutAppend([q[0]], q[1..], {t});
  }

  lemma TailIsDistinct(q: seq<TaskId>)
    requires q != [] && Distinct(q)
    ensures Distinct(q[1..]) && q[0] !in q[1..]
  {
    assert forall i :: 0 <= i < |q| - 1 ==> q[1..][i] == q[i+1];
  }

  lemma {:induction false} RemoveFirstOnce(q: seq<TaskId>, t: TaskId)
    requires Distinct(q)
    ensures RemoveFirst(q, t) == Without(q, {t})
    ensures Distinct(RemoveFirst(q, t))
    ensures forall x :: x in RemoveFirst(q, t) <==> x in q && x != t
  {
    if q != [] {
      var rest := q[1..];
      RemoveFirstOnce(rest, t);
      WithoutCons(q, t);
      TailIsDistinct(q);
      var kept := RemoveFirst(rest, t);
      assert forall x :: x in q <==> x == q[0] || x in rest;
      if q[0] == t {
        WithoutNothing(rest, {t});
      } else {
        assert Distinct([q[0]] + kept);
      }
    }
  }

  /** In a ready state cancelling a queued task takes it out of the queue and never fails halfway. */
  lemma CancelNeverHalfDone(c: Core, t: TaskId)
    requires Ready(c) && Distinct(c.queue)
    requires t in c.tasks && c.tasks[t].state == Queued && t in c.queue
    ensures CancelledIn(c, t).code == Ok
    ensures CancelledIn(c, t).core == c.(queue := Without(c.queue, {t}), tasks := CancelledTask(c.tasks, t).tasks, wake := true)
    ensures CancelledIn(c, t).core.tasks[t].state == Aborted && CancelledIn(c, t).event.Some?
  {
    RemoveFirstOnce(c.queue, t);
  }
}
