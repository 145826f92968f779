/** The objects of the local runtime, each method proved to compute the transaction of the same name in Scheduling. */
module SchedulerObjects {
  import opened Common
  import opened Resources
  import opened TaskManagement
  import opened Scheduling
  import opened SchedulingOutcomes
  import LocalRuntime

  // ---- TaskQueue

  class TaskQueue {
    var queue: seq<TaskId>

    constructor ()
      ensures queue == []
    {
      queue := [];
    }

    method Push(id: TaskId)
      modifies this
      ensures queue == old(queue) + [id]
    {
      queue := queue + [id];
    }

    method Pop() returns (id: Option<TaskId>)
      modifies this
      ensures if old(queue) == [] then id == None && queue == [] else id == Some(old(queue)[0]) && queue == old(queue)[1..]
    {
      if queue == [] {
        return None;
      }
      id := Some(queue[0]);
      queue := queue[1..];
    }

    method Peek() returns (id: Option<TaskId>)
      ensures id == if queue == [] then None else Some(queue[0])
    {
      if queue == [] {
        return None;
      }
      return Some(queue[0]);
    }

    /** std::find, then erase. */
    method Remove(id: TaskId) returns (code: StatusCode)
      modifies this
      ensures code == if id in old(queue) then Ok else NotFound
      ensures queue == RemoveFirst(old(queue), id)
    {
      var i := 0;
      while i < |queue| && queue[i] != id
        invariant 0 <= i <= |queue| && id !in queue[..i] && queue == old(queue)
      {
        assert queue[..i+1] == queue[..i] + [queue[i]];
        i := i + 1;
      }
      RemoveFirstAt(queue, id, i);
      if i == |queue| {
        assert queue[..i] == queue;
        return NotFound;
      }
      queue := queue[..i] + queue[i+1..];
      return Ok;
    }
  }

  lemma {:induction false} RemoveFirstAt(q: seq<TaskId>, id: TaskId, i: nat)
    requires i <= |q| && id !in q[..i] && (i < |q| ==> q[i] == id)
    ensures RemoveFirst(q, id) == if i == |q| then q else q[..i] + q[i+1..]
    decreases i
  {
    if i == 0 {
      assert i < |q| ==> q[..0] + q[1..] == q[1..];
    } else {
      assert q[0] == q[..i][0];
      assert q[1..][..i-1] == q[..i][1..];
      RemoveFirstAt(q[1..], id, i - 1);
      if i < |q| {
        assert q[..i] + q[i+1..] == [q[0]] + (q[1..][..i-1] + q[1..][i..]);
      } else {
        assert q == [q[0]] + q[1..];
      }
    }
  }

  // ---- ResourceManager and PlacementPolicy

  /** ResourceManager: one pool object per worker; `contents` is what they hold. */
  class ResourceManager {
    var pools: map<WorkerId, ResourcePool>
    ghost var contents: map<WorkerId, Pool>

    ghost function Footprint(): set<object>
      reads this`pools
    {
      set w | w in pools :: pools[w].available
    }

    /** Every pool is in order, and no two share their available set. */
    ghost predicate Valid()
      reads this, Footprint()
    {
      Apart() && Matches({})
    }

    ghost predicate Apart()
      reads this`pools
    {
      forall w, v :: w in pools && v in pools && w != v ==> pools[w].available != pools[v].available
    }

    /** `contents` is up to date, except possibly for the workers in `but`. */
    ghost predicate Matches(but: set<WorkerId>)
      reads this, Footprint()
    {
      && contents.Keys == pools.Keys
      && (forall w :: w in pools && w !in but ==> contents[w] == pools[w].Value() && PoolOk(contents[w]))
    }

    ghost method Refresh(w: WorkerId)
      requires Apart() && w in pools && Matches({w}) && pools[w].Valid()
      modifies this`contents
      ensures Valid() && contents == old(contents)[w := old(pools[w].Value())]
    {
      contents := contents[w := pools[w].Value()];
    }

    constructor ()
      ensures Valid() && pools == map[] && contents == map[]
    {
      pools, contents := map[], map[];
    }

    method RegisterWorker(w: WorkerId, capacity: map<string, Quantity>) returns (code: StatusCode)
      requires Valid() && Canonical(capacity)
      modifies this
      ensures Valid() && fresh(Footprint() - old(Footprint()))
      ensures code == if w in old(contents) then AlreadyExists else Ok
      ensures contents == if w in old(contents) then old(contents) else old(contents)[w := Pool(capacity, capacity)]
    {
      if w in pools {
        return AlreadyExists;
      }
      var pool := new ResourcePool(capacity);
      pools := pools[w := pool];
      contents := contents[w := Pool(capacity, capacity)];
      return Ok;
    }

    method CanFitAvailable(w: WorkerId, request: map<string, Quantity>) returns (fits: bool)
      requires Valid()
      ensures fits == FitsWorker(contents, w, request)
    {
      if w !in pools {
        return false;
      }
      assert contents[w] == pools[w].Value();
      fits := pools[w].CanFit(request);
    }

    method CanFitTotal(w: WorkerId, request: map<string, Quantity>) returns (fits: bool)
      requires Valid()
      ensures fits == (w in contents && Fits(request, contents[w].total))
    {
      if w !in pools {
        return false;
      }
      assert contents[w] == pools[w].Value();
      var total := pools[w].total;
      var todo := request.Keys;
      while todo != {}
        invariant todo <= request.Keys
        invariant forall n :: n in request && n !in todo ==> request[n] <= Get(total, n)
        decreases todo
      {
        var name :| name in todo;
        if Get(total, name) < request[name] {
          return false;
        }
        todo := todo - {name};
      }
      return true;
    }

    method Acquire(w: WorkerId, request: map<string, Quantity>) returns (code: StatusCode)
      requires Valid() && Canonical(request)
      modifies this`contents, Footprint()
      ensures Valid()
      ensures if w !in old(contents) then code == NotFound && contents == old(contents)
              else contents == old(contents)[w := Acquired(old(contents)[w], request).0] && code == Acquired(old(contents)[w], request).1
    {
      if w !in pools {
        return NotFound;
      }
      hide Canonical, PoolOk, Acquired;
      code := pools[w].Acquire(request);
      Refresh(w);
    }

    method Release(w: WorkerId, request: map<string, Quantity>) returns (code: StatusCode)
      requires Valid() && Canonical(request)
      modifies this`contents, Footprint()
      ensures Valid()
      ensures if w !in old(contents) then code == NotFound && contents == old(contents)
              else contents == old(contents)[w := Released(old(contents)[w], request).0] && code == Released(old(contents)[w], request).1
    {
      if w !in pools {
        return NotFound;
      }
      hide Canonical, PoolOk, Released;
      code := pools[w].Release(request);
      Refresh(w);
    }
  }

  /** PlacementPolicy::SelectWorker. */
  method SelectWorker(request: map<string, Quantity>, idle: seq<WorkerId>, resources: ResourceManager) returns (w: Option<WorkerId>)
    requires resources.Valid()
    ensures w == FirstFit(resources.contents, idle, request)
  {
    hide FirstFit, IsFirstFit, FitsWorker;
    assert idle[0..] == idle;
    for i := 0 to |idle|
      invariant FirstFit(resources.contents, idle, request) == FirstFit(resources.contents, idle[i..], request)
    {
      FirstFitNext(resources.contents, idle, i, request);
      var fits := resources.CanFitAvailable(idle[i], request);
      if fits {
        return Some(idle[i]);
      }
    }
    FirstFitNone(resources.contents, idle, request);
    return None;
  }

  lemma FirstFitNext(pools: map<WorkerId, Pool>, idle: seq<WorkerId>, i: nat, request: Bag)
    requires i < |idle|
    ensures FirstFit(pools, idle[i..], request)
            == if FitsWorker(pools, idle[i], request) then Some(idle[i]) else FirstFit(pools, idle[i+1..], request)
  {
    assert idle[i..][0] == idle[i] && idle[i..][1..] == idle[i+1..];
  }

  lemma FirstFitNone(pools: map<WorkerId, Pool>, idle: seq<WorkerId>, request: Bag)
    ensures FirstFit(pools, idle[|idle|..], request) == None
  {
  }

  // ---- Worker and WorkerPool

  /** Worker: the state its own mutex protects. */
  class Worker {
    var state: WorkerState
    var mailbox: Option<WorkItem>
    var started: bool
    var stopping: bool

    ghost function Value(): Slot
      reads this
    {
      Slot(state, mailbox, started, stopping)
    }

    constructor ()
      ensures Value() == Slot(Idle, None, false, false)
    {
      state, mailbox, started, stopping := Idle, None, false, false;
    }

    method Reserve() returns (code: StatusCode)
      modifies this
      ensures (Value(), code) == SlotReserve(old(Value()))
    {
      if !started || stopping {
        return Unavailable;
      }
      if state != Idle {
        return FailedPrecondition;
      }
      state := Reserved;
      return Ok;
    }

    method Dispatch(work: WorkItem) returns (code: StatusCode)
      modifies this
      ensures (Value(), code) == SlotDispatch(old(Value()), work)
    {
      if !started || stopping {
        return Unavailable;
      }
      if state != Reserved {
        return FailedPrecondition;
      }
      if mailbox.Some? {
        return FailedPrecondition;
      }
      mailbox := Some(work);
      state := Busy;
      return Ok;
    }

    method ReleaseReservation() returns (code: StatusCode)
      modifies this
      ensures (Value(), code) == SlotReleaseReservation(old(Value()))
    {
      if !started || stopping {
        return Unavailable;
      }
      if state != Reserved {
        return FailedPrecondition;
      }
      if mailbox.Some? {
        return FailedPrecondition;
      }
      state := Idle;
      return Ok;
    }

    /** The wait of the worker thread returned: stop, or take the mailbox. A stopping worker empties its mailbox first. */
    method Take() returns (work: Option<WorkItem>)
      requires stopping || mailbox.Some?
      modifies this
      ensures work == old(mailbox) && Value() == old(Value()).(mailbox := None)
      ensures work.None? ==> old(stopping)
    {
      if stopping && mailbox.None? {
        return None;
      }
      work := mailbox;
      mailbox := None;
    }

    method BecomeIdle()
      modifies this
      ensures Value() == old(Value()).(state := Idle)
    {
      state := Idle;
    }
  }

  /** WorkerPool: its order and its worker objects, both fixed; `slots` is the state of each. */
  class WorkerPool {
    const order: seq<WorkerId>
    const workers: map<WorkerId, Worker>
    var started: bool
    ghost var slots: map<WorkerId, Slot>

    ghost function Footprint(): set<object> {
      set w | w in workers :: workers[w]
    }

    /** `slots` is up to date, and no worker serves two identifiers. */
    ghost predicate Valid()
      reads this, Footprint()
    {
      && slots.Keys == workers.Keys && (forall w :: w in workers ==> slots[w] == workers[w].Value())
      && (forall w, v :: w in workers && v in workers && w != v ==> workers[w] != workers[v])
    }

    constructor (order: seq<WorkerId>, workers: map<WorkerId, Worker>)
      requires forall w, v :: w in workers && v in workers && w != v ==> workers[w] != workers[v]
      ensures Valid() && this.order == order && this.workers == workers && !started
    {
      this.order, this.workers, started := order, workers, false;
      slots := map w | w in workers :: workers[w].Value();
    }

    method IdleWorkers() returns (idle: seq<WorkerId>)
      requires Valid()
      ensures idle == Scheduling.IdleWorkers(order, slots)
      ensures idle == Without(order, set w | w in order && !(w in slots && slots[w].state == Idle))
    {
      idle := [];
      for i := 0 to |order|
        invariant idle == Scheduling.IdleWorkers(order[..i], slots)
      {
        assert order[..i+1][..i] == order[..i];
        if order[i] in workers && workers[order[i]].state == Idle {
          idle := idle + [order[i]];
        }
      }
      assert order[..|order|] == order;
      IdleIsOrderWithoutBusy(order, slots);
    }

    method TryReserve(w: WorkerId) returns (code: StatusCode)
      requires Valid()
      modifies this`slots, Footprint()
      ensures Valid()
      ensures !started ==> code == Unavailable && slots == old(slots)
      ensures started && w !in old(slots) ==> code == NotFound && slots == old(slots)
      ensures started && w in old(slots) ==>
                slots == old(slots)[w := SlotReserve(old(slots)[w]).0] && code == SlotReserve(old(slots)[w]).1
    {
      if !started {
        return Unavailable;
      }
      if w !in workers {
        return NotFound;
      }
      hide SlotReserve;
      code := workers[w].Reserve();
      slots := slots[w := workers[w].Value()];
    }

    method ReleaseReservation(w: WorkerId) returns (code: StatusCode)
      requires Valid()
      modifies this`slots, Footprint()
      ensures Valid()
      ensures !started ==> code == Unavailable && slots == old(slots)
      ensures started && w !in old(slots) ==> code == NotFound && slots == old(slots)
      ensures started && w in old(slots) ==>
                slots == old(slots)[w := SlotReleaseReservation(old(slots)[w]).0] && code == SlotReleaseReservation(old(slots)[w]).1
    {
      if !started {
        return Unavailable;
      }
      if w !in workers {
        return NotFound;
      }
      hide SlotReleaseReservation;
      code := workers[w].ReleaseReservation();
      slots := slots[w := workers[w].Value()];
    }

    method DispatchReserved(w: WorkerId, work: WorkItem) returns (code: StatusCode)
      requires Valid()
      modifies this`slots, Footprint()
      ensures Valid()
      ensures !started ==> code == Unavailable && slots == old(slots)
      ensures started && w !in old(slots) ==> code == NotFound && slots == old(slots)
      ensures started && w in old(slots) ==>
                slots == old(slots)[w := SlotDispatch(old(slots)[w], work).0] && code == SlotDispatch(old(slots)[w], work).1
    {
      if !started {
        return Unavailable;
      }
      if w !in workers {
        return NotFound;
      }
      hide SlotDispatch;
      code := workers[w].Dispatch(work);
      slots := slots[w := workers[w].Value()];
    }
  }

  // ---- Scheduler

  /** A canonical resource request as the int64 quantities it consists of. */
  function Quantities(request: Bag): (q: map<string, Quantity>)
    requires Canonical(request)
    ensures q == request
  {
    request
  }

  class Scheduler {
    const manager: TaskManager
    const queue: TaskQueue
    const resources: ResourceManager
    const pool: WorkerPool
    var running: map<WorkerId, Reservation>
    var started: bool
    var stopping: bool
    var wake: bool

    ghost function Value(): Core
      reads this, manager, queue, resources, pool
    {
      Core(manager.records, queue.queue, resources.contents, pool.order, pool.started, pool.slots, running, started, stopping, wake)
    }

    /** The parts are in order and apart, and every request kept anywhere is canonical. */
    ghost predicate Valid()
      reads this, manager, resources, resources.Footprint(), pool, pool.Footprint()
    {
      && resources.Valid() && pool.Valid()
      && resources.Footprint() !! pool.Footprint()
      && resources.Footprint() !! {this, manager, queue, resources, pool}
      && pool.Footprint() !! {this, manager, queue, resources, pool}
      && (forall t :: t in manager.records ==> Canonical(manager.records[t].request))
      && (forall w :: w in running ==> Canonical(running[w].resources))
    }

    constructor (manager: TaskManager, queue: TaskQueue, resources: ResourceManager, pool: WorkerPool)
      requires resources.Valid() && pool.Valid()
      requires forall t :: t in manager.records ==> Canonical(manager.records[t].request)
      ensures Valid()
      ensures this.manager == manager && this.queue == queue && this.resources == resources && this.pool == pool
      ensures running == map[] && !started && !stopping && !wake
    {
      this.manager, this.queue, this.resources, this.pool := manager, queue, resources, pool;
      running, started, stopping, wake := map[], false, false, false;
    }

    method Enqueue(id: TaskId) returns (code: StatusCode)
      requires Valid()
      modifies this`wake, manager, queue
      ensures Valid() && (Value(), code) == Enqueued(old(Value()), id)
    {
      hide ResourceManager.Valid, WorkerPool.Valid;
      hide Canonical;
      if !started || stopping {
        return Unavailable;
      }
      var queued := manager.MarkQueued(id);
      if queued != Ok {
        assert manager.records == old(manager.records);
        return queued;
      }
      queue.Push(id);
      wake := true;
      return Ok;
    }

    method Cancel(id: TaskId) returns (code: StatusCode, event: Option<Completion>)
      requires Valid()
      modifies this`wake, manager, queue
      ensures Valid() && CancelResult(Value(), code, event) == CancelledIn(old(Value()), id)
    {
      hide ResourceManager.Valid, WorkerPool.Valid;
      hide RemoveFirst, Canonical;
      if id !in manager.records {
        return NotFound, None;
      }
      if manager.records[id].state == Queued {
        var removed := queue.Remove(id);
        if removed != Ok {
          NotRemoved(old(queue.queue), id);
          return removed, None;
        }
        code, event := manager.Cancel(id);
        if code != Ok {
          return;
        }
        wake := true;
        return;
      }
      code, event := manager.Cancel(id);
    }

    lemma NotRemoved(q: seq<TaskId>, id: TaskId)
      requires id !in q
      ensures RemoveFirst(q, id) == q
    {
    }

    /** The first critical section of OnWorkerIdle. */
    method EraseReservation(w: WorkerId) returns (found: Option<Bag>)
      requires Valid()
      modifies this`running
      ensures Valid() && (Value(), found) == Erased(old(Value()), w)
      ensures found.Some? ==> Canonical(found.value)
    {
      hide ResourceManager.Valid, WorkerPool.Valid;
      hide Canonical;
      if w in running {
        found := Some(running[w].resources);
        running := running - {w};
      } else {
        found := None;
      }
    }

    /** Its last one. */
    method RequestWake()
      requires Valid()
      modifies this`wake
      ensures Valid() && Value() == Woken(old(Value()))
    {
      hide ResourceManager.Valid, WorkerPool.Valid;
      hide Canonical;
      if started && !stopping {
        wake := true;
      }
    }

    /** OnWorkerIdle without anything in between. */
    method OnWorkerIdle(w: WorkerId)
      requires Valid()
      modifies this`running, this`wake, resources`contents, resources.Footprint()
      ensures Valid()
      ensures var (c, found) := Erased(old(Value()), w);
              Value() == Woken(if found.Some? then PoolRelease(c, w, found.value).0 else c)
    {
      hide ResourceManager.Valid, WorkerPool.Valid;
      var found := EraseReservation(w);
      if found.Some? {
        Return(w, found.value);
      }
      RequestWake();
    }

    /** The release between them; its status is discarded. */
    method Return(w: WorkerId, request: Bag)
      requires Valid() && Canonical(request)
      modifies resources`contents, resources.Footprint()
      ensures Valid()
      ensures Value() == PoolRelease(old(Value()), w, request).0
    {
      hide ResourceManager.Valid, WorkerPool.Valid;
      var quantities := Quantities(request);
      hide Canonical, Released;
      var code := resources.Release(w, quantities);
    }

    method UndoReservations(w: WorkerId, request: Bag)
      requires Valid() && Canonical(request)
      modifies resources`contents, resources.Footprint(), pool`slots, pool.Footprint()
      ensures Valid()
      ensures Value() == RolledBack(old(Value()), w, request)
    {
      hide ResourceManager.Valid, WorkerPool.Valid;
      hide Canonical, PoolRelease, SlotReleaseReservation;
      Return(w, request);
      FreeWorker(w);
    }

    /** Giving a reserved worker back; its status is discarded. */
    method FreeWorker(w: WorkerId)
      requires Valid()
      modifies pool`slots, pool.Footprint()
      ensures Valid()
      ensures Value() == Scheduling.ReleaseReservation(old(Value()), w).0
    {
      hide ResourceManager.Valid, WorkerPool.Valid;
      hide Canonical, SlotReleaseReservation;
      var code := pool.ReleaseReservation(w);
    }

    /** One scheduling transaction; `worker` is where the head went. */
    method TryScheduleOne(e: ExecutionId) returns (code: StatusCode, worker: Option<WorkerId>)
      requires Valid()
      modifies this`running, manager, queue, resources`contents, resources.Footprint(), pool`slots, pool.Footprint()
      ensures Valid() && Attempt(Value(), code, worker) == TrySchedule(old(Value()), e)
      ensures WentToEarliest(old(Value()), e, Attempt(Value(), code, worker))
    {
      hide ResourceManager.Valid, WorkerPool.Valid, WentToEarliest, FirstFit, Scheduling.IdleWorkers, ScheduleOn, Canonical, Without;
      GoesToEarliest(Value(), e);
      if stopping {
        return Ok, None;
      }
      var head := queue.Peek();
      if head.None? {
        return Ok, None;
      }
      var known, spec := manager.GetSpec(head.value);
      if known != Ok {
        return known, None;
      }
      var request := Quantities(spec.value);
      var idle := pool.IdleWorkers();
      if idle == [] {
        NobodyFits(resources.contents, request);
        return Ok, None;
      }
      var selected := SelectWorker(request, idle, resources);
      if selected.None? {
        return Ok, None;
      }
      code, worker := ReserveAndHandOver(head.value, selected.value, request, e);
    }

    lemma NobodyFits(pools: map<WorkerId, Pool>, request: Bag)
      ensures FirstFit(pools, [], request) == None
    {
    }

    /** From the reservation of the placed worker up to Pop. */
    method ReserveAndHandOver(t: TaskId, w: WorkerId, request: map<string, Quantity>, e: ExecutionId)
      returns (code: StatusCode, worker: Option<WorkerId>)
      requires Valid() && Canonical(request)
      modifies this`running, manager, queue, resources`contents, resources.Footprint(), pool`slots, pool.Footprint()
      ensures Valid() && Attempt(Value(), code, worker) == ScheduleOn(old(Value()), t, request, w, e)
    {
      hide ResourceManager.Valid, WorkerPool.Valid;
      hide Handover, Acquired, SlotReserve, RolledBack, Canonical;
      var reserved := pool.TryReserve(w);
      if reserved != Ok {
        return Ok, None;
      }
      var acquired := resources.Acquire(w, request);
      if acquired != Ok {
        FreeWorker(w);
        return Ok, None;
      }
      var known := manager.GetHandler(t);
      if known == Ok {
        var token;
        known, token := manager.GetCancellationToken(t);
      }
      if known != Ok {
        UndoReservations(w, request);
        return known, None;
      }
      code, worker := PopAndHandOver(t, w, request, e);
    }

    /** Pop, which must still find the head that was peeked. */
    method PopAndHandOver(t: TaskId, w: WorkerId, request: Bag, e: ExecutionId) returns (code: StatusCode, worker: Option<WorkerId>)
      requires Valid() && Canonical(request)
      modifies this`running, manager, queue, resources`contents, resources.Footprint(), pool`slots, pool.Footprint()
      ensures Valid()
      ensures Attempt(Value(), code, worker) ==
              var c := old(Value());
              if c.queue == [] then Attempt(RolledBack(c, w, request), NotFound, None)
              else
                var c' := c.(queue := c.queue[1..]);
                if c.queue[0] != t then Attempt(RolledBack(c', w, request), Internal, None) else Handover(c', t, w, request, e)
    {
      hide ResourceManager.Valid, WorkerPool.Valid;
      hide Handover, RolledBack, Canonical;
      var popped := queue.Pop();
      if popped.None? {
        UndoReservations(w, request);
        return NotFound, None;
      }
      if popped.value != t {
        UndoReservations(w, request);
        return Internal, None;
      }
      code, worker := HandOver(t, w, request, e);
    }

    /** From MarkScheduled to the end. */
    method HandOver(t: TaskId, w: WorkerId, request: Bag, e: ExecutionId) returns (code: StatusCode, worker: Option<WorkerId>)
      requires Valid() && Canonical(request)
      modifies this`running, manager, resources`contents, resources.Footprint(), pool`slots, pool.Footprint()
      ensures Valid() && Attempt(Value(), code, worker) == Handover(old(Value()), t, w, request, e)
    {
      hide ResourceManager.Valid, WorkerPool.Valid, RolledBack, MovedToScheduled, Sent, Canonical;
      var scheduled := manager.MarkScheduled(t, w, e);
      MarkScheduledIs(old(manager.records), t, w, e);
      if scheduled != Ok {
        UndoReservations(w, request);
        return scheduled, None;
      }
      code, worker := Send(t, w, request, e);
    }

    /** emplace and dispatch. */
    method Send(t: TaskId, w: WorkerId, request: Bag, e: ExecutionId) returns (code: StatusCode, worker: Option<WorkerId>)
      requires Valid() && Canonical(request)
      modifies this`running, resources`contents, resources.Footprint(), pool`slots, pool.Footprint()
      ensures Valid() && Attempt(Value(), code, worker) == Sent(old(Value()), t, w, request, e)
    {
      hide ResourceManager.Valid, WorkerPool.Valid, RolledBack, SlotDispatch, Canonical;
      if w !in running {
        running := running[w := Reservation(t, request)];
      }
      var dispatched := pool.DispatchReserved(w, WorkItem(t, e));
      if dispatched != Ok {
        running := running - {w};
        UndoReservations(w, request);
        return dispatched, None;
      }
      return Ok, Some(w);
    }

    lemma MarkScheduledIs(ts: Tasks, t: TaskId, w: WorkerId, e: ExecutionId)
      ensures Perform(ts, MarkScheduled(t, w, e)) == MovedToScheduled(ts, t, w, e)
      ensures MovedToScheduled(ts, t, w, e).code != Ok ==> MovedToScheduled(ts, t, w, e).tasks == ts
      ensures forall x :: x in MovedToScheduled(ts, t, w, e).tasks ==>
                x in ts && MovedToScheduled(ts, t, w, e).tasks[x].request == ts[x].request
    {
    }
  }

  // ---- Runtime

  class Runtime {
    const scheduler: Scheduler
    var started: bool
    var accepting: bool

    constructor (scheduler: Scheduler)
      ensures this.scheduler == scheduler && !started && !accepting
    {
      this.scheduler := scheduler;
      started, accepting := false, false;
    }

    /**
     * Submit, given what spec.Validate() answers and whether there is a handler. Closed, invalid, infeasible and
     * duplicate submissions are refused in that order, without effect; an admitted one is registered and enqueued.
     */
    method Submit(t: TaskId, request: Bag, validation: StatusCode, hasHandler: bool) returns (code: StatusCode)
      requires scheduler.Valid() && Canonical(request)
      modifies scheduler`wake, scheduler.manager, scheduler.queue
      ensures scheduler.Valid()
      ensures forall s: LocalRuntime.Local :: s.core == old(scheduler.Value()) && s.up == started && s.accepting == accepting ==>
                var admitted := LocalRuntime.Admit(s, t, request);
                if s.up && s.accepting && validation != Ok then code == validation && scheduler.Value() == s.core
                else if s.up && s.accepting && !hasHandler then code == InvalidArgument && scheduler.Value() == s.core
                else if admitted != Ok then code == admitted && scheduler.Value() == s.core
                else (scheduler.Value(), code) == Enqueued(s.core.(tasks := Registered(s.core.tasks, t, request).tasks), t)
    {
      hide Fits, Enqueued, Canonical;
      if !started || !accepting {
        return Unavailable;
      }
      if validation != Ok {
        return validation;
      }
      if !hasHandler {
        return InvalidArgument;
      }
      var feasible := IsFeasible(request);
      if !feasible {
        return ResourceExhausted;
      }
      var registered := scheduler.manager.Register(t, request, hasHandler);
      if registered != Ok {
        return registered;
      }
      code := scheduler.Enqueue(t);
    }

    /** Admission by total, not by available, capacity. */
    method IsFeasible(request: Bag) returns (feasible: bool)
      requires scheduler.resources.Valid() && Canonical(request)
      ensures feasible <==> exists w :: w in scheduler.pool.order && w in scheduler.resources.contents
                                        && Fits(request, scheduler.resources.contents[w].total)
    {
      var quantities := Quantities(request);
      hide Fits, Canonical;
      feasible := false;
      var order := scheduler.pool.order;
      ghost var pools := scheduler.resources.contents;
      for i := 0 to |order|
        invariant !feasible && forall k :: 0 <= k < i ==> !(order[k] in pools && Fits(request, pools[order[k]].total))
      {
        feasible := scheduler.resources.CanFitTotal(order[i], quantities);
        if feasible {
          assert order[i] in order && order[i] in pools && Fits(request, pools[order[i]].total);
          break;
        }
      }
    }
  }
}
