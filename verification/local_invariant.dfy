/** What every interleaving of the local runtime keeps. */
module LocalInvariant {
  import opened Common
  import opened Resources
  import opened TaskManagement
  import opened Scheduling
  import opened LocalRuntime

  // ---- Shape: the five per-worker maps cover exactly the workers of the pool.

  ghost predicate ShapeOk(c: Core, threads: map<WorkerId, Thread>, dropped: map<WorkerId, Bag>) {
    && Distinct(c.order)
    && (forall w :: w in c.order <==> w in c.slots)
    && threads.Keys == c.slots.Keys && c.pools.Keys == c.slots.Keys && dropped.Keys == c.slots.Keys
    && c.running.Keys <= c.slots.Keys
  }

  // ---- Slots, threads and the tasks they hold.

  /** The task a worker holds between dispatch and completion, in its mailbox or in its thread. */
  function Holding(slot: Slot, pc: Thread): Option<WorkItem> {
    if slot.mailbox.Some? then slot.mailbox
    else match pc
      case Took(item) => Some(item)
      case Executing(item) => Some(item)
      case Decided(item, _) => Some(item)
      case _ => None
  }

  predicate InHand(pc: Thread) {
    pc.Took? || pc.Executing? || pc.Decided? || pc.Finished?
  }

  predicate Assigned(tasks: Tasks, item: WorkItem, w: WorkerId, state: ExecutionState) {
    && item.task in tasks && tasks[item.task].state == state
    && tasks[item.task].worker == Some(w) && tasks[item.task].execution == Some(item.execution)
  }

  predicate WorkerOk(tasks: Tasks, w: WorkerId, slot: Slot, pc: Thread) {
    && slot.state != Reserved
    && (slot.state == Busy <==> slot.mailbox.Some? || InHand(pc))
    && (slot.mailbox.Some? ==> !InHand(pc) && !pc.Exited?)
    && match Holding(slot, pc)
       case None => true
       case Some(item) => Assigned(tasks, item, w, if slot.mailbox.Some? || pc.Took? then Scheduled else Running)
  }

  ghost predicate WorkersOk(tasks: Tasks, slots: map<WorkerId, Slot>, threads: map<WorkerId, Thread>) {
    forall w :: w in slots && w in threads ==> WorkerOk(tasks, w, slots[w], threads[w])
  }

  predicate IsHeld(slots: map<WorkerId, Slot>, threads: map<WorkerId, Thread>, t: TaskId, r: TaskRecord) {
    && r.worker.Some? && r.worker.value in slots && r.worker.value in threads
    && var h := Holding(slots[r.worker.value], threads[r.worker.value]);
       h.Some? && h.value.task == t
  }

  /** Every scheduled or running task is in the hands of the worker its record names. */
  ghost predicate HeldOk(tasks: Tasks, slots: map<WorkerId, Slot>, threads: map<WorkerId, Thread>) {
    forall t :: t in tasks && (tasks[t].state == Scheduled || tasks[t].state == Running) ==>
      IsHeld(slots, threads, t, tasks[t])
  }

  // ---- Queue and requests.

  ghost predicate QueueOk(tasks: Tasks, queue: seq<TaskId>) {
    && Distinct(queue)
    && (forall t :: t in queue <==> t in tasks && tasks[t].state == Queued)
  }

  /** Requests are canonical and were admitted against the capacity of a whole worker. */
  ghost predicate RequestsOk(tasks: Tasks, capacity: Bag) {
    forall t :: t in tasks ==> Canonical(tasks[t].request) && Fits(tasks[t].request, capacity)
  }

  // ---- The resource ledger of one worker.

  function Entry(running: map<WorkerId, Reservation>, w: WorkerId): Bag {
    if w in running then running[w].resources else map[]
  }

  function InFlight(pc: Thread): Bag {
    if pc.Returning? then pc.resources else map[]
  }

  /** total == available + running_ entry + release in flight + dropped reservations, for every resource. */
  ghost predicate Balanced(capacity: Bag, pool: Pool, entry: Bag, inFlight: Bag, dropped: Bag) {
    && pool.total == capacity && PoolOk(pool)
    && Canonical(entry) && Canonical(inFlight) && Positive(dropped)
    && (forall n {:trigger Get(capacity, n)} ::
          Get(capacity, n) == Get(pool.available, n) + Get(entry, n) + Get(inFlight, n) + Get(dropped, n))
  }

  ghost predicate LedgerOk(capacity: Bag, pools: map<WorkerId, Pool>, running: map<WorkerId, Reservation>,
                           threads: map<WorkerId, Thread>, dropped: map<WorkerId, Bag>) {
    forall w :: w in pools && w in threads && w in dropped ==>
      Balanced(capacity, pools[w], Entry(running, w), InFlight(threads[w]), dropped[w])
  }

  // ---- Lifecycle flags.

  /** How many workers Shutdown has joined. */
  function JoinedCount(phase: Phase, order: seq<WorkerId>): nat {
    match phase
    case StoppingWorker(i) => i
    case JoiningWorker(i) => i
    case Closed => |order|
    case _ => 0
  }

  ghost predicate FlagsOk(s: Local) {
    var c, p := s.core, s.phase;
    && s.up == !p.Closed? && s.accepting == p.Open?
    && c.started == (p.Open? || p.Draining? || p.Drained? || p.JoiningLoop?)
    && c.stopping == !(p.Open? || p.Draining? || p.Drained?)
    && c.poolStarted == !(p.StoppingWorker? || p.JoiningWorker? || p.Closed?)
    && (s.loop == Stopped ==> c.stopping)
    && (!p.Open? && !p.Draining? && !p.Drained? && !p.JoiningLoop? ==> s.loop == Stopped)
    && (!p.Open? && !p.Draining? ==> c.queue == [])
    && (s.submitting.Some? ==> p.Open? && s.submitting.value in c.tasks && c.tasks[s.submitting.value].state == Pending)
    && (p.StoppingWorker? ==> p.next <= |c.order|)
    && (p.JoiningWorker? ==> p.next < |c.order|)
  }

  ghost predicate WorkerFlagsOk(order: seq<WorkerId>, slots: map<WorkerId, Slot>, threads: map<WorkerId, Thread>, phase: Phase) {
    forall i :: 0 <= i < |order| && order[i] in slots && order[i] in threads ==>
      && slots[order[i]].started == (JoinedCount(phase, order) <= i)
      && slots[order[i]].stopping == (phase.JoiningWorker? && phase.next == i)
      && (threads[order[i]].Exited? ==> !slots[order[i]].started || slots[order[i]].stopping)
      && (!slots[order[i]].started ==> threads[order[i]].Exited?)
  }

  // ---- Wake-ups.

  /** The FIFO head has no idle worker with room for it. */
  ghost predicate HeadBlocked(c: Core) {
    c.queue == [] || c.queue[0] !in c.tasks
    || forall w :: w in c.order && w in c.slots && c.slots[w].state == Idle ==> !FitsWorker(c.pools, w, c.tasks[c.queue[0]].request)
  }

  ghost predicate AlarmOk(s: Local) {
    s.loop == Parked && !s.core.wake && !s.core.stopping ==>
      HeadBlocked(s.core) || exists w :: w in s.threads && InCallback(s.threads[w])
  }

  // ---- History.

  ghost predicate FifoOk(s: Local) {
    && s.dispatched + s.core.queue == Without(s.enqueued, s.withdrawn)
    && Distinct(s.enqueued)
    && (forall t :: t in s.enqueued ==> t in s.core.tasks && s.core.tasks[t].state != Pending)
    && (forall t :: t in s.accepted <==> t in s.enqueued)
    && (forall t :: t in s.dispatched ==> t in s.core.tasks && 2 <= Rank(s.core.tasks[t].state))
    && (forall t :: t in s.withdrawn ==> t in s.core.tasks && s.core.tasks[t].state == Aborted)
  }

  ghost predicate EventsOk(s: Local) {
    RecordsOk(s.core.tasks) && EventsMatch(s.core.tasks, s.completions)
  }

  ghost predicate Inv(s: Local) {
    && Canonical(s.capacity)
    && ShapeOk(s.core, s.threads, s.dropped)
    && WorkersOk(s.core.tasks, s.core.slots, s.threads)
    && HeldOk(s.core.tasks, s.core.slots, s.threads)
    && QueueOk(s.core.tasks, s.core.queue)
    && RequestsOk(s.core.tasks, s.capacity)
    && LedgerOk(s.capacity, s.core.pools, s.core.running, s.threads, s.dropped)
    && FlagsOk(s)
    && WorkerFlagsOk(s.core.order, s.core.slots, s.threads, s.phase)
    && AlarmOk(s)
    && FifoOk(s)
    && EventsOk(s)
  }

  lemma InitInv(s: Local)
    requires Init(s)
    ensures Inv(s)
  {
  }

  // ---- In a reachable state the scheduler's transactions find what they rely on.

  lemma AllWorkersUp(c: Core, threads: map<WorkerId, Thread>, phase: Phase)
    requires forall w :: w in c.order <==> w in c.slots
    requires threads.Keys == c.slots.Keys
    requires WorkerFlagsOk(c.order, c.slots, threads, phase)
    requires JoinedCount(phase, c.order) == 0 && !phase.JoiningWorker?
    ensures forall w :: w in c.slots ==> c.slots[w].started && !c.slots[w].stopping && !threads[w].Exited?
  {
  }

  lemma InvReady(s: Local)
    requires ShapeOk(s.core, s.threads, s.dropped)
    requires WorkersOk(s.core.tasks, s.core.slots, s.threads)
    requires QueueOk(s.core.tasks, s.core.queue)
    requires RequestsOk(s.core.tasks, s.capacity)
    requires LedgerOk(s.capacity, s.core.pools, s.core.running, s.threads, s.dropped)
    requires FlagsOk(s) && WorkerFlagsOk(s.core.order, s.core.slots, s.threads, s.phase)
    ensures Ready(s.core)
  {
    hide WorkersOk, LedgerOk, Canonical, Fits, Distinct;
    IdleHasNoMail(s.core.tasks, s.core.slots, s.threads);
    PoolsOk(s);
    if !s.core.stopping {
      AllWorkersUp(s.core, s.threads, s.phase);
    }
  }

  lemma IdleHasNoMail(tasks: Tasks, slots: map<WorkerId, Slot>, threads: map<WorkerId, Thread>)
    requires WorkersOk(tasks, slots, threads) && slots.Keys == threads.Keys
    ensures forall w :: w in slots && slots[w].state == Idle ==> slots[w].mailbox.None?
  {
    hide Assigned, Holding;
  }

  lemma PoolsOk(s: Local)
    requires ShapeOk(s.core, s.threads, s.dropped)
    requires LedgerOk(s.capacity, s.core.pools, s.core.running, s.threads, s.dropped)
    ensures forall w :: w in s.core.pools ==> PoolOk(s.core.pools[w])
  {
    hide PoolOk, Canonical;
  }

  lemma BlockedMeansNoChoice(c: Core)
    ensures HeadBlocked(c) <==> Choice(c).None?
  {
  }

  /** The state after the scheduler thread dispatched the head to `w`. */
  function DispatchedTo(s: Local, w: WorkerId, e: ExecutionId): Local
    requires |s.core.queue| > 0 && s.core.queue[0] in s.core.tasks && w in s.core.pools && w in s.core.slots && w in s.dropped
  {
    var t := s.core.queue[0];
    s.(core := Dispatched(s.core, w, e), loop := Checking, dispatched := s.dispatched + [t],
       dropped := if w in s.core.running then s.dropped[w := Plus(s.dropped[w], s.core.tasks[t].request)] else s.dropped)
  }

  lemma TriedIs(s: Local, e: ExecutionId, pick: Option<WorkerId>)
    requires Ready(s.core) && ShapeOk(s.core, s.threads, s.dropped)
    requires pick.Some? ==> Placeable(s.core, pick.value)
    ensures if s.core.stopping || pick.None? then Tried(s, e, pick) == s.(loop := Parked)
            else pick.value in s.dropped && Tried(s, e, pick) == DispatchedTo(s, pick.value, e)
  {
    TryScheduleIsAtomic(s.core, pick, e);
  }

  /** What the scheduler thread may come to is an idle worker with room; it comes to none only for a reason. */
  lemma PickIs(s: Local, pick: Option<WorkerId>)
    requires MayPick(s, pick)
    ensures pick.Some? ==> Placeable(s.core, pick.value)
    ensures pick.None? ==> HeadBlocked(s.core) || exists w :: w in s.threads && InCallback(s.threads[w])
  {
    ChoiceIsPlaceable(s.core);
    BlockedMeansNoChoice(s.core);
  }

  // ---- Changes of the task records that concern nobody but the worker that runs the task.

  predicate Active(r: TaskRecord) {
    r.state == Scheduled || r.state == Running
  }

  /** Task `t` was active and moved on, or got its cancel token set; its request stays. */
  ghost predicate QuietChange(tasks: Tasks, tasks': Tasks, t: TaskId) {
    && t in tasks && t in tasks' && tasks' == tasks[t := tasks'[t]]
    && Active(tasks[t]) && Rank(tasks[t].state) <= Rank(tasks'[t].state)
    && tasks'[t].request == tasks[t].request
  }

  lemma QuietRequestsAndQueue(tasks: Tasks, tasks': Tasks, t: TaskId, queue: seq<TaskId>, capacity: Bag)
    requires QuietChange(tasks, tasks', t) && QueueOk(tasks, queue) && RequestsOk(tasks, capacity)
    ensures QueueOk(tasks', queue) && RequestsOk(tasks', capacity)
  {
  }

  lemma QuietFlags(s: Local, s': Local, t: TaskId)
    requires QuietChange(s.core.tasks, s'.core.tasks, t) && FlagsOk(s)
    requires s'.core == s.core.(tasks := s'.core.tasks, slots := s'.core.slots, pools := s'.core.pools, running := s'.core.running)
    requires s'.loop == s.loop && s'.phase == s.phase && s'.up == s.up && s'.accepting == s.accepting && s'.submitting == s.submitting
    ensures FlagsOk(s')
  {
  }

  lemma QuietFifo(s: Local, s': Local, t: TaskId)
    requires QuietChange(s.core.tasks, s'.core.tasks, t) && FifoOk(s)
    requires s'.core.queue == s.core.queue && s'.enqueued == s.enqueued && s'.dispatched == s.dispatched
    requires s'.withdrawn == s.withdrawn && s'.accepted == s.accepted
    ensures FifoOk(s')
  {
  }

}
