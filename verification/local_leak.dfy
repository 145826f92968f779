/** The converse of the no-drop theorem: whenever two requests do fit together, some run loses one of them for good. */
module LocalLeak {
  import opened Common
  import opened Resources
  import opened TaskManagement
  import opened Scheduling
  import opened LocalRuntime
  import LocalTheorems

  const A := TaskId(1)
  const B := TaskId(2)
  const EA := ExecutionId(1)
  const EB := ExecutionId(2)
  const DONE := Outcome(OK, "")

  /** A one-worker runtime, open for submissions, with the parts that vary along the witness run. */
  function At(cap: Bag, w: WorkerId, tasks: Tasks, queue: seq<TaskId>, available: Bag, state: WorkerState, mailbox: Option<WorkItem>,
              running: map<WorkerId, Reservation>, wake: bool, pc: Thread, loop: Loop, submitting: Option<TaskId>,
              enqueued: seq<TaskId>, dispatched: seq<TaskId>, accepted: set<TaskId>, done: seq<Completion>, lost: Bag): Local
  {
    Local(cap,
          Core(tasks, queue, map[w := Pool(cap, available)], [w], true, map[w := Slot(state, mailbox, true, false)],
               running, true, false, wake),
          map[w := pc], loop, true, true, submitting, Open,
          enqueued, dispatched, {}, accepted, done, map[w := lost])
  }

  function Rec(request: Bag, state: ExecutionState): TaskRecord {
    TaskRecord(request, state, None, 0, None, false, OK, "")
  }

  function Active(request: Bag, w: WorkerId, e: ExecutionId, state: ExecutionState): TaskRecord {
    TaskRecord(request, state, Some(w), 1, Some(e), false, OK, "")
  }

  function Started(cap: Bag, w: WorkerId): Local {
    At(cap, w, map[], [], cap, Idle, None, map[], true, AtWait, Parked, None, [], [], {}, [], map[])
  }

  lemma StartReachable(cap: Bag, w: WorkerId)
    requires Canonical(cap)
    ensures Reachable(Started(cap, w))
  {
    var s := Started(cap, w);
    var ids := set x | x in s.core.order;
    assert ids == {w};
    assert (map x | x in ids :: Pool(cap, cap)) == s.core.pools;
    assert (map x | x in ids :: Slot(Idle, None, true, false)) == s.core.slots;
    assert (map x | x in ids :: AtWait) == s.threads;
    assert (map x | x in ids :: map[]) == s.dropped;
    var steps: seq<Step> := [];
    assert Run([s], steps) && [s][|steps|] == s;
  }

  /** A one-entry map after its entry is replaced. */
  lemma Again<K, V>(k: K, v: V, v': V)
    ensures map[k := v][k := v'] == map[k := v']
  {
  }

  // ---- Pieces of a run, for any state they apply to.

  /** A client submits one request that fits on the only worker. */
  lemma SubmitOne(s: Local, t: TaskId, request: Bag, next: Local)
    requires Reachable(s) && s.submitting.None? && s.up && s.accepting && Canonical(request) && t !in s.core.tasks
    requires exists w :: w in s.core.order && w in s.core.pools && Fits(request, s.core.pools[w].total)
    requires s.core.started && !s.core.stopping
    requires next == s.(core := s.core.(tasks := s.core.tasks[t := Rec(request, Queued)], queue := s.core.queue + [t], wake := true),
                        enqueued := s.enqueued + [t], accepted := s.accepted + {t})
    ensures Reachable(next)
  {
    hide Reachable, Canonical, Fits;
    var s1 := s.(core := s.core.(tasks := s.core.tasks[t := Rec(request, Pending)]), submitting := Some(t));
    ReachableNext(s, Client(SubmitRegister(t, request)), s1);
    assert s1.core.tasks[t := Rec(request, Queued)] == next.core.tasks;
    ReachableNext(s1, Client(SubmitEnqueue), next);
  }

  /** With one idle worker that has room, the head goes to it. */
  lemma OneWorkerDispatch(s: Local, w: WorkerId, t: TaskId, e: ExecutionId)
    requires s.core.order == [w] && s.core.queue == [t] && t in s.core.tasks && s.core.tasks[t].state == Queued
    requires !s.core.stopping && s.core.poolStarted && w in s.core.pools && w in s.core.slots && w in s.dropped
    requires s.core.slots[w] == Slot(Idle, None, true, false)
    requires Canonical(s.core.tasks[t].request) && Fits(s.core.tasks[t].request, s.core.pools[w].available)
    ensures Choice(s.core) == Some(w)
    ensures Tried(s, e, Some(w)) ==
            s.(core := Dispatched(s.core, w, e), loop := Checking, dispatched := s.dispatched + [t],
               dropped := if w in s.core.running then s.dropped[w := Plus(s.dropped[w], s.core.tasks[t].request)] else s.dropped)
  {
    var idle := IdleWorkers([w], s.core.slots);
    assert [w][..0] == [];
    assert idle == IdleWorkers([w][..0], s.core.slots) + [w];
    assert idle == [w];
    assert FirstFit(s.core.pools, [w], s.core.tasks[t].request) == Some(w);
    hide FirstFit, IdleWorkers;
    assert Choice(s.core) == Some(w);
    ScheduleOnSucceeds(s.core, w, e);
  }

  /** Worker `w` has taken `item` from its mailbox, run it to success and is idle again, with the callback still to come. */
  function Served(s: Local, w: WorkerId, item: WorkItem): Local
    requires item.task in s.core.tasks && w in s.core.slots
  {
    var r := s.core.tasks[item.task].(state := Succeeded, terminalStatus := OK, result := "");
    s.(core := s.core.(tasks := s.core.tasks[item.task := r],
                       slots := s.core.slots[w := s.core.slots[w].(mailbox := None, state := Idle)]),
       threads := s.threads[w := Erasing(item)],
       completions := s.completions + [EventOf(item.task, r)])
  }

  lemma WorkerReaches(s: Local, w: WorkerId, a: WorkerAct, next: Local)
    requires Reachable(s) && WorkerEnabled(s, w, a) && WorkerNext(s, w, a) == next
    ensures Reachable(next)
  {
    hide Reachable, WorkerEnabled, WorkerNext;
    ReachableNext(s, Worker(w, a), next);
  }

  lemma Serve(s: Local, w: WorkerId, item: WorkItem)
    requires Reachable(s) && w in s.threads && w in s.core.slots
    requires s.threads[w] == AtWait && s.core.slots[w].mailbox == Some(item)
    requires item.task in s.core.tasks && s.core.tasks[item.task].state == Scheduled
    ensures Reachable(Served(s, w, item))
  {
    hide Reachable;
    var slot := s.core.slots[w].(mailbox := None);
    var r := s.core.tasks[item.task];
    var s1 := s.(core := s.core.(slots := s.core.slots[w := slot]), threads := s.threads[w := Took(item)]);
    ServeTake(s, w, item, s1);
    var s2 := s1.(core := s1.core.(tasks := s.core.tasks[item.task := r.(state := Running)]),
                  threads := s1.threads[w := Decided(item, DONE)]);
    ServeStart(s1, w, item, s2);
    var r' := r.(state := Succeeded, terminalStatus := OK, result := "");
    var s3 := s2.(core := s2.core.(tasks := s2.core.tasks[item.task := r'], slots := s2.core.slots[w := slot.(state := Idle)]),
                  threads := s2.threads[w := Erasing(item)], completions := s2.completions + [EventOf(item.task, r')]);
    ServeFinish(s2, w, item, s3);
    assert s3.core.tasks == s.core.tasks[item.task := r'];
    assert s3.threads == s.threads[w := Erasing(item)];
    assert s3.core.slots == s.core.slots[w := slot.(state := Idle)];
  }

  lemma ServeTake(s: Local, w: WorkerId, item: WorkItem, next: Local)
    requires Reachable(s) && w in s.threads && w in s.core.slots
    requires s.threads[w] == AtWait && s.core.slots[w].mailbox == Some(item)
    requires next == s.(core := s.core.(slots := s.core.slots[w := s.core.slots[w].(mailbox := None)]),
                        threads := s.threads[w := Took(item)])
    ensures Reachable(next)
  {
    hide Reachable;
    WorkerReaches(s, w, Take, next);
  }

  lemma ServeStart(s: Local, w: WorkerId, item: WorkItem, next: Local)
    requires Reachable(s) && w in s.threads && w in s.core.slots && s.threads[w] == Took(item)
    requires item.task in s.core.tasks && s.core.tasks[item.task].state == Scheduled
    requires next == s.(core := s.core.(tasks := s.core.tasks[item.task := s.core.tasks[item.task].(state := Running)]),
                        threads := s.threads[w := Decided(item, DONE)])
    ensures Reachable(next)
  {
    hide Reachable;
    var s1 := next.(threads := s.threads[w := Executing(item)]);
    WorkerReaches(s, w, Start, s1);
    assert s1.threads[w := Decided(item, DONE)] == next.threads;
    WorkerReaches(s1, w, HandlerReturns(DONE), next);
  }

  lemma ServeFinish(s: Local, w: WorkerId, item: WorkItem, next: Local)
    requires Reachable(s) && w in s.threads && w in s.core.slots && s.threads[w] == Decided(item, DONE)
    requires item.task in s.core.tasks && s.core.tasks[item.task].state == Running
    requires var r := s.core.tasks[item.task].(state := Succeeded, terminalStatus := OK, result := "");
             next == s.(core := s.core.(tasks := s.core.tasks[item.task := r],
                                        slots := s.core.slots[w := s.core.slots[w].(state := Idle)]),
                        threads := s.threads[w := Erasing(item)],
                        completions := s.completions + [EventOf(item.task, r)])
    ensures Reachable(next)
  {
    hide Reachable;
    var r := s.core.tasks[item.task].(state := Succeeded, terminalStatus := OK, result := "");
    CompletesTo(s.core.tasks, item.task, r);
    var s1 := next.(core := next.core.(slots := s.core.slots), threads := s.threads[w := Finished(item)]);
    FinishReaches(s, w, item, r, s1);
    assert s1.threads[w := Erasing(item)] == next.threads;
    WorkerReaches(s1, w, SetIdle, next);
  }

  lemma CompletesTo(tasks: Tasks, t: TaskId, r: TaskRecord)
    requires t in tasks && tasks[t].state == Running && r == tasks[t].(state := Succeeded, terminalStatus := OK, result := "")
    ensures Completed(tasks, t, DONE) == Update(tasks[t := r], Ok, Some(EventOf(t, r)))
  {
  }

  lemma FinishReaches(s: Local, w: WorkerId, item: WorkItem, r: TaskRecord, next: Local)
    requires Reachable(s) && w in s.threads && w in s.core.slots && s.threads[w] == Decided(item, DONE)
    requires Completed(s.core.tasks, item.task, DONE) == Update(s.core.tasks[item.task := r], Ok, Some(EventOf(item.task, r)))
    requires next == s.(core := s.core.(tasks := s.core.tasks[item.task := r]), threads := s.threads[w := Finished(item)],
                        completions := s.completions + [EventOf(item.task, r)])
    ensures Reachable(next)
  {
    hide Reachable, Completed, EventOf;
    WorkerReaches(s, w, Finish, next);
  }

  /** The idle callback when running_ holds an entry for `w`: the pool takes its resources back. */
  lemma CallbackReturns(s: Local, w: WorkerId, available: Bag)
    requires Reachable(s) && s.core.started && !s.core.stopping
    requires w in s.threads && w in s.core.slots && s.threads[w].Erasing? && w in s.core.running && w in s.core.pools
    requires Released(s.core.pools[w], s.core.running[w].resources) == (s.core.pools[w].(available := available), Ok)
    ensures Reachable(s.(core := s.core.(running := s.core.running - {w}, wake := true,
                                         pools := s.core.pools[w := s.core.pools[w].(available := available)]),
                         threads := s.threads[w := AtWait]))
  {
    hide Reachable, Released;
    var s1 := s.(core := s.core.(running := s.core.running - {w}), threads := s.threads[w := Returning(s.core.running[w].resources)]);
    WorkerReaches(s, w, EraseReservation, s1);
    var s2 := s1.(core := s1.core.(pools := s.core.pools[w := s.core.pools[w].(available := available)]),
                  threads := s.threads[w := Waking]);
    assert s2.threads == s1.threads[w := Waking];
    WorkerReaches(s1, w, ReturnResources, s2);
    assert s2.threads[w := AtWait] == s.threads[w := AtWait];
    WorkerReaches(s2, w, RequestWake, s2.(core := s2.core.(wake := true), threads := s.threads[w := AtWait]));
  }

  /** The idle callback when running_ holds nothing for `w`. */
  lemma CallbackFindsNothing(s: Local, w: WorkerId)
    requires Reachable(s) && s.core.started && !s.core.stopping
    requires w in s.threads && w in s.core.slots && s.threads[w].Erasing? && w !in s.core.running
    ensures Reachable(s.(core := s.core.(wake := true), threads := s.threads[w := AtWait]))
  {
    hide Reachable;
    var s1 := s.(threads := s.threads[w := Waking]);
    WorkerReaches(s, w, EraseReservation, s1);
    assert s1.threads[w := AtWait] == s.threads[w := AtWait];
    WorkerReaches(s1, w, RequestWake, s1.(core := s1.core.(wake := true), threads := s.threads[w := AtWait]));
  }

  // ---- The witness: the second task is dispatched between the first one's SetIdle and its OnWorkerIdle.

  function FinishedFirst(cap: Bag, w: WorkerId, r0: Bag): Local {
    At(cap, w, map[A := Active(r0, w, EA, Succeeded)], [], Minus(cap, r0), Idle, None, map[w := Reservation(A, r0)], false,
       Erasing(WorkItem(A, EA)), Checking, None, [A], [A], {A}, [EventOf(A, Active(r0, w, EA, Succeeded))], map[])
  }

  lemma FirstTask(cap: Bag, w: WorkerId, r0: Bag)
    requires Canonical(cap) && Canonical(r0) && Fits(r0, cap)
    ensures Reachable(FinishedFirst(cap, w, r0))
  {
    hide Reachable, Canonical, Fits, Minus, FirstRunning, FinishedFirst;
    StartReachable(cap, w);
    var s3 := FirstQueued(cap, w, r0);
    FirstDispatch(cap, w, r0, s3);
    FirstServed(cap, w, r0);
  }

  lemma FirstQueued(cap: Bag, w: WorkerId, r0: Bag) returns (s: Local)
    requires Canonical(r0) && Fits(r0, cap) && Reachable(Started(cap, w))
    ensures s == At(cap, w, map[A := Rec(r0, Queued)], [A], cap, Idle, None, map[], false, AtWait, Trying, None, [A], [], {A}, [], map[])
    ensures Reachable(s)
  {
    hide Reachable, Canonical, Fits, Tried;
    assert w in Started(cap, w).core.order;
    var s1 := At(cap, w, map[A := Rec(r0, Queued)], [A], cap, Idle, None, map[], true, AtWait, Parked, None, [A], [], {A}, [], map[]);
    SubmitOne(Started(cap, w), A, r0, s1);
    var s2 := s1.(core := s1.core.(wake := false), loop := Checking);
    ReachableNext(s1, Scheduler(LoopWakes), s2);
    s := s2.(loop := Trying);
    ReachableNext(s2, Scheduler(LoopChecks), s);
  }

  lemma FirstDispatch(cap: Bag, w: WorkerId, r0: Bag, s: Local)
    requires Canonical(r0) && Fits(r0, cap) && Reachable(s)
    requires s == At(cap, w, map[A := Rec(r0, Queued)], [A], cap, Idle, None, map[], false, AtWait, Trying, None, [A], [], {A}, [], map[])
    ensures Reachable(FirstRunning(cap, w, r0))
  {
    hide Reachable, Canonical, Fits, Minus, Tried, Choice;
    OneWorkerDispatch(s, w, A, EA);
    Again(A, Rec(r0, Queued), Active(r0, w, EA, Scheduled));
    Again(w, Pool(cap, cap), Pool(cap, Minus(cap, r0)));
    Again(w, Slot(Idle, None, true, false), Slot(Busy, Some(WorkItem(A, EA)), true, false));
    ReachableNext(s, Scheduler(LoopTries(EA, Some(w))), FirstRunning(cap, w, r0));
  }

  function FirstRunning(cap: Bag, w: WorkerId, r0: Bag): Local {
    At(cap, w, map[A := Active(r0, w, EA, Scheduled)], [], Minus(cap, r0), Busy, Some(WorkItem(A, EA)), map[w := Reservation(A, r0)],
       false, AtWait, Checking, None, [A], [A], {A}, [], map[])
  }

  lemma FirstServed(cap: Bag, w: WorkerId, r0: Bag)
    requires Reachable(FirstRunning(cap, w, r0))
    ensures Reachable(FinishedFirst(cap, w, r0))
  {
    hide Reachable, Minus;
    var item := WorkItem(A, EA);
    Serve(FirstRunning(cap, w, r0), w, item);
    Again(A, Active(r0, w, EA, Scheduled), Active(r0, w, EA, Succeeded));
    Again(w, Slot(Busy, Some(item), true, false), Slot(Idle, None, true, false));
    Again(w, AtWait, Erasing(item));
    assert Served(FirstRunning(cap, w, r0), w, item) == FinishedFirst(cap, w, r0);
  }

  function DroppedSecond(cap: Bag, w: WorkerId, r0: Bag, r1: Bag): Local {
    At(cap, w, map[A := Active(r0, w, EA, Succeeded), B := Active(r1, w, EB, Scheduled)], [], Minus(Minus(cap, r0), r1), Busy,
       Some(WorkItem(B, EB)), map[w := Reservation(A, r0)], true, Erasing(WorkItem(A, EA)), Checking, None,
       [A, B], [A, B], {A, B}, [EventOf(A, Active(r0, w, EA, Succeeded))], r1)
  }

  lemma SecondSubmitted(cap: Bag, w: WorkerId, r0: Bag, r1: Bag)
    requires Canonical(r1) && Fits(r1, cap) && Reachable(FinishedFirst(cap, w, r0))
    ensures Reachable(WaitingSecond(cap, w, r0, r1))
  {
    hide Reachable, Canonical, Fits, Minus;
    var s := FinishedFirst(cap, w, r0);
    var s1 := WaitingSecond(cap, w, r0, r1).(loop := Checking);
    assert w in s.core.order;
    SubmitOne(s, B, r1, s1);
    ReachableNext(s1, Scheduler(LoopChecks), WaitingSecond(cap, w, r0, r1));
  }

  function WaitingSecond(cap: Bag, w: WorkerId, r0: Bag, r1: Bag): Local {
    At(cap, w, map[A := Active(r0, w, EA, Succeeded), B := Rec(r1, Queued)], [B], Minus(cap, r0), Idle, None,
       map[w := Reservation(A, r0)], true, Erasing(WorkItem(A, EA)), Trying, None,
       [A, B], [A], {A, B}, [EventOf(A, Active(r0, w, EA, Succeeded))], map[])
  }

  /** emplace finds the first task's entry still there and does not record the second reservation. */
  lemma SecondTried(cap: Bag, w: WorkerId, r0: Bag, r1: Bag)
    requires Canonical(r1) && Fits(r1, Minus(cap, r0))
    ensures Choice(WaitingSecond(cap, w, r0, r1).core) == Some(w)
    ensures Tried(WaitingSecond(cap, w, r0, r1), EB, Some(w)) == DroppedSecond(cap, w, r0, r1)
  {
    assert Plus(map[], r1) == r1;
    hide Canonical, Fits, Minus, Plus, Tried, Choice;
    var s := WaitingSecond(cap, w, r0, r1);
    assert s.core.tasks[B] == Rec(r1, Queued);
    OneWorkerDispatch(s, w, B, EB);
    SecondFields(cap, w, r0, r1);
    hide WaitingSecond, DroppedSecond, Dispatched;
  }

  lemma SecondFields(cap: Bag, w: WorkerId, r0: Bag, r1: Bag)
    requires Plus(map[], r1) == r1
    ensures var s := WaitingSecond(cap, w, r0, r1);
            DroppedSecond(cap, w, r0, r1) ==
            s.(core := Dispatched(s.core, w, EB), loop := Checking, dispatched := s.dispatched + [B],
               dropped := s.dropped[w := Plus(s.dropped[w], s.core.tasks[B].request)])
  {
    hide Minus, Plus, Dispatched, Active, Rec;
    var s := WaitingSecond(cap, w, r0, r1);
    var e := DroppedSecond(cap, w, r0, r1);
    SecondCore(cap, w, r0, r1);
    assert s.dropped[w := r1] == e.dropped;
    assert s.dispatched + [B] == e.dispatched;
  }

  lemma SecondCore(cap: Bag, w: WorkerId, r0: Bag, r1: Bag)
    ensures var c := WaitingSecond(cap, w, r0, r1).core;
            c.tasks[B] == Rec(r1, Queued) && Dispatched(c, w, EB) == DroppedSecond(cap, w, r0, r1).core
    ensures Rec(r1, Queued).request == r1
  {
    hide Minus;
    var c := WaitingSecond(cap, w, r0, r1).core;
    var d, e := Dispatched(c, w, EB), DroppedSecond(cap, w, r0, r1).core;
    assert d.tasks == e.tasks && d.pools == e.pools && d.slots == e.slots && d.running == e.running && d.queue == e.queue;
  }

  lemma SecondDispatch(cap: Bag, w: WorkerId, r0: Bag, r1: Bag)
    requires Canonical(r1) && Fits(r1, Minus(cap, r0)) && Reachable(WaitingSecond(cap, w, r0, r1))
    ensures Reachable(DroppedSecond(cap, w, r0, r1))
  {
    hide Reachable, Canonical, Fits, Minus, Tried, Choice, DroppedSecond;
    SecondTried(cap, w, r0, r1);
    ReachableNext(WaitingSecond(cap, w, r0, r1), Scheduler(LoopTries(EB, Some(w))), DroppedSecond(cap, w, r0, r1));
  }

  function Leaked(cap: Bag, w: WorkerId, r0: Bag, r1: Bag): Local {
    At(cap, w, map[A := Active(r0, w, EA, Succeeded), B := Active(r1, w, EB, Succeeded)], [], Minus(cap, r1), Idle, None, map[], true,
       AtWait, Checking, None, [A, B], [A, B], {A, B},
       [EventOf(A, Active(r0, w, EA, Succeeded)), EventOf(B, Active(r1, w, EB, Succeeded))], r1)
  }

  /** The first callback returns r0. */
  lemma FirstCallback(cap: Bag, w: WorkerId, r0: Bag, r1: Bag)
    requires Canonical(cap) && Canonical(r0) && Canonical(r1) && Fits(r0, cap) && Fits(r1, Minus(cap, r0))
    requires Reachable(DroppedSecond(cap, w, r0, r1))
    ensures Reachable(SecondLeft(cap, w, r0, r1))
  {
    ReturnsToPool(cap, r0, r1);
    hide Reachable, Canonical, Fits, Minus, Released;
    CallbackReturns(DroppedSecond(cap, w, r0, r1), w, Minus(cap, r1));
    Again(w, Pool(cap, Minus(Minus(cap, r0), r1)), Pool(cap, Minus(cap, r1)));
    Again(w, Erasing(WorkItem(A, EA)), AtWait);
    assert map[w := Reservation(A, r0)] - {w} == map[];
  }

  function SecondLeft(cap: Bag, w: WorkerId, r0: Bag, r1: Bag): Local {
    At(cap, w, map[A := Active(r0, w, EA, Succeeded), B := Active(r1, w, EB, Scheduled)], [], Minus(cap, r1), Busy,
       Some(WorkItem(B, EB)), map[], true, AtWait, Checking, None,
       [A, B], [A, B], {A, B}, [EventOf(A, Active(r0, w, EA, Succeeded))], r1)
  }

  /** The second task runs; its callback finds nothing to return. */
  lemma SecondServed(cap: Bag, w: WorkerId, r0: Bag, r1: Bag)
    requires Reachable(SecondLeft(cap, w, r0, r1))
    ensures Reachable(Leaked(cap, w, r0, r1))
  {
    hide Reachable, Minus;
    var s, item := SecondLeft(cap, w, r0, r1), WorkItem(B, EB);
    Serve(s, w, item);
    CallbackFindsNothing(Served(s, w, item), w);
    var a, b := Active(r0, w, EA, Succeeded), Active(r1, w, EB, Succeeded);
    assert map[A := a, B := Active(r1, w, EB, Scheduled)][B := b] == map[A := a, B := b];
    Again(w, Slot(Busy, Some(item), true, false), Slot(Idle, None, true, false));
    Again(w, AtWait, Erasing(item));
    Again(w, Erasing(item), AtWait);
    assert s.completions + [EventOf(B, b)] == [EventOf(A, a), EventOf(B, b)];
  }

  lemma ReturnsToPool(cap: Bag, r0: Bag, r1: Bag)
    requires Canonical(cap) && Canonical(r0) && Canonical(r1) && Fits(r0, cap) && Fits(r1, Minus(cap, r0))
    ensures Released(Pool(cap, Minus(Minus(cap, r0), r1)), r0) == (Pool(cap, Minus(cap, r1)), Ok)
  {
    MinusMinus(cap, r0, r1);
    var less := Minus(cap, r1);
    MinusOk(cap, r1);
    MinusThenPlus(less, r0);
    var p := Minus(less, r0);
    forall n | n in r0
      ensures r0[n] <= Get(cap, n) - Get(p, n)
    {
      assert Get(p, n) == Get(less, n) - Get(r0, n);
      assert Get(less, n) == Get(cap, n) - Get(r1, n);
    }
  }

  lemma LeakedIsReached(cap: Bag, w: WorkerId, r0: Bag, r1: Bag)
    requires Canonical(cap) && Canonical(r0) && Canonical(r1) && Fits(Plus(r0, r1), cap)
    ensures Reachable(Leaked(cap, w, r0, r1))
  {
    hide Reachable, Canonical, Fits, Minus, Plus, FinishedFirst, WaitingSecond, DroppedSecond, SecondLeft;
    BothFit(cap, r0, r1);
    FirstTask(cap, w, r0);
    SecondSubmitted(cap, w, r0, r1);
    SecondDispatch(cap, w, r0, r1);
    FirstCallback(cap, w, r0, r1);
    SecondServed(cap, w, r0, r1);
  }

  /**
   * If two requests fit together on a worker, a state is reachable in which both tasks are terminal, the worker is idle and
   * nothing is queued, running or in flight, yet the second request is missing from the pool, which no run makes good
   * (LocalTheorems.DroppedNeverReturns).
   */
  lemma TwoThatFitCanLeak(cap: Bag, w: WorkerId, r0: Bag, r1: Bag) returns (s: Local)
    requires Canonical(cap) && Canonical(r0) && Canonical(r1) && Fits(Plus(r0, r1), cap)
    ensures Reachable(s)
    ensures s.capacity == cap && s.core.order == [w] && s.core.tasks.Keys == {A, B}
    ensures s.core.tasks[A].request == r0 && s.core.tasks[B].request == r1
    ensures s.core.tasks[A].state == Succeeded && s.core.tasks[B].state == Succeeded
    ensures s.core.queue == [] && s.core.running == map[]
    ensures s.core.slots == map[w := Slot(Idle, None, true, false)] && s.threads == map[w := AtWait]
    ensures s.dropped == map[w := r1] && s.core.pools == map[w := Pool(cap, Minus(cap, r1))]
  {
    hide Reachable, Canonical, Fits, Minus, Plus;
    LeakedIsReached(cap, w, r0, r1);
    s := Leaked(cap, w, r0, r1);
  }

  lemma BothFit(cap: Bag, r0: Bag, r1: Bag)
    requires Canonical(cap) && Canonical(r0) && Canonical(r1) && Fits(Plus(r0, r1), cap)
    ensures Fits(r0, cap) && Fits(r1, cap) && Fits(r1, Minus(cap, r0))
  {
  }

  // ---- What the leak leads to

  const C := TaskId(3)

  /** A third task waits; the scheduler thread looked and sleeps; nothing else is going on. */
  function Starving(cap: Bag, w: WorkerId, r0: Bag, r1: Bag, r2: Bag): Local {
    var s := Leaked(cap, w, r0, r1);
    s.(core := s.core.(tasks := s.core.tasks[C := Rec(r2, Queued)], queue := [C], wake := false), loop := Parked,
       enqueued := [A, B, C], accepted := {A, B, C})
  }

  lemma ThirdSubmitted(cap: Bag, w: WorkerId, r0: Bag, r1: Bag, r2: Bag)
    requires Canonical(r2) && Fits(r2, cap) && Reachable(Leaked(cap, w, r0, r1))
    ensures Reachable(Starving(cap, w, r0, r1, r2).(core := Starving(cap, w, r0, r1, r2).core.(wake := true), loop := Checking))
  {
    hide Reachable, Canonical, Fits, Minus;
    var s := Leaked(cap, w, r0, r1);
    var s1 := Starving(cap, w, r0, r1, r2).(core := Starving(cap, w, r0, r1, r2).core.(wake := true), loop := Checking);
    assert w in s.core.order && w in s.core.pools && Fits(r2, s.core.pools[w].total);
    SubmitOne(s, C, r2, s1);
  }

  /** The head does not fit any more: the scheduler thread goes back to sleep. */
  lemma LooksInVain(s: Local, w: WorkerId, next: Local)
    requires Reachable(s) && s.loop == Checking && !s.core.stopping && next == s.(loop := Parked)
    requires s.core.order == [w] && s.core.queue != [] && s.core.queue[0] in s.core.tasks
    requires !FitsWorker(s.core.pools, w, s.core.tasks[s.core.queue[0]].request)
    ensures Reachable(next)
  {
    hide Reachable, FitsWorker;
    var s1 := s.(loop := Trying);
    ReachableNext(s, Scheduler(LoopChecks), s1);
    NobodyChosen(s1.core, w);
    ReachableNext(s1, Scheduler(LoopTries(EA, None)), next);
  }

  lemma NobodyChosen(c: Core, w: WorkerId)
    requires c.order == [w] && c.queue != [] && c.queue[0] in c.tasks && !FitsWorker(c.pools, w, c.tasks[c.queue[0]].request)
    ensures Choice(c) == None
  {
    hide FitsWorker;
    ChoiceIsIdleAndFits(c);
  }

  lemma StarvingReached(cap: Bag, w: WorkerId, r0: Bag, r1: Bag, r2: Bag)
    requires Canonical(r2) && Fits(r2, cap) && !Fits(r2, Minus(cap, r1)) && Reachable(Leaked(cap, w, r0, r1))
    ensures Reachable(Starving(cap, w, r0, r1, r2))
  {
    hide Reachable, Canonical, Fits, Minus;
    var s := Starving(cap, w, r0, r1, r2);
    var s1 := s.(core := s.core.(wake := true), loop := Checking);
    ThirdSubmitted(cap, w, r0, r1, r2);
    LooksInVain(s1, w, s1.(loop := Parked));
    var s2 := s.(loop := Checking);
    ReachableNext(s1.(loop := Parked), Scheduler(LoopWakes), s2);
    LooksInVain(s2, w, s);
  }

  /**
   * After the leak, a task that Submit accepted (it fits on a worker) but that no longer fits next to the leaked amount
   * waits for ever: a state is reachable in which the scheduler thread sleeps, nothing runs and that task is queued, and
   * on no continuation is it ever dispatched.
   */
  lemma LeakCanStarve(cap: Bag, w: WorkerId, r0: Bag, r1: Bag, r2: Bag) returns (s: Local)
    requires Canonical(cap) && Canonical(r0) && Canonical(r1) && Canonical(r2) && Fits(Plus(r0, r1), cap)
    requires Fits(r2, cap) && !Fits(r2, Minus(cap, r1))
    ensures Reachable(s)
    ensures s.loop == Parked && !s.core.wake && !s.core.stopping && s.core.queue == [C] && s.core.running == map[]
    ensures s.core.slots == map[w := Slot(Idle, None, true, false)] && s.threads == map[w := AtWait] && s.core.order == [w]
    ensures C in s.accepted && C in s.core.tasks && s.core.tasks[C].request == r2
    ensures forall states: seq<Local>, steps: seq<Step>, i: nat, j: nat ::
              Run(states, steps) && i <= j < |states| && states[i] == s ==>
                C !in states[j].dispatched && (C in states[j].core.queue || C in states[j].withdrawn)
  {
    hide Reachable, Canonical, Fits, Plus;
    LeakedIsReached(cap, w, r0, r1);
    BothFit(cap, r0, r1);
    s := Starving(cap, w, r0, r1, r2);
    StarvingReached(cap, w, r0, r1, r2);
    NoRoomLeft(cap, r1, r2);
    assert LocalTheorems.Starved(s, r2);
    hide Run, Starving;
    forall states: seq<Local>, steps: seq<Step>, i: nat, j: nat | Run(states, steps) && i <= j < |states| && states[i] == s
      ensures C !in states[j].dispatched && (C in states[j].core.queue || C in states[j].withdrawn)
    {
      LocalTheorems.StarvedTaskWaits(states, steps, i, j, C);
    }
  }

  lemma NoRoomLeft(cap: Bag, r1: Bag, r2: Bag)
    requires Canonical(r1) && Canonical(r2) && Fits(r1, cap) && !Fits(r2, Minus(cap, r1))
    ensures exists n :: n in r2 && Get(cap, n) - Get(r1, n) < r2[n]
  {
    var n :| n in r2 && Get(Minus(cap, r1), n) < r2[n];
    var less := Minus(cap, r1);
    assert forall m :: m in r1 ==> m in cap;
    assert Get(less, n) == Get(cap, n) - Get(r1, n);
  }
}
