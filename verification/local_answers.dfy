/** What the clients of a running runtime can rely on: what Submit and Cancel answer, where tasks go, what ends up in a record. */
module LocalAnswers {
  import opened Common
  import opened Resources
  import opened TaskManagement
  import opened TaskHistory
  import opened Scheduling
  import opened SchedulingOutcomes
  import opened LocalRuntime
  import opened LocalInvariant
  import opened LocalWorkerSteps
  import opened LocalOtherSteps
  import opened LocalTheorems

  // ---- Submit

  /** Admission: open, then large enough for some worker when empty, then not seen before; in that order. */
  lemma AdmitAnswers(s: Local, t: TaskId, request: Bag)
    requires Canonical(request) && forall w :: w in s.core.pools ==> PoolOk(s.core.pools[w])
    ensures var code := Admit(s, t, request);
            var roomy := exists w :: w in s.core.order && HasTotal(s.core, w, request);
            && (code == Unavailable <==> !s.up || !s.accepting)
            && (code == ResourceExhausted <==> s.up && s.accepting && !roomy)
            && (code == AlreadyExists <==> s.up && s.accepting && roomy && t in s.core.tasks)
            && (code == Ok <==> s.up && s.accepting && roomy && t !in s.core.tasks)
  {
    hide Canonical, PoolOk;
    forall w | w in s.core.pools
      ensures Fits(request, s.core.pools[w].total) <==> HasTotal(s.core, w, request)
    {
      TotalMeans(s.core, w, request);
    }
  }

  predicate HasTotal(c: Core, w: WorkerId, request: Bag) {
    w in c.pools && forall n :: n in request ==> n in c.pools[w].total && request[n] <= c.pools[w].total[n]
  }

  lemma TotalMeans(c: Core, w: WorkerId, request: Bag)
    requires Canonical(request) && w in c.pools && PoolOk(c.pools[w])
    ensures Fits(request, c.pools[w].total) <==> HasTotal(c, w, request)
  {
    assert forall n :: n in request && request[n] <= Get(c.pools[w].total, n) ==> n in c.pools[w].total;
  }

  /** On every run a submission that was admitted is registered with its request, and queued last by its second step. */
  lemma SubmitQueues(states: seq<Local>, steps: seq<Step>, i: nat, t: TaskId, request: Bag)
    requires Run(states, steps) && i < |steps| && steps[i] == Client(SubmitRegister(t, request))
    ensures var s, s' := states[i], states[i+1];
            if Admit(s, t, request) != Ok then s' == s
            else
              && s'.submitting == Some(t) && t in s'.core.tasks
              && s'.core.tasks == s.core.tasks[t := TaskRecord(request, Pending, None, 0, None, false, OK, "")]
              && Enqueued(s'.core, t) == (s'.core.(tasks := s'.core.tasks[t := s'.core.tasks[t].(state := Queued)],
                                                   queue := s'.core.queue + [t], wake := true), Ok)
  {
    hide Inv, Canonical, Fits;
    assert Enabled(states[i], steps[i]) && states[i+1] == Next(states[i], steps[i]);
    if Admit(states[i], t, request) == Ok {
      CallEffects(states[i].core.tasks, Register(t, request));
      RunKeeps(states, steps, i);
      OpenIsStarted(states[i]);
      EnqueueOutcomes(states[i+1].core, t);
    }
  }

  lemma OpenIsStarted(s: Local)
    requires Inv(s) && s.accepting
    ensures s.core.started && !s.core.stopping
  {
    hide ShapeOk, WorkersOk, HeldOk, QueueOk, RequestsOk, LedgerOk, WorkerFlagsOk, AlarmOk, FifoOk, EventsOk;
  }

  // ---- Placement

  /**
   * On every run, with no callback under way, a transaction sends the head of the queue to the earliest idle worker of the
   * pool's order that has room for it, and to nobody exactly if there is none.
   */
  lemma HeadGoesToEarliestIdle(states: seq<Local>, steps: seq<Step>, i: nat, e: ExecutionId, pick: Option<WorkerId>)
    requires Run(states, steps) && i < |steps| && steps[i] == Scheduler(LoopTries(e, pick)) && !states[i].core.stopping
    requires forall w :: w in states[i].threads ==> !InCallback(states[i].threads[w])
    ensures var c, c' := states[i].core, states[i+1].core;
            && (c.queue != [] ==> c.queue[0] in c.tasks)
            && (states[i+1].dispatched != states[i].dispatched <==>
                  c.queue != [] && exists w :: w in c.order && CanTake(c, w, c.tasks[c.queue[0]].request))
            && (states[i+1].dispatched == states[i].dispatched ==> c' == c)
            && (states[i+1].dispatched != states[i].dispatched ==>
                  pick.Some? && pick.value in c.slots && pick.value in c.pools
                  && IsEarliest(c, c.order, c.tasks[c.queue[0]].request, pick.value) && DispatchesHead(c, pick.value, e, c'))
  {
    hide Inv, Ready, CanTake, IsEarliest, DispatchesHead;
    var s := states[i];
    assert Enabled(s, steps[i]) && states[i+1] == Next(s, steps[i]);
    RunKeeps(states, steps, i);
    ReadyOnRuns(s);
    ChoiceOnly(s, pick);
    HeadGoesToEarliest(s.core, e);
    HeadKnown(s.core);
    EarliestIsKnown(s.core, e);
    TriedTells(s, e, pick);
  }

  lemma ReadyOnRuns(s: Local)
    requires Inv(s)
    ensures Ready(s.core)
  {
    hide ShapeOk, WorkersOk, HeldOk, QueueOk, RequestsOk, LedgerOk, FlagsOk, WorkerFlagsOk, AlarmOk, FifoOk, EventsOk, Ready;
    InvReady(s);
  }

  lemma ChoiceOnly(s: Local, pick: Option<WorkerId>)
    requires MayPick(s, pick) && forall w :: w in s.threads ==> !InCallback(s.threads[w])
    ensures pick == Choice(s.core)
  {
  }

  lemma HeadKnown(c: Core)
    requires Ready(c)
    ensures c.queue != [] ==> c.queue[0] in c.tasks
  {
    assert c.queue != [] ==> c.queue[0] in c.queue;
  }

  lemma EarliestIsKnown(c: Core, e: ExecutionId)
    requires Ready(c)
    ensures var a := TrySchedule(c, e);
            a.worker.Some? ==> a.worker.value in c.slots && a.worker.value in c.pools && a.worker == Choice(c)
  {
    ChoiceIsPlaceable(c);
    TryScheduleIsAtomic(c, Choice(c), e);
  }

  lemma TriedTells(s: Local, e: ExecutionId, pick: Option<WorkerId>)
    ensures var a := TryScheduleAt(s.core, pick, e);
            var s' := Tried(s, e, pick);
            && s'.core == a.core
            && (a.worker.Some? && s.core.queue != [] && s.core.queue[0] in s.core.tasks ==> s'.dispatched != s.dispatched)
            && (a.worker.None? ==> s'.dispatched == s.dispatched)
  {
    hide TryScheduleAt;
    assert s.core.queue != [] ==> |s.dispatched + [s.core.queue[0]]| == |s.dispatched| + 1;
  }

  // ---- Cancellation

  /** On every run, cancelling a running task answers Ok, sets its token and touches nothing else; and the token stays set. */
  lemma CancelReachesRunning(states: seq<Local>, steps: seq<Step>, i: nat, j: nat, t: TaskId)
    requires Run(states, steps) && i < j < |states| && steps[i] == Client(CancelTask(t))
    requires t in states[i].core.tasks && states[i].core.tasks[t].state == Running
    ensures CancelledIn(states[i].core, t).code == Ok
    ensures var s := states[i];
            states[i+1] == s.(core := s.core.(tasks := s.core.tasks[t := s.core.tasks[t].(cancelToken := true)]))
    ensures t in states[j].core.tasks && states[j].core.tasks[t].cancelToken
  {
    hide Inv, CancelledIn, Appended;
    assert Enabled(states[i], steps[i]) && states[i+1] == Next(states[i], steps[i]);
    RunKeeps(states, steps, i);
    QueueIsDistinct(states[i]);
    CancelOutcomes(states[i].core, t);
    NoEvent(states[i].completions);
    RecordsEvolve(states, steps, i + 1, j, t);
  }

  lemma NoEvent(events: seq<Completion>)
    ensures Appended(events, None) == events
  {
  }

  lemma QueueIsDistinct(s: Local)
    requires Inv(s)
    ensures Distinct(s.core.queue)
    ensures forall t :: t in s.core.queue <==> t in s.core.tasks && s.core.tasks[t].state == Queued
  {
    hide ShapeOk, WorkersOk, HeldOk, RequestsOk, LedgerOk, FlagsOk, WorkerFlagsOk, AlarmOk, FifoOk, EventsOk;
  }

  lemma {:induction false} RecordsEvolve(states: seq<Local>, steps: seq<Step>, i: nat, j: nat, t: TaskId)
    requires Run(states, steps) && i <= j < |states| && t in states[i].core.tasks
    ensures t in states[j].core.tasks && Evolves(states[i].core.tasks[t], states[j].core.tasks[t])
  {
    hide Inv, Next, Enabled, Perform;
    if i < j {
      RecordsEvolve(states, steps, i, j - 1, t);
      RunKeeps(states, steps, j - 1);
      RecordsStayOk(states[j-1]);
      var call := StepCall(states[j-1], steps[j-1]);
      if call.Some? {
        PerformKeeps(states[j-1].core.tasks, call.value, states[j-1].completions);
      }
    }
  }

  lemma RecordsStayOk(s: Local)
    requires Inv(s)
    ensures RecordsOk(s.core.tasks) && EventsMatch(s.core.tasks, s.completions)
  {
    hide ShapeOk, WorkersOk, HeldOk, QueueOk, RequestsOk, LedgerOk, FlagsOk, WorkerFlagsOk, AlarmOk, FifoOk;
  }

  /** What Cancel answers on every run, read off the state of the task. */
  lemma CancelAnswers(states: seq<Local>, steps: seq<Step>, i: nat, t: TaskId)
    requires Run(states, steps) && i < |states|
    ensures var c := states[i].core;
            CancelledIn(c, t).code ==
            if t !in c.tasks then NotFound
            else if c.tasks[t].state == Queued || c.tasks[t].state == Running then Ok
            else FailedPrecondition
  {
    hide Run, Inv, CancelledIn;
    RunKeeps(states, steps, i);
    QueueIsDistinct(states[i]);
    CancelOutcomes(states[i].core, t);
  }

  // ---- Records

  /** On every run, how a task ended and the status it carries say the same, and every completion event says what the record says. */
  lemma VerdictsMatchOnRuns(states: seq<Local>, steps: seq<Step>, i: nat, t: TaskId)
    requires Run(states, steps) && i < |states|
    requires t in states[i].core.tasks && IsTerminal(states[i].core.tasks[t].state)
    ensures var r := states[i].core.tasks[t];
            && StateTells(r.state, r.terminalStatus.code)
            && exists k :: 0 <= k < |states[i].completions|
                           && states[i].completions[k] == Completion(t, r.state, r.execution, r.terminalStatus, r.result)
  {
    hide Run, Inv, StateTells, IsTerminal;
    var ops := RunIsHistory(states, steps, i);
    VerdictsMatch(ops, t);
    RunKeeps(states, steps, i);
    RecordsStayOk(states[i]);
    var k := EventFor(states[i].core.tasks, states[i].completions, t);
  }

  lemma EventFor(tasks: Tasks, events: seq<Completion>, t: TaskId) returns (k: nat)
    requires EventsMatch(tasks, events) && t in tasks && IsTerminal(tasks[t].state)
    ensures var r := tasks[t];
            k < |events| && events[k] == Completion(t, r.state, r.execution, r.terminalStatus, r.result)
  {
    var i :| 0 <= i < |events| && events[i].task == t;
    k := i;
  }

  /** On every run, when a worker finishes, the task's record takes exactly what the handler returned. */
  lemma FinishCommits(states: seq<Local>, steps: seq<Step>, i: nat, w: WorkerId, item: WorkItem, o: Outcome)
    requires Run(states, steps) && i < |steps| && steps[i] == Worker(w, Finish)
    requires w in states[i].threads && states[i].threads[w] == Decided(item, o)
    ensures item.task in states[i].core.tasks && item.task in states[i+1].core.tasks
    ensures var r, r' := states[i].core.tasks[item.task], states[i+1].core.tasks[item.task];
            && r.execution == Some(item.execution) && r.worker == Some(w)
            && r' == r.(state := r'.state, terminalStatus := o.status, result := o.result) && StateTells(r'.state, o.status.code)
  {
    hide Inv, Completed, Appended, StateTells;
    var s := states[i];
    assert Enabled(s, steps[i]) && states[i+1] == Next(s, steps[i]);
    RunKeeps(states, steps, i);
    DecidedIsRunning(s, w, item, o);
    CallAnswers(s.core.tasks, Complete(item.task, o));
    CallEffects(s.core.tasks, Complete(item.task, o));
  }

  lemma DecidedIsRunning(s: Local, w: WorkerId, item: WorkItem, o: Outcome)
    requires Inv(s) && w in s.threads && w in s.core.slots && s.threads[w] == Decided(item, o)
    ensures Assigned(s.core.tasks, item, w, Running)
  {
    hide ShapeOk, HeldOk, QueueOk, RequestsOk, LedgerOk, FlagsOk, WorkerFlagsOk, AlarmOk, FifoOk, EventsOk;
    WorkerOkAt(s, w);
  }
}
