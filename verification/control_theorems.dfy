/** What the control plane guarantees on every run, what it guarantees on orderly runs, and why those must be orderly. */
module ControlPlaneTheorems {
  import opened Common
  import opened Resources
  import opened NodeRegistration
  import opened ClusterLedger
  import opened Wire
  import opened ControlPlaneProtocol
  import opened ControlPlaneInvariant
  import FailureDetection

  // ---- Conservation

  /**
   * At every point of every orderly run, for every registered node and resource: the pool's total is what is available,
   * plus what open records hold, plus what submissions in flight hold. No release has ever failed.
   */
  lemma ClusterConservation(states: seq<Control>, acts: seq<Act>, i: nat, x: NodeId, n: string)
    requires OrderlyRun(states, acts) && i < |states| && x in states[i].registry.nodes
    ensures var c := states[i];
            var s := c.registry.nodes[x];
            && c.failedReleases == 0
            && 0 <= Get(s.pool.available, n) <= Get(s.pool.total, n)
            && Get(s.pool.total, n)
               == Get(s.pool.available, n) + InUse(OpenRecords(c), LifeOf(s), n) + InUse(InFlight(c), LifeOf(s), n)
  {
    hide Enabled, Next, TaskOk, OpenRecords, InFlight, RegistryOk, Total, HoldersOf;
    RunKeepsLedger(states, acts, i);
    RunKeepsShape(states, acts, i);
    var c := states[i];
    var s := c.registry.nodes[x];
    HoldersSplit(c);
    InUseSplit(OpenRecords(c), InFlight(c), LifeOf(s), n);
    assert NodeBalanced(s, HoldersOf(c));
    assert Get(s.pool.total, n) == Get(s.pool.available, n) + InUse(HoldersOf(c), LifeOf(s), n);
    IdIsKey(c.registry, x);
  }

  lemma HoldersSplit(c: Control)
    requires ShapeOk(c)
    ensures OpenRecords(c).Keys !! InFlight(c).Keys
    ensures HoldersOf(c) == OpenRecords(c) + InFlight(c)
  {
    assert forall t :: t in c.issued ==> TaskOk(c, t);
    assert forall t :: !(IsOpen(c, t) && IsInFlight(c, t)) by {
      forall t
        ensures !(IsOpen(c, t) && IsInFlight(c, t))
      {
        assert TaskOk(c, t);
      }
    }
  }

  // ---- Node death

  /** The records visited strictly between two steps. */
  function Visited(acts: seq<Act>, i: nat, k: nat): set<TaskId>
    requires k <= |acts|
  {
    set m | i < m < k && acts[m].DeadVisits? :: acts[m].task
  }

  lemma VisitedNext(acts: seq<Act>, i: nat, k: nat)
    requires i < k < |acts|
    ensures Visited(acts, i, k + 1) == if acts[k].DeadVisits? then Visited(acts, i, k) + {acts[k].task} else Visited(acts, i, k)
  {
    forall t
      ensures t in Visited(acts, i, k + 1) <==> t in Visited(acts, i, k) || (acts[k].DeadVisits? && t == acts[k].task)
    {
      if t in Visited(acts, i, k) {
        var m :| i < m < k && acts[m].DeadVisits? && acts[m].task == t;
        assert i < m < k + 1;
      }
      if acts[k].DeadVisits? && t == acts[k].task {
        assert i < k < k + 1;
      }
    }
  }

  /**
   * On an orderly run HandleNodeDead never gives up: until it ends it is the same sweep, and what it still has to visit
   * is what was recorded when it took the lock minus what it has visited since.
   */
  lemma {:induction false} SweepNeverAborts(states: seq<Control>, acts: seq<Act>, i: nat, k: nat, life: Lifetime)
    requires OrderlyRun(states, acts) && i < k <= |acts| && acts[i] == DeadBegins(life)
    requires forall m :: i < m < k ==> !acts[m].DeadEnds?
    ensures states[k].sweep == Some(Sweep(life, states[i].records.Keys - Visited(acts, i, k), states[i].records))
  {
    hide Next, Enabled, Orderly, LedgerHolds, Visited;
    assert Enabled(states[k-1], acts[k-1]) && states[k] == Next(states[k-1], acts[k-1]);
    if k == i + 1 {
      DeadBeginsIs(states[i], life);
      NoneVisited(acts, i);
      assert states[i].records.Keys - {} == states[i].records.Keys;
    } else {
      SweepNeverAborts(states, acts, i, k - 1, life);
      RunKeepsLedger(states, acts, k);
      RunKeepsLedger(states, acts, k - 1);
      NoFailures(states[k]);
      NoFailures(states[k-1]);
      SweepGoesOn(states[k-1], acts[k-1]);
      VisitedNext(acts, i, k - 1);
      var ids, gone := states[i].records.Keys, Visited(acts, i, k - 1);
      if acts[k-1].DeadVisits? {
        assert ids - gone - {acts[k-1].task} == ids - (gone + {acts[k-1].task});
      }
    }
  }

  lemma NoneVisited(acts: seq<Act>, i: nat)
    requires i < |acts|
    ensures Visited(acts, i, i + 1) == {}
  {
  }

  lemma NoFailures(c: Control)
    requires LedgerHolds(c)
    ensures c.failedReleases == 0
  {
  }

  lemma DeadBeginsIs(c: Control, life: Lifetime)
    requires Enabled(c, DeadBegins(life))
    ensures Next(c, DeadBegins(life)).sweep == Some(Sweep(life, c.records.Keys, c.records))
  {
  }

  lemma SweepGoesOn(c: Control, a: Act)
    requires Enabled(c, a) && c.sweep.Some? && !a.DeadEnds? && Next(c, a).failedReleases == c.failedReleases
    ensures var s := Next(c, a).sweep;
            s == Some(c.sweep.value.(todo := if a.DeadVisits? then c.sweep.value.todo - {a.task} else c.sweep.value.todo))
  {
    hide ReserveAt, ReleaseAt, Canonical, DeadStep, FailureDetection.Changed;
  }

  /**
   * HandleNodeDead on an orderly run, in whatever order it visits the records: it visits them all, every record of that
   * lifetime ends up final, every other record is what it was, and only submissions in flight still hold the node.
   */
  lemma NodeDeathSettles(states: seq<Control>, acts: seq<Act>, i: nat, j: nat, life: Lifetime)
    requires OrderlyRun(states, acts) && i < j < |acts| && acts[i] == DeadBegins(life) && acts[j] == DeadEnds
    requires forall m :: i < m < j ==> !acts[m].DeadEnds?
    ensures var c, c' := states[i], states[j+1];
            && c'.records == (map t | t in c.records :: Lost(c.records[t], life))
            && (forall t :: t in c'.records && c'.records[t].life == life ==> IsFinal(c'.records[t].state))
            && (forall t :: t in c.records && Orphan(c.records[t], life) ==>
                  c'.records[t] == c.records[t].(state := DFailed, status := NODE_LOST, result := "", media := ""))
            && (forall t :: t in c.records && (c.records[t].life != life || IsFinal(c.records[t].state)) ==> c'.records[t] == c.records[t])
            && (forall n :: InUse(HoldersOf(c'), life, n) == InUse(InFlight(c'), life, n))
  {
    hide Orderly, LedgerHolds, ReserveAt, ReleaseAt, DeadStep, Reported, InUse, TaskOk, Lost;
    SweepNeverAborts(states, acts, i, j, life);
    RunKeepsShape(states, acts, j);
    RunKeepsShape(states, acts, j + 1);
    assert Enabled(states[j], acts[j]) && states[j+1] == Next(states[j], acts[j]);
    var c, c' := states[i], states[j+1];
    assert c'.records == map t | t in c.records :: Lost(c.records[t], life);
    LostIsFinal(c.records, life);
    forall n
      ensures InUse(HoldersOf(c'), life, n) == InUse(InFlight(c'), life, n)
    {
      OnlyInFlight(c', life, n);
    }
  }

  lemma LostIsFinal(ds: Records, life: Lifetime)
    ensures forall t :: t in ds && Lost(ds[t], life).life == life ==> IsFinal(Lost(ds[t], life).state)
    ensures forall t :: t in ds && Orphan(ds[t], life) ==>
              Lost(ds[t], life) == ds[t].(state := DFailed, status := NODE_LOST, result := "", media := "")
    ensures forall t :: t in ds && (ds[t].life != life || IsFinal(ds[t].state)) ==> Lost(ds[t], life) == ds[t]
  {
  }

  lemma OnlyInFlight(c: Control, life: Lifetime, n: string)
    requires ShapeOk(c)
    requires forall t :: t in c.records && c.records[t].life == life ==> IsFinal(c.records[t].state)
    ensures InUse(HoldersOf(c), life, n) == InUse(InFlight(c), life, n)
  {
    hide ShapeOk, InUse, HoldersOf, InFlight;
    HoldersSplit(c);
    InUseSplit(OpenRecords(c), InFlight(c), life, n);
    NoneOpen(c, life);
    InUseNone(OpenRecords(c), life, n);
  }

  lemma NoneOpen(c: Control, life: Lifetime)
    requires ShapeOk(c)
    requires forall t :: t in c.records && c.records[t].life == life ==> IsFinal(c.records[t].state)
    ensures Unheld(OpenRecords(c), life)
  {
    forall t | t in OpenRecords(c)
      ensures OpenRecords(c)[t].life != life
    {
      assert TaskOk(c, t);
    }
  }

  // ---- Stability of terminal records

  predicate Erased(c: Control, t: TaskId) {
    t in c.issued && t !in c.records && !(t in c.calls && c.calls[t].Reserving?)
  }

  lemma NextIsStable(c: Control, a: Act, t: TaskId)
    requires Enabled(c, a) && TaskOk(c, t)
    ensures var c' := Next(c, a);
            && (t in c.records && IsFinal(c.records[t].state) ==>
                  if t in c'.records then c'.records[t] == c.records[t] else a == DispatchFails(t) && Erased(c', t))
            && (Erased(c, t) ==> Erased(c', t))
  {
    hide ReserveAt, ReleaseAt, Canonical, Settled;
    if TaskOf(a) == Some(t) {
      match a
      case Reserve(t, e, request) =>
      case Record(t) =>
      case DispatchOk(t) =>
      case DispatchFails(t) =>
      case Rollback(t) =>
      case Report(t, e, v) =>
      case CancelBegins(t) =>
      case CancelAccepted(t) =>
      case DeadVisits(t) =>
    } else {
      NextElsewhere(c, a, t);
    }
  }

  /**
   * Through reports, repeated reports, cancellations and node deaths, a terminal record keeps its state, status, result
   * and media type, until the rollback of its own submission erases it; then it never comes back.
   */
  lemma {:induction false} TerminalRecordsStay(states: seq<Control>, acts: seq<Act>, i: nat, j: nat, t: TaskId)
    requires Run(states, acts) && i <= j < |states|
    requires t in states[i].records && IsFinal(states[i].records[t].state)
    ensures if t in states[j].records then states[j].records[t] == states[i].records[t]
            else Erased(states[j], t) && exists k :: i <= k < j && acts[k] == DispatchFails(t)
  {
    hide Enabled, Next, Erased, ShapeOk;
    if i < j {
      TerminalRecordsStay(states, acts, i, j - 1, t);
      RunKeepsShape(states, acts, j - 1);
      ShapeAt(states[j-1], t);
      NextIsStable(states[j-1], acts[j-1], t);
      if t !in states[j-1].records {
        ErasedHasNoRecord(states[j], t);
      } else if t !in states[j].records {
        assert acts[j-1] == DispatchFails(t);
      }
    }
  }

  lemma ShapeAt(c: Control, t: TaskId)
    requires ShapeOk(c)
    ensures TaskOk(c, t)
  {
  }

  lemma ErasedHasNoRecord(c: Control, t: TaskId)
    requires Erased(c, t)
    ensures t !in c.records
  {
  }

  /**
   * On every run reports and node deaths return each reservation at most once, never one that is still held; on an
   * orderly run a rollback returns only a reservation nobody else has returned.
   */
  lemma ReleasedAtMostOnce(states: seq<Control>, acts: seq<Act>, i: nat, t: TaskId)
    requires Run(states, acts) && i < |states|
    ensures Distinct(states[i].freed)
    ensures t in states[i].freed ==> t !in HoldersOf(states[i])
    ensures t in states[i].records && IsFinal(states[i].records[t].state) ==> t in states[i].freed
    ensures OrderlyRun(states, acts) && t in states[i].calls && states[i].calls[t].RollingBack? ==> t !in states[i].freed
  {
    RunKeepsShape(states, acts, i);
    assert TaskOk(states[i], t);
    if OrderlyRun(states, acts) {
      hide Run, Orderly, LedgerOk;
      RunKeepsLedger(states, acts, i);
    }
  }

  // ---- A superseded lifetime is never reported again

  lemma RegistryIsLater(c: Control, a: Act, x: NodeId)
    requires Enabled(c, a) && !(a.Node? && a.call.Remove? && a.call.id == x)
    ensures FailureDetection.Later(c.registry, Next(c, a).registry, x)
  {
    hide FailureDetection.Changed, FailureDetection.Later, ReserveAt, ReleaseAt, Canonical;
    FailureDetection.LaterIsReflexive(c.registry, x);
    match a
    case Reserve(_, _, request) => ChangeIsLater(c.registry, FailureDetection.Reserve(request), x);
    case Record(_) =>
    case DispatchOk(_) =>
    case DispatchFails(_) =>
    case Rollback(t) => ReleaseIsLater(c.registry, c.issued[t].life.node, c.issued[t].request, x);
    case Report(t, _, _) =>
      if t in c.records {
        ReleaseIsLater(c.registry, c.records[t].life.node, c.records[t].request, x);
      }
    case CancelBegins(_) =>
    case CancelAccepted(_) =>
    case DeadBegins(_) =>
    case DeadVisits(t) => ReleaseIsLater(c.registry, c.records[t].life.node, c.records[t].request, x);
    case DeadEnds =>
    case Node(call) => ChangeIsLater(c.registry, call, x);
  }

  lemma ChangeIsLater(r: Registry, call: FailureDetection.Act, x: NodeId)
    requires !(call.Remove? && call.id == x)
    ensures FailureDetection.Later(r, FailureDetection.Changed(r, call), x)
    ensures call.Reserve? ==> FailureDetection.Changed(r, call) == ReserveAt(r, call.request).0
  {
    hide FailureDetection.Later, ReserveAt, ReleaseAt;
    FailureDetection.NextIsLater(FailureDetection.Watch(r, [], 0), call, x);
  }

  lemma ReleaseIsLater(r: Registry, y: NodeId, request: Bag, x: NodeId)
    ensures FailureDetection.Later(r, ReleaseAt(r, y, request).0, x)
  {
    hide FailureDetection.Later, ReserveAt, ReleaseAt;
    ChangeIsLater(r, FailureDetection.Release(y, request), x);
  }

  /**
   * Once a newer incarnation of a node is registered, no scan reports the old lifetime, as long as the node is not
   * removed: a sweep that was abandoned is not made up for.
   */
  lemma {:induction false} SupersededIsNeverReported(states: seq<Control>, acts: seq<Act>, i: nat, j: nat, life: Lifetime,
                                                     now: int, suspectAfter: int, deadAfter: int)
    requires Run(states, acts) && i <= j < |states|
    requires life.node in states[i].registry.nodes && life.incarnation < states[i].registry.nodes[life.node].record.incarnation
    requires forall k :: i <= k < j ==> !(acts[k].Node? && acts[k].call.Remove? && acts[k].call.id == life.node)
    ensures life !in ScanReports(states[j].registry, now, suspectAfter, deadAfter)
  {
    hide Enabled, Next, NewlyDead, FailureDetection.Later;
    StaysSuperseded(states, acts, i, j, life);
    NotReported(states[j].registry, states[j].registry.order, life, now, deadAfter);
  }

  lemma {:induction false} StaysSuperseded(states: seq<Control>, acts: seq<Act>, i: nat, j: nat, life: Lifetime)
    requires Run(states, acts) && i <= j < |states|
    requires life.node in states[i].registry.nodes && life.incarnation < states[i].registry.nodes[life.node].record.incarnation
    requires forall k :: i <= k < j ==> !(acts[k].Node? && acts[k].call.Remove? && acts[k].call.id == life.node)
    ensures life.node in states[j].registry.nodes && life.incarnation < states[j].registry.nodes[life.node].record.incarnation
  {
    hide Enabled, Next;
    if i < j {
      StaysSuperseded(states, acts, i, j - 1, life);
      RegistryIsLater(states[j-1], acts[j-1], life.node);
    }
  }

  lemma {:induction false} NotReported(r: Registry, order: seq<NodeId>, life: Lifetime, now: int, deadAfter: int)
    requires life.node in r.nodes && life.incarnation < r.nodes[life.node].record.incarnation
    ensures life !in NewlyDead(r, order, now, deadAfter)
  {
    if order != [] {
      NotReported(r, order[..|order|-1], life, now, deadAfter);
    }
  }

  // ---- Building runs

  /** One more step of a run. */
  lemma Extend(states: seq<Control>, acts: seq<Act>, a: Act, next: Control) returns (states': seq<Control>, acts': seq<Act>)
    requires Run(states, acts) && Enabled(states[|acts|], a) && Next(states[|acts|], a) == next
    ensures Run(states', acts') && states'[|acts'|] == next
    ensures states' == states + [next] && acts' == acts + [a]
  {
    hide Enabled, Next;
    states', acts' := states + [next], acts + [a];
    forall i | 0 <= i < |acts'|
      ensures Enabled(states'[i], acts'[i]) && states'[i+1] == Next(states'[i], acts'[i])
    {
      if i < |acts| {
        assert states'[i] == states[i] && states'[i+1] == states[i+1];
      }
    }
  }
}
