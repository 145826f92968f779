/** What every run of the control plane keeps, and what orderly runs keep besides. */
module ControlPlaneInvariant {
  import opened Common
  import opened Resources
  import opened NodeRegistration
  import opened ClusterLedger
  import opened Wire
  import opened ControlPlaneProtocol
  import FailureDetection

  // ---- Locality: a step concerns the one task it names

  function TaskOf(a: Act): Option<TaskId> {
    match a
    case Reserve(t, _, _) => Some(t)
    case Record(t) => Some(t)
    case DispatchOk(t) => Some(t)
    case DispatchFails(t) => Some(t)
    case Rollback(t) => Some(t)
    case Report(t, _, _) => Some(t)
    case CancelBegins(t) => Some(t)
    case CancelAccepted(t) => Some(t)
    case DeadVisits(t) => Some(t)
    case _ => None
  }

  predicate SameEntry<V(==)>(m: map<TaskId, V>, m': map<TaskId, V>, u: TaskId) {
    (u in m <==> u in m') && (u in m ==> m'[u] == m[u])
  }

  predicate SameAt(c: Control, c': Control, u: TaskId) {
    && SameEntry(c.records, c'.records, u) && SameEntry(c.calls, c'.calls, u)
    && SameEntry(c.cancelling, c'.cancelling, u) && SameEntry(c.issued, c'.issued, u)
    && (u in c.freed <==> u in c'.freed)
  }

  lemma SettledLocal(r: Registry, ds: Records, t: TaskId, v: Verdict, u: TaskId)
    requires t in ds
    ensures var f := Settled(r, ds, t, v);
            && (u != t ==> SameEntry(ds, f.records, u))
            && t in f.records && f.records[t] == (if f.committed then Committed(ds[t], v) else ds[t])
            && (f.committed <==> f.code == Ok)
            && (!f.committed ==> f.records == ds && f.registry == r)
  {
  }

  lemma ReleaseFailsWhole(r: Registry, x: NodeId, request: Bag)
    ensures ReleaseAt(r, x, request).1 != Ok ==> ReleaseAt(r, x, request).0 == r
  {
  }

  lemma AfterElsewhere(c: Control, t: TaskId, f: Effect, u: TaskId)
    requires u != t && SameEntry(c.records, f.records, u)
    ensures SameAt(c, After(c, t, f), u)
  {
  }

  lemma ReportedLocal(r: Registry, ds: Records, t: TaskId, e: ExecutionId, v: Verdict, u: TaskId)
    requires u != t
    ensures SameEntry(ds, Reported(r, ds, t, e, v).records, u)
  {
  }

  lemma DeadStepLocal(r: Registry, ds: Records, t: TaskId, life: Lifetime, u: TaskId)
    requires u != t && t in ds
    ensures SameEntry(ds, DeadStep(r, ds, t, life).records, u)
  {
  }

  lemma NextElsewhere(c: Control, a: Act, u: TaskId)
    requires Enabled(c, a) && TaskOf(a) != Some(u)
    ensures SameAt(c, Next(c, a), u)
  {
    hide ReserveAt, ReleaseAt, Canonical, Reported, DeadStep, After, FailureDetection.Changed;
    match a
    case Reserve(t, e, request) =>
    case Record(t) =>
    case DispatchOk(t) =>
    case DispatchFails(t) =>
    case Rollback(t) =>
    case Report(t, e, v) =>
      hide ReleaseFailed;
      ReportedLocal(c.registry, c.records, t, e, v, u);
      AfterElsewhere(c, t, Reported(c.registry, c.records, t, e, v), u);
    case CancelBegins(t) =>
    case CancelAccepted(t) =>
    case DeadBegins(life) =>
    case DeadVisits(t) =>
      DeadStepLocal(c.registry, c.records, t, c.sweep.value.life, u);
      AfterElsewhere(c, t, DeadStep(c.registry, c.records, t, c.sweep.value.life), u);
    case DeadEnds =>
    case Node(call) =>
  }

  // ---- The shape

  lemma TaskOkElsewhere(c: Control, c': Control, u: TaskId)
    requires TaskOk(c, u) && SameAt(c, c', u)
    ensures TaskOk(c', u)
  {
  }

  lemma TaskOkHere(c: Control, a: Act, t: TaskId)
    requires TaskOk(c, t) && Enabled(c, a) && TaskOf(a) == Some(t)
    ensures TaskOk(Next(c, a), t)
  {
    hide ReserveAt, ReleaseAt, Canonical, Reported, DeadStep;
    match a
    case Reserve(t, e, request) =>
    case Record(t) =>
    case DispatchOk(t) =>
    case DispatchFails(t) =>
    case Rollback(t) =>
    case Report(t, e, v) =>
      hide After, TaskOk, ReleaseFailed;
      ReportedHere(c, t, e, v);
    case CancelBegins(t) =>
    case CancelAccepted(t) =>
    case DeadVisits(t) =>
      hide After, TaskOk;
      VisitedHere(c, t, c.sweep.value.life);
  }

  lemma ReportedHere(c: Control, t: TaskId, e: ExecutionId, v: Verdict)
    requires TaskOk(c, t)
    ensures TaskOk(After(c, t, Reported(c.registry, c.records, t, e, v)), t)
  {
  }

  lemma VisitedHere(c: Control, t: TaskId, life: Lifetime)
    requires TaskOk(c, t) && t in c.records
    ensures TaskOk(After(c, t, DeadStep(c.registry, c.records, t, life)), t)
  {
  }

  /** A step frees at most the task it names, and only one whose record was open. */
  lemma NextFrees(c: Control, a: Act)
    requires Enabled(c, a)
    ensures var c' := Next(c, a);
            c'.freed == c.freed || (TaskOf(a).Some? && IsOpen(c, TaskOf(a).value) && c'.freed == c.freed + [TaskOf(a).value])
  {
    hide ReserveAt, ReleaseAt, Canonical, Settled, FailureDetection.Changed;
    match a
    case Reserve(t, e, request) =>
    case Record(t) =>
    case DispatchOk(t) =>
    case DispatchFails(t) =>
    case Rollback(t) =>
    case Report(t, e, v) =>
    case CancelBegins(t) =>
    case CancelAccepted(t) =>
    case DeadBegins(life) =>
    case DeadVisits(t) =>
    case DeadEnds =>
    case Node(call) =>
  }

  lemma NextIssues(c: Control, a: Act)
    requires Enabled(c, a)
    ensures var c' := Next(c, a);
            c'.issued == c.issued
            || (a.Reserve? && FreshIds(c, a.task, a.execution) && a.task in c'.issued
                && c'.issued == c.issued[a.task := c'.issued[a.task]] && c'.issued[a.task].execution == a.execution)
  {
    hide ReserveAt, ReleaseAt, Canonical, Settled, Reported, DeadStep, FreshIds, FailureDetection.Changed;
    match a
    case Reserve(t, e, request) =>
    case Record(t) =>
    case DispatchOk(t) =>
    case DispatchFails(t) =>
    case Rollback(t) =>
    case Report(t, e, v) =>
    case CancelBegins(t) =>
    case CancelAccepted(t) =>
    case DeadBegins(life) =>
    case DeadVisits(t) =>
    case DeadEnds =>
    case Node(call) =>
  }

  lemma NextKeepsShape(c: Control, a: Act)
    requires ShapeOk(c) && Enabled(c, a)
    ensures ShapeOk(Next(c, a))
  {
    hide Enabled, Next, TaskOk;
    var c' := Next(c, a);
    forall u
      ensures TaskOk(c', u)
    {
      if TaskOf(a) == Some(u) {
        TaskOkHere(c, a, u);
      } else {
        NextElsewhere(c, a, u);
        TaskOkElsewhere(c, c', u);
      }
    }
    NextFrees(c, a);
    if c'.freed != c.freed {
      OpenIsNotFreed(c, TaskOf(a).value);
    }
    NextIssues(c, a);
  }

  lemma OpenIsNotFreed(c: Control, t: TaskId)
    requires TaskOk(c, t) && IsOpen(c, t)
    ensures t !in c.freed
  {
  }

  // ---- The sweep of HandleNodeDead

  lemma DeadVisitsKeepsSweep(c: Control, t: TaskId)
    requires SweepOk(c) && Enabled(c, DeadVisits(t))
    ensures SweepOk(Next(c, DeadVisits(t)))
  {
    hide ReleaseAt;
    var c' := Next(c, DeadVisits(t));
    var s := c.sweep.value;
    var f := DeadStep(c.registry, c.records, t, s.life);
    if f.code == Ok {
      if Orphan(c.records[t], s.life) {
        SettledLocal(c.registry, c.records, t, LOST, t);
        assert c'.records == c.records[t := Lost(c.records[t], s.life)];
      }
    }
  }

  lemma NextKeepsSweep(c: Control, a: Act)
    requires SweepOk(c) && Enabled(c, a)
    ensures SweepOk(Next(c, a))
  {
    hide ReserveAt, ReleaseAt, Canonical, Settled, Reported, FailureDetection.Changed;
    match a
    case Reserve(t, e, request) =>
    case Record(t) =>
    case DispatchOk(t) =>
    case DispatchFails(t) =>
    case Rollback(t) =>
    case Report(t, e, v) =>
    case CancelBegins(t) =>
    case CancelAccepted(t) =>
    case DeadBegins(life) =>
    case DeadVisits(t) => DeadVisitsKeepsSweep(c, t);
    case DeadEnds =>
    case Node(call) =>
  }

  lemma {:induction false} RunKeepsShape(states: seq<Control>, acts: seq<Act>, i: nat)
    requires Run(states, acts) && i < |states|
    ensures ShapeOk(states[i]) && SweepOk(states[i])
  {
    hide Enabled, Next, ShapeOk, SweepOk;
    if i == 0 {
      StartOk();
    } else {
      RunKeepsShape(states, acts, i - 1);
      NextKeepsShape(states[i-1], acts[i-1]);
      NextKeepsSweep(states[i-1], acts[i-1]);
    }
  }

  /** The shape together with the state of the sweep. */
  ghost predicate ShapeHolds(c: Control) {
    ShapeOk(c) && SweepOk(c)
  }

  lemma ShapeNext(c: Control, a: Act)
    requires ShapeHolds(c) && Enabled(c, a)
    ensures ShapeHolds(Next(c, a))
  {
    hide Enabled, Next, ShapeOk, SweepOk;
    NextKeepsShape(c, a);
    NextKeepsSweep(c, a);
  }

  lemma TaskShape(c: Control, t: TaskId)
    requires ShapeHolds(c)
    ensures TaskOk(c, t)
  {
  }

  lemma OneTaskPerExecution(c: Control, t: TaskId, u: TaskId)
    requires ShapeHolds(c) && t in c.issued && u in c.issued && c.issued[t].execution == c.issued[u].execution
    ensures t == u
  {
  }

  lemma StartOk()
    ensures ShapeOk(START) && SweepOk(START)
  {
  }

  // ---- The ledger

  /** A lifetime is replaced or removed only when nothing is held on it; a failed dispatch finds its record still open. */
  predicate Orderly(c: Control, a: Act) {
    match a
    case DispatchFails(t) => IsOpen(c, t)
    case Node(Register(node, _)) =>
      node.id in c.registry.nodes && c.registry.nodes[node.id].record.incarnation < node.incarnation ==>
        Unheld(HoldersOf(c), LifeOf(c.registry.nodes[node.id]))
    case Node(Remove(x, incarnation)) =>
      x in c.registry.nodes && c.registry.nodes[x].record.incarnation == incarnation ==>
        Unheld(HoldersOf(c), LifeOf(c.registry.nodes[x]))
    case _ => true
  }

  ghost predicate OrderlyRun(states: seq<Control>, acts: seq<Act>) {
    Run(states, acts) && forall i :: 0 <= i < |acts| ==> Orderly(states[i], acts[i])
  }

  /** Every rollback still owes its release. */
  ghost predicate RollbacksOwe(c: Control) {
    forall t :: t in c.calls && c.calls[t].RollingBack? ==> c.calls[t].held
  }

  ghost predicate LedgerHolds(c: Control) {
    LedgerOk(c.registry, HoldersOf(c)) && RollbacksOwe(c) && c.failedReleases == 0
  }

  predicate Holds(c: Control, t: TaskId) {
    t in c.issued && (IsOpen(c, t) || IsInFlight(c, t))
  }

  lemma HoldersChange(c: Control, a: Act, t: TaskId)
    requires Enabled(c, a) && (TaskOf(a).None? || TaskOf(a) == Some(t))
    ensures var c' := Next(c, a);
            HoldersOf(c') == if Holds(c', t) then HoldersOf(c)[t := c'.issued[t]] else HoldersOf(c) - {t}
  {
    hide Enabled, Next;
    var c' := Next(c, a);
    forall u | u != t
      ensures Holds(c', u) == Holds(c, u) && (Holds(c, u) ==> c'.issued[u] == c.issued[u])
    {
      NextElsewhere(c, a, u);
      SameHolds(c, c', u);
    }
    HoldersFrom(c, c', t);
  }

  lemma SameHolds(c: Control, c': Control, u: TaskId)
    requires SameAt(c, c', u)
    ensures Holds(c', u) == Holds(c, u) && (Holds(c, u) ==> c'.issued[u] == c.issued[u])
  {
  }

  lemma HoldersFrom(c: Control, c': Control, t: TaskId)
    requires forall u :: u != t ==> Holds(c', u) == Holds(c, u) && (Holds(c, u) ==> c'.issued[u] == c.issued[u])
    ensures HoldersOf(c') == if Holds(c', t) then HoldersOf(c)[t := c'.issued[t]] else HoldersOf(c) - {t}
  {
    hide IsOpen, IsInFlight;
  }

  lemma SameHolder(c: Control, c': Control, t: TaskId)
    requires Holds(c, t) == Holds(c', t) && (Holds(c, t) ==> c'.issued[t] == c.issued[t])
    requires HoldersOf(c') == if Holds(c', t) then HoldersOf(c)[t := c'.issued[t]] else HoldersOf(c) - {t}
    ensures HoldersOf(c') == HoldersOf(c)
  {
  }

  /** Steps that move a reservation from one form to another, or leave it alone. */
  lemma QuietHolders(c: Control, a: Act, t: TaskId)
    requires Enabled(c, a) && TaskOk(c, t) && TaskOf(a) == Some(t)
    requires a.Record? || a.DispatchOk? || a.DispatchFails? || a.CancelBegins? || a.CancelAccepted?
    ensures HoldersOf(Next(c, a)) == HoldersOf(c) && Next(c, a).registry == c.registry
    ensures Next(c, a).failedReleases == c.failedReleases
  {
    hide HoldersOf, Canonical;
    HoldersChange(c, a, t);
    var c' := Next(c, a);
    match a
    case Record(t) => SameHolder(c, c', t);
    case DispatchOk(t) => SameHolder(c, c', t);
    case DispatchFails(t) => SameHolder(c, c', t);
    case CancelBegins(t) => SameHolder(c, c', t);
    case CancelAccepted(t) => SameHolder(c, c', t);
  }

  lemma ReserveKeepsLedgerHolds(c: Control, t: TaskId, e: ExecutionId, request: Bag)
    requires LedgerHolds(c) && TaskOk(c, t) && Enabled(c, Reserve(t, e, request))
    ensures LedgerHolds(Next(c, Reserve(t, e, request)))
  {
    hide HoldersOf, Canonical, LedgerOk, ReserveAt;
    var a := Reserve(t, e, request);
    HoldersChange(c, a, t);
    NotIssuedNotHeld(c, t);
    if ReserveAt(c.registry, request).1.Some? {
      ReserveKeepsLedger(c.registry, HoldersOf(c), t, e, request);
    }
  }

  lemma NotIssuedNotHeld(c: Control, t: TaskId)
    ensures t in HoldersOf(c) <==> Holds(c, t)
    ensures t in HoldersOf(c) ==> HoldersOf(c)[t] == c.issued[t]
  {
  }

  lemma RollbackKeepsLedgerHolds(c: Control, t: TaskId)
    requires LedgerHolds(c) && TaskOk(c, t) && Enabled(c, Rollback(t))
    ensures LedgerHolds(Next(c, Rollback(t)))
  {
    hide HoldersOf, Canonical, LedgerOk, ReleaseAt;
    HoldersChange(c, Rollback(t), t);
    NotIssuedNotHeld(c, t);
    ReleaseKeepsLedger(c.registry, HoldersOf(c), t);
  }

  /** The first terminal report, or the node-death failure, of an open record: the release succeeds. */
  lemma SettledHolds(c: Control, t: TaskId, v: Verdict)
    requires LedgerOk(c.registry, HoldersOf(c)) && TaskOk(c, t) && IsOpen(c, t)
    ensures var f := Settled(c.registry, c.records, t, v);
            && f.committed && f.code == Ok && LedgerOk(f.registry, HoldersOf(c) - {t})
            && ReleaseAt(c.registry, c.records[t].life.node, c.records[t].request).1 == Ok
  {
    hide HoldersOf, LedgerOk, ReleaseAt;
    NotIssuedNotHeld(c, t);
    ReleaseKeepsLedger(c.registry, HoldersOf(c), t);
  }

  lemma ReportKeepsLedgerHolds(c: Control, t: TaskId, e: ExecutionId, v: Verdict)
    requires LedgerHolds(c) && TaskOk(c, t) && Enabled(c, Report(t, e, v))
    ensures LedgerHolds(Next(c, Report(t, e, v)))
  {
    hide HoldersOf, LedgerOk, ReleaseAt, Settled;
    var c' := Next(c, Report(t, e, v));
    HoldersChange(c, Report(t, e, v), t);
    if IsOpen(c, t) && c.records[t].execution == e && IsFinal(v.state) {
      SettledHolds(c, t, v);
      SettledLocal(c.registry, c.records, t, v, t);
      assert !Holds(c', t);
    } else {
      SameHolder(c, c', t);
    }
  }

  lemma VisitKeepsLedgerHolds(c: Control, t: TaskId)
    requires LedgerHolds(c) && TaskOk(c, t) && Enabled(c, DeadVisits(t))
    ensures LedgerHolds(Next(c, DeadVisits(t)))
  {
    hide HoldersOf, LedgerOk, ReleaseAt, Settled;
    var c' := Next(c, DeadVisits(t));
    HoldersChange(c, DeadVisits(t), t);
    if Orphan(c.records[t], c.sweep.value.life) {
      SettledHolds(c, t, LOST);
      SettledLocal(c.registry, c.records, t, LOST, t);
      assert !Holds(c', t);
    } else {
      SameHolder(c, c', t);
    }
  }

  lemma NodeKeepsLedgerHolds(c: Control, call: FailureDetection.Act)
    requires LedgerHolds(c) && Enabled(c, Node(call)) && Orderly(c, Node(call))
    ensures LedgerHolds(Next(c, Node(call)))
  {
    hide HoldersOf, LedgerOk, Unheld, Canonical;
    SameRecordsSameHolders(c, c.(registry := FailureDetection.Changed(c.registry, call)));
    match call
    case Register(node, now) => RegisterKeepsLedger(c.registry, HoldersOf(c), node, now);
    case Heartbeat(x, incarnation, reported, running, now) =>
      HeartbeatKeepsLedger(c.registry, HoldersOf(c), x, incarnation, reported, running, now);
    case Scan(now, suspectAfter, deadAfter) => ScanKeepsLedger(c.registry, HoldersOf(c), now, suspectAfter, deadAfter);
    case Remove(x, incarnation) => RemoveKeepsLedger(c.registry, HoldersOf(c), x, incarnation);
  }

  lemma SameRecordsSameHolders(c: Control, c': Control)
    requires c'.records == c.records && c'.calls == c.calls && c'.issued == c.issued
    ensures HoldersOf(c') == HoldersOf(c)
  {
  }

  lemma NextKeepsLedger(c: Control, a: Act)
    requires ShapeOk(c) && LedgerHolds(c) && Enabled(c, a) && Orderly(c, a)
    ensures LedgerHolds(Next(c, a))
  {
    hide HoldersOf, LedgerOk, TaskOk, Canonical, ReleaseAt, ReserveAt, Reported, DeadStep, Snapshot, Published;
    match a
    case Reserve(t, e, request) => ReserveKeepsLedgerHolds(c, t, e, request);
    case Record(t) => QuietHolders(c, a, t);
    case DispatchOk(t) => QuietHolders(c, a, t);
    case DispatchFails(t) => QuietHolders(c, a, t);
    case Rollback(t) => RollbackKeepsLedgerHolds(c, t);
    case Report(t, e, v) => ReportKeepsLedgerHolds(c, t, e, v);
    case CancelBegins(t) => QuietHolders(c, a, t);
    case CancelAccepted(t) => QuietHolders(c, a, t);
    case DeadBegins(life) => SameRecordsSameHolders(c, Next(c, a));
    case DeadVisits(t) => VisitKeepsLedgerHolds(c, t);
    case DeadEnds => SameRecordsSameHolders(c, Next(c, a));
    case Node(call) => NodeKeepsLedgerHolds(c, call);
  }

  lemma {:induction false} RunKeepsLedger(states: seq<Control>, acts: seq<Act>, i: nat)
    requires OrderlyRun(states, acts) && i < |states|
    ensures LedgerHolds(states[i])
  {
    hide Enabled, Next, ShapeOk, SweepOk, LedgerHolds, Orderly;
    if i == 0 {
      StartLedger();
    } else {
      RunKeepsLedger(states, acts, i - 1);
      RunKeepsShape(states, acts, i - 1);
      NextKeepsLedger(states[i-1], acts[i-1]);
    }
  }

  lemma StartLedger()
    ensures LedgerHolds(START)
  {
  }
}
