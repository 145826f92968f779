/** The control plane: submissions, reports, cancellations and node deaths interleaving over one task table and one registry. */
module ControlPlaneProtocol {
  import opened Common
  import opened Resources
  import opened NodeRegistration
  import opened ClusterLedger
  import opened Wire
  import FailureDetection

  /** DistributedTaskRecord; `life` is its node_id and node_incarnation. */
  datatype DRecord = DRecord(
    execution: ExecutionId,
    life: Lifetime,
    request: Bag,
    state: DistributedState,
    status: Status,
    result: string,
    media: string)

  type Records = map<TaskId, DRecord>

  const NIL_TASK := TaskId(0)
  const NODE_LOST := Status(Unavailable, "worker node became unavailable")

  function NewRecord(i: Issue): DRecord {
    DRecord(i.execution, i.life, i.request, DRunning, OK, "", "")
  }

  // ---- The critical sections, as functions on the registry and the task table

  /** The content of a terminal report. */
  datatype Verdict = Verdict(state: DistributedState, status: Status, result: string, media: string)

  function VerdictOf(r: DRecord): Verdict {
    Verdict(r.state, r.status, r.result, r.media)
  }

  function Committed(r: DRecord, v: Verdict): DRecord {
    r.(state := v.state, status := v.status, result := v.result, media := v.media)
  }

  /** What a report or a node death does: registry, records, code, and the failed release if there was one. */
  datatype Effect = Effect(registry: Registry, records: Records, code: StatusCode, committed: bool)

  function Reported(r: Registry, ds: Records, t: TaskId, e: ExecutionId, v: Verdict): Effect {
    if !IsFinal(v.state) then Effect(r, ds, InvalidArgument, false)
    else if t !in ds then Effect(r, ds, NotFound, false)
    else if ds[t].execution != e then Effect(r, ds, FailedPrecondition, false)
    else if IsFinal(ds[t].state) then
      Effect(r, ds, if VerdictOf(ds[t]) == v then Ok else FailedPrecondition, false)
    else Settled(r, ds, t, v)
  }

  /** Release first; commit only if that succeeded. */
  function Settled(r: Registry, ds: Records, t: TaskId, v: Verdict): Effect
    requires t in ds
  {
    var (r', code) := ReleaseAt(r, ds[t].life.node, ds[t].request);
    if code != Ok then Effect(r, ds, code, false)
    else Effect(r', ds[t := Committed(ds[t], v)], Ok, true)
  }

  const LOST := Verdict(DFailed, NODE_LOST, "", "")

  /** Whether HandleNodeDead has to fail this record. */
  predicate Orphan(d: DRecord, life: Lifetime) {
    d.life == life && !IsFinal(d.state)
  }

  function Lost(d: DRecord, life: Lifetime): DRecord {
    if Orphan(d, life) then Committed(d, LOST) else d
  }

  /** The iteration of HandleNodeDead's loop for one task. */
  function DeadStep(r: Registry, ds: Records, t: TaskId, life: Lifetime): Effect
    requires t in ds
  {
    if !Orphan(ds[t], life) then Effect(r, ds, Ok, false) else Settled(r, ds, t, LOST)
  }

  /** The first critical section of CancelTask. */
  function Snapshot(ds: Records, t: TaskId): (StatusCode, Option<DRecord>) {
    if t == NIL_TASK then (InvalidArgument, None)
    else if t !in ds then (NotFound, None)
    else if IsFinal(ds[t].state) then (FailedPrecondition, None)
    else if ds[t].state == DCancelRequested then (Ok, None)
    else (Ok, Some(ds[t]))
  }

  /** Whether the worker that holds the snapshot's task can still be asked. */
  function Route(r: Registry, life: Lifetime): StatusCode {
    if life.node !in r.nodes then NotFound
    else if r.nodes[life.node].record.incarnation != life.incarnation then FailedPrecondition
    else if r.nodes[life.node].record.state == Dead then Unavailable
    else Ok
  }

  /** The last critical section of CancelTask, after the worker accepted. */
  function Published(ds: Records, t: TaskId, e: ExecutionId): (Records, StatusCode) {
    if t !in ds then (ds, NotFound)
    else if ds[t].execution != e then (ds, FailedPrecondition)
    else if IsFinal(ds[t].state) then (ds, Ok)
    else (ds[t := ds[t].(state := DCancelRequested)], Ok)
  }

  // ---- The step system

  /** Where a SubmitTask call is between two critical sections. */
  datatype Call =
    | Reserving                   // reserved, not yet recorded
    | Dispatching                 // recorded, DispatchTask under way
    | RollingBack(held: bool)     // erased, not yet released; whether the erased record still held its reservation

  /** A HandleNodeDead call: what it still has to visit, and the records when it took the lock. */
  datatype Sweep = Sweep(life: Lifetime, todo: set<TaskId>, before: Records)

  datatype Control = Control(
    registry: Registry,
    records: Records,
    calls: map<TaskId, Call>,
    cancelling: map<TaskId, ExecutionId>,
    sweep: Option<Sweep>,
    // what has happened so far
    issued: map<TaskId, Issue>,
    freed: seq<TaskId>,
    failedReleases: nat)

  datatype Act =
    | Reserve(task: TaskId, execution: ExecutionId, request: Bag)
    | Record(task: TaskId)
    | DispatchOk(task: TaskId)
    | DispatchFails(task: TaskId)
    | Rollback(task: TaskId)
    | Report(task: TaskId, execution: ExecutionId, verdict: Verdict)
    | CancelBegins(task: TaskId)
    | CancelAccepted(task: TaskId)
    | DeadBegins(life: Lifetime)
    | DeadVisits(task: TaskId)
    | DeadEnds
    | Node(call: FailureDetection.Act)

  predicate FreshIds(c: Control, t: TaskId, e: ExecutionId) {
    t !in c.issued && forall u :: u in c.issued ==> c.issued[u].execution != e
  }

  /** `sweep.None?` is tasks_mu_ being free: HandleNodeDead holds it from its first visit to its last. */
  predicate Enabled(c: Control, a: Act) {
    match a
    case Reserve(t, e, request) => FreshIds(c, t, e) && Canonical(request)
    case Record(t) => c.sweep.None? && t in c.calls && c.calls[t].Reserving? && t in c.issued
    case DispatchOk(t) => t in c.calls && c.calls[t].Dispatching?
    case DispatchFails(t) => c.sweep.None? && t in c.calls && c.calls[t].Dispatching? && t in c.records
    case Rollback(t) => t in c.calls && c.calls[t].RollingBack? && t in c.issued
    case Report(t, e, v) => c.sweep.None?
    case CancelBegins(t) => c.sweep.None?
    case CancelAccepted(t) => c.sweep.None? && t in c.cancelling
    case DeadBegins(life) => c.sweep.None?
    case DeadVisits(t) => c.sweep.Some? && t in c.sweep.value.todo && t in c.records
    case DeadEnds => c.sweep.Some? && c.sweep.value.todo == {}
    case Node(call) => (call.Register? && Canonical(call.node.reported)) || call.Heartbeat? || call.Scan? || call.Remove?
  }

  /** The state after a report or a visit of HandleNodeDead. */
  function After(c: Control, t: TaskId, f: Effect): Control {
    c.(registry := f.registry, records := f.records, freed := if f.committed then c.freed + [t] else c.freed)
  }

  function Next(c: Control, a: Act): Control
    requires Enabled(c, a)
  {
    match a
    case Reserve(t, e, request) =>
      var (r, chosen) := ReserveAt(c.registry, request);
      if chosen.None? then c
      else
        c.(registry := r, calls := c.calls[t := Reserving], issued := c.issued[t := IssueOf(e, chosen.value, request)])
    case Record(t) => c.(records := c.records[t := NewRecord(c.issued[t])], calls := c.calls[t := Dispatching])
    case DispatchOk(t) => c.(calls := c.calls - {t})
    case DispatchFails(t) =>
      c.(records := c.records - {t}, calls := c.calls[t := RollingBack(!IsFinal(c.records[t].state))])
    case Rollback(t) =>
      var (r, code) := ReleaseAt(c.registry, c.issued[t].life.node, c.issued[t].request);
      c.(registry := r, calls := c.calls - {t}, failedReleases := c.failedReleases + if code == Ok then 0 else 1)
    case Report(t, e, v) =>
      var f := Reported(c.registry, c.records, t, e, v);
      After(c, t, f).(failedReleases := c.failedReleases + if ReleaseFailed(c, t, e, v) then 1 else 0)
    case CancelBegins(t) =>
      var (code, d) := Snapshot(c.records, t);
      if d.None? then c else c.(cancelling := c.cancelling[t := d.value.execution])
    case CancelAccepted(t) => c.(records := Published(c.records, t, c.cancelling[t]).0)
    case DeadBegins(life) => c.(sweep := Some(Sweep(life, c.records.Keys, c.records)))
    case DeadVisits(t) =>
      var s := c.sweep.value;
      var f := DeadStep(c.registry, c.records, t, s.life);
      if f.code != Ok then c.(sweep := None, failedReleases := c.failedReleases + 1)
      else After(c, t, f).(sweep := Some(s.(todo := s.todo - {t})))
    case DeadEnds => c.(sweep := None)
    case Node(call) => c.(registry := FailureDetection.Changed(c.registry, call))
  }

  /** The first terminal report of a live record whose release the registry refuses. */
  predicate ReleaseFailed(c: Control, t: TaskId, e: ExecutionId, v: Verdict) {
    && IsFinal(v.state) && t in c.records && c.records[t].execution == e && !IsFinal(c.records[t].state)
    && ReleaseAt(c.registry, c.records[t].life.node, c.records[t].request).1 != Ok
  }

  const START := Control(Registry(map[], []), map[], map[], map[], None, map[], [], 0)

  ghost predicate Run(states: seq<Control>, acts: seq<Act>) {
    && |states| == |acts| + 1
    && states[0] == START
    && forall i :: 0 <= i < |acts| ==> Enabled(states[i], acts[i]) && states[i+1] == Next(states[i], acts[i])
  }

  // ---- Who holds a reservation

  predicate IsOpen(c: Control, t: TaskId) {
    t in c.records && !IsFinal(c.records[t].state)
  }

  /** Reserved and not recorded, or erased and not yet released. */
  predicate IsInFlight(c: Control, t: TaskId) {
    t in c.calls && (c.calls[t].Reserving? || (c.calls[t].RollingBack? && c.calls[t].held))
  }

  function OpenRecords(c: Control): Holders {
    map t | t in c.issued && IsOpen(c, t) :: c.issued[t]
  }

  function InFlight(c: Control): Holders {
    map t | t in c.issued && IsInFlight(c, t) :: c.issued[t]
  }

  function HoldersOf(c: Control): Holders {
    map t | t in c.issued && (IsOpen(c, t) || IsInFlight(c, t)) :: c.issued[t]
  }

  // ---- The shape every run keeps

  predicate RecordMatches(d: DRecord, i: Issue) {
    d.execution == i.execution && d.life == i.life && d.request == i.request
  }

  predicate TaskOk(c: Control, t: TaskId) {
    && (t in c.records ==> t in c.issued && RecordMatches(c.records[t], c.issued[t])
                           && (t in c.calls ==> c.calls[t].Dispatching?))
    && (t in c.calls ==> t in c.issued && (c.calls[t].Dispatching? ==> t in c.records))
    && (t in c.cancelling ==> t in c.issued && c.cancelling[t] == c.issued[t].execution)
    && (t in c.issued ==> Canonical(c.issued[t].request))
    // released once, by a report or a node death, exactly if its record is or was final
    && (t in c.freed ==> t in c.issued && !IsOpen(c, t) && !(t in c.calls && c.calls[t].Reserving?)
                         && !IsInFlight(c, t))
    && (t in c.records && IsFinal(c.records[t].state) ==> t in c.freed)
  }

  ghost predicate SweepOk(c: Control) {
    c.sweep.Some? ==>
      var s := c.sweep.value;
      && s.todo <= s.before.Keys
      && c.records == map t | t in s.before :: (if t in s.todo then s.before[t] else Lost(s.before[t], s.life))
  }

  ghost predicate ExecutionsDistinct(issued: map<TaskId, Issue>) {
    forall t, u :: t in issued && u in issued && t != u ==> issued[t].execution != issued[u].execution
  }

  ghost predicate ShapeOk(c: Control) {
    && (forall t :: TaskOk(c, t))
    && Distinct(c.freed)
    && ExecutionsDistinct(c.issued)
  }
}
