/** What the control plane answers to reports and cancellations, read off its task table, and what its records hold. */
module ControlPlaneAnswers {
  import opened Common
  import opened Resources
  import opened NodeRegistration
  import opened ClusterLedger
  import opened Wire
  import opened ControlPlaneProtocol
  import opened ControlPlaneInvariant
  import opened ControlPlaneTheorems
  import FailureDetection

  /** A record that has come to its end, one way or the other. */
  predicate Ended(state: DistributedState) {
    state == DSucceeded || state == DFailed || state == DCanceled
  }

  // ---- Reports

  /** A report that comes too early, to nobody, or for another execution is refused; a second one is compared with the first. */
  lemma ReportAnswers(r: Registry, ds: Records, t: TaskId, e: ExecutionId, v: Verdict)
    ensures var f := Reported(r, ds, t, e, v);
            if !Ended(v.state) then f == Effect(r, ds, InvalidArgument, false)
            else if t !in ds then f == Effect(r, ds, NotFound, false)
            else if ds[t].execution != e then f == Effect(r, ds, FailedPrecondition, false)
            else if Ended(ds[t].state) then
              var same := ds[t].state == v.state && ds[t].status == v.status && ds[t].result == v.result && ds[t].media == v.media;
              f == Effect(r, ds, if same then Ok else FailedPrecondition, false)
            else
              && (f.code == Ok ==>
                    f.committed && f.records == ds[t := DRecord(e, ds[t].life, ds[t].request, v.state, v.status, v.result, v.media)])
              && (f.code != Ok ==> !f.committed && f.records == ds && f.registry == r)
              && f.code == ReleaseAt(r, ds[t].life.node, ds[t].request).1
              && (f.code == Ok ==> f.registry == ReleaseAt(r, ds[t].life.node, ds[t].request).0)
  {
    hide ReleaseAt;
  }

  /**
   * On every run, from the step that commits a report of `t` on and as long as its record is there, the same report again is
   * answered Ok, any other is refused, and neither changes anything.
   */
  lemma FirstReportWins(states: seq<Control>, acts: seq<Act>, i: nat, j: nat, t: TaskId, e: ExecutionId, v: Verdict, again: Verdict)
    requires Run(states, acts) && i < j < |states| && acts[i] == Report(t, e, v)
    requires t in states[i].records && !Ended(states[i].records[t].state)
    requires t in states[i+1].records && Ended(states[i+1].records[t].state)
    requires t in states[j].records && Ended(again.state)
    ensures var c := states[j];
            && c.records[t].execution == e
            && Reported(c.registry, c.records, t, e, again)
               == Effect(c.registry, c.records, if again == v then Ok else FailedPrecondition, false)
            && (c.sweep.None? ==> Enabled(c, Report(t, e, again)) && Next(c, Report(t, e, again)) == c)
  {
    hide Enabled, Next, Reported;
    assert Enabled(states[i], acts[i]) && states[i+1] == Next(states[i], acts[i]);
    CommitIs(states[i], t, e, v);
    TerminalRecordsStay(states, acts, i + 1, j, t);
    ReportAnswers(states[j].registry, states[j].records, t, e, again);
    if states[j].sweep.None? {
      RepeatChangesNothing(states[j], t, e, again);
    }
  }

  lemma CommitIs(c: Control, t: TaskId, e: ExecutionId, v: Verdict)
    requires Enabled(c, Report(t, e, v)) && t in c.records && !Ended(c.records[t].state)
    requires var c' := Next(c, Report(t, e, v)); t in c'.records && Ended(c'.records[t].state)
    ensures var d := Next(c, Report(t, e, v)).records[t];
            d.execution == e && d.state == v.state && d.status == v.status && d.result == v.result && d.media == v.media
  {
    hide Reported, ReleaseAt, ReleaseFailed;
    ReportAnswers(c.registry, c.records, t, e, v);
  }

  lemma RepeatChangesNothing(c: Control, t: TaskId, e: ExecutionId, v: Verdict)
    requires c.sweep.None? && t in c.records && Ended(c.records[t].state)
    requires var f := Reported(c.registry, c.records, t, e, v); f.registry == c.registry && f.records == c.records && !f.committed
    ensures Enabled(c, Report(t, e, v)) && Next(c, Report(t, e, v)) == c
  {
    hide Reported, ReleaseAt;
  }

  // ---- Cancellations

  /** The worker of a record can be asked: its node is registered, under the incarnation of the record, and not dead. */
  predicate Reachable(r: Registry, life: Lifetime) {
    && life.node in r.nodes && r.nodes[life.node].record.incarnation == life.incarnation
    && r.nodes[life.node].record.state != Dead
  }

  /**
   * A running task is never refused by the task table, and its worker is asked exactly if its node is registered, current and
   * not dead. A task that has ended is refused, and one that is already being cancelled is neither asked for nor refused.
   */
  lemma CancelAnswers(r: Registry, ds: Records, t: TaskId)
    ensures var (code, d) := Snapshot(ds, t);
            && (code == InvalidArgument <==> t == TaskId(0))
            && (code == NotFound <==> t != TaskId(0) && t !in ds)
            && (code == FailedPrecondition <==> t != TaskId(0) && t in ds && Ended(ds[t].state))
            && (code == Ok <==> t != TaskId(0) && t in ds && !Ended(ds[t].state))
            && d == (if t != TaskId(0) && t in ds && ds[t].state == DRunning then Some(ds[t]) else None)
    ensures forall life: Lifetime {:trigger Route(r, life)} ::
              && (Route(r, life) == Ok <==> Reachable(r, life))
              && (Route(r, life) == NotFound <==> life.node !in r.nodes)
              && (Route(r, life) == FailedPrecondition <==>
                    life.node in r.nodes && r.nodes[life.node].record.incarnation != life.incarnation)
  {
  }

  /** After the worker accepted, the mark goes only to the same execution, and never over an end. */
  lemma PublishAnswers(ds: Records, t: TaskId, e: ExecutionId)
    ensures var (ds', code) := Published(ds, t, e);
            && (code == NotFound <==> t !in ds)
            && (code == FailedPrecondition <==> t in ds && ds[t].execution != e)
            && (code == Ok <==> t in ds && ds[t].execution == e)
            && ds' == (if code == Ok && !Ended(ds[t].state) then ds[t := ds[t].(state := DCancelRequested)] else ds)
  {
  }

  // ---- Records

  /** HandleNodeDead fails exactly the records of that very lifetime that have not ended, as Unavailable and without a result. */
  lemma LostMeans(d: DRecord, life: Lifetime)
    ensures var hit := d.life.node == life.node && d.life.incarnation == life.incarnation && !Ended(d.state);
            && (!hit ==> Lost(d, life) == d)
            && (hit ==> Lost(d, life) == d.(state := DFailed, status := Lost(d, life).status, result := "", media := "")
                        && Lost(d, life).status.code == Unavailable)
  {
  }

  ghost predicate BlankWhileOpen(ds: Records) {
    forall t :: t in ds && !Ended(ds[t].state) ==> ds[t].status == OK && ds[t].result == "" && ds[t].media == ""
  }

  /** On every run a record that has not ended carries no verdict. */
  lemma {:induction false} OpenRecordsAreBlank(states: seq<Control>, acts: seq<Act>, i: nat)
    requires Run(states, acts) && i < |states|
    ensures BlankWhileOpen(states[i].records)
  {
    hide Enabled, Next, BlankWhileOpen;
    if i == 0 {
      NoneIsBlank();
    } else {
      OpenRecordsAreBlank(states, acts, i - 1);
      NextIsBlank(states[i-1], acts[i-1]);
    }
  }

  lemma NoneIsBlank()
    ensures BlankWhileOpen(START.records)
  {
  }

  lemma NextIsBlank(c: Control, a: Act)
    requires Enabled(c, a) && BlankWhileOpen(c.records)
    ensures BlankWhileOpen(Next(c, a).records)
  {
    hide ReserveAt, ReleaseAt, Canonical, FailureDetection.Changed, ReleaseFailed, Lost;
    match a
    case Reserve(t, e, request) =>
    case Record(t) =>
    case DispatchOk(t) =>
    case DispatchFails(t) =>
    case Rollback(t) =>
    case Report(t, e, v) =>
      hide Reported;
      ReportAnswers(c.registry, c.records, t, e, v);
    case CancelBegins(t) =>
    case CancelAccepted(t) =>
      hide Published;
      PublishAnswers(c.records, t, c.cancelling[t]);
    case DeadBegins(life) =>
    case DeadVisits(t) =>
    case DeadEnds =>
    case Node(call) =>
  }
}
