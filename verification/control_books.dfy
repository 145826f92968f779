/** When exactly the books of the control plane balance: over every run, step by step. */
module ControlPlaneBooks {
  import opened Common
  import opened Resources
  import opened NodeRegistration
  import opened ClusterLedger
  import opened Wire
  import opened ControlPlaneProtocol
  import opened ControlPlaneInvariant
  import FailureDetection

  // ---- The three steps that release

  predicate RollbackSound(c: Control, t: TaskId)
    requires t in c.calls && c.calls[t].RollingBack? && t in c.issued
  {
    || (c.calls[t].held && Current(c.registry, c.issued[t].life))
    || (c.issued[t].life.node in c.registry.nodes && Nothing(c.issued[t].request))
  }

  predicate SettlingSound(c: Control, t: TaskId)
    requires t in c.records
  {
    Current(c.registry, c.records[t].life) || (c.records[t].life.node in c.registry.nodes && Nothing(c.records[t].request))
  }

  /**
   * Where the books balance, the release of a submission's rollback is sound (it succeeds and they still balance) exactly
   * when the erased record still held its reservation and its node still runs the lifetime the task was placed on, or
   * there is nothing to release on a node that is registered.
   */
  lemma RollbackSoundExactlyWhen(c: Control, t: TaskId)
    requires ShapeOk(c) && RegistryOk(c.registry) && HoldersCanonical(HoldersOf(c)) && Balanced(c.registry, HoldersOf(c))
    requires Enabled(c, Rollback(t))
    ensures var c' := Next(c, Rollback(t));
            (c'.failedReleases == c.failedReleases && Balanced(c'.registry, HoldersOf(c')))
            <==> RollbackSound(c, t)
  {
    hide HoldersOf, ReleaseAt, RegistryOk, Balanced, HoldersCanonical, Canonical;
    assert TaskOk(c, t);
    var c' := Next(c, Rollback(t));
    HoldersChange(c, Rollback(t), t);
    NotIssuedNotHeld(c, t);
    var h := HoldersOf(c);
    if c.calls[t].held {
      assert HoldersOf(c') == h - {t};
      ReleaseIsSoundExactlyWhen(c.registry, h, t);
    } else {
      assert HoldersOf(c') == h;
      RequestIsCanonical(c, t);
      SecondReleaseIsSoundExactlyWhen(c.registry, h, c.issued[t].life.node, c.issued[t].request);
    }
  }

  lemma RequestIsCanonical(c: Control, t: TaskId)
    requires TaskOk(c, t) && t in c.issued
    ensures Canonical(c.issued[t].request)
  {
  }

  /**
   * Where the books balance, the first terminal report of an open record is settled soundly exactly when its node still
   * runs the lifetime the task was placed on, or the task holds nothing on a node that is still registered.
   */
  lemma ReportSoundExactlyWhen(c: Control, t: TaskId, v: Verdict)
    requires ShapeOk(c) && RegistryOk(c.registry) && HoldersCanonical(HoldersOf(c)) && Balanced(c.registry, HoldersOf(c))
    requires c.sweep.None? && IsOpen(c, t) && IsFinal(v.state)
    ensures var c' := Next(c, Report(t, c.records[t].execution, v));
            (c'.failedReleases == c.failedReleases && Balanced(c'.registry, HoldersOf(c')))
            <==> SettlingSound(c, t)
  {
    hide HoldersOf, ReleaseAt, RegistryOk, Balanced, HoldersCanonical, Canonical, Settled;
    assert TaskOk(c, t);
    var a := Report(t, c.records[t].execution, v);
    var c' := Next(c, a);
    HoldersChange(c, a, t);
    NotIssuedNotHeld(c, t);
    var h := HoldersOf(c);
    ReleaseIsSoundExactlyWhen(c.registry, h, t);
    SettledLocal(c.registry, c.records, t, v, t);
    SettledCode(c.registry, c.records, t, v);
    if Settled(c.registry, c.records, t, v).committed {
      assert !Holds(c', t);
      assert HoldersOf(c') == h - {t};
    }
  }

  /**
   * Where the books balance, HandleNodeDead's visit to an orphan is settled soundly exactly when the node still runs the
   * lifetime that died, or the task holds nothing on a node that is registered. Otherwise the books break or the whole
   * sweep is abandoned there.
   */
  lemma VisitSoundExactlyWhen(c: Control, t: TaskId)
    requires ShapeOk(c) && RegistryOk(c.registry) && HoldersCanonical(HoldersOf(c)) && Balanced(c.registry, HoldersOf(c))
    requires Enabled(c, DeadVisits(t)) && Orphan(c.records[t], c.sweep.value.life)
    ensures var c' := Next(c, DeadVisits(t));
            && ((c'.failedReleases == c.failedReleases && Balanced(c'.registry, HoldersOf(c')))
                <==> SettlingSound(c, t))
            && (c'.failedReleases != c.failedReleases ==> c'.sweep == None && c'.records == c.records)
  {
    hide HoldersOf, ReleaseAt, RegistryOk, Balanced, HoldersCanonical, Canonical, Settled;
    assert TaskOk(c, t);
    var a := DeadVisits(t);
    var c' := Next(c, a);
    HoldersChange(c, a, t);
    NotIssuedNotHeld(c, t);
    var h := HoldersOf(c);
    ReleaseIsSoundExactlyWhen(c.registry, h, t);
    SettledLocal(c.registry, c.records, t, LOST, t);
    SettledCode(c.registry, c.records, t, LOST);
    if Settled(c.registry, c.records, t, LOST).committed {
      assert !Holds(c', t);
      assert HoldersOf(c') == h - {t};
    }
  }

  lemma SettledCode(r: Registry, ds: Records, t: TaskId, v: Verdict)
    requires t in ds
    ensures var f := Settled(r, ds, t, v);
            var (r', code) := ReleaseAt(r, ds[t].life.node, ds[t].request);
            f.code == code && (code == Ok ==> f.registry == r')
  {
  }

  // ---- Every step

  /**
   * What a step must find for the books to survive it. A release needs the reservation to be held still, on the lifetime
   * that is registered, or nothing to release on a registered node; a registration that starts a lifetime needs nobody to
   * hold anything on it, as somebody does if the node was removed and comes back under the same incarnation. Every other
   * step needs nothing.
   */
  predicate Sound(c: Control, a: Act) {
    match a
    case Rollback(t) => t in c.calls && c.calls[t].RollingBack? && t in c.issued ==> RollbackSound(c, t)
    case Report(t, e, v) => IsOpen(c, t) && c.records[t].execution == e && IsFinal(v.state) ==> SettlingSound(c, t)
    case DeadVisits(t) => t in c.records && c.sweep.Some? && Orphan(c.records[t], c.sweep.value.life) ==> SettlingSound(c, t)
    case Node(Register(node, _)) => StartsLife(c.registry, node) ==> Empty(HoldersOf(c), Lifetime(node.id, node.incarnation))
    case _ => true
  }

  ghost predicate BooksBalance(c: Control) {
    c.failedReleases == 0 && Balanced(c.registry, HoldersOf(c))
  }

  lemma HoldersAreCanonical(c: Control)
    requires ShapeOk(c)
    ensures HoldersCanonical(HoldersOf(c))
  {
    hide Canonical;
    forall t | t in HoldersOf(c)
      ensures Canonical(HoldersOf(c)[t].request)
    {
      assert TaskOk(c, t);
    }
  }

  lemma ReserveBooks(c: Control, t: TaskId, e: ExecutionId, request: Bag)
    requires TaskOk(c, t) && RegistryOk(c.registry) && Balanced(c.registry, HoldersOf(c)) && Enabled(c, Reserve(t, e, request))
    ensures var c' := Next(c, Reserve(t, e, request));
            c'.failedReleases == c.failedReleases && Balanced(c'.registry, HoldersOf(c'))
  {
    hide HoldersOf, Canonical, RegistryOk, Balanced, ReserveAt;
    var a := Reserve(t, e, request);
    HoldersChange(c, a, t);
    NotIssuedNotHeld(c, t);
    if ReserveAt(c.registry, request).1.Some? {
      ReserveBalances(c.registry, HoldersOf(c), t, e, request);
    } else {
      SameHolder(c, Next(c, a), t);
    }
  }

  lemma ReportBooks(c: Control, t: TaskId, e: ExecutionId, v: Verdict)
    requires ShapeOk(c) && RegistryOk(c.registry) && HoldersCanonical(HoldersOf(c)) && Balanced(c.registry, HoldersOf(c))
    requires Enabled(c, Report(t, e, v))
    ensures var c' := Next(c, Report(t, e, v));
            (c'.failedReleases == c.failedReleases && Balanced(c'.registry, HoldersOf(c'))) <==> Sound(c, Report(t, e, v))
  {
    hide HoldersOf, RegistryOk, Balanced, HoldersCanonical, Settled, ShapeOk, Next, SettlingSound;
    if IsOpen(c, t) && c.records[t].execution == e && IsFinal(v.state) {
      ReportSoundExactlyWhen(c, t, v);
    } else {
      QuietReport(c, t, e, v);
    }
  }

  lemma QuietReport(c: Control, t: TaskId, e: ExecutionId, v: Verdict)
    requires Enabled(c, Report(t, e, v)) && !(IsOpen(c, t) && c.records[t].execution == e && IsFinal(v.state))
    ensures var c' := Next(c, Report(t, e, v));
            c'.failedReleases == c.failedReleases && c'.registry == c.registry && HoldersOf(c') == HoldersOf(c)
  {
    hide HoldersOf, ReleaseAt, Settled;
    SameRecordsSameHolders(c, Next(c, Report(t, e, v)));
  }

  lemma VisitBooks(c: Control, t: TaskId)
    requires ShapeOk(c) && RegistryOk(c.registry) && HoldersCanonical(HoldersOf(c)) && Balanced(c.registry, HoldersOf(c))
    requires Enabled(c, DeadVisits(t))
    ensures var c' := Next(c, DeadVisits(t));
            (c'.failedReleases == c.failedReleases && Balanced(c'.registry, HoldersOf(c'))) <==> Sound(c, DeadVisits(t))
  {
    hide HoldersOf, RegistryOk, Balanced, HoldersCanonical, Settled, ShapeOk, SettlingSound;
    if Orphan(c.records[t], c.sweep.value.life) {
      hide Next;
      VisitSoundExactlyWhen(c, t);
    } else {
      SameRecordsSameHolders(c, Next(c, DeadVisits(t)));
    }
  }

  lemma NodeBooks(c: Control, call: FailureDetection.Act)
    requires RegistryOk(c.registry) && HoldersCanonical(HoldersOf(c)) && Balanced(c.registry, HoldersOf(c))
    requires Enabled(c, Node(call))
    ensures var c' := Next(c, Node(call));
            c'.failedReleases == c.failedReleases && (Balanced(c'.registry, HoldersOf(c')) <==> Sound(c, Node(call)))
  {
    hide HoldersOf, RegistryOk, Balanced, HoldersCanonical, Canonical, Empty, StartsLife;
    SameRecordsSameHolders(c, Next(c, Node(call)));
    match call
    case Register(node, now) => RegisterBalancesExactlyWhen(c.registry, HoldersOf(c), node, now);
    case Heartbeat(x, incarnation, reported, running, now) =>
      HeartbeatBalances(c.registry, HoldersOf(c), x, incarnation, reported, running, now);
    case Scan(now, suspectAfter, deadAfter) => ScanBalances(c.registry, HoldersOf(c), now, suspectAfter, deadAfter);
    case Remove(x, incarnation) => RemoveBalances(c.registry, HoldersOf(c), x, incarnation);
  }

  /** Where the books balance, the next step keeps them balanced, without a failed release, exactly if it is sound. */
  lemma StepSoundExactlyWhen(c: Control, a: Act)
    requires ShapeOk(c) && RegistryOk(c.registry) && Balanced(c.registry, HoldersOf(c)) && Enabled(c, a)
    ensures var c' := Next(c, a);
            (c'.failedReleases == c.failedReleases && Balanced(c'.registry, HoldersOf(c'))) <==> Sound(c, a)
  {
    hide HoldersOf, RegistryOk, Balanced, HoldersCanonical, TaskOk, Canonical, ReleaseAt, ReserveAt, Reported, DeadStep;
    hide Snapshot, Published, SettlingSound, RollbackSound, Empty;
    HoldersAreCanonical(c);
    match a
    case Reserve(t, e, request) => ReserveBooks(c, t, e, request);
    case Record(t) => QuietHolders(c, a, t);
    case DispatchOk(t) => QuietHolders(c, a, t);
    case DispatchFails(t) => QuietHolders(c, a, t);
    case Rollback(t) => RollbackSoundExactlyWhen(c, t);
    case Report(t, e, v) => ReportBooks(c, t, e, v);
    case CancelBegins(t) => QuietHolders(c, a, t);
    case CancelAccepted(t) => QuietHolders(c, a, t);
    case DeadBegins(life) => SameRecordsSameHolders(c, Next(c, a));
    case DeadVisits(t) => VisitBooks(c, t);
    case DeadEnds => SameRecordsSameHolders(c, Next(c, a));
    case Node(call) => NodeBooks(c, call);
  }

  // ---- Every run

  lemma RegistryNext(c: Control, a: Act)
    requires ShapeOk(c) && RegistryOk(c.registry) && Enabled(c, a)
    ensures RegistryOk(Next(c, a).registry)
  {
    hide RegistryOk, Canonical, ReserveAt, ReleaseAt, Snapshot, Published, TaskOk, FailureDetection.Changed;
    match a
    case Reserve(t, e, request) => ReserveIsExact(c.registry, request);
    case Record(t) =>
    case DispatchOk(t) =>
    case DispatchFails(t) =>
    case Rollback(t) => ReleaseKeepsOk(c, c.issued[t].life.node, t);
    case Report(t, e, v) =>
      if t in c.records {
        RecordIsIssued(c, t);
        ReleaseKeepsOk(c, c.records[t].life.node, t);
      }
    case CancelBegins(t) =>
    case CancelAccepted(t) =>
    case DeadBegins(life) =>
    case DeadVisits(t) =>
      RecordIsIssued(c, t);
      ReleaseKeepsOk(c, c.records[t].life.node, t);
    case DeadEnds =>
    case Node(call) => CallKeepsOk(c.registry, call);
  }

  lemma RecordIsIssued(c: Control, t: TaskId)
    requires ShapeOk(c) && t in c.records
    ensures t in c.issued && c.records[t].request == c.issued[t].request
  {
    assert TaskOk(c, t);
  }

  lemma ReleaseKeepsOk(c: Control, x: NodeId, t: TaskId)
    requires ShapeOk(c) && RegistryOk(c.registry) && t in c.issued
    ensures RegistryOk(ReleaseAt(c.registry, x, c.issued[t].request).0)
  {
    hide RegistryOk, ReleaseAt, Canonical;
    assert TaskOk(c, t);
    ReleaseIsExact(c.registry, x, c.issued[t].request);
  }

  lemma CallKeepsOk(r: Registry, call: FailureDetection.Act)
    requires RegistryOk(r) && (call.Register? ==> Canonical(call.node.reported))
    requires call.Register? || call.Heartbeat? || call.Scan? || call.Remove?
    ensures RegistryOk(FailureDetection.Changed(r, call))
  {
    hide RegistryOk, Canonical;
    match call
    case Register(node, now) => RegisterKeepsOk(r, node, now);
    case Heartbeat(x, incarnation, reported, running, now) => HeartbeatKeepsOk(r, x, incarnation, reported, running, now);
    case Scan(now, suspectAfter, deadAfter) => ScanKeepsOk(r, now, suspectAfter, deadAfter);
    case Remove(x, incarnation) => RemoveKeepsOk(r, x, incarnation);
  }

  lemma {:induction false} RunKeepsRegistry(states: seq<Control>, acts: seq<Act>, i: nat)
    requires Run(states, acts) && i < |states|
    ensures RegistryOk(states[i].registry)
  {
    hide Enabled, Next, ShapeOk, SweepOk;
    if i > 0 {
      RunKeepsRegistry(states, acts, i - 1);
      RunKeepsShape(states, acts, i - 1);
      RegistryNext(states[i-1], acts[i-1]);
    }
  }

  /**
   * Conservation, exactly: on every run the books balance all along, and no release has failed, if and only if every step
   * so far was sound.
   */
  lemma {:induction false} BooksBalanceExactlyWhen(states: seq<Control>, acts: seq<Act>, i: nat)
    requires Run(states, acts) && i < |states|
    ensures (forall k :: 0 <= k <= i ==> BooksBalance(states[k])) <==> (forall k :: 0 <= k < i ==> Sound(states[k], acts[k]))
  {
    hide Enabled, Next, ShapeOk, SweepOk, Sound, BooksBalance;
    if i == 0 {
      StartBalances();
    } else {
      BooksBalanceExactlyWhen(states, acts, i - 1);
      RunKeepsShape(states, acts, i - 1);
      RunKeepsRegistry(states, acts, i - 1);
      if forall k :: 0 <= k <= i - 1 ==> BooksBalance(states[k]) {
        assert BooksBalance(states[i-1]);
        BalancesNext(states[i-1], acts[i-1]);
        assert BooksBalance(states[i]) <==> Sound(states[i-1], acts[i-1]);
        assert (forall k :: 0 <= k < i ==> Sound(states[k], acts[k])) <==> Sound(states[i-1], acts[i-1]);
      } else {
        var k :| 0 <= k <= i - 1 && !BooksBalance(states[k]);
        assert exists m :: 0 <= m < i - 1 && !Sound(states[m], acts[m]);
      }
    }
  }

  lemma BalancesNext(c: Control, a: Act)
    requires ShapeOk(c) && RegistryOk(c.registry) && BooksBalance(c) && Enabled(c, a)
    ensures BooksBalance(Next(c, a)) <==> Sound(c, a)
  {
    hide Enabled, Next, ShapeOk, RegistryOk, Balanced, HoldersOf, Sound;
    StepSoundExactlyWhen(c, a);
  }

  lemma StartBalances()
    ensures BooksBalance(START)
  {
  }

  /** Orderly runs are sound throughout. */
  lemma OrderlyIsSound(states: seq<Control>, acts: seq<Act>, i: nat)
    requires OrderlyRun(states, acts) && i < |acts|
    ensures Sound(states[i], acts[i])
  {
    hide Enabled, Next, Sound, Orderly, BooksBalance, LedgerHolds;
    forall k | 0 <= k <= i + 1
      ensures BooksBalance(states[k])
    {
      RunKeepsLedger(states, acts, k);
      LedgerBalances(states[k]);
    }
    BooksBalanceExactlyWhen(states, acts, i + 1);
  }

  lemma LedgerBalances(c: Control)
    requires LedgerHolds(c)
    ensures BooksBalance(c)
  {
  }
}
