/** The ControlPlane object: each method is proved to take the steps of ControlPlaneProtocol. */
module ControlPlaneObject {
  import opened Common
  import opened Resources
  import opened NodeRegistration
  import opened ClusterLedger
  import opened Wire
  import opened ControlPlaneProtocol
  import opened NodeManagement
  import opened ControlPlaneAnswers
  import ControlPlaneInvariant

  datatype Submission = Submission(tenant: nat, agent: nat, entrypoint: string, request: Bag)

  /** Reserving and giving back at once restores the registry exactly. */
  lemma ReserveReleaseRestores(r: Registry, request: Bag)
    requires RegistryOk(r) && Canonical(request) && ReserveAt(r, request).1.Some?
    ensures var (r', chosen) := ReserveAt(r, request);
            ReleaseAt(r', chosen.value.id, request) == (r, Ok)
  {
    hide Fits, Minus, Plus, Lent;
    var x := FirstHost(r, r.order, request).value;
    var s := r.nodes[x];
    HostFits(r, x, request);
    AcquireReleaseRestores(s.pool, request);
    var (r', chosen) := ReserveAt(r, request);
    assert chosen.value.id == x;
    var s' := r'.nodes[x];
    var p := Acquired(s.pool, request).0;
    assert s' == WithPool(s, p);
    assert Released(p, request) == (s.pool, Ok);
    assert WithPool(s', s.pool) == s;
    assert r'.nodes[x := s] == r.nodes;
  }

  lemma HostFits(r: Registry, x: NodeId, request: Bag)
    requires RegistryOk(r) && FirstHost(r, r.order, request) == Some(x)
    ensures x in r.nodes && Fits(request, r.nodes[x].pool.available) && r.nodes[x].record.id == x && PoolOk(r.nodes[x].pool)
    ensures r.nodes[x].record.schedulable == r.nodes[x].pool.available
  {
  }

  ghost predicate RequestsCanonical(ds: Records) {
    forall t :: t in ds ==> Canonical(ds[t].request)
  }

  /** `h` lists every open record with what it holds. */
  ghost predicate Backs(h: Holders, ds: Records) {
    forall t :: t in ds && !IsFinal(ds[t].state) ==> t in h && h[t].life == ds[t].life && h[t].request == ds[t].request
  }

  /** The holders left when the orphans of `life` outside `todo` have been settled. */
  function WithoutOrphans(h: Holders, ds: Records, life: Lifetime, todo: set<TaskId>): Holders {
    map t | t in h && !(t in ds && t !in todo && Orphan(ds[t], life)) :: h[t]
  }

  function Swept(ds: Records, life: Lifetime, todo: set<TaskId>): Records {
    map t | t in ds :: if t in todo then ds[t] else Lost(ds[t], life)
  }

  lemma SweptNext(ds: Records, life: Lifetime, todo: set<TaskId>, t: TaskId)
    requires t in todo && t in ds
    ensures Swept(ds, life, todo - {t}) == Swept(ds, life, todo)[t := Lost(ds[t], life)]
    ensures Swept(ds, life, todo)[t] == ds[t]
  {
  }

  lemma OrphansNext(h: Holders, ds: Records, life: Lifetime, todo: set<TaskId>, t: TaskId)
    requires t in todo && t in ds
    ensures WithoutOrphans(h, ds, life, todo - {t})
            == if Orphan(ds[t], life) then WithoutOrphans(h, ds, life, todo) - {t} else WithoutOrphans(h, ds, life, todo)
    ensures t in h ==> t in WithoutOrphans(h, ds, life, todo) && WithoutOrphans(h, ds, life, todo)[t] == h[t]
  {
  }

  class ControlPlane {
    const registry: NodeRegistry
    var tasks: Records

    ghost predicate Valid()
      reads this, registry, registry.Footprint()
    {
      registry.Valid() && RequestsCanonical(tasks)
    }

    constructor (registry: NodeRegistry)
      requires registry.Valid()
      ensures Valid() && tasks == map[] && this.registry == registry
    {
      this.registry := registry;
      tasks := map[];
    }

    /**
     * An undisturbed submission: refused without effect, placed on the first fit and recorded, or, when the dispatch
     * fails, rolled back to exactly the registry and the task table it started from.
     */
    method SubmitTask(t: TaskId, e: ExecutionId, s: Submission, timeout: int, network: seq<Transport>)
      returns (status: Status, placed: Option<Lifetime>)
      requires Valid() && t !in tasks && Canonical(s.request) && |network| >= MAX_LAUNCH_ATTEMPTS
      modifies this`tasks, registry, registry.Footprint()
      ensures Valid() && registry.Footprint() == old(registry.Footprint())
      ensures status.code != Ok ==> placed == None && tasks == old(tasks) && registry.Value() == old(registry.Value())
      ensures s.tenant == 0 || s.agent == 0 || s.entrypoint == "" ==> status.code == InvalidArgument
      ensures s.tenant != 0 && s.agent != 0 && s.entrypoint != "" ==>
                if ReserveAt(old(registry.Value()), s.request).1.Some? then status == LaunchResult(timeout, network)
                else status.code == ResourceExhausted
      ensures status.code == Ok ==>
                var (r, chosen) := ReserveAt(old(registry.Value()), s.request);
                && chosen.Some? && placed == Some(Lifetime(chosen.value.id, chosen.value.incarnation))
                && registry.Value() == r
                && tasks == old(tasks)[t := NewRecord(IssueOf(e, chosen.value, s.request))]
    {
      if s.tenant == 0 {
        return Status(InvalidArgument, "tenant id cannot be nil"), None;
      }
      if s.agent == 0 {
        return Status(InvalidArgument, "agent id cannot be nil"), None;
      }
      if s.entrypoint == "" {
        return Status(InvalidArgument, "entrypoint cannot be empty"), None;
      }
      hide RegistryOk, ReserveAt, Canonical;
      status, placed := Place(t, e, s.request, timeout, network);
    }

    /** SubmitTask past its argument checks. */
    method Place(t: TaskId, e: ExecutionId, request: Bag, timeout: int, network: seq<Transport>)
      returns (status: Status, placed: Option<Lifetime>)
      requires Valid() && t !in tasks && Canonical(request) && |network| >= MAX_LAUNCH_ATTEMPTS
      modifies this`tasks, registry, registry.Footprint()
      ensures Valid() && registry.Footprint() == old(registry.Footprint())
      ensures status.code != Ok ==> placed == None && tasks == old(tasks) && registry.Value() == old(registry.Value())
      ensures ReserveAt(old(registry.Value()), request).1.None? ==> status.code == ResourceExhausted
      ensures ReserveAt(old(registry.Value()), request).1.Some? ==> status == LaunchResult(timeout, network)
      ensures status.code == Ok ==>
                var (r, chosen) := ReserveAt(old(registry.Value()), request);
                && chosen.Some? && placed == Some(Lifetime(chosen.value.id, chosen.value.incarnation))
                && registry.Value() == r && tasks == old(tasks)[t := NewRecord(IssueOf(e, chosen.value, request))]
    {
      hide RegistryOk, ReserveAt, ReleaseAt, Canonical, LaunchResult;
      ghost var before := registry.Value();
      var code, selected := registry.ReserveFirstFit(request);
      if selected.None? {
        NoneReserved(before, request);
        return Status(code, "no schedulable node can satisfy resource request"), None;
      }
      var life := Lifetime(selected.value.id, selected.value.incarnation);
      ghost var was := tasks;
      tasks := tasks[t := NewRecord(IssueOf(e, selected.value, request))];
      var sent;
      status, sent := DispatchTask(timeout, Descriptor(t, e, 1), network);
      if status.code == Ok {
        return status, Some(life);
      }
      ReserveReleaseRestores(before, request);
      status := RollBack(t, life, request, status);
      assert tasks == was;
      placed := None;
    }

    /** What follows a failed dispatch. */
    method RollBack(t: TaskId, life: Lifetime, request: Bag, failure: Status) returns (status: Status)
      requires Valid() && Canonical(request) && failure.code != Ok
      modifies this`tasks, registry, registry.Footprint()
      ensures Valid() && registry.Footprint() == old(registry.Footprint()) && tasks == old(tasks) - {t}
      ensures registry.Value() == ReleaseAt(old(registry.Value()), life.node, request).0
      ensures if ReleaseAt(old(registry.Value()), life.node, request).1 == Ok then status == failure else status.code == Internal
    {
      hide RegistryOk, ReleaseAt, Canonical;
      tasks := tasks - {t};
      var released := registry.Release(life.node, request);
      if released != Ok {
        return Status(Internal, "task dispatch failed and cluster resource rollback also failed");
      }
      return failure;
    }

    lemma NoneReserved(r: Registry, request: Bag)
      requires ReserveAt(r, request).1.None?
      ensures ReserveAt(r, request).0 == r
    {
    }

    /** ReportTaskResult runs under the lock from start to end. */
    method ReportTaskResult(t: TaskId, e: ExecutionId, v: Verdict) returns (code: StatusCode)
      requires Valid()
      modifies this`tasks, registry, registry.Footprint()
      ensures Valid() && registry.Footprint() == old(registry.Footprint())
      ensures var f := Reported(old(registry.Value()), old(tasks), t, e, v);
              registry.Value() == f.registry && tasks == f.records && code == f.code
    {
      hide RegistryOk, ReleaseAt, Canonical;
      if !IsFinal(v.state) {
        return InvalidArgument;
      }
      if t !in tasks {
        return NotFound;
      }
      var record := tasks[t];
      if record.execution != e {
        return FailedPrecondition;
      }
      if IsFinal(record.state) {
        var same := record.state == v.state && record.status == v.status && record.result == v.result && record.media == v.media;
        if !same {
          return FailedPrecondition;
        }
        return Ok;
      }
      code := Settle(t, v);
    }

    /** Release, and only then commit. */
    method Settle(t: TaskId, v: Verdict) returns (code: StatusCode)
      requires Valid() && t in tasks
      modifies this`tasks, registry, registry.Footprint()
      ensures Valid() && registry.Footprint() == old(registry.Footprint())
      ensures var f := Settled(old(registry.Value()), old(tasks), t, v);
              registry.Value() == f.registry && tasks == f.records && code == f.code && (f.committed <==> code == Ok)
    {
      hide RegistryOk, ReleaseAt, Canonical, NodeRegistry.Valid, NodeRegistry.Footprint;
      ControlPlaneInvariant.ReleaseFailsWhole(registry.Value(), tasks[t].life.node, tasks[t].request);
      code := registry.Release(tasks[t].life.node, tasks[t].request);
      if code != Ok {
        return;
      }
      tasks := tasks[t := tasks[t].(state := v.state)];
      tasks := tasks[t := tasks[t].(status := v.status)];
      tasks := tasks[t := tasks[t].(result := v.result)];
      tasks := tasks[t := tasks[t].(media := v.media)];
      assert tasks == old(tasks)[t := Committed(old(tasks)[t], v)];
    }

    /**
     * HandleNodeDead, whatever order the map is walked in: OK means every record of the lifetime is final and no other
     * changed; and when `h` says what is held and the books balance, it is OK and gives back exactly the orphans' shares.
     */
    method HandleNodeDead(life: Lifetime, ghost h: Holders) returns (code: StatusCode)
      requires Valid()
      modifies this`tasks, registry, registry.Footprint()
      ensures Valid() && registry.Footprint() == old(registry.Footprint()) && tasks.Keys == old(tasks).Keys
      ensures forall t :: t in tasks ==> tasks[t] == old(tasks)[t] || tasks[t] == Lost(old(tasks)[t], life)
      ensures code == Ok ==> tasks == map t | t in old(tasks) :: Lost(old(tasks)[t], life)
      ensures old(LedgerOk(registry.Value(), h)) && Backs(h, old(tasks)) ==>
                code == Ok && LedgerOk(registry.Value(), WithoutOrphans(h, old(tasks), life, {}))
    {
      hide RegistryOk, ReleaseAt, Canonical, LedgerOk, Lost, Settled;
      ghost var was := tasks;
      ghost var sound := LedgerOk(registry.Value(), h) && Backs(h, was);
      var todo := tasks.Keys;
      SweepStarts(h, was, life);
      while todo != {}
        invariant Valid() && registry.Footprint() == old(registry.Footprint()) && todo <= was.Keys
        invariant tasks == Swept(was, life, todo)
        invariant sound ==> LedgerOk(registry.Value(), WithoutOrphans(h, was, life, todo))
        decreases todo
      {
        var t :| t in todo;
        SweptNext(was, life, todo, t);
        OrphansNext(h, was, life, todo, t);
        var record := tasks[t];
        if record.life.node == life.node && record.life.incarnation == life.incarnation && !IsFinal(record.state) {
          OrphanSettles(registry.Value(), WithoutOrphans(h, was, life, todo), tasks, t, life, sound);
          code := Settle(t, LOST);
          if code != Ok {
            return;
          }
        } else {
          NotLost(tasks, t, life);
        }
        todo := todo - {t};
      }
      return Ok;
    }

    lemma SweepStarts(h: Holders, ds: Records, life: Lifetime)
      ensures Swept(ds, life, ds.Keys) == ds
      ensures WithoutOrphans(h, ds, life, ds.Keys) == h
    {
    }

    lemma NotLost(ds: Records, t: TaskId, life: Lifetime)
      requires t in ds && !Orphan(ds[t], life)
      ensures Lost(ds[t], life) == ds[t] && ds[t := Lost(ds[t], life)] == ds
    {
    }

    lemma OrphanSettles(r: Registry, h: Holders, ds: Records, t: TaskId, life: Lifetime, sound: bool)
      requires t in ds && Orphan(ds[t], life)
      requires sound ==> LedgerOk(r, h) && t in h && h[t].life == ds[t].life && h[t].request == ds[t].request
      ensures var f := Settled(r, ds, t, LOST);
              && (sound ==> f.code == Ok && LedgerOk(f.registry, h - {t}))
              && (f.code == Ok ==> f.records == ds[t := Lost(ds[t], life)])
              && (f.code != Ok ==> f.records == ds)
    {
      hide LedgerOk, ReleaseAt;
      if sound {
        ReleaseKeepsLedger(r, h, t);
      }
    }

    /** An undisturbed CancelTask: snapshot, route, one RPC, recheck. */
    method CancelTask(t: TaskId, network: Transport) returns (code: StatusCode)
      requires Valid()
      modifies this`tasks
      ensures Valid()
      ensures t == TaskId(0) ==> code == InvalidArgument && tasks == old(tasks)
      ensures t != TaskId(0) && t !in old(tasks) ==> code == NotFound && tasks == old(tasks)
      ensures t != TaskId(0) && t in old(tasks) && Ended(old(tasks)[t].state) ==> code == FailedPrecondition && tasks == old(tasks)
      ensures t != TaskId(0) && t in old(tasks) && old(tasks)[t].state == DCancelRequested ==> code == Ok && tasks == old(tasks)
      ensures t != TaskId(0) && t in old(tasks) && old(tasks)[t].state == DRunning ==>
                var d := old(tasks)[t];
                if !Reachable(registry.Value(), d.life) then
                  code == Route(registry.Value(), d.life) && code != Ok && tasks == old(tasks)
                else if d.execution == ExecutionId(0) then code == InvalidArgument && tasks == old(tasks)
                else if network.Failed? then code == Unavailable && tasks == old(tasks)
                else if StatusFromProto(network.reply).code != Ok then
                  code == StatusFromProto(network.reply).code && tasks == old(tasks)
                else code == Ok && tasks == old(tasks)[t := d.(state := DCancelRequested)]
    {
      hide RegistryOk, Canonical, StatusFromProto;
      if t == NIL_TASK {
        return InvalidArgument;
      }
      if t !in tasks {
        return NotFound;
      }
      if IsFinal(tasks[t].state) {
        return FailedPrecondition;
      }
      if tasks[t].state == DCancelRequested {
        return Ok;
      }
      var record := tasks[t];
      var found, node := registry.GetNode(record.life.node);
      if found != Ok {
        return found;
      }
      if node.value.incarnation != record.life.incarnation {
        return FailedPrecondition;
      }
      if node.value.state == Dead {
        return Unavailable;
      }
      var status := NodeManagement.CancelTask(t, record.execution, network);
      if status.code != Ok {
        return status.code;
      }
      code := Publish(t, record.execution);
    }

    /** The recheck under the lock: a completion that came first wins. */
    method Publish(t: TaskId, e: ExecutionId) returns (code: StatusCode)
      requires RequestsCanonical(tasks)
      modifies this`tasks
      ensures (tasks, code) == Published(old(tasks), t, e) && RequestsCanonical(tasks)
    {
      if t !in tasks {
        return NotFound;
      }
      if tasks[t].execution != e {
        return FailedPrecondition;
      }
      if IsFinal(tasks[t].state) {
        return Ok;
      }
      tasks := tasks[t := tasks[t].(state := DCancelRequested)];
      return Ok;
    }
  }
}
