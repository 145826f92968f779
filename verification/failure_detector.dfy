/** The liveness detector over whole runs: registrations, heartbeats, scans, removals and reservations in any order. */
module FailureDetection {
  import opened Common
  import opened Resources
  import opened NodeRegistration

  /**
   * Every call that changes the registry; times are the control plane's own steady clock. Registrations and heartbeats
   * read it under the registry's lock, in order; a scan reads it before it takes the lock, so its time may be any.
   */
  datatype Act =
    | Register(node: NodeRecord, now: int)
    | Heartbeat(id: NodeId, incarnation: nat, reported: Bag, running: nat, now: int)
    | Scan(now: int, suspectAfter: int, deadAfter: int)
    | Remove(id: NodeId, incarnation: nat)
    | Reserve(request: Bag)
    | Release(id: NodeId, request: Bag)

  /** The registry, every death reported so far, and the latest time read under the lock. */
  datatype Watch = Watch(registry: Registry, deaths: seq<Lifetime>, clock: int)

  predicate Allowed(s: Watch, a: Act) {
    match a
    case Register(node, now) => s.clock <= now && Canonical(node.reported)
    case Heartbeat(_, _, _, _, now) => s.clock <= now
    case Scan(_, _, _) => true
    case Remove(_, _) => true
    case Reserve(request) => Canonical(request)
    case Release(_, request) => Canonical(request)
  }

  /** The registry after one call. */
  function Changed(r: Registry, a: Act): Registry {
    match a
    case Register(node, now) => RegisterAt(r, node, now).0
    case Heartbeat(x, incarnation, reported, running, now) => HeartbeatAt(r, x, incarnation, reported, running, now).0
    case Scan(now, suspectAfter, deadAfter) => ScanAt(r, now, suspectAfter, deadAfter)
    case Remove(x, incarnation) => RemoveAt(r, x, incarnation).0
    case Reserve(request) => ReserveAt(r, request).0
    case Release(x, request) => ReleaseAt(r, x, request).0
  }

  function Next(s: Watch, a: Act): Watch {
    var r := Changed(s.registry, a);
    match a
    case Register(_, now) => s.(registry := r, clock := now)
    case Heartbeat(_, _, _, _, now) => s.(registry := r, clock := now)
    case Scan(now, suspectAfter, deadAfter) =>
      s.(registry := r, deaths := s.deaths + ScanReports(s.registry, now, suspectAfter, deadAfter))
    case _ => s.(registry := r)
  }

  ghost predicate Run(states: seq<Watch>, acts: seq<Act>) {
    && |states| == |acts| + 1
    && states[0].registry == Registry(map[], []) && states[0].deaths == []
    && forall i :: 0 <= i < |acts| ==> Allowed(states[i], acts[i]) && states[i+1] == Next(states[i], acts[i])
  }

  // ---- The representation

  lemma NextKeepsOk(s: Watch, a: Act)
    requires RegistryOk(s.registry) && Allowed(s, a)
    ensures RegistryOk(Next(s, a).registry)
  {
    hide RegistryOk, Canonical;
    match a
    case Register(node, now) => RegisterKeepsOk(s.registry, node, now);
    case Heartbeat(x, incarnation, reported, running, now) =>
      HeartbeatKeepsOk(s.registry, x, incarnation, reported, running, now);
    case Scan(now, suspectAfter, deadAfter) => ScanKeepsOk(s.registry, now, suspectAfter, deadAfter);
    case Remove(x, incarnation) => RemoveKeepsOk(s.registry, x, incarnation);
    case Reserve(request) => ReserveIsExact(s.registry, request);
    case Release(x, request) => ReleaseIsExact(s.registry, x, request);
  }

  /**
   * On every run registration_order_ lists exactly the registered nodes, once each, and every published
   * availability is its pool's.
   */
  lemma {:induction false} RunKeepsOk(states: seq<Watch>, acts: seq<Act>, i: nat)
    requires Run(states, acts) && i < |states|
    ensures RegistryOk(states[i].registry)
  {
    if i > 0 {
      RunKeepsOk(states, acts, i - 1);
      NextKeepsOk(states[i-1], acts[i-1]);
    }
  }

  // ---- Lifetimes only move forward

  /** What any step other than removing `x` may do to the lifetime of `x`. */
  predicate Later(r: Registry, r': Registry, x: NodeId) {
    x in r.nodes ==>
      && x in r'.nodes
      && r.nodes[x].record.incarnation <= r'.nodes[x].record.incarnation
      && (r'.nodes[x].record.incarnation == r.nodes[x].record.incarnation && r.nodes[x].record.state == Dead ==>
            r'.nodes[x].record.state == Dead)
  }

  lemma NextIsLater(s: Watch, a: Act, x: NodeId)
    requires !(a.Remove? && a.id == x)
    ensures Later(s.registry, Next(s, a).registry, x)
  {
    hide Fits, Lent;
  }

  /** Between removals of `x` its incarnation never decreases, and Dead is final until a newer incarnation registers. */
  lemma {:induction false} DeadIsFinal(states: seq<Watch>, acts: seq<Act>, i: nat, j: nat, x: NodeId)
    requires Run(states, acts) && i <= j < |states|
    requires forall k :: i <= k < j ==> !(acts[k].Remove? && acts[k].id == x)
    ensures Later(states[i].registry, states[j].registry, x)
  {
    hide Next, Allowed, Later;
    if i < j {
      DeadIsFinal(states, acts, i, j - 1, x);
      NextIsLater(states[j-1], acts[j-1], x);
      LaterStill(states[i].registry, states[j-1].registry, states[j].registry, x);
    } else {
      LaterIsReflexive(states[i].registry, x);
    }
  }

  lemma LaterIsReflexive(r: Registry, x: NodeId)
    ensures Later(r, r, x)
  {
  }

  lemma LaterStill(r: Registry, r': Registry, r'': Registry, x: NodeId)
    requires Later(r, r', x) && Later(r', r'', x)
    ensures Later(r, r'', x)
  {
  }

  // ---- Each lifetime is reported at most once

  /** Reported lifetimes of `x` are over: dead, or superseded. */
  ghost predicate Buried(s: Watch, x: NodeId) {
    && (forall p, q :: 0 <= p < q < |s.deaths| && s.deaths[p].node == x ==> s.deaths[p] != s.deaths[q])
    && (forall p :: 0 <= p < |s.deaths| && s.deaths[p].node == x ==>
          && x in s.registry.nodes && s.deaths[p].incarnation <= s.registry.nodes[x].record.incarnation
          && (s.deaths[p].incarnation == s.registry.nodes[x].record.incarnation ==>
                s.registry.nodes[x].record.state == Dead))
  }

  lemma ScanBuries(s: Watch, now: int, suspectAfter: int, deadAfter: int, x: NodeId)
    requires RegistryOk(s.registry) && Buried(s, x)
    ensures Buried(Next(s, Scan(now, suspectAfter, deadAfter)), x)
  {
    hide RegistryOk;
    var r := s.registry;
    if ValidTimeouts(suspectAfter, deadAfter) {
      assert Distinct(r.order) by { OrderIsDistinct(r); }
      NewlyDeadExactly(r, r.order, now, deadAfter);
      var dead := NewlyDead(r, r.order, now, deadAfter);
      var s' := Next(s, Scan(now, suspectAfter, deadAfter));
      assert s'.deaths == s.deaths + dead;
      assert forall d :: d in dead && d.node == x ==>
          Dies(r, x, now, deadAfter) && d.incarnation == r.nodes[x].record.incarnation;
      forall p | 0 <= p < |s'.deaths| && s'.deaths[p].node == x
        ensures x in s'.registry.nodes && s'.deaths[p].incarnation <= s'.registry.nodes[x].record.incarnation
        ensures s'.deaths[p].incarnation == s'.registry.nodes[x].record.incarnation ==>
                  s'.registry.nodes[x].record.state == Dead
      {
        if p >= |s.deaths| {
          assert s'.deaths[p] in dead;
        }
      }
      forall p, q | 0 <= p < q < |s'.deaths| && s'.deaths[p].node == x
        ensures s'.deaths[p] != s'.deaths[q]
      {
        if q >= |s.deaths| {
          assert s'.deaths[q] in dead;
        }
      }
    }
  }

  lemma OrderIsDistinct(r: Registry)
    requires RegistryOk(r)
    ensures Distinct(r.order)
  {
  }

  lemma QuietBuries(s: Watch, s': Watch, x: NodeId)
    requires Buried(s, x) && Later(s.registry, s'.registry, x) && s'.deaths == s.deaths
    ensures Buried(s', x)
  {
  }

  lemma {:induction false} RunBuries(states: seq<Watch>, acts: seq<Act>, i: nat, x: NodeId)
    requires Run(states, acts) && i < |states|
    requires forall k :: 0 <= k < i ==> !(acts[k].Remove? && acts[k].id == x)
    ensures Buried(states[i], x)
  {
    if i > 0 {
      RunBuries(states, acts, i - 1, x);
      RunKeepsOk(states, acts, i - 1);
      var s, a := states[i-1], acts[i-1];
      if a.Scan? {
        ScanBuries(s, a.now, a.suspectAfter, a.deadAfter, x);
      } else {
        NextIsLater(s, a, x);
        QuietBuries(s, states[i], x);
      }
    }
  }

  /** On a run that never removes `x`, no lifetime of `x` is reported dead twice. */
  lemma ReportedOnce(states: seq<Watch>, acts: seq<Act>, i: nat, x: NodeId, p: nat, q: nat)
    requires Run(states, acts) && i < |states|
    requires forall k :: 0 <= k < i ==> !(acts[k].Remove? && acts[k].id == x)
    requires p < q < |states[i].deaths| && states[i].deaths[p].node == x
    ensures states[i].deaths[p] != states[i].deaths[q]
  {
    RunBuries(states, acts, i, x);
  }

  // ---- A death is reported exactly when the silence has lasted long enough

  /**
   * A sign of life: a heartbeat of the incarnation that is registered and not dead, or a registration that starts a lifetime.
   * A heartbeat of any other incarnation is none, and neither is a repeated registration.
   */
  predicate Contact(s: Watch, a: Act, x: NodeId) {
    x != NIL &&
    match a
    case Heartbeat(y, incarnation, _, _, _) =>
      && y == x && x in s.registry.nodes && incarnation != 0
      && s.registry.nodes[x].record.incarnation == incarnation && s.registry.nodes[x].record.state != Dead
    case Register(node, _) =>
      && node.id == x && node.endpoint != "" && node.incarnation != 0
      && (x in s.registry.nodes ==> s.registry.nodes[x].record.incarnation < node.incarnation)
    case _ => false
  }

  lemma NextHears(s: Watch, a: Act, x: NodeId)
    requires Allowed(s, a) && x in Next(s, a).registry.nodes
    requires x in s.registry.nodes ==> s.registry.nodes[x].record.lastHeard <= s.clock
    ensures var heard := Next(s, a).registry.nodes[x].record.lastHeard;
            && s.clock <= Next(s, a).clock && heard <= Next(s, a).clock
            && (Contact(s, a, x) ==> heard == a.now)
            && (!Contact(s, a, x) ==> x in s.registry.nodes && heard == s.registry.nodes[x].record.lastHeard)
  {
    hide Fits, Lent, Canonical;
    match a
    case Register(node, now) =>
    case Heartbeat(y, incarnation, reported, running, now) =>
    case Scan(now, suspectAfter, deadAfter) =>
    case Remove(y, incarnation) =>
    case Reserve(request) =>
    case Release(y, request) =>
  }

  /** The recorded time is that of the last contact: there was one, and none has been later. */
  lemma {:induction false} LastHeardIsLastContact(states: seq<Watch>, acts: seq<Act>, i: nat, x: NodeId) returns (k: nat)
    requires Run(states, acts) && i < |states| && x in states[i].registry.nodes
    ensures k < i && Contact(states[k], acts[k], x) && states[i].registry.nodes[x].record.lastHeard == acts[k].now
    ensures states[i].registry.nodes[x].record.lastHeard <= states[i].clock
    ensures forall m :: k < m < i ==> !Contact(states[m], acts[m], x)
  {
    hide Contact, Next;
    var s, a := states[i-1], acts[i-1];
    if x in s.registry.nodes {
      k := LastHeardIsLastContact(states, acts, i - 1, x);
    }
    NextHears(s, a, x);
    if Contact(s, a, x) {
      k := i - 1;
    }
  }

  /** A scan reports a lifetime exactly when it is registered, not dead yet, and silent for at least the dead timeout. */
  lemma DeathIsSilence(states: seq<Watch>, acts: seq<Act>, i: nat, x: NodeId, incarnation: nat, k: nat)
    requires Run(states, acts) && i < |acts| && acts[i].Scan?
    requires ValidTimeouts(acts[i].suspectAfter, acts[i].deadAfter)
    requires k < i && Contact(states[k], acts[k], x)
    requires forall m :: k < m < i ==> !Contact(states[m], acts[m], x)
    ensures Lifetime(x, incarnation) in ScanReports(states[i].registry, acts[i].now, acts[i].suspectAfter, acts[i].deadAfter)
            <==>
            && x in states[i].registry.nodes && states[i].registry.nodes[x].record.incarnation == incarnation
            && states[i].registry.nodes[x].record.state != Dead
            && acts[i].now - acts[k].now >= acts[i].deadAfter
  {
    var r := states[i].registry;
    RunKeepsOk(states, acts, i);
    assert x in r.order <==> x in r.nodes;
    OrderIsDistinct(r);
    NewlyDeadExactly(r, r.order, acts[i].now, acts[i].deadAfter);
    if x in r.nodes {
      hide Contact, Next;
      var last := LastHeardIsLastContact(states, acts, i, x);
      assert last == k;
    }
  }

  /** After a scan, a node that was not dead is rated by the time since its last contact, and by nothing else. */
  lemma ScanRatesBySilence(states: seq<Watch>, acts: seq<Act>, i: nat, x: NodeId, k: nat)
    requires Run(states, acts) && i < |acts| && acts[i].Scan?
    requires ValidTimeouts(acts[i].suspectAfter, acts[i].deadAfter)
    requires x in states[i].registry.nodes && states[i].registry.nodes[x].record.state != Dead
    requires k < i && Contact(states[k], acts[k], x)
    requires forall m :: k < m < i ==> !Contact(states[m], acts[m], x)
    ensures x in states[i+1].registry.nodes
    ensures var silence := acts[i].now - acts[k].now;
            var rated := states[i+1].registry.nodes[x].record.state;
            && (rated == Dead <==> acts[i].deadAfter <= silence)
            && (rated == Suspect <==> acts[i].suspectAfter <= silence < acts[i].deadAfter)
            && (rated == Alive <==> silence < acts[i].suspectAfter)
  {
    assert states[i+1] == Next(states[i], acts[i]);
    hide Contact;
    var last := LastHeardIsLastContact(states, acts, i, x);
    assert last == k;
  }

  /** FailureDetector: its options, its flag, and the callback, of which the model keeps the calls made. */
  class FailureDetector {
    const registry: NodeRegistry
    const scanInterval: int
    const suspectAfter: int
    const deadAfter: int
    var running: bool
    var hasCallback: bool
    var delivered: seq<Lifetime>

    constructor (registry: NodeRegistry, scanInterval: int, suspectAfter: int, deadAfter: int)
      ensures this.registry == registry && this.scanInterval == scanInterval
      ensures this.suspectAfter == suspectAfter && this.deadAfter == deadAfter
      ensures !running && !hasCallback && delivered == []
    {
      this.registry := registry;
      this.scanInterval, this.suspectAfter, this.deadAfter := scanInterval, suspectAfter, deadAfter;
      running, hasCallback, delivered := false, false, [];
    }

    method SetNodeDeadCallback()
      modifies this`hasCallback
      ensures hasCallback
    {
      hasCallback := true;
    }

    /** A detector that starts scans with timeouts the registry accepts. */
    method Start() returns (code: StatusCode)
      modifies this`running
      ensures code == if !(0 < scanInterval && 0 < suspectAfter < deadAfter) then InvalidArgument
                      else if old(running) then FailedPrecondition else Ok
      ensures running == (old(running) || code == Ok)
      ensures code == Ok ==> ValidTimeouts(suspectAfter, deadAfter)
    {
      if scanInterval <= 0 {
        return InvalidArgument;
      }
      if suspectAfter <= 0 {
        return InvalidArgument;
      }
      if deadAfter <= suspectAfter {
        return InvalidArgument;
      }
      if running {
        return FailedPrecondition;
      }
      running := true;
      return Ok;
    }

    method Shutdown()
      modifies this`running
      ensures !running
    {
      running := false;
    }

    /** One scan: every lifetime that dies in it is handed to the callback, once, in registration order. */
    method ScanOnce(now: int)
      requires registry.Valid()
      modifies registry, this`delivered
      ensures registry.Valid() && registry.Value() == ScanAt(old(registry.Value()), now, suspectAfter, deadAfter)
      ensures delivered == old(delivered)
                           + if hasCallback then ScanReports(old(registry.Value()), now, suspectAfter, deadAfter) else []
    {
      hide RegistryOk, ScanAt, NewlyDead, Rated;
      var dead := registry.UpdateLiveness(now, suspectAfter, deadAfter);
      if hasCallback {
        Deliver(dead);
      }
    }

    method Deliver(dead: seq<Lifetime>)
      modifies this`delivered
      ensures delivered == old(delivered) + dead
    {
      for i := 0 to |dead|
        invariant delivered == old(delivered) + dead[..i]
      {
        delivered := delivered + [dead[i]];
      }
    }
  }
}
