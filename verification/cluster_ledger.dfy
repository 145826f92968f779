/** The reservation ledger of the cluster: what each node's pool has lent out is what the control plane's tasks hold. */
module ClusterLedger {
  import opened Common
  import opened Resources
  import opened NodeRegistration

  /** What SubmitTask decided for a task: its execution, the node lifetime it reserved on, how much, and where to send it. */
  datatype Issue = Issue(execution: ExecutionId, life: Lifetime, request: Bag, endpoint: string)

  function IssueOf(e: ExecutionId, node: NodeRecord, request: Bag): Issue {
    Issue(e, Lifetime(node.id, node.incarnation), request, node.endpoint)
  }

  type Holders = map<TaskId, Issue>

  function Shares(h: Holders, life: Lifetime, n: string): map<TaskId, int> {
    map t | t in h && h[t].life == life :: Get(h[t].request, n)
  }

  /** How much of a resource is held on one lifetime. */
  ghost function InUse(h: Holders, life: Lifetime, n: string): int {
    Total(Shares(h, life, n))
  }

  function LifeOf(s: Stored): Lifetime {
    Lifetime(s.record.id, s.record.incarnation)
  }

  predicate Current(r: Registry, life: Lifetime) {
    life.node in r.nodes && LifeOf(r.nodes[life.node]) == life
  }

  ghost predicate NodeBalanced(s: Stored, h: Holders) {
    forall n {:trigger Get(s.pool.total, n)} :: Get(s.pool.total, n) == Get(s.pool.available, n) + InUse(h, LifeOf(s), n)
  }

  /** For every registered node and resource: total == available + held by its current lifetime. */
  ghost predicate Balanced(r: Registry, h: Holders) {
    forall x :: x in r.nodes ==> NodeBalanced(r.nodes[x], h)
  }

  ghost predicate HoldersCanonical(h: Holders) {
    forall t :: t in h ==> Canonical(h[t].request)
  }

  /** Nothing is held on a lifetime that is gone. */
  ghost predicate HoldersCurrent(r: Registry, h: Holders) {
    forall t :: t in h ==> Current(r, h[t].life)
  }

  ghost predicate LedgerOk(r: Registry, h: Holders) {
    RegistryOk(r) && HoldersCanonical(h) && HoldersCurrent(r, h) && Balanced(r, h)
  }

  predicate Unheld(h: Holders, life: Lifetime) {
    forall t :: t in h ==> h[t].life != life
  }

  /** A request that asks for nothing. */
  predicate Nothing(request: Bag) {
    request == map[]
  }

  // ---- Sums

  function Share(i: Issue, life: Lifetime, n: string): int {
    if i.life == life then Get(i.request, n) else 0
  }

  lemma InUseAdd(h: Holders, t: TaskId, i: Issue, life: Lifetime, n: string)
    requires t !in h
    ensures InUse(h[t := i], life, n) == InUse(h, life, n) + Share(i, life, n)
  {
    var before, after := Shares(h, life, n), Shares(h[t := i], life, n);
    if i.life == life {
      TotalUpdate(before, t, Get(i.request, n));
      assert after == before[t := Get(i.request, n)];
    } else {
      assert after == before;
    }
  }

  lemma InUseDrop(h: Holders, t: TaskId, life: Lifetime, n: string)
    requires t in h
    ensures InUse(h - {t}, life, n) == InUse(h, life, n) - Share(h[t], life, n)
  {
    InUseAdd(h - {t}, t, h[t], life, n);
    assert (h - {t})[t := h[t]] == h;
  }

  lemma InUseBounds(h: Holders, t: TaskId, n: string)
    requires HoldersCanonical(h) && t in h
    ensures Get(h[t].request, n) <= InUse(h, h[t].life, n)
  {
    var shares := Shares(h, h[t].life, n);
    TotalNonNegative(shares);
    assert shares[t] == Get(h[t].request, n);
  }

  lemma InUseNone(h: Holders, life: Lifetime, n: string)
    requires Unheld(h, life)
    ensures InUse(h, life, n) == 0
  {
  }

  /** Holders that fall into two kinds: the amounts add up. */
  lemma InUseSplit(a: Holders, b: Holders, life: Lifetime, n: string)
    requires a.Keys !! b.Keys
    ensures InUse(a + b, life, n) == InUse(a, life, n) + InUse(b, life, n)
  {
    hide Total, Get;
    TotalSplit(Shares(a, life, n), Shares(b, life, n));
    assert Shares(a + b, life, n) == Shares(a, life, n) + Shares(b, life, n);
  }

  // ---- Every registry operation keeps the ledger, given what it needs

  /** A node whose record changed but not its identity or pool. */
  lemma SamePoolBalanced(s: Stored, s': Stored, h: Holders)
    requires NodeBalanced(s, h) && s'.pool == s.pool && LifeOf(s') == LifeOf(s)
    ensures NodeBalanced(s', h)
  {
  }

  /** ReserveFirstFit adds exactly the new holder's share to the chosen node's current lifetime. */
  lemma ReserveBalances(r: Registry, h: Holders, t: TaskId, e: ExecutionId, request: Bag)
    requires RegistryOk(r) && Balanced(r, h) && t !in h && Canonical(request) && ReserveAt(r, request).1.Some?
    ensures var (r', chosen) := ReserveAt(r, request);
            Balanced(r', h[t := IssueOf(e, chosen.value, request)])
  {
    hide RegistryOk, Canonical, ReserveAt, IsFirstHost, NodeBalanced;
    ReserveIsExact(r, request);
    var (r', chosen) := ReserveAt(r, request);
    var x := chosen.value.id;
    var i := IssueOf(e, chosen.value, request);
    IdIsKey(r, x);
    IdIsKey(r', x);
    assert r'.nodes.Keys == r.nodes.Keys;
    forall y | y in r'.nodes
      ensures NodeBalanced(r'.nodes[y], h[t := i])
    {
      IdIsKey(r, y);
      if y == x {
        DebitedBalanced(r.nodes[x], r'.nodes[x], h, t, i);
      } else {
        AddedElsewhere(r.nodes[y], h, t, i);
      }
    }
  }

  lemma ReserveKeepsLedger(r: Registry, h: Holders, t: TaskId, e: ExecutionId, request: Bag)
    requires LedgerOk(r, h) && t !in h && Canonical(request) && ReserveAt(r, request).1.Some?
    ensures var (r', chosen) := ReserveAt(r, request);
            LedgerOk(r', h[t := IssueOf(e, chosen.value, request)])
  {
    hide RegistryOk, Canonical, ReserveAt, IsFirstHost, NodeBalanced, Balanced;
    ReserveIsExact(r, request);
    ReserveBalances(r, h, t, e, request);
    var (r', chosen) := ReserveAt(r, request);
    IdIsKey(r, chosen.value.id);
    IdIsKey(r', chosen.value.id);
    assert r'.nodes.Keys == r.nodes.Keys;
  }

  lemma IdIsKey(r: Registry, x: NodeId)
    requires RegistryOk(r) && x in r.nodes
    ensures r.nodes[x].record.id == x && PoolOk(r.nodes[x].pool) && r.nodes[x].record.schedulable == r.nodes[x].pool.available
  {
  }

  lemma DebitedBalanced(s: Stored, s': Stored, h: Holders, t: TaskId, i: Issue)
    requires NodeBalanced(s, h) && t !in h && LifeOf(s') == LifeOf(s) == i.life && s'.pool.total == s.pool.total
    requires forall n :: Get(s'.pool.available, n) == Get(s.pool.available, n) - Get(i.request, n)
    ensures NodeBalanced(s', h[t := i])
  {
    forall n
      ensures Get(s'.pool.total, n) == Get(s'.pool.available, n) + InUse(h[t := i], LifeOf(s'), n)
    {
      InUseAdd(h, t, i, i.life, n);
    }
  }

  lemma AddedElsewhere(s: Stored, h: Holders, t: TaskId, i: Issue)
    requires NodeBalanced(s, h) && t !in h && LifeOf(s) != i.life
    ensures NodeBalanced(s, h[t := i])
  {
    forall n
      ensures Get(s.pool.total, n) == Get(s.pool.available, n) + InUse(h[t := i], LifeOf(s), n)
    {
      InUseAdd(h, t, i, LifeOf(s), n);
    }
  }

  lemma CreditedBalanced(s: Stored, s': Stored, h: Holders, t: TaskId)
    requires NodeBalanced(s, h) && t in h && LifeOf(s') == LifeOf(s) == h[t].life && s'.pool.total == s.pool.total
    requires forall n :: Get(s'.pool.available, n) == Get(s.pool.available, n) + Get(h[t].request, n)
    ensures NodeBalanced(s', h - {t})
  {
    forall n
      ensures Get(s'.pool.total, n) == Get(s'.pool.available, n) + InUse(h - {t}, LifeOf(s'), n)
    {
      InUseDrop(h, t, h[t].life, n);
    }
  }

  lemma DroppedElsewhere(s: Stored, h: Holders, t: TaskId)
    requires NodeBalanced(s, h) && t in h && LifeOf(s) != h[t].life
    ensures NodeBalanced(s, h - {t})
  {
    forall n
      ensures Get(s.pool.total, n) == Get(s.pool.available, n) + InUse(h - {t}, LifeOf(s), n)
    {
      InUseDrop(h, t, LifeOf(s), n);
    }
  }

  /** What a holder holds is lent out. */
  lemma HeldIsLent(r: Registry, h: Holders, t: TaskId)
    requires HoldersCanonical(h) && Balanced(r, h) && t in h && Current(r, h[t].life)
    ensures Lent(h[t].request, r.nodes[h[t].life.node].pool)
  {
    var s := r.nodes[h[t].life.node];
    assert NodeBalanced(s, h);
    forall n | n in h[t].request
      ensures h[t].request[n] <= Get(s.pool.total, n) - Get(s.pool.available, n)
    {
      InUseBounds(h, t, n);
      assert Get(s.pool.total, n) == Get(s.pool.available, n) + InUse(h, LifeOf(s), n);
    }
  }

  /** Giving back what a holder holds cannot fail, and keeps the ledger. */
  lemma ReleaseKeepsLedger(r: Registry, h: Holders, t: TaskId)
    requires LedgerOk(r, h) && t in h
    ensures var (r', code) := ReleaseAt(r, h[t].life.node, h[t].request);
            code == Ok && LedgerOk(r', h - {t})
  {
    hide RegistryOk, Canonical, ReleaseAt, NodeBalanced, Lent;
    var x := h[t].life.node;
    HeldIsLent(r, h, t);
    ReleaseIsExact(r, x, h[t].request);
    var r' := ReleaseAt(r, x, h[t].request).0;
    assert r'.nodes.Keys == r.nodes.Keys;
    forall y | y in r'.nodes
      ensures NodeBalanced(r'.nodes[y], h - {t})
    {
      IdIsKey(r, y);
      if y == x {
        CreditedBalanced(r.nodes[x], r'.nodes[x], h, t);
      } else {
        DroppedElsewhere(r.nodes[y], h, t);
      }
    }
  }

  /** Whether a registration starts a lifetime, as opposed to being refused or repeated. */
  predicate StartsLife(r: Registry, node: NodeRecord) {
    && node.id != NIL && node.endpoint != "" && node.incarnation != 0
    && (node.id in r.nodes ==> r.nodes[node.id].record.incarnation < node.incarnation)
  }

  /** Whoever holds anything on this lifetime holds nothing of it. */
  predicate Empty(h: Holders, life: Lifetime) {
    forall t :: t in h && h[t].life == life ==> Nothing(h[t].request)
  }

  /**
   * A registration keeps the books exactly when it starts no lifetime that somebody already holds something on: its pool
   * is full again, whatever was reserved under the same incarnation before the node was removed.
   */
  lemma RegisterBalancesExactlyWhen(r: Registry, h: Holders, node: NodeRecord, now: int)
    requires RegistryOk(r) && HoldersCanonical(h) && Balanced(r, h)
    ensures Balanced(RegisterAt(r, node, now).0, h) <==> (StartsLife(r, node) ==> Empty(h, Lifetime(node.id, node.incarnation)))
  {
    hide RegistryOk, NodeBalanced, Empty;
    var r' := RegisterAt(r, node, now).0;
    if StartsLife(r, node) {
      var x := node.id;
      assert r'.nodes == r.nodes[x := NewNode(node, now)];
      FullPoolBalancedExactlyWhen(r'.nodes[x], h);
      assert forall y :: y in r'.nodes && y != x ==> NodeBalanced(r'.nodes[y], h);
    } else {
      assert r'.nodes == r.nodes;
    }
  }

  lemma FullPoolBalancedExactlyWhen(s: Stored, h: Holders)
    requires s.pool.available == s.pool.total && HoldersCanonical(h)
    ensures NodeBalanced(s, h) <==> Empty(h, LifeOf(s))
  {
    hide InUse;
    if Empty(h, LifeOf(s)) {
      forall n
        ensures InUse(h, LifeOf(s), n) == 0
      {
        InUseEmpty(h, LifeOf(s), n);
      }
    } else {
      var t :| t in h && h[t].life == LifeOf(s) && !Nothing(h[t].request);
      var n :| n in h[t].request;
      InUseBounds(h, t, n);
      assert Get(s.pool.total, n) != Get(s.pool.available, n) + InUse(h, LifeOf(s), n);
    }
  }

  lemma InUseEmpty(h: Holders, life: Lifetime, n: string)
    requires Empty(h, life)
    ensures InUse(h, life, n) == 0
  {
    TotalZero(Shares(h, life, n));
  }

  /** A registration keeps the ledger when it replaces no lifetime that is still held. */
  lemma RegisterKeepsLedger(r: Registry, h: Holders, node: NodeRecord, now: int)
    requires LedgerOk(r, h) && Canonical(node.reported)
    requires node.id in r.nodes && r.nodes[node.id].record.incarnation < node.incarnation ==> Unheld(h, LifeOf(r.nodes[node.id]))
    ensures LedgerOk(RegisterAt(r, node, now).0, h)
  {
    hide RegistryOk, Canonical, Balanced;
    RegisterKeepsOk(r, node, now);
    RegisterBalancesExactlyWhen(r, h, node, now);
    if node.id in r.nodes {
      IdIsKey(r, node.id);
    }
    assert forall t :: t in h ==> Current(r, h[t].life);
  }

  lemma HeartbeatBalances(r: Registry, h: Holders, x: NodeId, incarnation: nat, reported: Bag, running: nat, now: int)
    requires Balanced(r, h)
    ensures Balanced(HeartbeatAt(r, x, incarnation, reported, running, now).0, h)
  {
    hide NodeBalanced;
    var r' := HeartbeatAt(r, x, incarnation, reported, running, now).0;
    if r'.nodes != r.nodes {
      SamePoolBalanced(r.nodes[x], r'.nodes[x], h);
    }
  }

  lemma HeartbeatKeepsLedger(r: Registry, h: Holders, x: NodeId, incarnation: nat, reported: Bag, running: nat, now: int)
    requires LedgerOk(r, h)
    ensures LedgerOk(HeartbeatAt(r, x, incarnation, reported, running, now).0, h)
  {
    hide RegistryOk, Canonical, Balanced;
    HeartbeatKeepsOk(r, x, incarnation, reported, running, now);
    HeartbeatBalances(r, h, x, incarnation, reported, running, now);
    var r' := HeartbeatAt(r, x, incarnation, reported, running, now).0;
    assert forall y :: y in r.nodes ==> y in r'.nodes && LifeOf(r'.nodes[y]) == LifeOf(r.nodes[y]);
  }

  lemma ScanBalances(r: Registry, h: Holders, now: int, suspectAfter: int, deadAfter: int)
    requires Balanced(r, h)
    ensures Balanced(ScanAt(r, now, suspectAfter, deadAfter), h)
  {
    hide NodeBalanced, Rated;
    var r' := ScanAt(r, now, suspectAfter, deadAfter);
    forall y | y in r.nodes
      ensures NodeBalanced(r'.nodes[y], h)
    {
      SamePoolBalanced(r.nodes[y], r'.nodes[y], h);
    }
  }

  lemma ScanKeepsLedger(r: Registry, h: Holders, now: int, suspectAfter: int, deadAfter: int)
    requires LedgerOk(r, h)
    ensures LedgerOk(ScanAt(r, now, suspectAfter, deadAfter), h)
  {
    hide RegistryOk, Canonical, Balanced, Rated;
    ScanKeepsOk(r, now, suspectAfter, deadAfter);
    ScanBalances(r, h, now, suspectAfter, deadAfter);
    var r' := ScanAt(r, now, suspectAfter, deadAfter);
    assert forall y :: y in r.nodes ==> y in r'.nodes && LifeOf(r'.nodes[y]) == LifeOf(r.nodes[y]);
  }

  /** A removal takes a node's books away with the node. */
  lemma RemoveBalances(r: Registry, h: Holders, x: NodeId, incarnation: nat)
    requires Balanced(r, h)
    ensures Balanced(RemoveAt(r, x, incarnation).0, h)
  {
    hide NodeBalanced;
  }

  /** A removal keeps the ledger when the lifetime it removes is not held. */
  lemma RemoveKeepsLedger(r: Registry, h: Holders, x: NodeId, incarnation: nat)
    requires LedgerOk(r, h)
    requires x in r.nodes && r.nodes[x].record.incarnation == incarnation ==> Unheld(h, LifeOf(r.nodes[x]))
    ensures LedgerOk(RemoveAt(r, x, incarnation).0, h)
  {
    hide RegistryOk, Canonical, Balanced;
    RemoveKeepsOk(r, x, incarnation);
    RemoveBalances(r, h, x, incarnation);
    if x in r.nodes {
      IdIsKey(r, x);
    }
    var r' := RemoveAt(r, x, incarnation).0;
    forall t | t in h
      ensures Current(r', h[t].life)
    {
      assert Current(r, h[t].life);
    }
  }

  // ---- And only then

  /**
   * Releasing for a task that holds nothing (its report or its node's death released it already) is sound exactly when
   * there is nothing to release: otherwise it either fails or takes away what somebody else holds.
   */
  lemma SecondReleaseIsSoundExactlyWhen(r: Registry, h: Holders, x: NodeId, request: Bag)
    requires RegistryOk(r) && Balanced(r, h) && Canonical(request)
    ensures var (r', code) := ReleaseAt(r, x, request);
            (code == Ok && Balanced(r', h)) <==> (x in r.nodes && Nothing(request))
  {
    hide RegistryOk;
    ReleaseIsExact(r, x, request);
    var (r', code) := ReleaseAt(r, x, request);
    if x in r.nodes {
      if Nothing(request) {
        assert Lent(request, r.nodes[x].pool);
        NothingReleased(r, x);
      } else if code == Ok {
        var n :| n in request;
        assert NodeBalanced(r.nodes[x], h);
        assert Get(r.nodes[x].pool.total, n) == Get(r.nodes[x].pool.available, n) + InUse(h, LifeOf(r.nodes[x]), n);
        assert Get(r'.nodes[x].pool.total, n) != Get(r'.nodes[x].pool.available, n) + InUse(h, LifeOf(r'.nodes[x]), n);
        assert !NodeBalanced(r'.nodes[x], h);
      }
    }
  }

  lemma NothingReleased(r: Registry, x: NodeId)
    requires RegistryOk(r) && x in r.nodes
    ensures ReleaseAt(r, x, map[]) == (r, Ok)
  {
    var s := r.nodes[x];
    assert Plus(s.pool.available, map[]) == s.pool.available;
    assert WithPool(s, s.pool) == s;
    assert r.nodes[x := s] == r.nodes;
  }

  /**
   * The release for a holder whose lifetime may have been replaced or removed meanwhile is sound exactly when the
   * lifetime is still the registered one, or the holder holds nothing on a registered node.
   */
  lemma ReleaseIsSoundExactlyWhen(r: Registry, h: Holders, t: TaskId)
    requires RegistryOk(r) && HoldersCanonical(h) && Balanced(r, h) && t in h
    ensures var (r', code) := ReleaseAt(r, h[t].life.node, h[t].request);
            (code == Ok && Balanced(r', h - {t})) <==>
            (Current(r, h[t].life) || (h[t].life.node in r.nodes && Nothing(h[t].request)))
  {
    hide RegistryOk, ReleaseAt, Canonical, NodeBalanced;
    var x := h[t].life.node;
    var (r', code) := ReleaseAt(r, x, h[t].request);
    ReleaseIsExact(r, x, h[t].request);
    if Current(r, h[t].life) {
      HeldIsLent(r, h, t);
      assert r'.nodes.Keys == r.nodes.Keys;
      forall y | y in r'.nodes
        ensures NodeBalanced(r'.nodes[y], h - {t})
      {
        IdIsKey(r, y);
        if y == x {
          CreditedBalanced(r.nodes[x], r'.nodes[x], h, t);
        } else {
          DroppedElsewhere(r.nodes[y], h, t);
        }
      }
    } else if x in r.nodes {
      assert Balanced(r, h - {t}) by {
        forall y | y in r.nodes
          ensures NodeBalanced(r.nodes[y], h - {t})
        {
          IdIsKey(r, y);
          DroppedElsewhere(r.nodes[y], h, t);
        }
      }
      SecondReleaseIsSoundExactlyWhen(r, h - {t}, x, h[t].request);
    }
  }
}
