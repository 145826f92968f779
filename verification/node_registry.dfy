/** The registry of worker nodes: lifetimes, liveness, and the reservation ledger's pools. */
module NodeRegistration {
  import opened Common
  import opened Resources

  datatype NodeState = Alive | Suspect | Dead

  datatype NodeRecord = NodeRecord(
    id: NodeId,
    endpoint: string,
    total: Bag,
    reported: Bag,
    schedulable: Bag,
    incarnation: nat,
    state: NodeState,
    runningTasks: nat,
    lastHeard: int)

  datatype Stored = Stored(record: NodeRecord, pool: Pool)

  datatype Registry = Registry(nodes: map<NodeId, Stored>, order: seq<NodeId>)

  /** One lifetime of a node. */
  datatype Lifetime = Lifetime(node: NodeId, incarnation: nat)

  const NIL := NodeId(0)

  /** registration_order_ lists exactly the registered nodes once; each published availability is its pool's. */
  ghost predicate RegistryOk(r: Registry) {
    && Distinct(r.order)
    && (forall x :: x in r.order <==> x in r.nodes)
    && (forall x :: x in r.nodes ==>
          && r.nodes[x].record.id == x && 0 < r.nodes[x].record.incarnation
          && PoolOk(r.nodes[x].pool) && r.nodes[x].record.schedulable == r.nodes[x].pool.available)
  }

  /** A registration request: the reported capacity becomes what can be scheduled. */
  function NewNode(node: NodeRecord, now: int): Stored {
    Stored(node.(schedulable := node.reported, lastHeard := now), Pool(node.reported, node.reported))
  }

  function RegisterAt(r: Registry, node: NodeRecord, now: int): (Registry, StatusCode) {
    if node.id == NIL then (r, InvalidArgument)
    else if node.endpoint == "" then (r, InvalidArgument)
    else if node.incarnation == 0 then (r, InvalidArgument)
    else if node.id !in r.nodes then
      (Registry(r.nodes[node.id := NewNode(node, now)], r.order + [node.id]), Ok)
    else
      var existing := r.nodes[node.id].record;
      if node.incarnation < existing.incarnation then (r, FailedPrecondition)
      else if node.incarnation == existing.incarnation then
        if existing.endpoint != node.endpoint || existing.total != node.total then (r, FailedPrecondition) else (r, Ok)
      else (r.(nodes := r.nodes[node.id := NewNode(node, now)]), Ok)
  }

  function HeartbeatAt(r: Registry, x: NodeId, incarnation: nat, reported: Bag, running: nat, now: int): (Registry, StatusCode) {
    if x == NIL then (r, InvalidArgument)
    else if incarnation == 0 then (r, InvalidArgument)
    else if x !in r.nodes then (r, NotFound)
    else
      var current := r.nodes[x].record;
      if current.incarnation != incarnation then (r, FailedPrecondition)
      else if current.state == Dead then (r, FailedPrecondition)
      else
        var heard := current.(reported := reported, runningTasks := running, lastHeard := now, state := Alive);
        (r.(nodes := r.nodes[x := r.nodes[x].(record := heard)]), Ok)
  }

  function Rated(n: NodeRecord, now: int, suspectAfter: int, deadAfter: int): NodeState {
    if n.state == Dead then Dead
    else if now - n.lastHeard >= deadAfter then Dead
    else if now - n.lastHeard >= suspectAfter then Suspect
    else Alive
  }

  predicate ValidTimeouts(suspectAfter: int, deadAfter: int) {
    0 <= suspectAfter < deadAfter
  }

  function ScanAt(r: Registry, now: int, suspectAfter: int, deadAfter: int): Registry {
    if !ValidTimeouts(suspectAfter, deadAfter) then r
    else
      r.(nodes := map x | x in r.nodes :: Scanned(r.nodes[x], now, suspectAfter, deadAfter))
  }

  function Scanned(s: Stored, now: int, suspectAfter: int, deadAfter: int): Stored {
    s.(record := s.record.(state := Rated(s.record, now, suspectAfter, deadAfter)))
  }

  predicate Dies(r: Registry, x: NodeId, now: int, deadAfter: int) {
    x in r.nodes && r.nodes[x].record.state != Dead && now - r.nodes[x].record.lastHeard >= deadAfter
  }

  /** The lifetimes a scan reports, in registration order. */
  function NewlyDead(r: Registry, order: seq<NodeId>, now: int, deadAfter: int): seq<Lifetime> {
    if order == [] then []
    else
      var rest := NewlyDead(r, order[..|order|-1], now, deadAfter);
      var x := order[|order|-1];
      if Dies(r, x, now, deadAfter) then rest + [Lifetime(x, r.nodes[x].record.incarnation)] else rest
  }

  /** A scan reports exactly the nodes that die in it, each once. */
  lemma {:induction false} NewlyDeadExactly(r: Registry, order: seq<NodeId>, now: int, deadAfter: int)
    requires Distinct(order)
    ensures var dead := NewlyDead(r, order, now, deadAfter);
            && Distinct(dead)
            && (forall d :: d in dead <==> d.node in order && Dies(r, d.node, now, deadAfter)
                                           && d.incarnation == r.nodes[d.node].record.incarnation)
  {
    hide Dies;
    if order != [] {
      var front, x := order[..|order|-1], order[|order|-1];
      assert forall i :: 0 <= i < |front| ==> front[i] == order[i];
      assert x !in front;
      assert forall y :: y in order <==> y in front || y == x;
      NewlyDeadExactly(r, front, now, deadAfter);
      var rest := NewlyDead(r, front, now, deadAfter);
      assert forall i :: 0 <= i < |rest| ==> rest[i] in rest;
    }
  }

  function NodesOf(dead: seq<Lifetime>): seq<NodeId> {
    seq(|dead|, k requires 0 <= k < |dead| => dead[k].node)
  }

  /** The nodes a scan reports are the order with every node left out that does not die. */
  lemma {:induction false} ReportsInOrder(r: Registry, order: seq<NodeId>, now: int, deadAfter: int)
    ensures NodesOf(NewlyDead(r, order, now, deadAfter))
            == Without(order, set x | x in order && !(x in r.nodes && r.nodes[x].record.state != Dead
                                                      && deadAfter <= now - r.nodes[x].record.lastHeard))
  {
    if order != [] {
      var front, x := order[..|order|-1], order[|order|-1];
      ReportsInOrder(r, front, now, deadAfter);
      var stay := set y | y in order && !(y in r.nodes && r.nodes[y].record.state != Dead
                                          && deadAfter <= now - r.nodes[y].record.lastHeard);
      var less := set y | y in front && !(y in r.nodes && r.nodes[y].record.state != Dead
                                          && deadAfter <= now - r.nodes[y].record.lastHeard);
      SameWithout(front, less, stay);
      assert x in stay <==> !Dies(r, x, now, deadAfter);
      var dead := NewlyDead(r, front, now, deadAfter);
      assert NodesOf(dead + [Lifetime(x, 0)]) == NodesOf(dead) + [x];
      if Dies(r, x, now, deadAfter) {
        assert NodesOf(NewlyDead(r, order, now, deadAfter)) == NodesOf(dead) + [x];
      }
    }
  }

  function ScanReports(r: Registry, now: int, suspectAfter: int, deadAfter: int): seq<Lifetime> {
    if ValidTimeouts(suspectAfter, deadAfter) then NewlyDead(r, r.order, now, deadAfter) else []
  }

  function RemoveAt(r: Registry, x: NodeId, incarnation: nat): (Registry, StatusCode) {
    if x !in r.nodes then (r, NotFound)
    else if r.nodes[x].record.incarnation != incarnation then (r, FailedPrecondition)
    else (Registry(r.nodes - {x}, Without(r.order, {x})), Ok)
  }

  predicate CanHost(r: Registry, x: NodeId, request: Bag) {
    x in r.nodes && r.nodes[x].record.state == Alive && Fits(request, r.nodes[x].pool.available)
  }

  ghost predicate IsFirstHost(r: Registry, order: seq<NodeId>, request: Bag, x: NodeId) {
    CanHost(r, x, request) &&
    exists i :: 0 <= i < |order| && order[i] == x && forall j :: 0 <= j < i ==> !CanHost(r, order[j], request)
  }

  /** The earliest registered node that is alive and has room. */
  function FirstHost(r: Registry, order: seq<NodeId>, request: Bag): (x: Option<NodeId>)
    ensures x.Some? ==> IsFirstHost(r, order, request, x.value) && x.value in order
    ensures x.None? ==> forall y :: y in order ==> !CanHost(r, y, request)
  {
    if order == [] then None
    else if CanHost(r, order[0], request) then Some(order[0])
    else
      var x := FirstHost(r, order[1..], request);
      assert forall y :: y in order ==> y == order[0] || y in order[1..];
      assert x.Some? ==> IsFirstHost(r, order, request, x.value) by {
        if x.Some? {
          var k :| 0 <= k < |order[1..]| && order[1..][k] == x.value
                   && forall j :: 0 <= j < k ==> !CanHost(r, order[1..][j], request);
          assert order[k+1] == x.value;
          assert forall j :: 0 <= j < k + 1 ==> j == 0 || order[j] == order[1..][j-1];
        }
      }
      x
  }

  /** The node after its pool changed, with the published availability brought up to date. */
  function WithPool(s: Stored, p: Pool): Stored {
    Stored(s.record.(schedulable := p.available), p)
  }

  function ReserveAt(r: Registry, request: Bag): (Registry, Option<NodeRecord>) {
    var x := FirstHost(r, r.order, request);
    if x.None? || x.value !in r.nodes then (r, None)
    else
      var s := WithPool(r.nodes[x.value], Acquired(r.nodes[x.value].pool, request).0);
      (r.(nodes := r.nodes[x.value := s]), Some(s.record))
  }

  function ReleaseAt(r: Registry, x: NodeId, request: Bag): (Registry, StatusCode) {
    if x !in r.nodes then (r, NotFound)
    else
      var (p, code) := Released(r.nodes[x].pool, request);
      if code != Ok then (r, code) else (r.(nodes := r.nodes[x := WithPool(r.nodes[x], p)]), Ok)
  }

  // ---- The representation is kept by every operation.

  lemma RegisterKeepsOk(r: Registry, node: NodeRecord, now: int)
    requires RegistryOk(r) && Canonical(node.reported)
    ensures RegistryOk(RegisterAt(r, node, now).0)
  {
    hide RegistryOk, Canonical;
    var r' := RegisterAt(r, node, now).0;
    if r'.order != r.order {
      AppendKeepsOk(r, node.id, NewNode(node, now));
    } else if r'.nodes != r.nodes {
      ReplaceKeepsOk(r, node.id, NewNode(node, now));
    }
  }

  predicate NewlyStored(x: NodeId, s: Stored) {
    s.record.id == x && 0 < s.record.incarnation && Canonical(s.record.schedulable)
    && s.pool == Pool(s.record.schedulable, s.record.schedulable)
  }

  lemma AppendKeepsOk(r: Registry, x: NodeId, s: Stored)
    requires RegistryOk(r) && x !in r.nodes && NewlyStored(x, s)
    ensures RegistryOk(Registry(r.nodes[x := s], r.order + [x]))
  {
  }

  lemma ReplaceKeepsOk(r: Registry, x: NodeId, s: Stored)
    requires RegistryOk(r) && x in r.nodes && NewlyStored(x, s)
    ensures RegistryOk(r.(nodes := r.nodes[x := s]))
  {
  }

  lemma {:induction false} RemovedOnce(order: seq<NodeId>, x: NodeId)
    requires Distinct(order)
    ensures Distinct(Without(order, {x}))
  {
    if order != [] {
      var front := order[..|order|-1];
      assert forall i :: 0 <= i < |front| ==> front[i] == order[i];
      RemovedOnce(front, x);
      var kept := Without(front, {x});
      assert order[|order|-1] !in front;
      assert forall i :: 0 <= i < |kept| ==> kept[i] in kept;
    }
  }

  lemma RemoveKeepsOk(r: Registry, x: NodeId, incarnation: nat)
    requires RegistryOk(r)
    ensures RegistryOk(RemoveAt(r, x, incarnation).0)
  {
    RemovedOnce(r.order, x);
  }

  /** ReserveFirstFit debits the earliest alive node that fits by exactly the request, and touches nothing else. */
  lemma ReserveIsExact(r: Registry, request: Bag)
    requires RegistryOk(r) && Canonical(request)
    ensures var (r', chosen) := ReserveAt(r, request);
            && RegistryOk(r')
            && (chosen.None? ==> r' == r && forall x :: x in r.nodes ==> !CanHost(r, x, request))
            && (chosen.Some? ==>
                  var x := chosen.value.id;
                  && x in r.nodes && IsFirstHost(r, r.order, request, x)
                  && r' == r.(nodes := r.nodes[x := r'.nodes[x]]) && r'.nodes[x].record == chosen.value
                  && r'.nodes[x].pool.total == r.nodes[x].pool.total
                  && chosen.value == r.nodes[x].record.(schedulable := r'.nodes[x].pool.available)
                  && forall n :: Get(r'.nodes[x].pool.available, n) == Get(r.nodes[x].pool.available, n) - Get(request, n))
  {
    var h := FirstHost(r, r.order, request);
    if h.Some? {
      PoolStaysOk(r.nodes[h.value].pool, request);
    }
  }

  /** Release credits one node by exactly the request, or changes nothing; it fails only for a missing node or too much. */
  lemma ReleaseIsExact(r: Registry, x: NodeId, request: Bag)
    requires RegistryOk(r) && Canonical(request)
    ensures var (r', code) := ReleaseAt(r, x, request);
            && RegistryOk(r')
            && (code == Ok <==> x in r.nodes && Lent(request, r.nodes[x].pool))
            && (code != Ok ==> r' == r)
            && (code == Ok ==>
                  && r' == r.(nodes := r.nodes[x := r'.nodes[x]])
                  && r'.nodes[x].record == r.nodes[x].record.(schedulable := r'.nodes[x].pool.available)
                  && r'.nodes[x].pool.total == r.nodes[x].pool.total
                  && forall n :: Get(r'.nodes[x].pool.available, n) == Get(r.nodes[x].pool.available, n) + Get(request, n))
  {
    if x in r.nodes {
      PoolStaysOk(r.nodes[x].pool, request);
    }
  }

  lemma HeartbeatKeepsOk(r: Registry, x: NodeId, incarnation: nat, reported: Bag, running: nat, now: int)
    requires RegistryOk(r)
    ensures RegistryOk(HeartbeatAt(r, x, incarnation, reported, running, now).0)
  {
  }

  lemma ScanKeepsOk(r: Registry, now: int, suspectAfter: int, deadAfter: int)
    requires RegistryOk(r)
    ensures RegistryOk(ScanAt(r, now, suspectAfter, deadAfter))
  {
  }

  /** Liveness traffic never touches the reservation ledger: pools, totals and published availability stay. */
  lemma LivenessLeavesPools(r: Registry, x: NodeId, incarnation: nat, reported: Bag, running: nat,
                            now: int, suspectAfter: int, deadAfter: int, y: NodeId)
    requires y in r.nodes
    ensures var h := HeartbeatAt(r, x, incarnation, reported, running, now).0;
            && h.order == r.order && h.nodes.Keys == r.nodes.Keys
            && h.nodes[y].pool == r.nodes[y].pool && h.nodes[y].record.schedulable == r.nodes[y].record.schedulable
    ensures var k := ScanAt(r, now, suspectAfter, deadAfter);
            && k.order == r.order && k.nodes.Keys == r.nodes.Keys
            && k.nodes[y].pool == r.nodes[y].pool && k.nodes[y].record.schedulable == r.nodes[y].record.schedulable
  {
  }

  // ---- What each call answers and does, read off the registry

  /**
   * Registration: an unusable record is InvalidArgument; an unknown node and a newer incarnation start a lifetime with a full
   * pool; an older incarnation is refused, and the same one is accepted only as a repetition. Nothing else changes.
   */
  lemma RegisterAnswers(r: Registry, node: NodeRecord, now: int)
    ensures var (r', code) := RegisterAt(r, node, now);
            var x := node.id;
            var usable := x != NodeId(0) && node.endpoint != "" && node.incarnation != 0;
            && (code == InvalidArgument <==> !usable)
            && (code == FailedPrecondition <==>
                  usable && x in r.nodes
                  && (node.incarnation < r.nodes[x].record.incarnation
                      || (node.incarnation == r.nodes[x].record.incarnation
                          && (node.endpoint != r.nodes[x].record.endpoint || node.total != r.nodes[x].record.total))))
            && (code == InvalidArgument || code == FailedPrecondition || code == Ok)
            && if usable && (x !in r.nodes || r.nodes[x].record.incarnation < node.incarnation)
               then
                 && code == Ok && x in r'.nodes && r'.nodes == r.nodes[x := r'.nodes[x]]
                 && r'.order == (if x in r.nodes then r.order else r.order + [x])
                 && r'.nodes[x].record == node.(schedulable := node.reported, lastHeard := now)
                 && r'.nodes[x].pool.total == node.reported && r'.nodes[x].pool.available == node.reported
               else r' == r
  {
  }

  /**
   * A heartbeat is accepted exactly from the incarnation that is registered and not dead. Then the node is alive, heard now,
   * and reports what the heartbeat says; its pool, its capacity and every other node stay. A refused one changes nothing.
   */
  lemma HeartbeatAnswers(r: Registry, x: NodeId, incarnation: nat, reported: Bag, running: nat, now: int)
    ensures var (r', code) := HeartbeatAt(r, x, incarnation, reported, running, now);
            var named := x != NodeId(0) && incarnation != 0;
            && (code == Ok <==> named && x in r.nodes && r.nodes[x].record.incarnation == incarnation && r.nodes[x].record.state != Dead)
            && (code == InvalidArgument <==> !named)
            && (code == NotFound <==> named && x !in r.nodes)
            && (code == Ok || code == InvalidArgument || code == NotFound || code == FailedPrecondition)
            && (code != Ok ==> r' == r)
            && (code == Ok ==>
                  && r'.order == r.order && x in r'.nodes && r'.nodes == r.nodes[x := r'.nodes[x]]
                  && r'.nodes[x].pool == r.nodes[x].pool
                  && r'.nodes[x].record
                     == r.nodes[x].record.(state := Alive, lastHeard := now, reported := reported, runningTasks := running))
  {
  }

  /** A scan rates every node that is not dead by how long it has been silent, and changes nothing else; bad timeouts change nothing. */
  lemma ScanAnswers(r: Registry, now: int, suspectAfter: int, deadAfter: int)
    ensures var r' := ScanAt(r, now, suspectAfter, deadAfter);
            && r'.order == r.order && r'.nodes.Keys == r.nodes.Keys
            && (!(0 <= suspectAfter < deadAfter) ==> r' == r && ScanReports(r, now, suspectAfter, deadAfter) == [])
            && forall x :: x in r.nodes ==>
                 var n, n' := r.nodes[x].record, r'.nodes[x].record;
                 && r'.nodes[x].pool == r.nodes[x].pool && n' == n.(state := n'.state)
                 && (0 <= suspectAfter < deadAfter && n.state != Dead ==>
                       && (n'.state == Dead <==> deadAfter <= now - n.lastHeard)
                       && (n'.state == Suspect <==> suspectAfter <= now - n.lastHeard < deadAfter)
                       && (n'.state == Alive <==> now - n.lastHeard < suspectAfter))
                 && (n.state == Dead ==> n'.state == Dead)
  {
  }

  /** A removal takes exactly the named lifetime out, from the map and from the order. */
  lemma RemoveAnswers(r: Registry, x: NodeId, incarnation: nat)
    ensures var (r', code) := RemoveAt(r, x, incarnation);
            && (code == Ok <==> x in r.nodes && r.nodes[x].record.incarnation == incarnation)
            && (code == NotFound <==> x !in r.nodes)
            && (code == Ok || code == NotFound || code == FailedPrecondition)
            && r' == (if code == Ok then Registry(r.nodes - {x}, Without(r.order, {x})) else r)
  {
  }

  /** A node can take a request: it is alive and has every quantity left. */
  predicate HasRoom(r: Registry, x: NodeId, request: Bag) {
    && x in r.nodes && r.nodes[x].record.state == Alive
    && forall n :: n in request ==> n in r.nodes[x].pool.available && request[n] <= r.nodes[x].pool.available[n]
  }

  /** ReserveFirstFit chooses a node exactly if some registered one has room, and then the earliest in the order. */
  lemma ReserveAnswers(r: Registry, request: Bag)
    requires RegistryOk(r) && Canonical(request)
    ensures var chosen := ReserveAt(r, request).1;
            && (chosen.Some? <==> exists x :: x in r.order && HasRoom(r, x, request))
            && (chosen.Some? ==>
                  exists k :: 0 <= k < |r.order| && r.order[k] == chosen.value.id && HasRoom(r, chosen.value.id, request)
                              && forall j :: 0 <= j < k ==> !HasRoom(r, r.order[j], request))
  {
    hide RegistryOk, ReserveAt, Canonical, HasRoom, CanHost, IsFirstHost;
    ChosenIsFirst(r, request);
    InOrder(r);
    forall x | x in r.nodes
      ensures CanHost(r, x, request) <==> HasRoom(r, x, request)
    {
      RoomMeans(r, x, request);
    }
    var chosen := ReserveAt(r, request).1;
    if chosen.Some? {
      var k := FirstAt(r, request, chosen.value.id);
      assert forall j :: 0 <= j <= k ==> r.order[j] in r.order;
    }
  }

  lemma ChosenIsFirst(r: Registry, request: Bag)
    requires RegistryOk(r) && Canonical(request)
    ensures var chosen := ReserveAt(r, request).1;
            && (chosen.None? ==> forall x :: x in r.nodes ==> !CanHost(r, x, request))
            && (chosen.Some? ==> IsFirstHost(r, r.order, request, chosen.value.id))
  {
    hide RegistryOk, ReserveAt, Canonical, CanHost, IsFirstHost;
    ReserveIsExact(r, request);
  }

  lemma FirstAt(r: Registry, request: Bag, x: NodeId) returns (k: nat)
    requires IsFirstHost(r, r.order, request, x)
    ensures k < |r.order| && r.order[k] == x && CanHost(r, x, request) && forall j :: 0 <= j < k ==> !CanHost(r, r.order[j], request)
  {
    hide CanHost;
    var i :| 0 <= i < |r.order| && r.order[i] == x && forall j :: 0 <= j < i ==> !CanHost(r, r.order[j], request);
    k := i;
  }

  lemma InOrder(r: Registry)
    requires RegistryOk(r)
    ensures forall x :: x in r.order <==> x in r.nodes
  {
  }

  lemma RoomMeans(r: Registry, x: NodeId, request: Bag)
    requires RegistryOk(r) && Canonical(request) && x in r.nodes
    ensures CanHost(r, x, request) <==> HasRoom(r, x, request)
  {
    assert forall n :: n in request && request[n] <= Get(r.nodes[x].pool.available, n) ==> n in r.nodes[x].pool.available;
  }

  // ---- The scan as a loop over the registration order.

  function ScannedUpTo(r: Registry, seen: seq<NodeId>, now: int, suspectAfter: int, deadAfter: int): map<NodeId, Stored> {
    map x | x in r.nodes :: if x in seen then Scanned(r.nodes[x], now, suspectAfter, deadAfter) else r.nodes[x]
  }

  lemma ScannedNone(r: Registry, now: int, suspectAfter: int, deadAfter: int)
    ensures ScannedUpTo(r, [], now, suspectAfter, deadAfter) == r.nodes && NewlyDead(r, [], now, deadAfter) == []
  {
  }

  lemma ScannedAll(r: Registry, now: int, suspectAfter: int, deadAfter: int)
    requires RegistryOk(r) && ValidTimeouts(suspectAfter, deadAfter)
    ensures Registry(ScannedUpTo(r, r.order, now, suspectAfter, deadAfter), r.order) == ScanAt(r, now, suspectAfter, deadAfter)
    ensures NewlyDead(r, r.order, now, deadAfter) == ScanReports(r, now, suspectAfter, deadAfter)
  {
  }

  lemma FirstHostNext(r: Registry, i: nat, request: Bag)
    requires i < |r.order|
    ensures FirstHost(r, r.order[i..], request)
            == if CanHost(r, r.order[i], request) then Some(r.order[i]) else FirstHost(r, r.order[i+1..], request)
  {
  }

  lemma FirstHostNone(r: Registry, request: Bag)
    ensures FirstHost(r, r.order[|r.order|..], request) == None
  {
  }

  lemma OrderAt(r: Registry, i: nat)
    requires RegistryOk(r) && i < |r.order|
    ensures r.order[i] in r.nodes && r.nodes[r.order[i]].record.id == r.order[i] && r.order[i] !in r.order[..i]
  {
  }

  lemma ScannedNext(r: Registry, seen: seq<NodeId>, x: NodeId, now: int, suspectAfter: int, deadAfter: int)
    requires x in r.nodes && x !in seen && r.nodes[x].record.id == x
    ensures var done := ScannedUpTo(r, seen, now, suspectAfter, deadAfter);
            var s := done[x];
            && x in done && s == r.nodes[x]
            && ScannedUpTo(r, seen + [x], now, suspectAfter, deadAfter) == done[x := Scanned(s, now, suspectAfter, deadAfter)]
            && NewlyDead(r, seen + [x], now, deadAfter) ==
               NewlyDead(r, seen, now, deadAfter)
               + if s.record.state != Dead && Rated(s.record, now, suspectAfter, deadAfter) == Dead
                 then [Lifetime(x, s.record.incarnation)] else []
  {
  }

  /** An entry of the registry's map: the record, and the pool object that owns the reservation arithmetic. */
  datatype StoredNode = StoredNode(record: NodeRecord, pool: ResourcePool)

  /** The available sets of the pools: what the registry owns besides itself. */
  ghost function Sets(nodes: map<NodeId, StoredNode>): set<ResourceSet> {
    set x | x in nodes :: nodes[x].pool.available
  }

  lemma SameSets(nodes: map<NodeId, StoredNode>, nodes': map<NodeId, StoredNode>)
    requires nodes'.Keys == nodes.Keys && forall x :: x in nodes ==> nodes'[x].pool == nodes[x].pool
    ensures Sets(nodes') == Sets(nodes)
  {
    forall o
      ensures o in Sets(nodes') <==> o in Sets(nodes)
    {
      if o in Sets(nodes) {
        var x :| x in nodes && nodes[x].pool.available == o;
        assert nodes'[x].pool.available == o;
      }
    }
  }

  /** What ReserveFirstFit comes to once the first host is known. */
  lemma ReserveOnHost(r: Registry, x: NodeId, request: Bag)
    requires FirstHost(r, r.order, request) == Some(x) && x in r.nodes
    ensures var s := WithPool(r.nodes[x], Acquired(r.nodes[x].pool, request).0);
            ReserveAt(r, request) == (Registry(r.nodes[x := s], r.order), Some(s.record))
  {
  }

  /** A canonical request's amounts fit into int64. */
  function Amounts(request: Bag): (amounts: map<string, Quantity>)
    requires Canonical(request)
    ensures amounts == request
  {
    request
  }

  lemma ReserveStaysOk(r: Registry, request: Bag)
    requires RegistryOk(r) && Canonical(request)
    ensures RegistryOk(ReserveAt(r, request).0)
  {
    hide RegistryOk, Canonical, ReserveAt;
    ReserveIsExact(r, request);
  }

  lemma ReleaseStaysOk(r: Registry, x: NodeId, request: Bag)
    requires RegistryOk(r) && Canonical(request)
    ensures RegistryOk(ReleaseAt(r, x, request).0)
  {
    hide RegistryOk, Canonical, ReleaseAt;
    ReleaseIsExact(r, x, request);
  }

  lemma ReleaseOnNode(r: Registry, x: NodeId, request: Bag)
    ensures if x !in r.nodes then ReleaseAt(r, x, request) == (r, NotFound)
            else
              var (p, code) := Released(r.nodes[x].pool, request);
              ReleaseAt(r, x, request) == (if code != Ok then r else Registry(r.nodes[x := WithPool(r.nodes[x], p)], r.order), code)
  {
  }

  lemma NoHost(r: Registry, request: Bag)
    requires FirstHost(r, r.order, request) == None
    ensures ReserveAt(r, request) == (r, None)
  {
  }

  /** NodeRegistry: its map of nodes and its registration order, updated in place; `contents` is what the map holds. */
  class NodeRegistry {
    var nodes: map<NodeId, StoredNode>
    var order: seq<NodeId>
    ghost var contents: map<NodeId, Stored>

    ghost function Value(): Registry
      reads this
    {
      Registry(contents, order)
    }

    ghost function Footprint(): set<ResourceSet>
      reads this`nodes
    {
      Sets(nodes)
    }

    /** No two nodes share a pool, and `contents` is up to date, except possibly for the nodes in `but`. */
    ghost predicate Linked(but: set<NodeId>)
      reads this`nodes, this`contents, Footprint()
    {
      && (forall x, y :: x in nodes && y in nodes && x != y ==> nodes[x].pool.available != nodes[y].pool.available)
      && contents.Keys == nodes.Keys
      && (forall x :: x in nodes && x !in but ==> contents[x] == Stored(nodes[x].record, nodes[x].pool.Value()))
    }

    ghost predicate Valid()
      reads this, Footprint()
    {
      Linked({}) && RegistryOk(Value())
    }

    constructor ()
      ensures Valid() && Value() == Registry(map[], []) && fresh(Footprint())
    {
      nodes, order, contents := map[], [], map[];
    }

    lemma SameKeys()
      requires Valid()
      ensures contents.Keys == nodes.Keys
    {
    }

    lemma EntryIs(x: NodeId)
      requires Valid() && x in contents
      ensures x in nodes && contents[x] == Stored(nodes[x].record, nodes[x].pool.Value()) && nodes[x].pool.Valid()
      ensures nodes[x].pool.available in Footprint()
    {
    }

    /** The map's entry for one node is replaced; its pool may be a new one, or one that has just changed. */
    method Put(x: NodeId, node: StoredNode)
      requires Linked({x}) || (x !in nodes && Linked({}))
      requires forall y :: y in nodes && y != x ==> nodes[y].pool.available != node.pool.available
      modifies this`nodes, this`contents
      ensures nodes == old(nodes)[x := node] && Linked({})
      ensures contents == old(contents)[x := Stored(node.record, node.pool.Value())]
    {
      nodes := nodes[x := node];
      contents := contents[x := Stored(node.record, node.pool.Value())];
    }

    method PutRecord(x: NodeId, record: NodeRecord)
      requires Linked({}) && x in nodes
      modifies this`nodes, this`contents
      ensures Linked({}) && Footprint() == old(Footprint()) && nodes.Keys == old(nodes.Keys)
      ensures contents == old(contents)[x := old(contents)[x].(record := record)]
    {
      Put(x, nodes[x].(record := record));
      SameSets(old(nodes), nodes);
    }

    method RegisterNode(node: NodeRecord, now: int) returns (code: StatusCode)
      requires Valid() && Canonical(node.reported)
      modifies this
      ensures Valid() && fresh(Footprint() - old(Footprint()))
      ensures (Value(), code) == RegisterAt(old(Value()), node, now)
    {
      hide RegistryOk, Linked, Canonical;
      RegisterKeepsOk(Value(), node, now);
      SameKeys();
      if node.id == NIL {
        return InvalidArgument;
      }
      if node.endpoint == "" {
        return InvalidArgument;
      }
      if node.incarnation == 0 {
        return InvalidArgument;
      }
      if node.id in nodes {
        EntryIs(node.id);
        var existing := nodes[node.id].record;
        if node.incarnation < existing.incarnation {
          return FailedPrecondition;
        }
        if node.incarnation == existing.incarnation {
          if existing.endpoint != node.endpoint || existing.total != node.total {
            return FailedPrecondition;
          }
          return Ok;
        }
      } else {
        Remember(node.id);
      }
      Insert(node.(schedulable := node.reported).(lastHeard := now));
      return Ok;
    }

    method Remember(x: NodeId)
      requires Linked({})
      modifies this`order
      ensures order == old(order) + [x] && Linked({})
    {
      order := order + [x];
    }

    /** A lifetime starts with a pool of its own, full. */
    method Insert(entry: NodeRecord)
      requires Linked({}) && Canonical(entry.schedulable)
      modifies this`nodes, this`contents
      ensures Linked({}) && fresh(Footprint() - old(Footprint()))
      ensures contents == old(contents)[entry.id := Stored(entry, Pool(entry.schedulable, entry.schedulable))]
    {
      hide Canonical;
      var pool := new ResourcePool(Amounts(entry.schedulable));
      Put(entry.id, StoredNode(entry, pool));
    }

    method Heartbeat(x: NodeId, incarnation: nat, reported: Bag, running: nat, now: int) returns (code: StatusCode)
      requires Valid()
      modifies this
      ensures Valid() && Footprint() == old(Footprint())
      ensures (Value(), code) == HeartbeatAt(old(Value()), x, incarnation, reported, running, now)
    {
      hide RegistryOk;
      HeartbeatKeepsOk(Value(), x, incarnation, reported, running, now);
      if x == NIL {
        return InvalidArgument;
      }
      if incarnation == 0 {
        return InvalidArgument;
      }
      if x !in nodes {
        return NotFound;
      }
      var stored := nodes[x].record;
      if stored.incarnation != incarnation {
        return FailedPrecondition;
      }
      if stored.state == Dead {
        return FailedPrecondition;
      }
      stored := stored.(reported := reported);
      stored := stored.(runningTasks := running);
      stored := stored.(lastHeard := now);
      stored := stored.(state := Alive);
      PutRecord(x, stored);
      return Ok;
    }

    /** The body of the scan's loop: dead is final for a lifetime, anything else follows the elapsed time. */
    method RateNode(x: NodeId, now: int, suspectAfter: int, deadAfter: int) returns (died: seq<Lifetime>)
      requires Linked({}) && x in contents
      modifies this`nodes, this`contents
      ensures Linked({}) && Footprint() == old(Footprint())
      ensures contents == old(contents)[x := Scanned(old(contents)[x], now, suspectAfter, deadAfter)]
      ensures died == if old(contents)[x].record.state != Dead && contents[x].record.state == Dead
                      then [Lifetime(contents[x].record.id, contents[x].record.incarnation)] else []
    {
      var stored := nodes[x].record;
      if stored.state == Dead {
        return [];
      }
      var elapsed := now - stored.lastHeard;
      if elapsed >= deadAfter {
        PutRecord(x, stored.(state := Dead));
        return [Lifetime(stored.id, stored.incarnation)];
      }
      if elapsed >= suspectAfter {
        PutRecord(x, stored.(state := Suspect));
        return [];
      }
      PutRecord(x, stored.(state := Alive));
      return [];
    }

    method UpdateLiveness(now: int, suspectAfter: int, deadAfter: int) returns (dead: seq<Lifetime>)
      requires Valid()
      modifies this
      ensures Valid() && Footprint() == old(Footprint())
      ensures Value() == ScanAt(old(Value()), now, suspectAfter, deadAfter)
      ensures dead == ScanReports(old(Value()), now, suspectAfter, deadAfter)
    {
      hide Linked, RegistryOk;
      if suspectAfter < 0 || deadAfter < 0 || suspectAfter >= deadAfter {
        return [];
      }
      ghost var before := Value();
      dead := RateAll(now, suspectAfter, deadAfter);
      ScannedAll(before, now, suspectAfter, deadAfter);
      ScanKeepsOk(before, now, suspectAfter, deadAfter);
    }

    /** The scan's loop over the registration order. */
    method RateAll(now: int, suspectAfter: int, deadAfter: int) returns (dead: seq<Lifetime>)
      requires Valid()
      modifies this`nodes, this`contents
      ensures Linked({}) && Footprint() == old(Footprint())
      ensures contents == ScannedUpTo(old(Value()), order, now, suspectAfter, deadAfter)
      ensures dead == NewlyDead(old(Value()), order, now, deadAfter)
    {
      hide RegistryOk, ScannedUpTo, NewlyDead, Rated, Linked, Footprint;
      ghost var before := Value();
      ScannedNone(before, now, suspectAfter, deadAfter);
      dead := [];
      ghost var seen: seq<NodeId> := [];
      for i := 0 to |order|
        invariant seen == order[..i]
        invariant Linked({}) && Footprint() == old(Footprint()) && contents.Keys == before.nodes.Keys
        invariant contents == ScannedUpTo(before, seen, now, suspectAfter, deadAfter)
        invariant dead == NewlyDead(before, seen, now, deadAfter)
      {
        OrderAt(before, i);
        ScannedNext(before, seen, order[i], now, suspectAfter, deadAfter);
        var died := RateNode(order[i], now, suspectAfter, deadAfter);
        dead := dead + died;
        seen := seen + [order[i]];
      }
      assert seen == order;
    }

    method RemoveNode(x: NodeId, incarnation: nat) returns (code: StatusCode)
      requires Valid()
      modifies this
      ensures Valid() && Footprint() <= old(Footprint())
      ensures (Value(), code) == RemoveAt(old(Value()), x, incarnation)
    {
      hide RegistryOk, Linked, Sets;
      RemoveKeepsOk(Value(), x, incarnation);
      SameKeys();
      if x !in nodes {
        return NotFound;
      }
      EntryIs(x);
      if nodes[x].record.incarnation != incarnation {
        return FailedPrecondition;
      }
      Erase(x);
      Forget(x);
      return Ok;
    }

    method Erase(x: NodeId)
      requires Linked({})
      modifies this`nodes, this`contents
      ensures Linked({}) && Footprint() <= old(Footprint()) && contents == old(contents) - {x}
    {
      nodes := nodes - {x};
      contents := contents - {x};
    }

    /** std::remove, then erase. */
    method Forget(x: NodeId)
      requires Linked({})
      modifies this`order
      ensures order == Without(old(order), {x}) && Linked({})
    {
      var kept: seq<NodeId> := [];
      for i := 0 to |order|
        invariant kept == Without(order[..i], {x})
      {
        assert order[..i+1][..i] == order[..i];
        if order[i] != x {
          kept := kept + [order[i]];
        }
      }
      assert order[..|order|] == order;
      order := kept;
    }

    method GetNode(x: NodeId) returns (code: StatusCode, record: Option<NodeRecord>)
      requires Valid()
      ensures code == if x in contents then Ok else NotFound
      ensures record == if x in contents then Some(contents[x].record) else None
    {
      if x !in nodes {
        return NotFound, None;
      }
      return Ok, Some(nodes[x].record);
    }

    method ReserveFirstFit(request: Bag) returns (code: StatusCode, chosen: Option<NodeRecord>)
      requires Valid() && Canonical(request)
      modifies this, Footprint()
      ensures Valid() && Footprint() == old(Footprint())
      ensures (Value(), chosen) == ReserveAt(old(Value()), request)
      ensures code == if chosen.Some? then Ok else ResourceExhausted
    {
      hide RegistryOk, Fits, IsFirstHost, FirstHost, CanHost, Canonical, Linked, ReserveAt, Sets, Amounts, WithPool, Acquired, Footprint;
      ghost var before := Value();
      var amount := Amounts(request);
      ReserveStaysOk(before, request);
      assert order[0..] == order;
      for i := 0 to |order|
        invariant Value() == before && Valid() && nodes == old(nodes)
        invariant FirstHost(before, order, request) == FirstHost(before, order[i..], request)
      {
        OrderAt(before, i);
        FirstHostNext(before, i, request);
        var hosts := Hosts(order[i], amount);
        if hosts {
          ReserveOnHost(before, order[i], request);
          EntryIs(order[i]);
          chosen := Debit(order[i], amount);
          return Ok, chosen;
        }
      }
      FirstHostNone(before, request);
      NoHost(before, request);
      return ResourceExhausted, None;
    }

    /** Whether one node is alive and has room. */
    method Hosts(x: NodeId, request: map<string, Quantity>) returns (hosts: bool)
      requires Valid() && x in contents
      ensures Valid() && hosts == CanHost(Value(), x, request)
      ensures hosts ==> Fits(request, contents[x].pool.available)
    {
      hide RegistryOk, Fits, Linked;
      EntryIs(x);
      if nodes[x].record.state != Alive {
        return false;
      }
      hosts := nodes[x].pool.CanFit(request);
    }

    /** Acquires from the pool of a node that fits, and publishes what is left. */
    method Debit(x: NodeId, request: map<string, Quantity>) returns (chosen: Option<NodeRecord>)
      requires Linked({}) && x in nodes && nodes[x].pool.Valid() && Canonical(request) && Fits(request, nodes[x].pool.available.values)
      modifies this`nodes, this`contents, nodes[x].pool.available
      ensures Linked({}) && Footprint() == old(Footprint())
      ensures x in contents && chosen == Some(contents[x].record)
      ensures contents == old(contents)[x := WithPool(old(contents)[x], Acquired(old(contents)[x].pool, request).0)]
    {
      hide Canonical;
      var acquired := nodes[x].pool.Acquire(request);
      if acquired != Ok {
        assert false;
      }
      Publish(x);
      return Some(nodes[x].record);
    }

    /** What is left in a node's pool becomes its published availability. */
    method Publish(x: NodeId)
      requires x in nodes && Linked({x})
      modifies this`nodes, this`contents
      ensures Linked({}) && Footprint() == old(Footprint()) && nodes.Keys == old(nodes.Keys)
      ensures nodes[x].pool == old(nodes[x].pool)
      ensures contents == old(contents)[x := WithPool(Stored(old(nodes[x].record), old(nodes[x].pool.Value())), old(nodes[x].pool.Value()))]
    {
      var record := nodes[x].record.(schedulable := nodes[x].pool.available.values);
      Put(x, nodes[x].(record := record));
      SameSets(old(nodes), nodes);
    }

    method Release(x: NodeId, request: Bag) returns (code: StatusCode)
      requires Valid() && Canonical(request)
      modifies this, Footprint()
      ensures Valid() && Footprint() == old(Footprint())
      ensures (Value(), code) == ReleaseAt(old(Value()), x, request)
    {
      hide RegistryOk, Canonical, Released, Linked, Sets, ReleaseAt, Amounts, WithPool, Footprint;
      var amount := Amounts(request);
      ghost var before := Value();
      ReleaseStaysOk(before, x, request);
      SameKeys();
      ReleaseOnNode(before, x, request);
      if x !in nodes {
        return NotFound;
      }
      EntryIs(x);
      code := Credit(x, amount);
    }

    /** Gives back to the pool of one node, and publishes what it has then. */
    method Credit(x: NodeId, request: map<string, Quantity>) returns (code: StatusCode)
      requires Linked({}) && x in nodes && nodes[x].pool.Valid() && Canonical(request)
      modifies this`nodes, this`contents, nodes[x].pool.available
      ensures Linked({}) && Footprint() == old(Footprint()) && x in old(contents)
      ensures code == Released(old(contents)[x].pool, request).1
      ensures contents == if code != Ok then old(contents)
                          else old(contents)[x := WithPool(old(contents)[x], Released(old(contents)[x].pool, request).0)]
    {
      hide Canonical, Lent;
      code := nodes[x].pool.Release(request);
      if code != Ok {
        return;
      }
      Publish(x);
    }
  }
}
