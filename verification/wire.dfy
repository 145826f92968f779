/** The wire representations: quantities as doubles, resource maps, status codes, and reported task states. */
module Wire {
  import opened Common
  import opened Resources
  import opened TaskManagement

  // ---- Doubles

  /** A double received from the wire; a NaN or an infinity carries no number. */
  datatype Double = Finite(value: real) | NotFinite

  const SCALE: real := 10000.0
  const TWO51: int := 0x8_0000_0000_0000
  const TWO53: int := 0x20_0000_0000_0000

  /** Half a unit in the last place, relative to the value: 2^-53 for binary64 (section 4.3.1 of IEEE 754-2019). */
  const ULP: real := 1.0 / TWO53 as real

  function Abs(x: real): real {
    if x < 0.0 then -x else x
  }

  predicate Exact(rnd: real -> real, q: int) {
    rnd(q as real) == q as real
  }

  /** `rnd` rounds the result of a double operation: exact on integers that have one, close on everything not tiny. */
  ghost predicate IsRounding(rnd: real -> real) {
    && (forall q: int :: -TWO53 <= q <= TWO53 ==> Exact(rnd, q))
    && (forall x: real {:trigger rnd(x)} :: 0.0001 <= Abs(x) ==> Abs(rnd(x) - x) <= Abs(x) * ULP)
  }

  /** std::llround of a non-negative double. */
  function LlRound(x: real): int
    requires 0.0 <= x
  {
    (x + 0.5).Floor
  }

  function ToDouble(q: int, rnd: real -> real): Double {
    Finite(rnd(rnd(q as real) / SCALE))
  }

  /** ResourceQuantity::FromDouble; llround of exactly 2^63 is undefined in the source, so None stands for it as well. */
  function FromDouble(d: Double, rnd: real -> real): (q: Option<int>)
    ensures q.Some? ==> 0 <= q.value <= INT64_MAX
  {
    if d.NotFinite? || d.value < 0.0 then None
    else
      var scaled := rnd(d.value * SCALE);
      if scaled < 0.0 || INT64_MAX < LlRound(scaled) then None else Some(LlRound(scaled))
  }

  /** Whatever the rounding direction of either operation, every quantity below 2^51 units survives the wire. */
  lemma QuantityRoundTrip(q: int, rnd: real -> real)
    requires IsRounding(rnd) && 0 <= q < TWO51
    ensures FromDouble(ToDouble(q, rnd), rnd) == Some(q)
  {
    hide IsRounding, LlRound;
    Exactly(rnd, q);
    if q == 0 {
      Exactly(rnd, 0);
      assert LlRound(0.0) == 0 by { Nearest(0, 0.0); }
    } else {
      var x := q as real / SCALE;
      var d := rnd(x);
      Rounded(rnd, x);
      var y := d * SCALE;
      FirstError(q, x, d, y);
      Rounded(rnd, y);
      SecondError(q as real, y, rnd(y));
      Nearest(q, rnd(y));
    }
  }

  lemma Exactly(rnd: real -> real, q: int)
    requires IsRounding(rnd) && -TWO53 <= q <= TWO53
    ensures rnd(q as real) == q as real
  {
    assert Exact(rnd, q);
  }

  lemma Rounded(rnd: real -> real, x: real)
    requires IsRounding(rnd) && 0.0001 <= x
    ensures Abs(rnd(x) - x) <= x * ULP
  {
  }

  lemma FirstError(q: int, x: real, d: real, y: real)
    requires 0 < q < TWO51 && x == q as real / SCALE && Abs(d - x) <= x * ULP && y == d * SCALE
    ensures Abs(y - q as real) <= q as real * ULP && 0.0 <= d && 0.5 <= y
  {
  }

  lemma SecondError(q: real, y: real, scaled: real)
    requires 1.0 <= q <= (TWO51 - 1) as real
    requires Abs(y - q) <= q * ULP && Abs(scaled - y) <= y * ULP
    ensures Abs(scaled - q) < 0.5
  {
  }

  lemma Nearest(q: int, scaled: real)
    requires 0 <= q < TWO51 && Abs(scaled - q as real) < 0.5
    requires q == 0 ==> scaled == 0.0
    ensures 0.0 <= scaled && LlRound(scaled) == q
  {
  }

  /** A decoded quantity is the nearest one, up to the rounding of the product; what is not a quantity at all is rejected. */
  lemma DecodesNearest(x: real, rnd: real -> real)
    requires IsRounding(rnd) && 0.0001 <= x * SCALE
    ensures var q := FromDouble(Finite(x), rnd);
            && (q.Some? ==> Abs(q.value as real - x * SCALE) <= 0.5 + x * SCALE * ULP)
            && (q.None? ==> INT64_MAX as real + 0.5 <= x * SCALE * (1.0 + ULP))
    ensures x < 0.0 || FromDouble(Finite(-x), rnd) == None
    ensures FromDouble(NotFinite, rnd) == None
  {
    var y := x * SCALE;
    Rounded(rnd, y);
    assert y - y * ULP <= rnd(y) <= y + y * ULP;
    hide IsRounding;
  }

  /** A whole number of units is ten thousand quantities each. */
  lemma WholeUnits(k: int, rnd: real -> real)
    requires IsRounding(rnd) && 0 <= k && 10000 * k <= TWO53
    ensures FromDouble(Finite(k as real), rnd) == Some(10000 * k)
  {
    hide IsRounding;
    Exactly(rnd, 10000 * k);
    assert k as real * SCALE == (10000 * k) as real;
  }

  /** The worst rounding the error bound allows, at the two values that matter. */
  function Upward(x: real): real {
    var first := TWO51 as real / SCALE;
    var second := TWO51 as real + 0.25;
    if x == first then first * (1.0 + ULP)
    else if x == second then second * (1.0 + ULP)
    else x
  }

  /** 2^51 is the best bound this error model gives: at 2^51 itself an admissible rounding changes the quantity. */
  lemma BoundIsTight()
    ensures IsRounding(Upward)
    ensures FromDouble(ToDouble(TWO51, Upward), Upward) == Some(TWO51 + 1)
  {
    UpwardIsRounding();
    hide IsRounding;
    var first := TWO51 as real / SCALE;
    var second := TWO51 as real + 0.25;
    Exactly(Upward, TWO51);
    assert first * (1.0 + ULP) * SCALE == second;
    var scaled := second * (1.0 + ULP);
    assert scaled == TWO51 as real + 0.5 + 0.25 * ULP;
  }

  lemma UpwardIsRounding()
    ensures IsRounding(Upward)
  {
  }

  // ---- Resource sets

  function Encoded(values: Bag, rnd: real -> real): map<string, Double> {
    map n | n in values :: ToDouble(values[n], rnd)
  }

  predicate Decodable(n: string, d: Double, rnd: real -> real) {
    ValidName(n) && FromDouble(d, rnd).Some?
  }

  /** The resource set a wire map stands for, if every entry is acceptable; zero entries vanish. */
  function Decoded(wire: map<string, Double>, rnd: real -> real): (values: Option<Bag>)
    ensures values.Some? <==> forall n :: n in wire ==> Decodable(n, wire[n], rnd)
    ensures values.Some? ==> Canonical(values.value)
  {
    if forall n :: n in wire ==> Decodable(n, wire[n], rnd) then
      Some(map n | n in wire && Decodable(n, wire[n], rnd) && FromDouble(wire[n], rnd) != Some(0) ::
             FromDouble(wire[n], rnd).value)
    else None
  }

  /** A decoded resource set holds exactly the wire's entries that are not zero, each decoded for itself. */
  lemma DecodesEachEntry(wire: map<string, Double>, rnd: real -> real)
    ensures Decoded(wire, rnd).Some? <==> forall n :: n in wire ==> ValidName(n) && FromDouble(wire[n], rnd).Some?
    ensures Decoded(wire, rnd).Some? ==>
              var values := Decoded(wire, rnd).value;
              && (forall n :: n in values ==> n in wire && FromDouble(wire[n], rnd) == Some(values[n]))
              && (forall n :: n in wire && n !in values ==> FromDouble(wire[n], rnd) == Some(0))
  {
    hide FromDouble, ValidName;
  }

  /** Every canonical resource set with quantities below 2^51 units comes back as the same map. */
  lemma ResourcesRoundTrip(values: Bag, rnd: real -> real)
    requires IsRounding(rnd) && Canonical(values)
    requires forall n :: n in values ==> values[n] < TWO51
    ensures Decoded(Encoded(values, rnd), rnd) == Some(values)
  {
    forall n | n in values
      ensures FromDouble(Encoded(values, rnd)[n], rnd) == Some(values[n])
    {
      QuantityRoundTrip(values[n], rnd);
    }
    var back := Decoded(Encoded(values, rnd), rnd);
    assert back.value == values;
  }

  /** serialization::ToProto(ResourceSet). */
  method ResourcesToProto(resources: ResourceSet, rnd: real -> real) returns (out: map<string, Double>)
    ensures out == Encoded(resources.values, rnd)
  {
    out := map[];
    var todo := resources.values.Keys;
    while todo != {}
      invariant todo <= resources.values.Keys
      invariant out == map n | n in resources.values && n !in todo :: ToDouble(resources.values[n], rnd)
      decreases todo
    {
      var name :| name in todo;
      out := out[name := ToDouble(resources.values[name], rnd)];
      todo := todo - {name};
    }
  }

  /** ResourceSet::Set of a double. */
  method SetDouble(resources: ResourceSet, name: string, d: Double, rnd: real -> real) returns (code: StatusCode)
    modifies resources
    ensures code == if Decodable(name, d, rnd) then Ok else InvalidArgument
    ensures resources.values ==
            if !Decodable(name, d, rnd) then old(resources.values)
            else if FromDouble(d, rnd) == Some(0) then old(resources.values) - {name}
            else old(resources.values)[name := FromDouble(d, rnd).value]
  {
    var valid := IsValidResourceName(name);
    if !valid {
      return InvalidArgument;
    }
    var parsed := FromDouble(d, rnd);
    if parsed.None? {
      return InvalidArgument;
    }
    code := resources.Set(name, parsed.value);
  }

  /** serialization::FromProto(ResourceSet): all entries or none, in whatever order the wire map is walked. */
  method ResourcesFromProto(wire: map<string, Double>, rnd: real -> real, out: ResourceSet) returns (code: StatusCode)
    modifies out
    ensures code == if Decoded(wire, rnd).Some? then Ok else InvalidArgument
    ensures out.values == if Decoded(wire, rnd).Some? then Decoded(wire, rnd).value else old(out.values)
  {
    hide FromDouble, ValidName;
    var decoded := new ResourceSet(map[]);
    var todo := wire.Keys;
    while todo != {}
      invariant todo <= wire.Keys
      invariant forall n :: n in wire && n !in todo ==> Decodable(n, wire[n], rnd)
      invariant decoded.values == map n | n in wire && n !in todo && FromDouble(wire[n], rnd).Some? && FromDouble(wire[n], rnd) != Some(0)
                                   :: FromDouble(wire[n], rnd).value
      invariant out.values == old(out.values)
      decreases todo
    {
      var name :| name in todo;
      var status := SetDouble(decoded, name, wire[name], rnd);
      if status != Ok {
        return InvalidArgument;
      }
      todo := todo - {name};
    }
    out.values := decoded.values;
    return Ok;
  }

  // ---- Statuses (numbers as in proto/common.proto)

  datatype WireStatus = WireStatus(code: int, message: string)

  function StatusCodeToProto(code: StatusCode): int {
    match code
    case Ok => 1
    case InvalidArgument => 2
    case NotFound => 3
    case AlreadyExists => 4
    case FailedPrecondition => 5
    case Unavailable => 6
    case ResourceExhausted => 7
    case Cancelled => 8
    case DeadlineExceeded => 9
    case Internal => 10
  }

  function StatusToProto(s: Status): WireStatus {
    WireStatus(StatusCodeToProto(s.code), s.message)
  }

  function StatusFromProto(w: WireStatus): (s: Status)
    ensures WellFormed(s)
  {
    if w.code == 1 then OK
    else if w.code == 2 then Status(InvalidArgument, w.message)
    else if w.code == 3 then Status(NotFound, w.message)
    else if w.code == 4 then Status(AlreadyExists, w.message)
    else if w.code == 5 then Status(FailedPrecondition, w.message)
    else if w.code == 6 then Status(Unavailable, w.message)
    else if w.code == 7 then Status(ResourceExhausted, w.message)
    else if w.code == 8 then Status(Cancelled, w.message)
    else if w.code == 9 then Status(DeadlineExceeded, w.message)
    else if w.code == 10 then Status(Internal, w.message)
    else if w.code == 0 then Status(Internal, "received unspecified runtime status code")
    else Status(Internal, "received unknown runtime status code")
  }

  /** The codes in the order in which the protocol numbers them, from 1 on. */
  const PROTOCOL_CODES :=
    [Ok, InvalidArgument, NotFound, AlreadyExists, FailedPrecondition,
     Unavailable, ResourceExhausted, Cancelled, DeadlineExceeded, Internal]

  /** Codes travel as the protocol's numbers; an unknown number is an internal error, and only Ok loses its message. */
  lemma StatusNumbers(w: WireStatus)
    ensures forall k :: 0 <= k < |PROTOCOL_CODES| ==> StatusCodeToProto(PROTOCOL_CODES[k]) == k + 1
    ensures var s := StatusFromProto(w);
            if 1 <= w.code <= 10 then s.code == PROTOCOL_CODES[w.code-1] && s.message == (if w.code == 1 then "" else w.message)
            else s.code == Internal
  {
  }

  /** A status survives the wire exactly when it is one the factory functions can make. */
  lemma StatusRoundTrip(s: Status)
    ensures StatusFromProto(StatusToProto(s)) == s <==> WellFormed(s)
  {
  }

  // ---- Reported states (numbers as in proto/task.proto)

  datatype DistributedState = DRunning | DCancelRequested | DSucceeded | DFailed | DCanceled

  predicate IsFinal(d: DistributedState) {
    d.DSucceeded? || d.DFailed? || d.DCanceled?
  }

  /** ResultReporter's mapping. */
  function StateToProto(s: ExecutionState): int {
    match s
    case Succeeded => 5
    case Failed => 6
    case Aborted => 7
    case _ => 0
  }

  /** ControlService's mapping. */
  function StateFromProto(w: int): DistributedState {
    if w == 5 then DSucceeded else if w == 6 then DFailed else if w == 7 then DCanceled else DRunning
  }

  /** The two mappings compose to a faithful one: terminal states stay apart, and only they become terminal. */
  lemma ReportedStateFaithful(s: ExecutionState, s': ExecutionState)
    ensures IsFinal(StateFromProto(StateToProto(s))) <==> IsTerminal(s)
    ensures IsTerminal(s) && StateFromProto(StateToProto(s)) == StateFromProto(StateToProto(s')) ==> s == s'
  {
  }

  /** The numbers of the protocol: 5, 6 and 7 are success, failure and cancellation, on both sides. */
  lemma StateNumbers(s: ExecutionState, w: int)
    ensures StateToProto(s) == 5 <==> s == Succeeded
    ensures StateToProto(s) == 6 <==> s == Failed
    ensures StateToProto(s) == 7 <==> s == Aborted
    ensures StateFromProto(w) == DSucceeded <==> w == 5
    ensures StateFromProto(w) == DFailed <==> w == 6
    ensures StateFromProto(w) == DCanceled <==> w == 7
    ensures StateFromProto(w) != DCancelRequested
  {
  }
}
