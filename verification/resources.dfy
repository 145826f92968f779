/** Fixed-point logical resources: canonical name-to-quantity maps and the pools that lend them out. */
module Resources {
  import opened Common

  const INT64_MAX: int := 0x7FFF_FFFF_FFFF_FFFF
  const INT64_MIN: int := -0x8000_0000_0000_0000

  /** ResourceQuantity: an int64 count of 1/10000 units. Storing an out-of-range value does not verify. */
  type Quantity = x: int | INT64_MIN <= x <= INT64_MAX

  /** The abstract value of a ResourceSet. */
  type Bag = map<string, int>

  predicate ValidChar(c: char) {
    'a' <= c <= 'z' || 'A' <= c <= 'Z' || '0' <= c <= '9' || c == '_' || c == '-' || c == '.'
  }

  predicate ValidName(name: string) {
    name != "" && forall i :: 0 <= i < |name| ==> ValidChar(name[i])
  }

  /** Valid names by character code (US-ASCII): digits, upper case, lower case, and the codes of `-`, `.` and `_`. */
  lemma NamesByCode(name: string)
    ensures ValidName(name) <==>
            && |name| > 0
            && forall i :: 0 <= i < |name| ==>
                 var c := name[i] as int; 48 <= c <= 57 || 65 <= c <= 90 || 97 <= c <= 122 || c == 45 || c == 46 || c == 95
  {
  }

  /** What Set keeps true: valid names, and no zero or negative entry. */
  predicate Canonical(b: Bag) {
    forall n :: n in b ==> ValidName(n) && 0 < b[n] <= INT64_MAX
  }

  function Get(b: Bag, n: string): int {
    if n in b then b[n] else 0
  }

  /** Every requested quantity is at most what `have` offers; a missing resource counts as zero. */
  predicate Fits(request: Bag, have: Bag) {
    forall n :: n in request ==> request[n] <= Get(have, n)
  }

  function Plus(a: Bag, b: Bag): (r: Bag)
    ensures forall n {:trigger Get(r, n)} :: Get(r, n) == Get(a, n) + Get(b, n)
  {
    map n | n in a.Keys + b.Keys :: Get(a, n) + Get(b, n)
  }

  /** Pointwise difference, with the entries that reach zero erased. */
  function Minus(a: Bag, b: Bag): (r: Bag)
    ensures forall n {:trigger Get(r, n)} :: (n in b ==> n in a) ==> Get(r, n) == Get(a, n) - Get(b, n)
  {
    map n | n in a && a[n] != Get(b, n) :: a[n] - Get(b, n)
  }

  /** The abstract value of a ResourcePool. */
  datatype Pool = Pool(total: Bag, available: Bag)

  /** 0 <= available <= total for every resource, and both maps canonical. */
  predicate PoolOk(p: Pool) {
    Canonical(p.total) && Canonical(p.available) && Fits(p.available, p.total)
  }

  /** `request` is no more than what is currently lent out. */
  predicate Lent(request: Bag, p: Pool) {
    forall n :: n in request ==> request[n] <= Get(p.total, n) - Get(p.available, n)
  }

  function Acquired(p: Pool, request: Bag): (Pool, StatusCode) {
    if Fits(request, p.available) then (p.(available := Minus(p.available, request)), Ok)
    else (p, ResourceExhausted)
  }

  function Released(p: Pool, request: Bag): (Pool, StatusCode) {
    if Lent(request, p) then (p.(available := Plus(p.available, request)), Ok)
    else (p, FailedPrecondition)
  }

  // Bag algebra. Positive is the part of Canonical that it needs.

  predicate Positive(b: Bag) {
    forall n :: n in b ==> 0 < b[n]
  }

  lemma MinusMinus(have: Bag, a: Bag, b: Bag)
    requires Positive(a) && Positive(b)
    requires Fits(a, have) && Fits(b, Minus(have, a))
    ensures Fits(b, have) && Fits(a, Minus(have, b))
    ensures Minus(Minus(have, a), b) == Minus(Minus(have, b), a)
  {
    var less := Minus(have, a);
    forall n | n in b
      ensures b[n] + Get(a, n) <= Get(have, n)
    {
      assert Get(less, n) == Get(have, n) - Get(a, n);
    }
    var other := Minus(have, b);
    forall n | n in a
      ensures a[n] <= Get(other, n)
    {
      assert Get(other, n) == Get(have, n) - Get(b, n);
    }
    var x, y := Minus(less, b), Minus(other, a);
    forall n
      ensures n in x <==> n in y
      ensures n in x ==> x[n] == y[n]
    {
      assert Get(x, n) == Get(less, n) - Get(b, n);
      assert Get(y, n) == Get(other, n) - Get(a, n);
    }
  }

  lemma PlusPlus(have: Bag, a: Bag, b: Bag)
    ensures Plus(Plus(have, a), b) == Plus(Plus(have, b), a)
  {
  }

  lemma MinusPlus(have: Bag, a: Bag, b: Bag)
    requires Positive(have) && Positive(a) && Positive(b) && Fits(a, have)
    ensures Fits(a, Plus(have, b))
    ensures Plus(Minus(have, a), b) == Minus(Plus(have, b), a)
  {
    var more, less := Plus(have, b), Minus(have, a);
    assert forall n :: n in a ==> Get(more, n) == Get(have, n) + Get(b, n);
    var x, y := Plus(less, b), Minus(more, a);
    forall n
      ensures n in x <==> n in y
      ensures n in x ==> x[n] == y[n]
    {
      assert Get(x, n) == Get(less, n) + Get(b, n);
      assert Get(y, n) == Get(more, n) - Get(a, n);
    }
  }

  lemma MinusThenPlus(have: Bag, a: Bag)
    requires Positive(have) && Positive(a) && Fits(a, have)
    ensures Plus(Minus(have, a), a) == have
  {
  }

  lemma PlusThenMinus(have: Bag, a: Bag)
    requires Positive(have) && Positive(a)
    ensures Fits(a, Plus(have, a)) && Minus(Plus(have, a), a) == have
  {
  }

  lemma MinusOk(have: Bag, a: Bag)
    requires Canonical(have) && Canonical(a) && Fits(a, have)
    ensures Canonical(Minus(have, a)) && Fits(Minus(have, a), have)
  {
  }

  lemma PlusOk(have: Bag, a: Bag, limit: Bag)
    requires Canonical(have) && Canonical(a) && Canonical(limit)
    requires Fits(have, limit) && forall n :: n in a ==> a[n] <= Get(limit, n) - Get(have, n)
    ensures Canonical(Plus(have, a)) && Fits(Plus(have, a), limit)
  {
  }

  /** Both operations keep 0 <= available <= total and canonical maps, whether they succeed or fail. */
  lemma PoolStaysOk(p: Pool, request: Bag)
    requires PoolOk(p) && Canonical(request)
    ensures PoolOk(Acquired(p, request).0) && PoolOk(Released(p, request).0)
  {
    if Fits(request, p.available) {
      MinusOk(p.available, request);
      assert Fits(Minus(p.available, request), p.total);
    }
    if Lent(request, p) {
      PlusOk(p.available, request, p.total);
    }
  }

  /**
   * When the two operations succeed, read off the maps: every requested quantity is there to be taken, or was lent out.
   * Success moves exactly the request, name by name; failure changes nothing.
   */
  lemma PoolAnswers(p: Pool, request: Bag)
    requires PoolOk(p) && Canonical(request)
    ensures var (p', code) := Acquired(p, request);
            && (code == Ok <==> forall n :: n in request ==> n in p.available && request[n] <= p.available[n])
            && (code != Ok ==> code == ResourceExhausted && p' == p)
            && (code == Ok ==> p'.total == p.total && forall n :: Get(p'.available, n) == Get(p.available, n) - Get(request, n))
    ensures var (p', code) := Released(p, request);
            && (code == Ok <==> forall n :: n in request ==> n in p.total && Get(p.available, n) + request[n] <= p.total[n])
            && (code != Ok ==> code == FailedPrecondition && p' == p)
            && (code == Ok ==> p'.total == p.total && forall n :: Get(p'.available, n) == Get(p.available, n) + Get(request, n))
  {
    PoolStaysOk(p, request);
    if Acquired(p, request).1 == Ok {
      forall n | n in request
        ensures n in p.available && request[n] <= p.available[n]
      {
        assert request[n] <= Get(p.available, n);
      }
    }
    if Released(p, request).1 == Ok {
      forall n | n in request
        ensures n in p.total && Get(p.available, n) + request[n] <= p.total[n]
      {
        assert request[n] <= Get(p.total, n) - Get(p.available, n);
      }
    }
  }

  /** Acquire undone by Release restores the exact map, and the Release cannot fail. */
  lemma AcquireReleaseRestores(p: Pool, request: Bag)
    requires PoolOk(p) && Canonical(request) && Fits(request, p.available)
    ensures Released(Acquired(p, request).0, request) == (p, Ok)
  {
    var less := Minus(p.available, request);
    forall n | n in request
      ensures request[n] <= Get(p.total, n) - Get(less, n)
    {
      assert Get(less, n) == Get(p.available, n) - Get(request, n);
    }
    MinusThenPlus(p.available, request);
  }

  /** Release undone by Acquire restores the exact map, and the Acquire cannot fail. */
  lemma ReleaseAcquireRestores(p: Pool, request: Bag)
    requires PoolOk(p) && Canonical(request) && Lent(request, p)
    ensures Acquired(Released(p, request).0, request) == (p, Ok)
  {
    PlusThenMinus(p.available, request);
  }

  /** Requests that can both be acquired can be acquired in either order, with the same outcome. */
  lemma AcquiresCommute(p: Pool, a: Bag, b: Bag)
    requires PoolOk(p) && Canonical(a) && Canonical(b)
    requires Acquired(p, a).1 == Ok && Acquired(Acquired(p, a).0, b).1 == Ok
    ensures Acquired(p, b).1 == Ok && Acquired(Acquired(p, b).0, a) == Acquired(Acquired(p, a).0, b)
  {
    MinusMinus(p.available, a, b);
  }

  /** Requests that can both be released can be released in either order, with the same outcome. */
  lemma ReleasesCommute(p: Pool, a: Bag, b: Bag)
    requires PoolOk(p) && Canonical(a) && Canonical(b)
    requires Released(p, a).1 == Ok && Released(Released(p, a).0, b).1 == Ok
    ensures Released(p, b).1 == Ok && Released(Released(p, b).0, a) == Released(Released(p, a).0, b)
  {
    PlusPlus(p.available, a, b);
    var more, other := Plus(p.available, a), Plus(p.available, b);
    forall n | n in b
      ensures b[n] + Get(a, n) <= Get(p.total, n) - Get(p.available, n)
    {
      assert Get(more, n) == Get(p.available, n) + Get(a, n);
    }
    forall n | n in a
      ensures a[n] <= Get(p.total, n) - Get(other, n)
    {
      assert Get(other, n) == Get(p.available, n) + Get(b, n);
    }
  }

  /** An acquisition and a release that are both possible can be done in either order. */
  lemma AcquireReleaseCommute(p: Pool, a: Bag, b: Bag)
    requires PoolOk(p) && Canonical(a) && Canonical(b)
    requires Acquired(p, a).1 == Ok && Released(p, b).1 == Ok
    ensures Released(Acquired(p, a).0, b).1 == Ok
    ensures Released(Acquired(p, a).0, b) == Acquired(Released(p, b).0, a)
  {
    MinusPlus(p.available, a, b);
    var less := Minus(p.available, a);
    forall n | n in b
      ensures b[n] <= Get(p.total, n) - Get(less, n)
    {
      assert Get(less, n) == Get(p.available, n) - Get(a, n);
    }
  }

  /** ResourceSet: a name-to-quantity map updated in place. */
  class ResourceSet {
    var values: map<string, Quantity>

    constructor (initial: map<string, Quantity>)
      ensures values == initial
    {
      values := initial;
    }

    /** Adds, replaces or (for zero) erases one entry; rejects bad names and negative quantities. */
    method Set(name: string, quantity: Quantity) returns (code: StatusCode)
      modifies this
      ensures code == if ValidName(name) && 0 <= quantity then Ok else InvalidArgument
      ensures values == if code != Ok then old(values)
                        else if quantity == 0 then old(values) - {name}
                        else old(values)[name := quantity]
      ensures old(Canonical(values)) ==> Canonical(values)
    {
      var valid := IsValidResourceName(name);
      if !valid {
        return InvalidArgument;
      }
      if quantity < 0 {
        return InvalidArgument;
      }
      if quantity == 0 {
        values := values - {name};
        return Ok;
      }
      values := values[name := quantity];
      return Ok;
    }

    method Lookup(name: string) returns (quantity: Quantity)
      ensures quantity == Get(values, name)
    {
      if name !in values {
        return 0;
      }
      quantity := values[name];
    }
  }

  method IsValidResourceName(name: string) returns (valid: bool)
    ensures valid == ValidName(name)
  {
    if name == "" {
      return false;
    }
    for i := 0 to |name|
      invariant forall j :: 0 <= j < i ==> ValidChar(name[j])
    {
      if !ValidChar(name[i]) {
        return false;
      }
    }
    return true;
  }

  /** ResourcePool: the loops of the source, proved equal to Acquire and Release above. */
  class ResourcePool {
    const total: map<string, Quantity>
    const available: ResourceSet

    ghost function Value(): Pool
      reads available
    {
      Pool(total, available.values)
    }

    ghost predicate Valid()
      reads available
    {
      PoolOk(Value())
    }

    constructor (capacity: map<string, Quantity>)
      requires Canonical(capacity)
      ensures Valid() && fresh(available)
      ensures Value() == Pool(capacity, capacity)
    {
      total := capacity;
      available := new ResourceSet(capacity);
    }

    method CanFit(request: map<string, Quantity>) returns (fits: bool)
      ensures fits == Fits(request, available.values)
    {
      var todo := request.Keys;
      while todo != {}
        invariant todo <= request.Keys
        invariant forall n :: n in request && n !in todo ==> request[n] <= Get(available.values, n)
        decreases todo
      {
        var name :| name in todo;
        var have := available.Lookup(name);
        if request[name] > have {
          return false;
        }
        todo := todo - {name};
      }
      return true;
    }

    /** All or nothing: succeeds exactly when the whole request fits. */
    method Acquire(request: map<string, Quantity>) returns (code: StatusCode)
      requires Valid() && Canonical(request)
      modifies available
      ensures Valid()
      ensures (Value(), code) == Acquired(old(Value()), request)
    {
      PoolStaysOk(Value(), request);
      var fits := CanFit(request);
      if !fits {
        return ResourceExhausted;
      }
      Debit(request);
      return Ok;
    }

    /** The mutation pass of Acquire: no subtraction leaves int64 and no Set fails. */
    method Debit(request: map<string, Quantity>)
      requires Canonical(request) && Canonical(available.values) && Fits(request, available.values)
      modifies available
      ensures available.values == Minus(old(available.values), request)
    {
      ghost var before := available.values;
      var todo := request.Keys;
      while todo != {}
        invariant todo <= request.Keys
        invariant Canonical(available.values)
        invariant forall n :: n in todo || n !in request ==> Get(available.values, n) == Get(before, n)
        invariant forall n :: n in request && n !in todo ==> Get(available.values, n) == Get(before, n) - request[n]
        decreases todo
      {
        var name :| name in todo;
        var have := available.Lookup(name);
        var remaining: Quantity := have - request[name];
        var status := available.Set(name, remaining);
        if status != Ok {
          assert false;
        }
        todo := todo - {name};
      }
      MinusIs(available.values, before, request);
    }

    /** All or nothing: succeeds exactly when no more is released than is lent out. */
    method Release(request: map<string, Quantity>) returns (code: StatusCode)
      requires Valid() && Canonical(request)
      modifies available
      ensures Valid()
      ensures (Value(), code) == Released(old(Value()), request)
    {
      PoolStaysOk(Value(), request);
      var lent := CanReturn(request);
      if !lent {
        return FailedPrecondition;
      }
      Credit(request);
      return Ok;
    }

    /** The validation pass of Release; `cap - have` is the in-use amount and never leaves int64. */
    method CanReturn(request: map<string, Quantity>) returns (lent: bool)
      requires Valid() && Canonical(request)
      ensures lent == Lent(request, Value())
    {
      var todo := request.Keys;
      while todo != {}
        invariant todo <= request.Keys
        invariant forall n :: n in request && n !in todo ==>
            request[n] <= Get(total, n) - Get(available.values, n)
        decreases todo
      {
        var name :| name in todo;
        var cap: Quantity := if name in total then total[name] else 0;
        var have := available.Lookup(name);
        var inUse: Quantity := cap - have;
        if request[name] > inUse {
          return false;
        }
        todo := todo - {name};
      }
      return true;
    }

    /** The mutation pass of Release: no addition leaves int64 and no Set fails. */
    method Credit(request: map<string, Quantity>)
      requires Valid() && Canonical(request) && Lent(request, Value())
      modifies available
      ensures available.values == Plus(old(available.values), request)
    {
      ghost var before := available.values;
      var todo := request.Keys;
      while todo != {}
        invariant todo <= request.Keys
        invariant Canonical(available.values)
        invariant forall n :: n in todo || n !in request ==> Get(available.values, n) == Get(before, n)
        invariant forall n :: n in request && n !in todo ==> Get(available.values, n) == Get(before, n) + request[n]
        decreases todo
      {
        var name :| name in todo;
        assert Get(before, name) + request[name] <= Get(total, name);
        var have := available.Lookup(name);
        var next: Quantity := have + request[name];
        var status := available.Set(name, next);
        if status != Ok {
          assert false;
        }
        todo := todo - {name};
      }
      PlusIs(available.values, before, request);
    }
  }

  lemma MinusIs(after: Bag, before: Bag, request: Bag)
    requires Canonical(before) && Canonical(after) && Fits(request, before) && Canonical(request)
    requires forall n :: n !in request ==> Get(after, n) == Get(before, n)
    requires forall n :: n in request ==> Get(after, n) == Get(before, n) - request[n]
    ensures after == Minus(before, request)
  {
  }

  lemma PlusIs(after: Bag, before: Bag, request: Bag)
    requires Canonical(before) && Canonical(after) && Canonical(request)
    requires forall n :: n !in request ==> Get(after, n) == Get(before, n)
    requires forall n :: n in request ==> Get(after, n) == Get(before, n) + request[n]
    ensures after == Plus(before, request)
  {
  }
}
