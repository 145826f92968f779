/** Vocabulary shared by every component: status codes, strong identifiers, and finite sums. */
module Common {

  datatype Option<+T> = None | Some(value: T)

  /** The runtime-level status categories (dar::StatusCode). */
  datatype StatusCode =
    | Ok
    | InvalidArgument
    | NotFound
    | AlreadyExists
    | FailedPrecondition
    | Unavailable
    | ResourceExhausted
    | Cancelled
    | DeadlineExceeded
    | Internal

  /** A status value; the factory functions of the source never attach a message to Ok. */
  datatype Status = Status(code: StatusCode, message: string)

  const OK := Status(Ok, "")

  predicate WellFormed(s: Status) {
    s.code == Ok ==> s.message == ""
  }

  // Strong identifiers: one type per kind, so that a task is never mistaken for an execution.
  datatype TaskId = TaskId(bits: nat)
  datatype ExecutionId = ExecutionId(bits: nat)
  datatype WorkerId = WorkerId(bits: nat)
  datatype NodeId = NodeId(bits: nat)

  predicate Distinct<T(==)>(s: seq<T>) {
    forall i, j :: 0 <= i < j < |s| ==> s[i] != s[j]
  }

  /** The elements of `s` that are not in `gone`, in order. */
  function Without<T(==, !new)>(s: seq<T>, gone: set<T>): (r: seq<T>)
    ensures forall x :: x in r <==> x in s && x !in gone
  {
    if s == [] then []
    else
      var rest := Without(s[..|s|-1], gone);
      if s[|s|-1] in gone then rest else rest + [s[|s|-1]]
  }

  /** Removing one more element from a filtered sequence filters it out of the result. */
  lemma {:induction false} WithoutOneMore<T(!new)>(s: seq<T>, gone: set<T>, x: T)
    ensures Without(s, gone + {x}) == Without(Without(s, gone), {x})
  {
    if s != [] {
      var front, last := s[..|s|-1], s[|s|-1];
      WithoutOneMore(front, gone, x);
      if last !in gone {
        var kept := Without(front, gone);
        assert (kept + [last])[..|kept|] == kept;
      }
    }
  }

  lemma {:induction false} WithoutAppend<T(!new)>(a: seq<T>, b: seq<T>, gone: set<T>)
    ensures Without(a + b, gone) == Without(a, gone) + Without(b, gone)
  {
    if b == [] {
      assert a + b == a;
    } else {
      var front, last := b[..|b|-1], b[|b|-1];
      var whole := a + b;
      WithoutAppend(a, front, gone);
      assert whole[..|whole|-1] == a + front && whole[|whole|-1] == last;
      if last in gone {
        assert Without(whole, gone) == Without(a + front, gone);
      } else {
        assert Without(whole, gone) == Without(a + front, gone) + [last];
      }
    }
  }

  lemma {:induction false} WithoutNothing<T(!new)>(s: seq<T>, gone: set<T>)
    requires forall x :: x in s ==> x !in gone
    ensures Without(s, gone) == s
  {
    if s != [] {
      var front := s[..|s|-1];
      assert forall x :: x in front ==> x in s;
      WithoutNothing(front, gone);
      assert front + [s[|s|-1]] == s;
    }
  }

  /** Filtering looks only at the elements that are there. */
  lemma {:induction false} SameWithout<T(!new)>(s: seq<T>, a: set<T>, b: set<T>)
    requires forall x :: x in s ==> (x in a <==> x in b)
    ensures Without(s, a) == Without(s, b)
  {
    if s != [] {
      var front := s[..|s|-1];
      assert forall x :: x in front ==> x in s;
      SameWithout(front, a, b);
    }
  }

  /** The sum of all the values of a finite map. */
  ghost function Total<K(!new)>(m: map<K, int>): int {
    if m == map[] then 0
    else
      var k :| k in m;
      m[k] + Total(m - {k})
  }

  /** The sum does not depend on the order in which keys are visited. */
  lemma {:induction false} TotalPick<K(!new)>(m: map<K, int>, k: K)
    requires k in m
    ensures Total(m) == m[k] + Total(m - {k})
    decreases |m|
  {
    var first :| first in m && Total(m) == m[first] + Total(m - {first});
    if first != k {
      TotalPick(m - {first}, k);
      TotalPick(m - {k}, first);
      assert m - {first} - {k} == m - {k} - {first};
    }
  }

  /** Changing, or adding, one entry changes the sum by exactly that entry's difference. */
  lemma TotalUpdate<K(!new)>(m: map<K, int>, k: K, v: int)
    ensures Total(m[k := v]) == Total(m) + v - (if k in m then m[k] else 0)
  {
    var m' := m[k := v];
    TotalPick(m', k);
    assert m' - {k} == m - {k};
    if k in m {
      TotalPick(m, k);
    } else {
      assert m - {k} == m;
    }
  }

  lemma {:induction false} TotalNonNegative<K(!new)>(m: map<K, int>)
    requires forall k :: k in m ==> 0 <= m[k]
    ensures 0 <= Total(m)
    ensures forall k :: k in m ==> m[k] <= Total(m)
    decreases |m|
  {
    forall k | k in m
      ensures m[k] <= Total(m)
    {
      TotalPick(m, k);
      TotalNonNegative(m - {k});
    }
  }

  lemma {:induction false} TotalZero<K(!new)>(m: map<K, int>)
    requires forall k :: k in m ==> m[k] == 0
    ensures Total(m) == 0
    decreases |m|
  {
    if m != map[] {
      var k :| k in m && Total(m) == m[k] + Total(m - {k});
      TotalZero(m - {k});
    }
  }

  lemma OneMore(bound: nat, n: nat)
    ensures bound * (n + 1) == bound * n + bound
  {
  }

  lemma {:induction false} TotalAtMost<K(!new)>(m: map<K, int>, bound: nat)
    requires forall k :: k in m ==> m[k] <= bound
    ensures Total(m) <= bound * |m|
    decreases |m|
  {
    if m != map[] {
      var k :| k in m && Total(m) == m[k] + Total(m - {k});
      TotalAtMost(m - {k}, bound);
      assert |m| == |m - {k}| + 1;
      OneMore(bound, |m - {k}|);
    }
  }

  lemma {:induction false} TotalSplit<K(!new)>(a: map<K, int>, b: map<K, int>)
    requires a.Keys !! b.Keys
    ensures Total(a + b) == Total(a) + Total(b)
    decreases b.Keys
  {
    if b == map[] {
      assert a + b == a;
      assert Total(b) == 0;
    } else {
      var k :| k in b;
      TotalSplit(a, b - {k});
      TotalSplitOne(a, b, k);
    }
  }

  lemma TotalSplitOne<K(!new)>(a: map<K, int>, b: map<K, int>, k: K)
    requires k in b && k !in a
    requires Total(a + (b - {k})) == Total(a) + Total(b - {k})
    ensures Total(a + b) == Total(a) + Total(b)
  {
    hide Total;
    TotalPick(b, k);
    TotalPick(a + b, k);
    assert a + b - {k} == a + (b - {k});
  }
}
