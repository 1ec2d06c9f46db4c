/** Optional values and error returns. */
module Results {
  datatype Option<T> = None | Some(value: T)

  datatype Result<T, E> = Ok(value: T) | Err(error: E)
}

/**
 * Money arithmetic shared by the interest engine, the debt ledger and the
 * transaction summaries.  Amounts are exact reals; the only rounding the
 * program performs is `Math.round(x * 100) / 100`, modelled by RoundCents.
 */
module Money {

  function Min(a: real, b: real): (r: real)
    ensures r <= a && r <= b && (r == a || r == b)
  {
    if a <= b then a else b
  }

  function Max(a: real, b: real): (r: real)
    ensures r >= a && r >= b && (r == a || r == b)
  {
    if a >= b then a else b
  }

  /** An amount that is a whole number of cents (satang). */
  predicate IsCents(x: real) {
    (x * 100.0).Floor as real == x * 100.0
  }

  /**
   * `Math.round(x * 100) / 100`.  JavaScript's Math.round rounds halves
   * towards +infinity, that is, it is floor(y + 0.5).
   */
  function RoundCents(x: real): (r: real)
    ensures IsCents(r)
    ensures x - 0.005 < r <= x + 0.005
  {
    var k := (x * 100.0 + 0.5).Floor;
    assert (k as real / 100.0) * 100.0 == k as real;
    k as real / 100.0
  }

  lemma RoundCentsMonotone(x: real, y: real)
    requires x <= y
    ensures RoundCents(x) <= RoundCents(y)
  {
    assert (x * 100.0 + 0.5).Floor <= (y * 100.0 + 0.5).Floor;
  }

  lemma RoundCentsNonNegative(x: real)
    ensures x >= 0.0 ==> RoundCents(x) >= 0.0
  {
    if x >= 0.0 {
      assert (x * 100.0 + 0.5).Floor >= 0;
    }
  }

  lemma RoundCentsZero()
    ensures RoundCents(0.0) == 0.0
  {
    assert (0.0 * 100.0 + 0.5).Floor == 0;
  }

  /** Rounding leaves an amount that already is whole cents unchanged. */
  lemma {:induction false} RoundCentsOfCents(x: real)
    requires IsCents(x)
    ensures RoundCents(x) == x
  {
    var k := (x * 100.0).Floor;
    assert x * 100.0 + 0.5 == k as real + 0.5;
    assert (x * 100.0 + 0.5).Floor == k;
  }

  /**
   * Rounding each of a split `payment = interest + (payment - interest)`
   * separately keeps the parts within one cent of the rounded whole.
   */
  lemma RoundedSplit(payment: real, interest: real)
    ensures -0.01 <= RoundCents(interest) + RoundCents(payment - interest) - RoundCents(payment) <= 0.01
  {
    var a := (interest * 100.0 + 0.5).Floor;
    var b := ((payment - interest) * 100.0 + 0.5).Floor;
    var c := (payment * 100.0 + 0.5).Floor;
    assert RoundCents(interest) + RoundCents(payment - interest) - RoundCents(payment) == (a + b - c) as real / 100.0;
    assert -1.5 < (a + b - c) as real < 1.5;
    assert -1 <= a + b - c <= 1;
  }
}

/** Sequence helpers: JavaScript's `filter` and `reduce((s, x) => s + f(x), 0)`. */
module Lists {

  function Filter<T>(s: seq<T>, p: T -> bool): (r: seq<T>)
    ensures |r| <= |s|
    ensures forall i :: 0 <= i < |r| ==> r[i] in s && p(r[i])
    ensures forall i :: 0 <= i < |s| && p(s[i]) ==> s[i] in r
    ensures multiset(r) <= multiset(s)
    decreases |s|
  {
    if s == [] then []
    else
      assert s == s[..|s| - 1] + [s[|s| - 1]];
      if p(s[|s| - 1]) then Filter(s[..|s| - 1], p) + [s[|s| - 1]]
      else Filter(s[..|s| - 1], p)
  }

  /** The left fold `s.reduce((acc, x) => acc + f(x), 0)`. */
  function Sum<T>(s: seq<T>, f: T -> real): real
    decreases |s|
  {
    if s == [] then 0.0 else Sum(s[..|s| - 1], f) + f(s[|s| - 1])
  }

  lemma {:induction false} SumAppend<T>(s: seq<T>, t: seq<T>, f: T -> real)
    ensures Sum(s + t, f) == Sum(s, f) + Sum(t, f)
    decreases |t|
  {
    if t == [] {
      assert s + t == s;
    } else {
      assert (s + t)[..|s + t| - 1] == s + t[..|t| - 1];
      SumAppend(s, t[..|t| - 1], f);
    }
  }

  /** Summing the kept and the dropped elements separately gives the whole sum. */
  lemma {:induction false} SumPartition<T>(s: seq<T>, p: T -> bool, q: T -> bool, f: T -> real)
    requires forall x :: q(x) <==> !p(x)
    ensures Sum(Filter(s, p), f) + Sum(Filter(s, q), f) == Sum(s, f)
    ensures |Filter(s, p)| + |Filter(s, q)| == |s|
    decreases |s|
  {
    if s != [] {
      SumPartition(s[..|s| - 1], p, q, f);
    }
  }

  lemma {:induction false} SumNonNegative<T>(s: seq<T>, f: T -> real)
    requires forall x :: x in s ==> f(x) >= 0.0
    ensures Sum(s, f) >= 0.0
    decreases |s|
  {
    if s != [] {
      SumNonNegative(s[..|s| - 1], f);
    }
  }

  /** Filtering twice keeps exactly what both predicates accept, in order. */
  lemma {:induction false} FilterFilter<T>(s: seq<T>, p: T -> bool, q: T -> bool)
    ensures Filter(Filter(s, p), q) == Filter(s, x => p(x) && q(x))
    decreases |s|
  {
    if s != [] {
      FilterFilter(s[..|s| - 1], p, q);
      var init := s[..|s| - 1];
      var last := s[|s| - 1];
      if p(last) {
        assert Filter(s, p) == Filter(init, p) + [last];
        assert Filter(s, p)[..|Filter(s, p)| - 1] == Filter(init, p);
      }
    }
  }

  /** Filtering keeps every copy of an accepted element and no copy of a rejected one. */
  lemma {:induction false} FilterMultiset<T>(s: seq<T>, p: T -> bool, x: T)
    ensures multiset(Filter(s, p))[x] == if p(x) then multiset(s)[x] else 0
    decreases |s|
  {
    if s != [] {
      var init, last := s[..|s| - 1], s[|s| - 1];
      assert s == init + [last];
      FilterMultiset(init, p, x);
    }
  }

  /** Filtering keeps any order that held between the elements. */
  lemma {:induction false} FilterKeepsOrder<T>(s: seq<T>, p: T -> bool, before: (T, T) -> bool)
    requires forall i, j :: 0 <= i < j < |s| ==> before(s[i], s[j])
    ensures forall i, j :: 0 <= i < j < |Filter(s, p)| ==> before(Filter(s, p)[i], Filter(s, p)[j])
    decreases |s|
  {
    if s != [] {
      var init, last := s[..|s| - 1], s[|s| - 1];
      FilterKeepsOrder(init, p, before);
      var r := Filter(s, p);
      if p(last) {
        var q := Filter(init, p);
        assert r == q + [last];
        forall i, j | 0 <= i < j < |r|
          ensures before(r[i], r[j])
        {
          if j == |r| - 1 {
            assert r[i] == q[i] && q[i] in init;
            var k :| 0 <= k < |init| && init[k] == r[i];
            assert s[k] == r[i] && r[j] == s[|s| - 1];
            assert before(s[k], s[|s| - 1]);
          } else {
            assert r[i] == q[i] && r[j] == q[j];
          }
        }
      }
    }
  }

  function Reverse<T>(s: seq<T>): (r: seq<T>)
    ensures |r| == |s|
    ensures forall i :: 0 <= i < |s| ==> r[i] == s[|s| - 1 - i]
    ensures multiset(r) == multiset(s)
    decreases |s|
  {
    if s == [] then []
    else
      assert s == [s[0]] + s[1..];
      Reverse(s[1..]) + [s[0]]
  }
}
