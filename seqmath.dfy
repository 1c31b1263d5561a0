/** Sums, element counts and pointwise vector arithmetic over sequences of
    reals, shared by the allocation engine and the list-state operations. */
module SeqMath {

  /** Left-to-right sum, as `reduce((a, b) => a + b, 0)` computes it. */
  function Sum(s: seq<real>): real
  {
    if s == [] then 0.0 else Sum(s[..|s| - 1]) + s[|s| - 1]
  }

  /** Number of occurrences of `x` in `s`. */
  function Count(s: seq<nat>, x: nat): nat
  {
    if s == [] then 0 else Count(s[..|s| - 1], x) + (if s[|s| - 1] == x then 1 else 0)
  }

  /** No element of `s` occurs twice. */
  predicate Distinct(s: seq<nat>)
  {
    forall j, k :: 0 <= j < k < |s| ==> s[j] != s[k]
  }

  /** Every element of `s` is below `n`. */
  predicate AllBelow(s: seq<nat>, n: nat)
  {
    forall j :: 0 <= j < |s| ==> s[j] < n
  }

  function Zeros(n: nat): (r: seq<real>)
    ensures |r| == n
  {
    seq(n, _ => 0.0)
  }

  function Plus(a: seq<real>, b: seq<real>): (r: seq<real>)
    requires |a| == |b|
    ensures |r| == |a|
  {
    seq(|a|, i requires 0 <= i < |a| => a[i] + b[i])
  }

  /** Every entry multiplied by the same factor `c`. */
  function Scale(a: seq<real>, c: real): (r: seq<real>)
    ensures |r| == |a|
  {
    seq(|a|, i requires 0 <= i < |a| => a[i] * c)
  }

  /** 1.0 at position `x` (when `x < n`), 0.0 elsewhere. */
  function Indicator(x: nat, n: nat): (r: seq<real>)
    ensures |r| == n
  {
    seq(n, p => if p == x then 1.0 else 0.0)
  }

  /** Position `p` holds the number of occurrences of `p` in `s`. */
  function CountVector(s: seq<nat>, n: nat): (r: seq<real>)
    ensures |r| == n
  {
    seq(n, p requires 0 <= p < n => Count(s, p) as real)
  }

  lemma {:induction false} SumZeros(n: nat)
    ensures Sum(Zeros(n)) == 0.0
  {
    if n > 0 {
      assert Zeros(n)[..n - 1] == Zeros(n - 1);
      SumZeros(n - 1);
    }
  }

  lemma {:induction false} SumPlus(a: seq<real>, b: seq<real>)
    requires |a| == |b|
    ensures Sum(Plus(a, b)) == Sum(a) + Sum(b)
  {
    if a != [] {
      var k := |a| - 1;
      assert Plus(a, b)[..k] == Plus(a[..k], b[..k]);
      SumPlus(a[..k], b[..k]);
    }
  }

  lemma {:induction false} SumScale(a: seq<real>, c: real)
    ensures Sum(Scale(a, c)) == c * Sum(a)
  {
    if a != [] {
      var k := |a| - 1;
      forall i | 0 <= i < k ensures Scale(a, c)[..k][i] == Scale(a[..k], c)[i] {
        assert a[..k][i] == a[i];
      }
      assert Scale(a, c)[..k] == Scale(a[..k], c);
      SumScale(a[..k], c);
    }
  }

  lemma {:induction false} SumIndicator(x: nat, n: nat)
    ensures Sum(Indicator(x, n)) == if x < n then 1.0 else 0.0
  {
    if n > 0 {
      assert Indicator(x, n)[..n - 1] == Indicator(x, n - 1);
      SumIndicator(x, n - 1);
    }
  }

  /** The occurrence counts of the positions below `n` add up to the length
      of `s` when every element of `s` is such a position. */
  lemma {:induction false} SumCountVector(s: seq<nat>, n: nat)
    requires AllBelow(s, n)
    ensures Sum(CountVector(s, n)) == |s| as real
  {
    if s == [] {
      assert CountVector(s, n) == Zeros(n);
      SumZeros(n);
    } else {
      var init, x := s[..|s| - 1], s[|s| - 1];
      assert CountVector(s, n) == Plus(CountVector(init, n), Indicator(x, n));
      SumPlus(CountVector(init, n), Indicator(x, n));
      SumCountVector(init, n);
      SumIndicator(x, n);
    }
  }

  /** In a duplicate-free sequence every element occurs exactly once. */
  lemma {:induction false} CountDistinct(s: seq<nat>, x: nat)
    requires Distinct(s)
    ensures Count(s, x) == if x in s then 1 else 0
  {
    if s != [] {
      var init := s[..|s| - 1];
      assert Distinct(init);
      CountDistinct(init, x);
      if s[|s| - 1] == x {
        assert x !in init;
      } else {
        assert x in s <==> x in init;
      }
    }
  }

  /** An element occurs in `s` exactly when its count is positive. */
  lemma {:induction false} CountPositive(s: seq<nat>, x: nat)
    ensures Count(s, x) > 0 <==> x in s
  {
    if s != [] {
      var init := s[..|s| - 1];
      CountPositive(init, x);
      assert s == init + [s[|s| - 1]];
    }
  }
}
