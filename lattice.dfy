/**
 * Arithmetic on the one-dimensional lattices start, start + step, start + 2*step, ...
 * that both drawing loops of the hex overlay walk, and Python's float remainder.
 */
module Lattice {

  /** The least integer not below a positive q (Python's math.ceil on q > 0). */
  function CeilPos(q: real): (c: nat)
    requires q > 0.0
    ensures (c as real) - 1.0 < q <= c as real
  {
    -((-q).Floor)
  }

  /**
   * The k-th point of the lattice, as a loop `x = start; ... x += step` reaches it:
   * by adding step k times.
   */
  function Point(start: real, step: real, k: nat): real
  {
    if k == 0 then start else Point(start, step, k - 1) + step
  }

  /** Adding step k times moves start by k*step. */
  lemma {:induction false} PointClosedForm(start: real, step: real, k: nat)
    ensures Point(start, step, k) == start + k as real * step
  {
    if k > 0 {
      PointClosedForm(start, step, k - 1);
    }
  }

  /**
   * With a step of zero or less the loop variable never grows: once the first guard
   * `start < limit` holds, every point the loop reaches stays below limit.
   */
  lemma {:induction false} GuardNeverFails(start: real, step: real, limit: real, k: nat)
    requires step <= 0.0 && start < limit
    ensures Point(start, step, k) < limit
  {
    PointClosedForm(start, step, k);
    assert k as real * step <= 0.0;
  }

  /**
   * How many of the points start + k*step, k = 0, 1, 2, ..., lie strictly below
   * limit: the number of iterations of `x = start; while x < limit: x += step`.
   */
  function StepsBelow(start: real, step: real, limit: real): nat
    requires step > 0.0
  {
    if limit <= start then 0 else CeilPos((limit - start) / step)
  }

  /** Multiplying by a positive factor keeps a strict order, in both directions. */
  lemma MulStrictMono(a: real, b: real, c: real)
    requires c > 0.0
    ensures a < b <==> a * c < b * c
  {
  }

  /** A quotient is the number that the divisor multiplies back to the dividend. */
  lemma DivByProduct(x: real, y: real, c: real)
    requires c > 0.0
    ensures y * c == x <==> x / c == y
  {
  }

  /** k lies below the quotient q = d / c exactly when k*c lies below d. */
  lemma BelowQuotient(k: real, q: real, c: real, d: real)
    requires c > 0.0 && q * c == d
    ensures k < q <==> k * c < d
  {
  }

  /**
   * The k-th lattice point lies below limit exactly when k is less than the count,
   * i.e. the loop visits the points with index 0 .. StepsBelow - 1 and no others.
   */
  lemma StepsBelowIff(start: real, step: real, limit: real, k: nat)
    requires step > 0.0
    ensures k < StepsBelow(start, step, limit) <==> Point(start, step, k) < limit
  {
    PointClosedForm(start, step, k);
    if limit <= start {
      MulStrictMono(0.0, k as real, step);
      assert k as real * step >= 0.0;
    } else {
      var q := (limit - start) / step;
      var n := CeilPos(q);
      DivByProduct(limit - start, q, step);
      BelowQuotient(k as real, q, step, limit - start);
      assert k < n <==> k as real < q;
    }
  }

  /**
   * One iteration of the loop: from a point below limit, one step on leaves one
   * point fewer to visit; from a point at or above limit, none is left.
   */
  lemma StepsBelowNext(start: real, step: real, limit: real)
    requires step > 0.0
    ensures start < limit ==> StepsBelow(start, step, limit) == StepsBelow(start + step, step, limit) + 1
    ensures limit <= start ==> StepsBelow(start, step, limit) == 0
  {
    if start < limit {
      var q := (limit - start) / step;
      var c := CeilPos(q);
      DivByProduct(limit - start, q, step);
      BelowQuotient(1.0, q, step, limit - start);
      if limit <= start + step {
        assert q <= 1.0;
      } else {
        assert q > 1.0;
        assert (q - 1.0) * step == limit - (start + step);
        DivByProduct(limit - (start + step), q - 1.0, step);
        assert CeilPos(q - 1.0) == c - 1;
      }
    }
  }

  /**
   * Python's float remainder `y % 2`: the result takes the sign of the divisor,
   * so it lies in [0, 2).
   */
  function PyMod2(y: real): (m: real)
    ensures 0.0 <= m < 2.0
  {
    y - 2.0 * (y / 2.0).Floor as real
  }

  /** 2n as a real number. */
  function Twice(n: int): real
  {
    2.0 * n as real
  }

  /** y is an even integer. */
  ghost predicate IsEvenInteger(y: real)
  {
    exists n: int :: Twice(n) == y
  }

  /**
   * `y % 2` differs from y by an even integer, so `y % 2 == 0` holds in Python
   * exactly when the real y is an even integer.
   */
  lemma PyMod2ZeroIff(y: real)
    ensures IsEvenInteger(y - PyMod2(y))
    ensures PyMod2(y) == 0.0 <==> IsEvenInteger(y)
  {
    var n := (y / 2.0).Floor;
    assert Twice(n) == y - PyMod2(y);
    if IsEvenInteger(y) {
      var n :| Twice(n) == y;
      assert y / 2.0 == n as real;
      assert (y / 2.0).Floor == n;
    }
  }
}
