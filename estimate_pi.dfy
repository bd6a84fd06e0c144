/**
 * The sampler `estim_pi` of simulations/estimate_pi.py: draw points in the
 * unit square, count those strictly inside the unit circle, and scale the
 * fraction by 4.
 *
 * The stream of `random()` results is the input `samples`: `samples(k)` is
 * the k-th call, so pair i reads its y from `samples(2 * i)` and its x from
 * `samples(2 * i + 1)`.
 */
module EstimatePi {
  import opened Basics

  /** Pair i lies strictly inside the unit circle. */
  predicate Inside(samples: nat -> real, i: nat)
  {
    var y, x := samples(2 * i), samples(2 * i + 1);
    x * x + y * y < 1.0
  }

  /** The counter after the first n pairs. */
  function InsideCount(samples: nat -> real, n: nat): nat
  {
    if n == 0 then 0 else InsideCount(samples, n - 1) + (if Inside(samples, n - 1) then 1 else 0)
  }

  /** The pairs among the first n that are strictly inside the circle. */
  function InsideSet(samples: nat -> real, n: nat): set<nat>
  {
    set i: nat | i < n && Inside(samples, i)
  }

  /** The counter is the number of pairs among the first n strictly inside the circle. */
  lemma {:induction false} CountIsCardinality(samples: nat -> real, n: nat)
    ensures InsideCount(samples, n) == |InsideSet(samples, n)|
  {
    if n > 0 {
      CountIsCardinality(samples, n - 1);
      if Inside(samples, n - 1) {
        assert InsideSet(samples, n) == InsideSet(samples, n - 1) + {n - 1};
      } else {
        assert InsideSet(samples, n) == InsideSet(samples, n - 1);
      }
    }
  }

  /** The counter never exceeds the number of pairs, and falls short of it once any pair is not inside. */
  lemma {:induction false} CountBound(samples: nat -> real, n: nat)
    ensures InsideCount(samples, n) <= n
    ensures (exists i :: 0 <= i < n && !Inside(samples, i)) ==> InsideCount(samples, n) < n
  {
    if n > 0 {
      CountBound(samples, n - 1);
      if exists i :: 0 <= i < n && !Inside(samples, i) {
        var i :| 0 <= i < n && !Inside(samples, i);
        if i < n - 1 {
          assert exists j :: 0 <= j < n - 1 && !Inside(samples, j);
        }
      }
    }
  }

  /** A pair exactly on the unit circle is not counted. */
  lemma OnCircleNotCounted(samples: nat -> real, n: nat, i: nat)
    requires i < n
    requires samples(2 * i + 1) * samples(2 * i + 1) + samples(2 * i) * samples(2 * i) == 1.0
    ensures i !in InsideSet(samples, n)
    ensures InsideCount(samples, n) < n
  {
    assert !Inside(samples, i);
    CountBound(samples, n);
  }

  /**
   * What `estim_pi` returns: `pi_count / sample_count * 4`. A count of 0
   * divides by zero; a negative count runs no iteration and gives 0
   * (Python's -0.0).
   */
  function PiEstimate(sampleCount: int, samples: nat -> real): Result<real>
  {
    if sampleCount == 0 then Err(ZeroDivisionError)
    else
      var n := if sampleCount > 0 then sampleCount else 0;
      Ok((InsideCount(samples, n) as real) / (sampleCount as real) * 4.0)
  }

  /** The estimate fails exactly for no samples, and otherwise lies in [0, 4]; a negative count gives 0. */
  lemma PiEstimateRange(sampleCount: int, samples: nat -> real)
    ensures PiEstimate(sampleCount, samples).Err? <==> sampleCount == 0
    ensures sampleCount > 0 ==> 0.0 <= PiEstimate(sampleCount, samples).value <= 4.0
    ensures sampleCount < 0 ==> PiEstimate(sampleCount, samples) == Ok(0.0)
  {
    var r := PiEstimate(sampleCount, samples);
    if sampleCount > 0 {
      CountBound(samples, sampleCount);
      FractionBound(InsideCount(samples, sampleCount) as real, sampleCount as real);
    } else if sampleCount < 0 {
      assert r == Ok(r.value);
    }
  }

  lemma FractionBound(c: real, n: real)
    requires 0.0 <= c <= n && n > 0.0
    ensures 0.0 <= c / n * 4.0 <= 4.0
  {
    var q := c / n;
    assert q * n == c;
  }

  /** The estimate is 4 when every pair is inside the circle. */
  lemma AllInsideGivesFour(sampleCount: nat, samples: nat -> real)
    requires sampleCount > 0
    requires forall i :: 0 <= i < sampleCount ==> Inside(samples, i)
    ensures PiEstimate(sampleCount, samples) == Ok(4.0)
  {
    AllInside(samples, sampleCount);
    var n := sampleCount as real;
    assert n / n == 1.0;
    var r := PiEstimate(sampleCount, samples);
    assert r == Ok(r.value) && r.value == 4.0;
  }

  lemma {:induction false} AllInside(samples: nat -> real, n: nat)
    requires forall i :: 0 <= i < n ==> Inside(samples, i)
    ensures InsideCount(samples, n) == n
  {
    if n > 0 {
      AllInside(samples, n - 1);
    }
  }

  /**
   * `estim_pi`: two draws per iteration, y then x, and the counter bumped
   * for a point strictly inside the circle. `draws` is the number of
   * `random()` calls made.
   */
  method EstimPi(sampleCount: int, samples: nat -> real) returns (r: Result<real>, ghost draws: nat)
    ensures r == PiEstimate(sampleCount, samples)
    ensures draws == 2 * (if sampleCount > 0 then sampleCount else 0)
  {
    var piCount := 0;
    var next := 0;
    var n := if sampleCount > 0 then sampleCount else 0;
    for i := 0 to n
      invariant piCount == InsideCount(samples, i)
      invariant next == 2 * i
    {
      var yCoord := samples(next);
      next := next + 1;
      var xCoord := samples(next);
      next := next + 1;
      if xCoord * xCoord + yCoord * yCoord < 1.0 {
        piCount := piCount + 1;
      }
    }
    draws := next;
    if sampleCount == 0 {
      return Err(ZeroDivisionError), draws;
    }
    r := Ok((piCount as real) / (sampleCount as real) * 4.0);
  }
}
