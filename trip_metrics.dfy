/**
 * The numbers written into a completed trip row: duration in whole minutes,
 * and the maximum and rounded average of the trip's speed samples.
 */
module TripMetrics {
  import opened Telemetry

  /**
   * `Math.round((endTime - startTime) / 60000)`: the elapsed time in the
   * nearest whole minute, half a minute rounding up.
   */
  function DurationMinutes(startMs: int, endMs: int): (d: int)
    ensures d * 60000 - 30000 <= endMs - startMs < d * 60000 + 30000
    ensures startMs <= endMs ==> d >= 0
  {
    (endMs - startMs + 30000) / 60000
  }

  /** An integer is the rounding of x exactly when it lies within half of x. */
  lemma RoundHalfUpUnique(x: real, n: int)
    requires n as real - 0.5 <= x < n as real + 0.5
    ensures RoundHalfUp(x) == n
  {
  }

  /** The duration is Math.round of the elapsed minutes, computed in floating point by the source. */
  lemma DurationIsMathRound(startMs: int, endMs: int)
    ensures DurationMinutes(startMs, endMs) == RoundHalfUp((endMs - startMs) as real / 60000.0)
  {
    var d := DurationMinutes(startMs, endMs);
    RoundHalfUpUnique((endMs - startMs) as real / 60000.0, d);
  }

  /** `Math.max(...tripDataPoints)`, or 0 for a trip without samples. */
  function MaxSpeed(samples: seq<int>): (m: int)
    ensures |samples| == 0 ==> m == 0
    ensures forall i :: 0 <= i < |samples| ==> samples[i] <= m
    ensures |samples| > 0 ==> exists i :: 0 <= i < |samples| && samples[i] == m
  {
    if |samples| == 0 then 0
    else if |samples| == 1 then samples[0]
    else
      var rest := MaxSpeed(samples[..|samples| - 1]);
      var last := samples[|samples| - 1];
      if last > rest then last else rest
  }

  /** `tripDataPoints.reduce((a, b) => a + b, 0)`. */
  function Sum(samples: seq<int>): (r: int)
    ensures (forall i :: 0 <= i < |samples| ==> samples[i] >= 0) ==> r >= 0
  {
    if |samples| == 0 then 0 else Sum(samples[..|samples| - 1]) + samples[|samples| - 1]
  }

  /**
   * `Math.round(sum / length)`, or 0 for a trip without samples; in integer
   * arithmetic, floor((2 * sum + length) / (2 * length)).
   */
  function AvgSpeed(samples: seq<int>): (r: int)
    ensures |samples| == 0 ==> r == 0
    ensures |samples| > 0 ==> |samples| * (2 * r - 1) <= 2 * Sum(samples) < |samples| * (2 * r + 1)
  {
    if |samples| == 0 then 0
    else
      HalfUpQuotient(Sum(samples), |samples|);
      (2 * Sum(samples) + |samples|) / (2 * |samples|)
  }

  /** floor((2t + n) / 2n) is the integer within half of t / n, halves rounding up. */
  lemma HalfUpQuotient(t: int, n: int)
    requires n > 0
    ensures var q := (2 * t + n) / (2 * n); n * (2 * q - 1) <= 2 * t < n * (2 * q + 1)
  {
    var q, m := (2 * t + n) / (2 * n), (2 * t + n) % (2 * n);
    assert 2 * t + n == 2 * n * q + m && 0 <= m < 2 * n;
    assert n * (2 * q - 1) == 2 * n * q - n;
    assert n * (2 * q + 1) == 2 * n * q + n;
  }

  /** Flooring a real quotient of integers is integer division. */
  lemma FloorOfQuotient(a: int, b: int)
    requires b > 0
    ensures (a as real / b as real).Floor == a / b
  {
    var q, r := a / b, a % b;
    assert a == q * b + r;
    assert a as real == q as real * b as real + r as real;
    assert a as real / b as real == q as real + r as real / b as real;
    assert 0.0 <= r as real / b as real < 1.0;
  }

  /** A non-zero factor cancels. */
  lemma CancelFactor(z: real, w: real, m: real)
    requires m != 0.0 && z * m == w * m
    ensures z == w
  {
    assert (z - w) * m == 0.0;
  }

  /** A positive factor cancels from both sides of an inequality. */
  lemma MulLeCancel(z: real, w: real, m: real)
    requires m > 0.0 && z * m <= w * m
    ensures z <= w
  {
  }

  /** Adding one half to a quotient. */
  lemma HalfShift(t: real, n: real)
    requires n > 0.0
    ensures t / n + 0.5 == (2.0 * t + n) / (2.0 * n)
  {
    var y, z := t / n, (2.0 * t + n) / (2.0 * n);
    assert y * n == t;
    assert z * (2.0 * n) == 2.0 * t + n;
    assert (y + 0.5) * (2.0 * n) == 2.0 * t + n;
    CancelFactor(z, y + 0.5, 2.0 * n);
  }

  /** The average speed is Math.round of the mean sample, computed in floating point by the source. */
  lemma AvgSpeedIsMathRound(samples: seq<int>)
    requires |samples| > 0
    ensures AvgSpeed(samples) == RoundHalfUp(Sum(samples) as real / |samples| as real)
  {
    var t, n := Sum(samples), |samples|;
    HalfShift(t as real, n as real);
    assert (2 * t + n) as real == 2.0 * t as real + n as real;
    FloorOfQuotient(2 * t + n, 2 * n);
  }

  /** A sum of n values each between lo and hi lies between n * lo and n * hi. */
  lemma {:induction false} SumBounds(samples: seq<int>, lo: int, hi: int)
    requires forall i :: 0 <= i < |samples| ==> lo <= samples[i] <= hi
    ensures |samples| * lo <= Sum(samples) <= |samples| * hi
  {
    if |samples| > 0 {
      var init := samples[..|samples| - 1];
      SumBounds(init, lo, hi);
      assert |samples| * lo == |init| * lo + lo;
      assert |samples| * hi == |init| * hi + hi;
    }
  }

  /** The rounded mean of n values between lo and hi is itself between lo and hi. */
  lemma RoundedMeanBetween(total: int, n: int, lo: int, hi: int)
    requires n > 0 && n * lo <= total <= n * hi
    ensures lo <= RoundHalfUp(total as real / n as real) <= hi
  {
    var x := total as real / n as real;
    assert x * n as real == total as real;
    assert (n * lo) as real == n as real * lo as real;
    assert (n * hi) as real == n as real * hi as real;
    MulLeCancel(x, hi as real, n as real);
    MulLeCancel(lo as real, x, n as real);
    assert (hi as real + 0.5).Floor == hi;
    assert (lo as real + 0.5).Floor == lo;
  }

  /**
   * The speed columns of a completed trip: both are 0 without samples;
   * with samples from moving ticks, 20 <= avgSpeed <= maxSpeed <= 80.
   */
  lemma {:induction false} TripSpeedBounds(samples: seq<int>)
    requires SamplesInRange(samples)
    ensures |samples| == 0 ==> MaxSpeed(samples) == 0 && AvgSpeed(samples) == 0
    ensures 0 <= AvgSpeed(samples) <= MaxSpeed(samples) <= 80
    ensures |samples| > 0 ==> 20 <= AvgSpeed(samples)
  {
    var m := MaxSpeed(samples);
    if |samples| > 0 {
      SumBounds(samples, 20, m);
      RoundedMeanBetween(Sum(samples), |samples|, 20, m);
      AvgSpeedIsMathRound(samples);
    }
  }
}
