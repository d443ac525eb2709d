/** The uniform time grid an integrator runs over (time_domain.py). */
module TimeDomains {
  import opened Outcomes

  /** A grid of `steps + 1` sample times `start + spacing * i`. The fields are not
      validated: any start, step count and spacing make a domain. */
  datatype TimeDomain = TimeDomain(start: real, steps: int, spacing: real)

  /** `math.ceil` over exact reals: the least integer that is not below `x`. */
  function Ceil(x: real): (n: int)
    ensures n as real - 1.0 < x <= n as real
  {
    -((-x).Floor)
  }

  /** The `array` attribute, `start + spacing * np.arange(steps + 1)`. */
  function Samples(d: TimeDomain): (a: seq<real>)
    ensures |a| == Max(0, d.steps + 1)
  {
    seq(Max(0, d.steps + 1), i => d.start + d.spacing * i as real)
  }

  /** Python's `a[:-1]`: every sample but the last. */
  function AllButLast(a: seq<real>): (r: seq<real>)
    ensures |r| == Max(0, |a| - 1)
    ensures forall i :: 0 <= i < |r| ==> r[i] == a[i]
  {
    if |a| == 0 then [] else a[..|a| - 1]
  }

  /** Python's `a[1:-1]`: every sample but the first and the last. */
  function Interior(a: seq<real>): (r: seq<real>)
    ensures |r| == Max(0, |a| - 2)
    ensures forall i :: 0 <= i < |r| ==> r[i] == a[i + 1]
  {
    if |a| <= 2 then [] else a[1..|a| - 1]
  }

  /** TimeDomain_Start_Stop_Steps: `steps` equal steps from `start` to `end`. */
  function StartStopSteps(start: real, end: real, steps: int): (r: Result<TimeDomain>)
    ensures r.Err? <==> steps == 0
    ensures r.Err? ==> r.error == ZeroDivision
    ensures r.Ok? ==> r.value.start == start && r.value.steps == steps
    ensures r.Ok? ==> r.value.spacing * steps as real == end - start
  {
    if steps == 0 then Err(ZeroDivision)
    else Ok(TimeDomain(start, steps, (end - start) / steps as real))
  }

  /** TimeDomain_Start_Stop_MaxSpacing: round the step count up, then rectify the
      spacing so that the steps span `start` to `end` exactly. */
  function StartStopMaxSpacing(start: real, end: real, maxSpacing: real): (r: Result<TimeDomain>)
    ensures r.Err? ==> r.error == ZeroDivision
    ensures maxSpacing == 0.0 ==> r == Err(ZeroDivision)
    ensures r.Ok? ==> r.value.start == start && r.value.steps != 0
    ensures r.Ok? ==> r.value.spacing * r.value.steps as real == end - start
    ensures maxSpacing > 0.0 ==> (r.Err? <==> -maxSpacing < end - start <= 0.0)
  {
    if maxSpacing == 0.0 then Err(ZeroDivision)
    else
      var steps := Ceil((end - start) / maxSpacing);
      CeilZeroIff((end - start) / maxSpacing, end - start, maxSpacing);
      if steps == 0 then Err(ZeroDivision)
      else Ok(TimeDomain(start, steps, (end - start) / steps as real))
  }

  /** For a positive divisor m, `ceil(len / m)` is zero exactly when `-m < len <= 0`. */
  lemma CeilZeroIff(x: real, len: real, m: real)
    requires m != 0.0 && x == len / m
    ensures m > 0.0 ==> (Ceil(x) == 0 <==> -m < len <= 0.0)
  {
    if m > 0.0 {
      assert x * m == len;
      assert Ceil(x) == 0 <==> -1.0 < x <= 0.0;
      assert -1.0 < x <= 0.0 <==> -m < len <= 0.0 by {
        if -1.0 < x { assert -m < x * m; }
        if x <= 0.0 { assert x * m <= 0.0; }
        if -m < len { assert -1.0 < len / m; }
        if len <= 0.0 { assert len / m <= 0.0; }
      }
    }
  }

  /** The grid is uniform: it begins at `start` and consecutive samples differ by `spacing`. */
  lemma SamplesUniform(d: TimeDomain)
    ensures d.steps >= 0 ==> Samples(d)[0] == d.start
    ensures forall i :: 0 < i < |Samples(d)| ==> Samples(d)[i] - Samples(d)[i - 1] == d.spacing
  {
  }

  /** With a positive spacing the samples are strictly increasing. */
  lemma SamplesIncreasing(d: TimeDomain)
    requires d.spacing > 0.0
    ensures forall i, j :: 0 <= i < j < |Samples(d)| ==> Samples(d)[i] < Samples(d)[j]
  {
    var a := Samples(d);
    forall i, j | 0 <= i < j < |a|
      ensures a[i] < a[j]
    {
      assert a[j] - a[i] == d.spacing * (j - i) as real;
    }
  }

  /** A start/stop/steps grid with at least one step ends exactly at `end`. */
  lemma StartStopStepsEndsAtEnd(start: real, end: real, steps: int)
    requires steps >= 1
    ensures StartStopSteps(start, end, steps).Ok?
    ensures var a := Samples(StartStopSteps(start, end, steps).value);
      |a| == steps + 1 && a[0] == start && a[steps] == end
  {
    var d := StartStopSteps(start, end, steps).value;
    assert Samples(d)[steps] == start + d.spacing * steps as real;
  }

  /** The max-spacing step count covers the interval: `steps * maxSpacing >= end - start`. */
  lemma MaxSpacingStepsCover(start: real, end: real, maxSpacing: real)
    requires maxSpacing > 0.0
    requires StartStopMaxSpacing(start, end, maxSpacing).Ok?
    ensures StartStopMaxSpacing(start, end, maxSpacing).value.steps as real * maxSpacing >= end - start
  {
    var x := (end - start) / maxSpacing;
    var n := Ceil(x);
    assert x * maxSpacing == end - start;
    assert n as real * maxSpacing >= x * maxSpacing;
  }

  /** ... and no smaller step count does: it is the least `n` with `n * maxSpacing >= end - start`. */
  lemma MaxSpacingStepsLeast(start: real, end: real, maxSpacing: real, n: int)
    requires maxSpacing > 0.0
    requires end - start > 0.0 || end - start <= -maxSpacing
    requires n as real * maxSpacing >= end - start
    ensures StartStopMaxSpacing(start, end, maxSpacing).Ok?
    ensures StartStopMaxSpacing(start, end, maxSpacing).value.steps <= n
  {
    var x := (end - start) / maxSpacing;
    assert x * maxSpacing == end - start;
    assert (n as real * maxSpacing) / maxSpacing == n as real;
    assert (n as real * maxSpacing) / maxSpacing >= x;
  }

  /** On a non-empty interval the max-spacing grid has at least one step, a positive
      spacing no larger than the maximum, and its last sample is `end`. */
  lemma MaxSpacingRectified(start: real, end: real, maxSpacing: real)
    requires maxSpacing > 0.0 && end > start
    ensures StartStopMaxSpacing(start, end, maxSpacing).Ok?
    ensures var d := StartStopMaxSpacing(start, end, maxSpacing).value;
      d.steps >= 1 && 0.0 < d.spacing <= maxSpacing &&
      |Samples(d)| == d.steps + 1 && Samples(d)[d.steps] == end
  {
    var d := StartStopMaxSpacing(start, end, maxSpacing).value;
    var x := (end - start) / maxSpacing;
    assert x > 0.0;
    MaxSpacingStepsCover(start, end, maxSpacing);
    assert d.spacing * d.steps as real == end - start;
    assert d.spacing > 0.0;
    assert d.spacing * d.steps as real <= maxSpacing * d.steps as real;
    assert Samples(d)[d.steps] == start + d.spacing * d.steps as real;
  }

  /** When `maxSpacing` already divides the interval into `n` steps, nothing is rectified. */
  lemma MaxSpacingExact(start: real, end: real, maxSpacing: real, n: int)
    requires maxSpacing > 0.0 && n != 0
    requires end - start == n as real * maxSpacing
    ensures StartStopMaxSpacing(start, end, maxSpacing) == Ok(TimeDomain(start, n, maxSpacing))
  {
    var x := (end - start) / maxSpacing;
    assert x * maxSpacing == n as real * maxSpacing;
    assert x == n as real;
    assert Ceil(x) == n;
    assert (end - start) / n as real == maxSpacing;
  }

  /** An empty interval rounds to zero steps, and rectifying then divides by zero. */
  lemma MaxSpacingEmptyInterval(start: real, maxSpacing: real)
    ensures StartStopMaxSpacing(start, start, maxSpacing) == Err(ZeroDivision)
  {
  }

  /** The two worked cases: 0 to 10 with spacing at most 0.1 needs no rectification;
      with spacing at most 0.3 it takes 34 steps of 10/34. */
  lemma RectificationExamples()
    ensures StartStopMaxSpacing(0.0, 10.0, 0.1) == Ok(TimeDomain(0.0, 100, 0.1))
    ensures StartStopMaxSpacing(0.0, 10.0, 0.3) == Ok(TimeDomain(0.0, 34, 10.0 / 34.0))
  {
    MaxSpacingExact(0.0, 10.0, 0.1, 100);
    var n := Ceil(10.0 / 0.3);
    assert 33.0 < 10.0 / 0.3 < 34.0;
    assert n == 34;
  }
}
