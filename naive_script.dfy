/** The original monolithic solver (naive_script.py): three update functions and one
    `solve` that picks the time grid from two of `dt`, `steps` and `tf`, dispatches on a
    method string and returns either every state or the last one. Its results are stated
    against the refactored model in TimeIntegrators. */
module NaiveScript {
  import opened Outcomes
  import opened TimeDomains
  import TI = TimeIntegrators

  /** euler_update */
  function EulerUpdate(t: real, u: real, f: TI.Rhs, h: real): (r: real)
  {
    u + h * f(t, u)
  }

  /** RK4_update */
  function RK4Update(t: real, u: real, f: TI.Rhs, h: real): (r: real)
  {
    var k1 := f(t, u);
    var k2 := f(t + h / 2.0, u + h / 2.0 * k1);
    var k3 := f(t + h / 2.0, u + h / 2.0 * k2);
    var k4 := f(t + h, u + h * k3);
    u + h / 6.0 * (k1 + 2.0 * k2 + 2.0 * k3 + k4)
  }

  /** AB2_update */
  function AB2Update(t: real, y: real, yOld: real, f: TI.Rhs, h: real): (r: real)
  {
    y + 3.0 / 2.0 * h * f(t, y) - 1.0 / 2.0 * h * f(t - h, yOld)
  }

  /** The script's update functions are the formulas the refactored classes supply. */
  lemma UpdatesAgree(t: real, u: real, uOld: real, f: TI.Rhs, h: real)
    ensures EulerUpdate(t, u, f, h) == TI.Update(TI.Euler, t, u, f, h)
    ensures RK4Update(t, u, f, h) == TI.Update(TI.RK4, t, u, f, h)
    ensures AB2Update(t, u, uOld, f, h) == TI.AB2Update(t, u, uOld, f, h)
  {
  }

  /** What `solve` returns: the pair `(ts, us)` for `ret='all'`, the last state for `ret='last'`. */
  datatype Output = All(ts: seq<real>, us: seq<real>) | Last(u: real)

  /** The method strings the first assertion of `solve` accepts. */
  predicate KnownMethod(methodName: string)
  {
    methodName == "euler" || methodName == "RK4" || methodName == "AB2"
  }

  /** The `ret` strings the second assertion of `solve` accepts. */
  predicate KnownReturn(ret: string)
  {
    ret == "last" || ret == "all"
  }

  function Given<T>(x: Option<T>): (r: int)
  {
    if x.Some? then 1 else 0
  }

  /** The grid `solve` steps over, as the refactored constructor for the two arguments
      given: `dt` and `steps` directly, `dt` and `tf` as a maximum spacing, `steps` and
      `tf` as start/stop/steps. Any other combination raises. */
  function PickDomain(t0: real, dt: Option<real>, steps: Option<int>, tf: Option<real>): (r: Result<TimeDomain>)
    ensures Given(dt) + Given(steps) + Given(tf) == 3 ==> r == Err(ValueError)
    ensures Given(dt) + Given(steps) + Given(tf) < 2 ==> r == Err(AssertionFailed)
    ensures r.Ok? ==> Given(dt) + Given(steps) + Given(tf) == 2 && r.value.start == t0
    ensures r.Ok? && steps.Some? ==> r.value.steps == steps.value
    ensures r.Ok? && tf.Some? ==> r.value.spacing * r.value.steps as real == tf.value - t0
    ensures r.Ok? && tf.None? ==> dt.Some? && r.value.spacing == dt.value
  {
    if tf.None? then
      if steps.None? || dt.None? then Err(AssertionFailed)
      else Ok(TimeDomain(t0, steps.value, dt.value))
    else if steps.None? then
      if dt.None? then Err(AssertionFailed)
      else StartStopMaxSpacing(t0, tf.value, dt.value)
    else if dt.None? then
      StartStopSteps(t0, tf.value, steps.value)
    else
      Err(ValueError)
  }

  /** The refactored integrator each method string stands for; the script seeds AB2 with
      one RK4 step. */
  function IntegratorFor(methodName: string): (r: TI.TimeIntegrator)
    ensures TI.WellFormed(r)
  {
    if methodName == "euler" then TI.SingleStep(TI.Euler)
    else if methodName == "RK4" then TI.SingleStep(TI.RK4)
    else TI.AB2(TI.SingleStep(TI.RK4), 1)
  }

  /** What `solve` should return, in terms of the refactored model: the grid from
      PickDomain, the run of the matching integrator on it, then all of it or its last state. */
  function Expected(t0: real, u0: real, rhs: TI.Rhs, dt: Option<real>, steps: Option<int>, tf: Option<real>,
                    ret: string, methodName: string): (r: Result<Output>)
    ensures r.Ok? ==> KnownMethod(methodName) && KnownReturn(ret)
    ensures r.Ok? ==> (r.value.All? <==> ret == "all")
  {
    if !KnownMethod(methodName) || !KnownReturn(ret) then Err(AssertionFailed)
    else
      match PickDomain(t0, dt, steps, tf)
      case Err(e) => Err(e)
      case Ok(d) =>
        match TI.Trajectory(IntegratorFor(methodName), u0, rhs, d)
        case Err(e) => Err(e)
        case Ok(us) => Ok(if ret == "all" then All(Samples(d), us) else Last(us[|us| - 1]))
  }

  /** solve: the keyword arguments default as in Python (no dt, steps or tf; `ret='last'`;
      method 'euler'). It validates the selectors before anything else, then the grid
      arguments, then steps. It returns exactly the refactored grid and trajectory for `ret='all'` and the
      refactored final value for `ret='last'`; naive AB2 is refactored AB2 seeded by one RK4 step. */
  method Solve(t0: real, u0: real, rhs: TI.Rhs, dt: Option<real> := None, steps: Option<int> := None,
               tf: Option<real> := None, ret: string := "last", methodName: string := "euler")
    returns (r: Result<Output>)
    ensures r == Expected(t0, u0, rhs, dt, steps, tf, ret, methodName)
  {
    if !KnownMethod(methodName) || !KnownReturn(ret) {
      return Err(AssertionFailed);
    }
    var grid := ResolveGrid(t0, dt, steps, tf);
    if grid.Err? {
      return Err(grid.error);
    }
    var us, u := Step(methodName, ret == "all", u0, rhs, grid.value);
    if ret == "all" {
      return Ok(All(Samples(grid.value), us));
    }
    return Ok(Last(u));
  }

  /** The stepping part of `solve` for a known method string: the refactored run of the
      matching integrator does not raise, `u` is its last state, and `us` is all of it
      when `all`. */
  method Step(methodName: string, all: bool, u0: real, rhs: TI.Rhs, d: TimeDomain) returns (us: seq<real>, u: real)
    requires KnownMethod(methodName)
    ensures var run := TI.Trajectory(IntegratorFor(methodName), u0, rhs, d);
      run.Ok? && u == run.value[|run.value| - 1] && (all ==> us == run.value)
  {
    TI.TrajectoryOkIffWellFormed(IntegratorFor(methodName), u0, rhs, d);
    if methodName == "euler" || methodName == "RK4" {
      us, u := StepSingle(methodName == "euler", all, u0, rhs, d);
    } else {
      us, u := StepAB2(all, u0, rhs, d);
      TI.AB2WithOneRK4Step(u0, rhs, d);
      UpdatesAgree(d.start, u0, u0, rhs, d.spacing);
    }
  }

  /** The grid-argument checks of `solve` and the `dt`/`steps` they leave behind: with `tf`
      missing both others must be given; with `steps` missing it is the ceiling of
      (tf - t0) / dt and `dt` is rectified; with `dt` missing it is (tf - t0) / steps. */
  method ResolveGrid(t0: real, dt: Option<real>, steps: Option<int>, tf: Option<real>) returns (r: Result<TimeDomain>)
    ensures r == PickDomain(t0, dt, steps, tf)
  {
    var n: int, h: real;
    if tf.None? {
      if steps.None? || dt.None? {
        return Err(AssertionFailed);
      }
      n, h := steps.value, dt.value;
    } else if steps.None? {
      if dt.None? {
        return Err(AssertionFailed);
      }
      if dt.value == 0.0 {
        return Err(ZeroDivision);
      }
      n := Ceil((tf.value - t0) / dt.value);
      if n == 0 {
        return Err(ZeroDivision);
      }
      h := (tf.value - t0) / n as real;
    } else if dt.None? {
      if steps.value == 0 {
        return Err(ZeroDivision);
      }
      n, h := steps.value, (tf.value - t0) / steps.value as real;
    } else {
      return Err(ValueError);
    }
    return Ok(TimeDomain(t0, n, h));
  }

  /** The `euler` and `RK4` loops of `solve`: update once per time of `ts[:-1]`, keeping
      every state in `us` only when `all`. */
  method StepSingle(euler: bool, all: bool, u0: real, rhs: TI.Rhs, d: TimeDomain) returns (us: seq<real>, u: real)
    ensures var run := TI.Trajectory(TI.SingleStep(if euler then TI.Euler else TI.RK4), u0, rhs, d).value;
      u == run[|run| - 1] && (all ==> us == run)
  {
    ghost var m := if euler then TI.Euler else TI.RK4;
    var times := AllButLast(Samples(d));
    us := if all then [u0] else [];
    u := u0;
    for i := 0 to |times|
      invariant u == TI.SingleStepRun(m, u0, rhs, times[..i], d.spacing)[i]
      invariant all ==> us == TI.SingleStepRun(m, u0, rhs, times[..i], d.spacing)
    {
      assert times[..i + 1][..i] == times[..i];
      var next := if euler then EulerUpdate(times[i], u, rhs, d.spacing) else RK4Update(times[i], u, rhs, d.spacing);
      assert next == TI.Update(m, times[i], u, rhs, d.spacing) by {
        UpdatesAgree(times[i], u, u, rhs, d.spacing);
      }
      u := next;
      if all {
        us := us + [u];
      }
    }
    assert times[..|times|] == times;
  }

  /** The `AB2` branch of `solve`: one RK4 step of size dt seeds the second state, then one
      AB2 update per time of `ts[1:-1]`, keeping every state in `us` only when `all`. */
  method StepAB2(all: bool, u0: real, rhs: TI.Rhs, d: TimeDomain) returns (us: seq<real>, u: real)
    ensures var run := TI.AB2Run(u0, RK4Update(d.start, u0, rhs, d.spacing), rhs, Interior(Samples(d)), d.spacing);
      u == run[|run| - 1] && (all ==> us == run)
  {
    us := if all then [u0] else [];
    u := u0;
    var uOld := u;
    u := RK4Update(d.start, u, rhs, d.spacing);
    if all {
      us := us + [u];
    }
    ghost var u1 := u;
    ghost var states := [u0, u1];
    var times := Interior(Samples(d));
    for i := 0 to |times|
      invariant states == TI.AB2Run(u0, u1, rhs, times[..i], d.spacing)
      invariant u == states[|states| - 1] && uOld == states[|states| - 2]
      invariant all ==> us == states
    {
      assert times[..i + 1][..i] == times[..i];
      var next := AB2Update(times[i], u, uOld, rhs, d.spacing);
      assert next == TI.AB2Update(times[i], u, uOld, rhs, d.spacing) by {
        UpdatesAgree(times[i], u, uOld, rhs, d.spacing);
      }
      u, uOld := next, u;
      states := states + [u];
      if all {
        us := us + [u];
      }
    }
    assert times[..|times|] == times;
  }

  /** An unknown method or return selector fails its assertion before any grid argument is looked at. */
  lemma SelectorsCheckedFirst(t0: real, u0: real, rhs: TI.Rhs, dt: Option<real>, steps: Option<int>,
                              tf: Option<real>, ret: string, methodName: string)
    requires !KnownMethod(methodName) || !KnownReturn(ret)
    ensures Expected(t0, u0, rhs, dt, steps, tf, ret, methodName) == Err(AssertionFailed)
  {
  }

  /** Exactly two grid arguments are needed: all three raise ValueError, fewer than two fail an assertion. */
  lemma GridArgumentsChecked(t0: real, u0: real, rhs: TI.Rhs, dt: Option<real>, steps: Option<int>,
                             tf: Option<real>, ret: string, methodName: string)
    requires KnownMethod(methodName) && KnownReturn(ret)
    ensures dt.Some? && steps.Some? && tf.Some? ==>
      Expected(t0, u0, rhs, dt, steps, tf, ret, methodName) == Err(ValueError)
    ensures Given(dt) + Given(steps) + Given(tf) < 2 ==>
      Expected(t0, u0, rhs, dt, steps, tf, ret, methodName) == Err(AssertionFailed)
  {
  }

  /** The `dt` + `tf` path: steps is the ceiling of (tf - t0) / dt and dt is rectified to
      (tf - t0) / steps, which for a positive dt on a non-empty interval is no larger. */
  lemma DtAndTfRectify(t0: real, dt: real, tf: real)
    requires dt > 0.0 && tf > t0
    ensures PickDomain(t0, Some(dt), None, Some(tf)).Ok?
    ensures var d := PickDomain(t0, Some(dt), None, Some(tf)).value;
      d.steps == Ceil((tf - t0) / dt) >= 1 && d.spacing == (tf - t0) / d.steps as real &&
      0.0 < d.spacing <= dt && Samples(d)[d.steps] == tf
  {
    MaxSpacingRectified(t0, tf, dt);
  }

  /** With `ret='all'` and a single-step method on a grid of `n >= 1` steps, `ts` and `us`
      both have `n + 1` entries (with no step the run is `[u0]`, by TI.TrajectoryLength), `us` starts at `u0`, and each state is one update of the
      one before it at the earlier time. */
  lemma AllSingleStepRecurrence(t0: real, u0: real, rhs: TI.Rhs, dt: Option<real>, steps: Option<int>,
                                tf: Option<real>, methodName: string, i: int)
    requires methodName == "euler" || methodName == "RK4"
    requires Expected(t0, u0, rhs, dt, steps, tf, "all", methodName).Ok?
    requires 0 <= i < PickDomain(t0, dt, steps, tf).value.steps
    ensures var out := Expected(t0, u0, rhs, dt, steps, tf, "all", methodName).value;
      var h := PickDomain(t0, dt, steps, tf).value.spacing;
      |out.ts| == |out.us| == PickDomain(t0, dt, steps, tf).value.steps + 1 && out.us[0] == u0 &&
      out.us[i + 1] == (if methodName == "euler" then EulerUpdate(out.ts[i], out.us[i], rhs, h)
                        else RK4Update(out.ts[i], out.us[i], rhs, h))
  {
    var d := PickDomain(t0, dt, steps, tf).value;
    TI.SingleStepRecurrence(IntegratorFor(methodName).stepper, u0, rhs, d, i);
  }

  /** With `ret='all'` and AB2, whatever the step count, `us` starts with `u0` and one RK4
      step of size dt from (t0, u0); it has `n + 1` entries, as `ts` does, on a grid of
      `n >= 1` steps, and exactly those two entries when `n <= 1`. */
  lemma AllAB2Seeding(t0: real, u0: real, rhs: TI.Rhs, dt: Option<real>, steps: Option<int>, tf: Option<real>)
    requires Expected(t0, u0, rhs, dt, steps, tf, "all", "AB2").Ok?
    ensures var out := Expected(t0, u0, rhs, dt, steps, tf, "all", "AB2").value;
      var d := PickDomain(t0, dt, steps, tf).value;
      |out.us| >= 2 && out.us[0] == u0 && out.us[1] == RK4Update(t0, u0, rhs, d.spacing) &&
      |out.ts| == Max(0, d.steps + 1) &&
      (d.steps >= 1 ==> |out.ts| == |out.us| == d.steps + 1) &&
      (d.steps <= 1 ==> |out.us| == 2)
  {
    var d := PickDomain(t0, dt, steps, tf).value;
    var m := TI.AB2(TI.SingleStep(TI.RK4), 1);
    var run := TI.Trajectory(m, u0, rhs, d).value;
    assert Expected(t0, u0, rhs, dt, steps, tf, "all", "AB2").value == All(Samples(d), run);
    assert run[1] == RK4Update(t0, u0, rhs, d.spacing) by {
      TI.AB2WithOneRK4Step(u0, rhs, d);
      UpdatesAgree(t0, u0, u0, rhs, d.spacing);
    }
    TI.TrajectoryLength(m, u0, rhs, d);
  }

  /** With `ret='all'` and AB2 on a grid of `n` steps, the second state is one RK4 step of
      size dt from (t0, u0), and for 1 <= i < n state i + 1 is one AB2 update from the two
      before it. */
  lemma AllAB2Recurrence(t0: real, u0: real, rhs: TI.Rhs, dt: Option<real>, steps: Option<int>,
                         tf: Option<real>, i: int)
    requires Expected(t0, u0, rhs, dt, steps, tf, "all", "AB2").Ok?
    requires 1 <= i < PickDomain(t0, dt, steps, tf).value.steps
    ensures var out := Expected(t0, u0, rhs, dt, steps, tf, "all", "AB2").value;
      var h := PickDomain(t0, dt, steps, tf).value.spacing;
      |out.ts| == |out.us| == PickDomain(t0, dt, steps, tf).value.steps + 1 &&
      out.us[0] == u0 && out.us[1] == RK4Update(t0, u0, rhs, h) &&
      out.us[i + 1] == AB2Update(out.ts[i], out.us[i], out.us[i - 1], rhs, h)
  {
    var d := PickDomain(t0, dt, steps, tf).value;
    var run := TI.Trajectory(TI.AB2(TI.SingleStep(TI.RK4), 1), u0, rhs, d).value;
    assert Expected(t0, u0, rhs, dt, steps, tf, "all", "AB2").value == All(Samples(d), run);
    assert run[1] == RK4Update(t0, u0, rhs, d.spacing) by {
      TI.AB2WithOneRK4Step(u0, rhs, d);
      UpdatesAgree(t0, u0, u0, rhs, d.spacing);
    }
    assert run[i + 1] == AB2Update(Samples(d)[i], run[i], run[i - 1], rhs, d.spacing) by {
      TI.AB2Recurrence(TI.SingleStep(TI.RK4), 1, u0, rhs, d, i);
      UpdatesAgree(Samples(d)[i], run[i], run[i - 1], rhs, d.spacing);
    }
  }

  /** `ret='last'` returns the last state that `ret='all'` lists, and both fail alike. */
  lemma LastIsEndOfAll(t0: real, u0: real, rhs: TI.Rhs, dt: Option<real>, steps: Option<int>,
                       tf: Option<real>, methodName: string)
    ensures var last := Expected(t0, u0, rhs, dt, steps, tf, "last", methodName);
      var all := Expected(t0, u0, rhs, dt, steps, tf, "all", methodName);
      (last.Ok? <==> all.Ok?) &&
      (all.Ok? ==> |all.value.us| >= 1 && last.value == Last(all.value.us[|all.value.us| - 1])) &&
      (all.Err? ==> last.error == all.error)
  {
  }

  /** The refactoring claim: for `ret='all'` the script returns what TimeIntegrator.solve
      returns for the matching integrator on the matching grid. */
  lemma AllMatchesRefactoredSolve(t0: real, u0: real, rhs: TI.Rhs, dt: Option<real>, steps: Option<int>,
                                  tf: Option<real>, methodName: string)
    requires KnownMethod(methodName) && PickDomain(t0, dt, steps, tf).Ok?
    ensures var d := PickDomain(t0, dt, steps, tf).value;
      TI.Trajectory(IntegratorFor(methodName), u0, rhs, d).Ok? &&
      Expected(t0, u0, rhs, dt, steps, tf, "all", methodName)
        == Ok(All(Samples(d), TI.Trajectory(IntegratorFor(methodName), u0, rhs, d).value))
  {
    var d := PickDomain(t0, dt, steps, tf).value;
    TI.TrajectoryOkIffWellFormed(IntegratorFor(methodName), u0, rhs, d);
  }
}
