# Fixed-step ODE time stepping, modelled in Dafny

This project models the core of a small Python package that solves a scalar initial-value
problem u' = f(t, u), u(t0) = u0, on a uniform time grid. The package holds the core twice.

- **The refactored version.**
  - `time_domain.py` builds the grid in one of three ways: explicit start/steps/spacing,
    start/stop/steps, or start/stop/maximum spacing. The maximum-spacing constructor rounds
    the step count up and then rectifies the spacing.
  - `time_integrator.py` holds the integrators. Euler and RK4 are single-step methods and
    supply only an update formula. AB2 seeds its second state by running another integrator
    across the first outer step. Each integrator exposes a generator of states; `solve` lists
    every state and `t_final` keeps the last one.
- **The original monolithic version.** `naive_script.py` has three update functions and one
  `solve`. That `solve` picks the grid from exactly two of `dt`/`steps`/`tf`, dispatches on a
  method string, and returns every state (`ret='all'`) or the last one (`ret='last'`).

Modules:

- `Outcomes` (outcomes.dfy): the exceptions the code raises (ZeroDivisionError,
  AssertionError, ValueError, TypeError) and the `Result`/`Option` wrappers. The model
  returns an error value wherever Python raises. It does not add a precondition there.
- `TimeDomains` (time_domain.dfy): the grid. It is a datatype plus constructor functions,
  because the source computes each grid once from expressions.
- `TimeIntegrators` (time_integrator.dfy): the integrators.
  - The integrators form a datatype: a single-step method, or AB2 with its seed integrator
    and its seed-step count.
  - The update formulas are functions.
  - What a generator yields is the specification function `Trajectory`.
  - The generator loops, `t_final` and `solve` are methods proved against `Trajectory`.
- `UpdateAccuracy` (update_accuracy.dfy): what the update formulas get right against exact
  solutions.
  - On u' = lam*u, Euler and RK4 reproduce the Taylor polynomials of exp(h*lam) of degree
    one and four.
  - RK4 is exact when the forcing is a cubic in t.
  - AB2 is exact when the forcing is linear in t.
- `NaiveScript` (naive_script.dfy): the monolithic `solve`, written as imperative code. Its
  result is proved equal to the refactored model, with the naive AB2 being AB2 seeded by one
  RK4 step.

All arithmetic is over exact `real`. The state is a scalar `real`, and `rhs` is a total
function `(real, real) -> real`. Step counts are `int`: Python accepts any integer, and
`np.arange` of a non-positive count is empty, so a grid has `max(0, steps + 1)` samples.

What the code checks, and so what the model checks:

- No grid is validated. Any start, spacing and step count is accepted, including a zero or
  negative spacing and a zero or negative step count. The only errors a grid constructor
  produces are the divisions by zero it performs.
- AB2's `seed_steps` is unchecked. With the corrected seed-grid call, a count of 0 raises
  ZeroDivisionError and a negative count gives an empty seed grid. As written, every count
  raises TypeError (see Findings).
- The rest of the model uses the corrected seed-grid call, from `start` to `start + spacing`.
  That is the grid naive_script.py:119 steps across when it seeds AB2 with one RK4 step of
  size `dt`.

## Model

| member | source | states |
|---|---|---|
| `TimeDomains.Ceil` | time_domain.py:31 | `math.ceil`: the least integer n with x <= n (n - 1 < x <= n) |
| `TimeDomains.Samples` | time_domain.py:15-16 | the sample array has exactly `steps + 1` elements (none when `steps + 1 <= 0`) |
| `TimeDomains.TimeDomain` | time_domain.py:7-13 | the grid record: start, step count and spacing, unvalidated. A datatype, with no contract of its own |
| `TimeDomains.AllButLast` | time_integrator.py:50 | `array[:-1]`: one element fewer (none for an empty array), each equal to the array's element at the same index |
| `TimeDomains.Interior` | time_integrator.py:114 | `array[1:-1]`: two elements fewer (none below two), element i being the array's element i + 1 |
| `TimeDomains.CeilZeroIff` | time_domain.py:31-32 | for a positive maximum spacing, `ceil((end - start)/max_spacing)` is zero exactly when `-max_spacing < end - start <= 0` |
| `TimeDomains.SamplesUniform` | time_domain.py:16 | the first sample is `start` and consecutive samples differ by exactly `spacing` |
| `TimeDomains.SamplesIncreasing` | time_domain.py:16 | with a positive spacing the samples are strictly increasing |
| `TimeDomains.StartStopSteps` | time_domain.py:20-25 | raises ZeroDivisionError exactly when `steps == 0`; otherwise keeps start and steps and `spacing * steps == end - start` |
| `TimeDomains.StartStopStepsEndsAtEnd` | time_domain.py:22-25 | with `steps >= 1` the grid has `steps + 1` samples from `start` to exactly `end` |
| `TimeDomains.StartStopMaxSpacing` | time_domain.py:27-33 | raises only ZeroDivisionError, and for a positive maximum exactly when `-max < end - start <= 0`; a zero maximum always raises it; otherwise `spacing * steps == end - start` |
| `TimeDomains.MaxSpacingStepsCover` | time_domain.py:31 | the rounded-up step count covers the interval: `steps * max_spacing >= end - start` |
| `TimeDomains.MaxSpacingStepsLeast` | time_domain.py:31 | for a positive maximum and an interval on which the grid does not raise (`end - start > 0` or `<= -max_spacing`), the grid exists and every n with `n * max_spacing >= end - start` is at least `steps`, so `steps` is the least such n |
| `TimeDomains.MaxSpacingRectified` | time_domain.py:31-33 | on `end > start` with a positive maximum: `steps >= 1`, `0 < spacing <= max_spacing`, and the last sample is exactly `end` |
| `TimeDomains.MaxSpacingExact` | time_domain.py:31-32 | if a positive `max_spacing` divides the interval into n steps, for any nonzero n (forward or backward), then `steps = n` and `spacing = max_spacing` (no rectification) |
| `TimeDomains.MaxSpacingEmptyInterval` | time_domain.py:31-32 | `end == start` rounds to zero steps and raises ZeroDivisionError |
| `TimeDomains.RectificationExamples` | time_domain.py:29-33 | 0 to 10 with maximum 0.1 gives 100 steps of 0.1; with maximum 0.3 it gives 34 steps of 10/34 |
| `TimeIntegrators.SingleStepMethod` | time_integrator.py:36-39 | the two concrete single-step subclasses, `Euler` (line 55) and `RK4` (line 70), as one constructor each. A datatype, with no contract of its own |
| `TimeIntegrators.TimeIntegrator` | time_integrator.py:6-14 | an integrator is a single-step method, or AB2 holding its seed integrator and seed-step count (the constructor at lines 87-90). A datatype, with no contract of its own; `TimeIntegrators.WellFormed` says which ones never raise |
| `TimeIntegrators.Name` | time_integrator.py:63-65 | the `name` strings: "Euler", "RK4" and "AB2 (seed: <seed name>)" (lines 72-74 and 92-94). No ensures; `TimeIntegrators.NamesIdentifyChains` states what they distinguish |
| `TimeIntegrators.EulerUpdate` | time_integrator.py:67-68 | the Euler formula itself. No ensures; `UpdateAccuracy.EulerLinearFactor` states its accuracy |
| `TimeIntegrators.RK4Update` | time_integrator.py:76-81 | the RK4 formula itself. No ensures; `UpdateAccuracy.RK4LinearFactor` and `UpdateAccuracy.RK4ExactForCubicForcing` state its accuracy |
| `TimeIntegrators.Update` | time_integrator.py:50-52 | dispatches to the subclass's `update`. No ensures; `TimeIntegrators.SingleStepRecurrence` states how runs use it |
| `TimeIntegrators.AB2Update` | time_integrator.py:97-98 | the AB2 formula itself. No ensures; `UpdateAccuracy.AB2ExactForLinearForcing` states its accuracy |
| `TimeIntegrators.SeedDomain` | time_integrator.py:106-109 | the corrected seed grid: it raises exactly when `seed_steps == 0`, and otherwise starts at `start` with `seed_steps` steps |
| `TimeIntegrators.SeedDomainAsWritten` | time_integrator.py:106-109 | the call as written: always TypeError. No ensures; `TimeIntegrators.AsWrittenAB2AlwaysRaises` states the consequence |
| `TimeIntegrators.SeedDomainPositional` | time_integrator.py:106-109 | the positional reading, ending at `spacing`. No ensures; `TimeIntegrators.PositionalSeedEndsAtSpacing` states the consequence |
| `TimeIntegrators.SingleStepRun` | time_integrator.py:47-52 | a single-step run over n update times yields n + 1 states, the first being `u0` |
| `TimeIntegrators.AB2Run` | time_integrator.py:114-116 | an AB2 run over n update times yields n + 2 states, starting with `u0` and the seeded state |
| `TimeIntegrators.Trajectory` | time_integrator.py:12-14 | a generator that does not raise yields at least one state, and the first is `u0` |
| `TimeIntegrators.AB2Trajectory` | time_integrator.py:100-116 | AB2 either raises or yields at least two states, the first being `u0` |
| `TimeIntegrators.SingleStepGenerator` | time_integrator.py:47-52 | the loop yields exactly the single-step trajectory: `u0`, then one update per sample time but the last |
| `TimeIntegrators.AB2Generator` | time_integrator.py:100-116 | the loop yields exactly the AB2 trajectory: `u0`, the seed's final value, then one AB2 update per interior sample time; it raises what the seed grid or seed run raises |
| `TimeIntegrators.SolutionGenerator` | time_integrator.py:12-14 | each integrator's generator yields its trajectory |
| `TimeIntegrators.TFinal` | time_integrator.py:25-28 | `t_final` raises exactly when the run raises, and otherwise returns the last state of the list `solve` returns |
| `TimeIntegrators.Solve` | time_integrator.py:22-23 | `solve` returns the sample array and the list of every yielded state, or the run's exception |
| `TimeIntegrators.SingleStepRunAt` | time_integrator.py:50-52 | state 0 is `u0`, and state i + 1 is one update from state i at the i-th update time |
| `TimeIntegrators.AB2RunAt` | time_integrator.py:114-116 | states 0 and 1 are `u0` and the seed, and state i + 2 is one AB2 update from states i + 1 and i |
| `TimeIntegrators.TrajectoryLength` | time_integrator.py:100-116 | a run yields `steps + 1` states when `steps >= 1`; with no step a single-step run yields 1 state and AB2 yields 2 |
| `TimeIntegrators.TrajectoryOkIffWellFormed` | time_integrator.py:106-111 | a run raises if and only if some AB2 in the integrator has zero seed steps, and then it raises ZeroDivisionError |
| `TimeIntegrators.SingleStepRecurrence` | time_integrator.py:47-52 | for `0 <= i < steps`: state i + 1 is `update(array[i], state i, rhs, spacing)`, and there are `steps + 1` states |
| `TimeIntegrators.SeedDomainSpansOneStep` | time_integrator.py:106-109 | with `seed_steps >= 1` the seed grid starts at `start`, has `seed_steps` steps of `spacing / seed_steps`, and ends at the second outer sample time |
| `TimeIntegrators.AB2Seeding` | time_integrator.py:100-113 | AB2's state 0 is `u0` and state 1 is the seed integrator's final value over the seed grid |
| `TimeIntegrators.AB2Recurrence` | time_integrator.py:114-116 | for `1 <= i <= steps - 1`, AB2 state i + 1 is `u_i + 3/2 h f(t_i, u_i) - 1/2 h f(t_i - h, u_{i-1})` with the outer spacing h |
| `TimeIntegrators.AB2WithoutUpdates` | time_integrator.py:113-116 | with `steps <= 1` AB2 yields exactly `[u0, seed value]`, so the AB2 update is never applied |
| `TimeIntegrators.AB2WithOneRK4Step` | time_integrator.py:106-113 | AB2 seeded by RK4 with one seed step seeds with one RK4 step of the outer spacing from `(start, u0)` |
| `TimeIntegrators.NamesIdentifyChains` | time_integrator.py:92-94 | two integrators have equal names if and only if they are the same chain of methods, ignoring seed-step counts |
| `TimeIntegrators.AsWrittenAB2AlwaysRaises` | time_integrator.py:106-109 | as written, every AB2 run raises TypeError, though the intended grid lets every well-formed AB2 run complete |
| `TimeIntegrators.PositionalSeedEndsAtSpacing` | time_integrator.py:106-109 | read positionally, the seed grid ends at `spacing`; it agrees with the intended end `start + spacing` if and only if `start == 0` |
| `UpdateAccuracy.EulerLinearFactor` | time_integrator.py:67-68 | on u' = lam*u one Euler step multiplies the state by 1 + h*lam |
| `UpdateAccuracy.RK4LinearFactor` | time_integrator.py:76-81 | on u' = lam*u one RK4 step multiplies the state by 1 + z + z^2/2 + z^3/6 + z^4/24, z = h*lam |
| `UpdateAccuracy.RK4ExactForCubicForcing` | time_integrator.py:76-81 | with forcing cubic in t, one RK4 step from the exact solution lands on the exact solution |
| `UpdateAccuracy.AB2ExactForLinearForcing` | time_integrator.py:97-98 | with forcing linear in t, one AB2 step from two exact values lands on the exact solution |
| `NaiveScript.KnownMethod` | naive_script.py:56-57 | the method strings the first assertion accepts: "euler", "RK4", "AB2". No ensures; `NaiveScript.SelectorsCheckedFirst` and `NaiveScript.Expected` state its role |
| `NaiveScript.KnownReturn` | naive_script.py:58-59 | the `ret` strings the second assertion accepts: "last", "all". No ensures; `NaiveScript.SelectorsCheckedFirst` and `NaiveScript.Expected` state its role |
| `NaiveScript.Output` | naive_script.py:134-137 | the two return shapes: the pair `(ts, us)` for `ret='all'`, the single final value for `ret='last'`. A datatype, with no contract of its own |
| `NaiveScript.EulerUpdate` | naive_script.py:30-31 | `euler_update` itself. No ensures; `NaiveScript.UpdatesAgree` relates it to the refactored formula |
| `NaiveScript.RK4Update` | naive_script.py:34-39 | `RK4_update` itself. No ensures; `NaiveScript.UpdatesAgree` relates it to the refactored formula |
| `NaiveScript.AB2Update` | naive_script.py:44-45 | `AB2_update` itself. No ensures; `NaiveScript.UpdatesAgree` relates it to the refactored formula |
| `NaiveScript.IntegratorFor` | naive_script.py:97-125 | the refactored integrator each method string stands for ("AB2" is AB2 seeded by one RK4 step, line 119). Every one is well formed, so its run never raises |
| `NaiveScript.Expected` | naive_script.py:50-139 | what `solve` should return, in terms of the refactored model. A result that does not raise means both selectors were known, and it is the all-states form exactly when `ret == 'all'` |
| `NaiveScript.UpdatesAgree` | naive_script.py:30-45 | `euler_update`, `RK4_update` and `AB2_update` are the refactored classes' update formulas |
| `NaiveScript.PickDomain` | naive_script.py:61-83 | all three of dt/steps/tf raise ValueError; fewer than two fail an assertion; a grid needs exactly two, starts at t0, keeps the given steps, spans t0 to tf when tf is given, and keeps the given dt when tf is not |
| `NaiveScript.ResolveGrid` | naive_script.py:61-80 | the validation branches and the reassigned `steps`/`dt` give exactly the refactored grid for the two arguments given |
| `NaiveScript.StepSingle` | naive_script.py:97-106 | the `euler`/`RK4` loops end with the refactored run's last state, and with the whole run in `us` when `ret='all'` |
| `NaiveScript.Step` | naive_script.py:97-125 | for a known method string, the loops end with the last state of the refactored run of the matching integrator, which does not raise, and `us` is that whole run when `ret='all'` |
| `NaiveScript.StepAB2` | naive_script.py:107-125 | the AB2 branch seeds with one RK4 step of size dt from `(t0, u0)`, then applies `AB2_update` over `ts[1:-1]` |
| `NaiveScript.Solve` | naive_script.py:50-139 | with the keyword defaults of line 52 (`ret='last'`, `method='euler'`, no dt/steps/tf), `solve` returns exactly the refactored grid and trajectory (`ret='all'`) or the refactored final value (`ret='last'`); it raises exactly the errors of the checks and divisions |
| `NaiveScript.SelectorsCheckedFirst` | naive_script.py:56-59 | a method outside {euler, RK4, AB2} or a `ret` outside {last, all} fails an assertion, whatever the grid arguments |
| `NaiveScript.GridArgumentsChecked` | naive_script.py:61-80 | with valid selectors, giving all three of dt/steps/tf raises ValueError and giving fewer than two fails an assertion |
| `NaiveScript.DtAndTfRectify` | naive_script.py:64-74 | on the dt + tf path, `steps = ceil((tf - t0)/dt) >= 1`, dt becomes `(tf - t0)/steps <= dt`, and the last time is tf |
| `NaiveScript.AllSingleStepRecurrence` | naive_script.py:83-106 | with `ret='all'` and euler/RK4, `ts` and `us` have `steps + 1` entries, `us[0] = u0`, and `us[i+1]` is one update of `us[i]` at `ts[i]` |
| `NaiveScript.AllAB2Seeding` | naive_script.py:107-125 | with `ret='all'` and AB2, for any step count: `us` has at least two entries, `us[0] = u0` and `us[1]` is one RK4 step of size dt from `(t0, u0)`; `ts` has `steps + 1` entries (none when `steps < 0`); `us` has `steps + 1` entries too when `steps >= 1`, and exactly two when `steps <= 1` |
| `NaiveScript.AllAB2Recurrence` | naive_script.py:115-125 | with `ret='all'` and AB2 on a grid of `steps >= 2`: `ts` and `us` have `steps + 1` entries, `us[0] = u0`, `us[1]` is one RK4 step from `(t0, u0)` and `us[i+1]` is `AB2_update(ts[i], us[i], us[i-1])` for `1 <= i < steps` |
| `NaiveScript.LastIsEndOfAll` | naive_script.py:84-137 | `ret='last'` returns the last entry of the `us` that `ret='all'` returns, and both raise alike |
| `NaiveScript.AllMatchesRefactoredSolve` | time_integrator.py:16-23 | with `ret='all'` and a valid grid, the refactored run cannot raise, and the script's expected result is the grid's samples with that run. This unfolds `Expected`. The equivalence itself is `NaiveScript.Solve`'s ensures, `r == Expected(...)` |

## Findings

| source | as written | input that shows it | evidently intended | confidence | as-written member | corrected member |
|---|---|---|---|---|---|---|
| time_integrator.py:106-109 | `TimeDomain_Start_Stop_Steps` is called with positional arguments, but its constructor takes keyword arguments only (time_domain.py:21). Every AB2 run raises TypeError after yielding `u0`. | `AB2(RK4(), 1)` on any grid, for instance start 0, 10 steps of 0.1 | build the seed grid with `start=`, `end=`, `steps=` | high; not executed | `TimeIntegrators.AsWrittenAB2AlwaysRaises` | `TimeIntegrators.AB2Seeding` |
| time_integrator.py:106-109 | the second argument is `time.spacing`, where the end time belongs, so the seed grid would end at `spacing` | a grid with start 1, 1 step, spacing 1: the seed grid ends at 1.0, but the second outer sample is 2.0 | end at `time.start + time.spacing`, one outer step from the start, as naive_script.py:119 does | medium; not executed | `TimeIntegrators.PositionalSeedEndsAtSpacing` | `TimeIntegrators.SeedDomainSpansOneStep` |

The rest of the model uses the corrected seed grid (`TimeIntegrators.SeedDomain`).

## Left out

- Floating point: all arithmetic is exact `real`. IEEE rounding is not modelled, for
  instance whether `ceil(10/0.1)` is exactly 100 in binary floating point. Neither are the
  global order-of-convergence claims. Only one-step growth factors and exactness are proved.
- Generator laziness and one-shot iteration: a run is a finished sequence, or the exception
  it ends in. The states a generator yields before it raises are not modelled, since `solve`
  and `t_final` only see the exception. One example is AB2 yielding `u0` before its seed grid
  raises.
- TimeIntegrators.TFinal: drains a listed run rather than a lazy stream, so the constant
  memory of the source's `t_final` is not modelled. What it returns is the same.
- Vector states: the state is a scalar `real`.
- The right-hand side: it is a pure, total function of `(t, u)`. Exceptions or side effects
  inside `rhs` are not modelled.
- Non-integer step counts: the model takes integer step counts only.
- The `print` of the rectified time step (naive_script.py:73): only the rectified `dt` and
  `steps` are modelled.
- The unreachable `raise ValueError('The program should never reach this point.')` branches
  (naive_script.py:126-127, 138-139): the earlier assertions exclude them.
- NaiveScript.StepSingle: models the script's two copies of the single-step loop as one
  loop that picks the update formula on each step. The calls happen in the same order.
- The abstract base classes (`name`, `solution_generator`, `update` raising
  NotImplementedError): the integrator family is a closed datatype, so these cases do not
  arise.
- driver.py, the manufactured-solution set-up, the plotting and the convergence estimates of
  naive_script.py:141-219 are not part of this model. They are symbolic and plotting I/O.
- The heat-equation code (bad_script.py, grid.py, boundary_condition.py, model.py) is not
  part of this model. It is a separate linear-algebra problem.
