/** The time-integration strategies (time_integrator.py): single-step methods that
    supply only an update formula, and AB2, which seeds its second state with another
    integrator. A run yields one state per sample time of a TimeDomain; `Solve` keeps
    them all and `TFinal` keeps the last. */
module TimeIntegrators {
  import opened Outcomes
  import opened TimeDomains

  /** The right-hand side f of u' = f(t, u); the state is a scalar. */
  type Rhs = (real, real) -> real

  datatype SingleStepMethod = Euler | RK4

  /** The integrator classes: a single-step method, or AB2 with its seed integrator
      and the number of seed steps it takes across one outer step. */
  datatype TimeIntegrator =
    | SingleStep(stepper: SingleStepMethod)
    | AB2(seed: TimeIntegrator, seedSteps: int)

  /** The `name` property of each class. */
  function Name(m: TimeIntegrator): (r: string)
  {
    match m
    case SingleStep(Euler) => "Euler"
    case SingleStep(RK4) => "RK4"
    case AB2(seed, _) => "AB2 (seed: " + Name(seed) + ")"
  }

  /** Two integrators are the same chain of methods when they differ at most in their seed-step counts. */
  predicate SameChain(m1: TimeIntegrator, m2: TimeIntegrator)
  {
    match m1
    case SingleStep(s1) => m2.SingleStep? && m2.stepper == s1
    case AB2(seed1, _) => m2.AB2? && SameChain(seed1, m2.seed)
  }

  // ---------------------------------------------------------------------------
  // Update formulas

  /** Euler.update: one forward Euler step of size h from (t, u). */
  function EulerUpdate(t: real, u: real, f: Rhs, h: real): (r: real)
  {
    u + h * f(t, u)
  }

  /** RK4.update: one classical Runge-Kutta step, with stages at t, t + h/2, t + h/2 and t + h. */
  function RK4Update(t: real, u: real, f: Rhs, h: real): (r: real)
  {
    var k1 := f(t, u);
    var k2 := f(t + h / 2.0, u + h / 2.0 * k1);
    var k3 := f(t + h / 2.0, u + h / 2.0 * k2);
    var k4 := f(t + h, u + h * k3);
    u + h / 6.0 * (k1 + 2.0 * k2 + 2.0 * k3 + k4)
  }

  /** The `update` a single-step subclass supplies. */
  function Update(m: SingleStepMethod, t: real, u: real, f: Rhs, h: real): (r: real)
  {
    match m
    case Euler => EulerUpdate(t, u, f, h)
    case RK4 => RK4Update(t, u, f, h)
  }

  /** AB2.update: the two-point Adams-Bashforth step from the current state y at t
      and the previous state yOld at t - h. */
  function AB2Update(t: real, y: real, yOld: real, f: Rhs, h: real): (r: real)
  {
    y + 3.0 / 2.0 * h * f(t, y) - 1.0 / 2.0 * h * f(t - h, yOld)
  }

  // ---------------------------------------------------------------------------
  // What a run yields

  /** The states a single-step method yields: `u0`, then one update at each time of `ts`. */
  function SingleStepRun(m: SingleStepMethod, u0: real, f: Rhs, ts: seq<real>, h: real): (us: seq<real>)
    ensures |us| == |ts| + 1 && us[0] == u0
    decreases |ts|
  {
    if ts == [] then [u0]
    else
      var prev := SingleStepRun(m, u0, f, ts[..|ts| - 1], h);
      prev + [Update(m, ts[|ts| - 1], prev[|prev| - 1], f, h)]
  }

  /** The states AB2 yields from `u0` and the seeded `u1`: one AB2 update at each time of `ts`. */
  function AB2Run(u0: real, u1: real, f: Rhs, ts: seq<real>, h: real): (us: seq<real>)
    ensures |us| == |ts| + 2 && us[0] == u0 && us[1] == u1
    decreases |ts|
  {
    if ts == [] then [u0, u1]
    else
      var prev := AB2Run(u0, u1, f, ts[..|ts| - 1], h);
      prev + [AB2Update(ts[|ts| - 1], prev[|prev| - 1], prev[|prev| - 2], f, h)]
  }

  /** The seed domain AB2 intends: the first outer step, from `start` to `start + spacing`,
      split into `seedSteps` steps. */
  function SeedDomain(d: TimeDomain, seedSteps: int): (r: Result<TimeDomain>)
    ensures r.Err? <==> seedSteps == 0
    ensures r.Ok? ==> r.value.start == d.start && r.value.steps == seedSteps
  {
    StartStopSteps(d.start, d.start + d.spacing, seedSteps)
  }

  /** The seed-domain call as written: the keyword-only constructor is given positional
      arguments, so the call raises before the constructor runs. */
  function SeedDomainAsWritten(d: TimeDomain, seedSteps: int): (r: Result<TimeDomain>)
  {
    Err(TypeError)
  }

  /** The seed domain the positional arguments would describe if the constructor accepted
      them: `time.spacing` lands where the end time belongs. */
  function SeedDomainPositional(d: TimeDomain, seedSteps: int): (r: Result<TimeDomain>)
  {
    StartStopSteps(d.start, d.spacing, seedSteps)
  }

  /** Everything `solution_generator` yields, or the exception it raises on the way. */
  function Trajectory(m: TimeIntegrator, u0: real, f: Rhs, d: TimeDomain): (r: Result<seq<real>>)
    ensures r.Ok? ==> |r.value| >= 1 && r.value[0] == u0
    decreases m, 1
  {
    match m
    case SingleStep(s) => Ok(SingleStepRun(s, u0, f, AllButLast(Samples(d)), d.spacing))
    case AB2(seed, k) => AB2Trajectory(SeedDomain(d, k), seed, u0, f, d)
  }

  /** AB2's run, given what the seed-domain constructor call came to. */
  function AB2Trajectory(seedDomain: Result<TimeDomain>, seed: TimeIntegrator, u0: real, f: Rhs, d: TimeDomain)
    : (r: Result<seq<real>>)
    ensures r.Ok? ==> |r.value| >= 2 && r.value[0] == u0
    decreases seed, 2
  {
    match seedDomain
    case Err(e) => Err(e)
    case Ok(sd) =>
      match Trajectory(seed, u0, f, sd)
      case Err(e) => Err(e)
      case Ok(ss) => Ok(AB2Run(u0, ss[|ss| - 1], f, Interior(Samples(d)), d.spacing))
  }

  /** An integrator runs without raising exactly when no AB2 in it has zero seed steps. */
  predicate WellFormed(m: TimeIntegrator)
  {
    match m
    case SingleStep(_) => true
    case AB2(seed, k) => k != 0 && WellFormed(seed)
  }

  // ---------------------------------------------------------------------------
  // The generators and the two ways of consuming them

  /** SingleStepMethod.solution_generator: yield `u0`, then update once per sample time but the last. */
  method SingleStepGenerator(m: SingleStepMethod, u0: real, f: Rhs, d: TimeDomain) returns (us: seq<real>)
    ensures Trajectory(SingleStep(m), u0, f, d) == Ok(us)
  {
    var ts := AllButLast(Samples(d));
    var u := u0;
    us := [u];
    for i := 0 to |ts|
      invariant us == SingleStepRun(m, u0, f, ts[..i], d.spacing)
      invariant u == us[|us| - 1]
    {
      assert ts[..i + 1][..i] == ts[..i];
      u := Update(m, ts[i], u, f, d.spacing);
      us := us + [u];
    }
    assert ts[..|ts|] == ts;
  }

  /** AB2.solution_generator: yield `u0`, then the seed integrator's final value over the
      seed domain, then one AB2 update per interior sample time. */
  method AB2Generator(seed: TimeIntegrator, seedSteps: int, u0: real, f: Rhs, d: TimeDomain)
    returns (r: Result<seq<real>>)
    ensures r == Trajectory(AB2(seed, seedSteps), u0, f, d)
    decreases AB2(seed, seedSteps), 0
  {
    var seedDomain := SeedDomain(d, seedSteps);
    if seedDomain.Err? {
      return Err(seedDomain.error);
    }
    var seeded := TFinal(seed, u0, f, seedDomain.value);
    if seeded.Err? {
      return Err(seeded.error);
    }
    var ts := Interior(Samples(d));
    var u, uOld := seeded.value, u0;
    var us := [u0, u];
    for i := 0 to |ts|
      invariant us == AB2Run(u0, seeded.value, f, ts[..i], d.spacing)
      invariant u == us[|us| - 1] && uOld == us[|us| - 2]
    {
      assert ts[..i + 1][..i] == ts[..i];
      u, uOld := AB2Update(ts[i], u, uOld, f, d.spacing), u;
      us := us + [u];
    }
    assert ts[..|ts|] == ts;
    return Ok(us);
  }

  /** The `solution_generator` of whichever class `m` is. */
  method SolutionGenerator(m: TimeIntegrator, u0: real, f: Rhs, d: TimeDomain) returns (r: Result<seq<real>>)
    ensures r == Trajectory(m, u0, f, d)
    decreases m, 1
  {
    match m
    case SingleStep(s) =>
      var us := SingleStepGenerator(s, u0, f, d);
      r := Ok(us);
    case AB2(seed, k) =>
      r := AB2Generator(seed, k, u0, f, d);
  }

  /** TimeIntegrator.t_final: drain the generator, keeping only the last state. It raises
      exactly when the run raises, and otherwise returns the last state `Solve` lists. */
  method TFinal(m: TimeIntegrator, u0: real, f: Rhs, d: TimeDomain) returns (r: Result<real>)
    ensures r.Ok? <==> Trajectory(m, u0, f, d).Ok?
    ensures r.Err? ==> r.error == Trajectory(m, u0, f, d).error
    ensures r.Ok? ==> r.value == Trajectory(m, u0, f, d).value[|Trajectory(m, u0, f, d).value| - 1]
    decreases m, 2
  {
    var run := SolutionGenerator(m, u0, f, d);
    if run.Err? {
      return Err(run.error);
    }
    var us := run.value;
    var u := us[0];
    for i := 1 to |us|
      invariant u == us[i - 1]
    {
      u := us[i];
    }
    return Ok(u);
  }

  /** TimeIntegrator.solve: the sample times paired with the list of every yielded state. */
  method Solve(m: TimeIntegrator, u0: real, f: Rhs, d: TimeDomain) returns (r: Result<(seq<real>, seq<real>)>)
    ensures r.Ok? <==> Trajectory(m, u0, f, d).Ok?
    ensures r.Err? ==> r.error == Trajectory(m, u0, f, d).error
    ensures r.Ok? ==> r.value.0 == Samples(d) && r.value.1 == Trajectory(m, u0, f, d).value
  {
    var run := SolutionGenerator(m, u0, f, d);
    if run.Err? {
      return Err(run.error);
    }
    return Ok((Samples(d), run.value));
  }

  // ---------------------------------------------------------------------------
  // Properties of the runs

  /** A single-step run starts at `u0` and state `i + 1` is one update from state `i` at `ts[i]`. */
  lemma {:induction false} SingleStepRunAt(m: SingleStepMethod, u0: real, f: Rhs, ts: seq<real>, h: real, i: int)
    requires 0 <= i < |ts|
    ensures SingleStepRun(m, u0, f, ts, h)[0] == u0
    ensures SingleStepRun(m, u0, f, ts, h)[i + 1] == Update(m, ts[i], SingleStepRun(m, u0, f, ts, h)[i], f, h)
    decreases |ts|
  {
    var prev := SingleStepRun(m, u0, f, ts[..|ts| - 1], h);
    if i < |ts| - 1 {
      SingleStepRunAt(m, u0, f, ts[..|ts| - 1], h, i);
    } else if |ts| > 1 {
      SingleStepRunAt(m, u0, f, ts[..|ts| - 1], h, 0);
    }
  }

  /** An AB2 run starts at `u0, u1` and state `i + 2` is one AB2 update from states `i + 1` and `i` at `ts[i]`. */
  lemma {:induction false} AB2RunAt(u0: real, u1: real, f: Rhs, ts: seq<real>, h: real, i: int)
    requires 0 <= i < |ts|
    ensures AB2Run(u0, u1, f, ts, h)[0] == u0 && AB2Run(u0, u1, f, ts, h)[1] == u1
    ensures var us := AB2Run(u0, u1, f, ts, h); us[i + 2] == AB2Update(ts[i], us[i + 1], us[i], f, h)
    decreases |ts|
  {
    if i < |ts| - 1 {
      AB2RunAt(u0, u1, f, ts[..|ts| - 1], h, i);
    } else if |ts| > 1 {
      AB2RunAt(u0, u1, f, ts[..|ts| - 1], h, 0);
    }
  }

  /** A run yields one state per sample time when the domain has a step: `steps + 1`
      states. With no step a single-step run still yields `u0` and AB2 still yields two. */
  lemma TrajectoryLength(m: TimeIntegrator, u0: real, f: Rhs, d: TimeDomain)
    ensures Trajectory(m, u0, f, d).Ok? ==>
      |Trajectory(m, u0, f, d).value| == if m.AB2? then Max(2, d.steps + 1) else Max(1, d.steps + 1)
    ensures Trajectory(m, u0, f, d).Ok? && d.steps >= 1 ==>
      |Trajectory(m, u0, f, d).value| == |Samples(d)| == d.steps + 1
  {
  }

  /** A run raises exactly when some AB2 in the integrator has zero seed steps, and
      then with a division by zero. */
  lemma {:induction false} TrajectoryOkIffWellFormed(m: TimeIntegrator, u0: real, f: Rhs, d: TimeDomain)
    ensures Trajectory(m, u0, f, d).Ok? <==> WellFormed(m)
    ensures Trajectory(m, u0, f, d).Err? ==> Trajectory(m, u0, f, d).error == ZeroDivision
    decreases m
  {
    match m
    case SingleStep(_) =>
    case AB2(seed, k) =>
      if k != 0 {
        TrajectoryOkIffWellFormed(seed, u0, f, SeedDomain(d, k).value);
      }
  }

  /** Every state of a single-step run is one update from the one before, at the earlier sample time. */
  lemma SingleStepRecurrence(m: SingleStepMethod, u0: real, f: Rhs, d: TimeDomain, i: int)
    requires 0 <= i < d.steps
    ensures var us := Trajectory(SingleStep(m), u0, f, d).value;
      |us| == d.steps + 1 && us[0] == u0 &&
      us[i + 1] == Update(m, Samples(d)[i], us[i], f, d.spacing)
  {
    SingleStepRunAt(m, u0, f, AllButLast(Samples(d)), d.spacing, i);
  }

  /** The seed domain spans exactly the first outer step: it starts at `start`, its
      `seedSteps` steps of `spacing / seedSteps` end at `start + spacing`, which is the
      second outer sample time. */
  lemma SeedDomainSpansOneStep(d: TimeDomain, seedSteps: int)
    requires seedSteps >= 1
    ensures SeedDomain(d, seedSteps).Ok?
    ensures var sd := SeedDomain(d, seedSteps).value;
      sd.start == d.start && sd.steps == seedSteps && sd.spacing * seedSteps as real == d.spacing &&
      Samples(sd)[0] == d.start && Samples(sd)[seedSteps] == d.start + d.spacing
    ensures d.steps >= 1 ==> Samples(SeedDomain(d, seedSteps).value)[seedSteps] == Samples(d)[1]
  {
    StartStopStepsEndsAtEnd(d.start, d.start + d.spacing, seedSteps);
  }

  /** AB2 yields `u0` first and then the seed integrator's final value over the seed domain. */
  lemma AB2Seeding(seed: TimeIntegrator, seedSteps: int, u0: real, f: Rhs, d: TimeDomain)
    requires Trajectory(AB2(seed, seedSteps), u0, f, d).Ok?
    ensures SeedDomain(d, seedSteps).Ok? && Trajectory(seed, u0, f, SeedDomain(d, seedSteps).value).Ok?
    ensures var us := Trajectory(AB2(seed, seedSteps), u0, f, d).value;
      var ss := Trajectory(seed, u0, f, SeedDomain(d, seedSteps).value).value;
      us[0] == u0 && us[1] == ss[|ss| - 1]
  {
  }

  /** From the second state on, each AB2 state is one AB2 update, with the outer spacing,
      from the two states before it. */
  lemma AB2Recurrence(seed: TimeIntegrator, seedSteps: int, u0: real, f: Rhs, d: TimeDomain, i: int)
    requires Trajectory(AB2(seed, seedSteps), u0, f, d).Ok?
    requires 1 <= i <= d.steps - 1
    ensures var us := Trajectory(AB2(seed, seedSteps), u0, f, d).value;
      |us| == d.steps + 1 &&
      us[i + 1] == AB2Update(Samples(d)[i], us[i], us[i - 1], f, d.spacing)
  {
    var ss := Trajectory(seed, u0, f, SeedDomain(d, seedSteps).value).value;
    AB2RunAt(u0, ss[|ss| - 1], f, Interior(Samples(d)), d.spacing, i - 1);
  }

  /** On a domain of at most one step AB2 yields just `u0` and the seeded value: the AB2
      update is never applied. */
  lemma AB2WithoutUpdates(seed: TimeIntegrator, seedSteps: int, u0: real, f: Rhs, d: TimeDomain)
    requires Trajectory(AB2(seed, seedSteps), u0, f, d).Ok?
    requires d.steps <= 1
    ensures SeedDomain(d, seedSteps).Ok? && Trajectory(seed, u0, f, SeedDomain(d, seedSteps).value).Ok?
    ensures var ss := Trajectory(seed, u0, f, SeedDomain(d, seedSteps).value).value;
      Trajectory(AB2(seed, seedSteps), u0, f, d).value == [u0, ss[|ss| - 1]]
  {
  }

  /** AB2 seeded by a single RK4 step takes that one RK4 step of the outer spacing from `(start, u0)`. */
  lemma AB2WithOneRK4Step(u0: real, f: Rhs, d: TimeDomain)
    ensures Trajectory(AB2(SingleStep(RK4), 1), u0, f, d)
      == Ok(AB2Run(u0, RK4Update(d.start, u0, f, d.spacing), f, Interior(Samples(d)), d.spacing))
  {
    var sd := SeedDomain(d, 1).value;
    assert sd == TimeDomain(d.start, 1, d.spacing);
    assert AllButLast(Samples(sd)) == [d.start];
  }

  /** Names tell integrators apart up to their seed-step counts: two names agree exactly
      when the integrators are the same chain of methods. */
  lemma {:induction false} NamesIdentifyChains(m1: TimeIntegrator, m2: TimeIntegrator)
    ensures Name(m1) == Name(m2) <==> SameChain(m1, m2)
    decreases m1
  {
    var prefix := "AB2 (seed: ";
    match m1
    case SingleStep(_) =>
      if m2.AB2? {
        assert Name(m2)[0] == 'A';
      }
    case AB2(seed1, _) =>
      if m2.AB2? {
        NamesIdentifyChains(seed1, m2.seed);
        var n1, n2 := Name(m1), Name(m2);
        if n1 == n2 {
          assert Name(seed1) == n1[|prefix|..|n1| - 1];
          assert Name(m2.seed) == n2[|prefix|..|n2| - 1];
        }
      } else {
        assert Name(m1)[0] == 'A';
      }
  }

  /** The seed-domain call as written raises, so every AB2 run raises a TypeError. */
  lemma AsWrittenAB2AlwaysRaises(seed: TimeIntegrator, seedSteps: int, u0: real, f: Rhs, d: TimeDomain)
    ensures AB2Trajectory(SeedDomainAsWritten(d, seedSteps), seed, u0, f, d) == Err(TypeError)
    ensures WellFormed(AB2(seed, seedSteps)) ==> Trajectory(AB2(seed, seedSteps), u0, f, d).Ok?
  {
    TrajectoryOkIffWellFormed(AB2(seed, seedSteps), u0, f, d);
  }

  /** Read positionally, the seed domain would end at `spacing` instead of `start + spacing`:
      the two agree exactly when the outer domain starts at zero. */
  lemma PositionalSeedEndsAtSpacing(d: TimeDomain, seedSteps: int)
    requires seedSteps >= 1
    ensures SeedDomainPositional(d, seedSteps).Ok? && SeedDomain(d, seedSteps).Ok?
    ensures Samples(SeedDomainPositional(d, seedSteps).value)[seedSteps] == d.spacing
    ensures (Samples(SeedDomainPositional(d, seedSteps).value)[seedSteps]
      == Samples(SeedDomain(d, seedSteps).value)[seedSteps]) <==> d.start == 0.0
  {
    StartStopStepsEndsAtEnd(d.start, d.spacing, seedSteps);
    StartStopStepsEndsAtEnd(d.start, d.start + d.spacing, seedSteps);
  }
}
