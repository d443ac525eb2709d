/** What the update formulas get right, against exact solutions of u' = f(t, u): the
    linear test equation u' = lam * u, whose exact one-step factor is exp(h * lam), and
    forcing terms that depend on t alone, whose exact solutions are polynomials. */
module UpdateAccuracy {
  import opened TimeIntegrators

  /** On u' = lam * u one Euler step multiplies the state by 1 + z, z = h * lam:
      the Taylor polynomial of exp(z) of degree one. */
  lemma EulerLinearFactor(f: Rhs, lam: real, t: real, u: real, h: real)
    requires forall s, v :: f(s, v) == lam * v
    ensures EulerUpdate(t, u, f, h) == (1.0 + h * lam) * u
  {
  }

  /** On u' = lam * u one RK4 step multiplies the state by the Taylor polynomial of
      exp(z) of degree four, z = h * lam. */
  lemma RK4LinearFactor(f: Rhs, lam: real, t: real, u: real, h: real)
    requires forall s, v :: f(s, v) == lam * v
    ensures var z := h * lam;
      RK4Update(t, u, f, h) == (1.0 + z + z * z / 2.0 + z * z * z / 6.0 + z * z * z * z / 24.0) * u
  {
  }

  /** The exact solution of u' = a + b*t + c*t^2 + d*t^3 through (0, u0). */
  function Quartic(u0: real, a: real, b: real, c: real, d: real, t: real): (r: real)
  {
    u0 + a * t + b * t * t / 2.0 + c * t * t * t / 3.0 + d * t * t * t * t / 4.0
  }

  /** RK4 is exact when the forcing is a cubic in t: from a point on the exact solution
      one step lands on the exact solution again. RK4 then weighs the forcing at t,
      t + h/2 and t + h as Simpson's rule does, which integrates cubics exactly. */
  lemma RK4ExactForCubicForcing(f: Rhs, u0: real, a: real, b: real, c: real, d: real, t: real, h: real)
    requires forall s, v :: f(s, v) == a + b * s + c * s * s + d * s * s * s
    ensures RK4Update(t, Quartic(u0, a, b, c, d, t), f, h) == Quartic(u0, a, b, c, d, t + h)
  {
  }

  /** The exact solution of u' = a + b*t through (0, u0). */
  function Quadratic(u0: real, a: real, b: real, t: real): (r: real)
  {
    u0 + a * t + b * t * t / 2.0
  }

  /** AB2 is exact when the forcing is linear in t: from two points on the exact solution
      one step lands on the exact solution again. */
  lemma AB2ExactForLinearForcing(f: Rhs, u0: real, a: real, b: real, t: real, h: real)
    requires forall s, v :: f(s, v) == a + b * s
    ensures AB2Update(t, Quadratic(u0, a, b, t), Quadratic(u0, a, b, t - h), f, h) == Quadratic(u0, a, b, t + h)
  {
    assert f(t, Quadratic(u0, a, b, t)) == a + b * t;
    assert f(t - h, Quadratic(u0, a, b, t - h)) == a + b * (t - h);
    assert (t + h) * (t + h) - t * t == 2.0 * t * h + h * h;
  }
}
