/**
 * ODE solver state and the explicit Euler rule (physical_systems/ode_solvers/
 * and the older physical_systems/solvers.py), plus the Jacobian and rebuild
 * bookkeeping of the SciPy wrappers. The right-hand side is any function of
 * time, state and the stored extra parameters.
 */
module OdeSolvers {
  import opened Common

  /** `system_equation(t, y, *f_params)`. */
  type SystemEquation<-P> = (real, seq<real>, P) -> seq<real>

  /** `system_jacobian(t, y, *f_params)`. */
  type SystemJacobian<-P> = (real, seq<real>, P) -> seq<seq<real>>

  /** On states of dimension `n` the derivative has dimension `n` too, as
    * every system equation of the simulator returns. */
  ghost predicate ShapePreserving<P(!new)>(f: SystemEquation<P>, n: nat)
  {
    forall t, y, p :: |y| == n ==> |f(t, y, p)| == n
  }

  /** One explicit Euler step from `t0` to `t`, evaluating the derivative at `t0`. */
  function EulerStep<P(!new)>(f: SystemEquation<P>, p: P, t0: real, y: seq<real>, t: real): (r: seq<real>)
    requires ShapePreserving(f, |y|)
    ensures |r| == |y|
  {
    Add(y, Scale(t - t0, f(t0, y, p)))
  }

  /** Integrating to the current time leaves the state as it is. */
  lemma EulerStepToSameTime<P(!new)>(f: SystemEquation<P>, p: P, t0: real, y: seq<real>)
    requires ShapePreserving(f, |y|)
    ensures EulerStep(f, p, t0, y, t0) == y
  {
    assert forall i :: 0 <= i < |y| ==> EulerStep(f, p, t0, y, t0)[i] == y[i];
  }

  /** `n` Euler updates of width `h`; the i-th (counting from 0) evaluates the
    * derivative at `first + i * h`. */
  function NStepEuler<P(!new)>(f: SystemEquation<P>, p: P, y: seq<real>, first: real, h: real, n: nat): (r: seq<real>)
    requires ShapePreserving(f, |y|)
    ensures |r| == |y|
  {
    if n == 0 then y
    else
      var s := NStepEuler(f, p, y, first, h, n - 1);
      Add(s, Scale(h, f(first + (n - 1) as real * h, s, p)))
  }

  lemma NStepEulerUnfold<P(!new)>(f: SystemEquation<P>, p: P, y: seq<real>, first: real, h: real, i: nat)
    requires ShapePreserving(f, |y|)
    ensures var s := NStepEuler(f, p, y, first, h, i);
            NStepEuler(f, p, y, first, h, i + 1) == Add(s, Scale(h, f(first + i as real * h, s, p)))
  {
  }

  /** The times at which `NStepEuler` evaluates the derivative. */
  function EvaluationTimes(first: real, h: real, n: nat): (ts: seq<real>)
    ensures |ts| == n && forall i :: 0 <= i < n ==> ts[i] == first + i as real * h
  {
    seq(n, i => first + i as real * h)
  }

  /** The n-step loop as written: `current_t` starts at the target `t` and each
    * update evaluates at `current_t + h`, so the derivative is taken at
    * `t + h, t + 2h, ..., t + n h`. */
  function NStepEulerAsWritten<P(!new)>(f: SystemEquation<P>, p: P, y: seq<real>, t0: real, t: real, n: nat): (r: seq<real>)
    requires ShapePreserving(f, |y|) && n > 0
    ensures |r| == |y|
  {
    var h := (t - t0) / n as real;
    NStepEuler(f, p, y, t + h, h, n)
  }

  /** The n-step rule the class documents: each substep evaluates the derivative
    * at its own start, `t0 + i h`. */
  function NStepEulerIntended<P(!new)>(f: SystemEquation<P>, p: P, y: seq<real>, t0: real, t: real, n: nat): (r: seq<real>)
    requires ShapePreserving(f, |y|) && n > 0
    ensures |r| == |y|
  {
    var h := (t - t0) / n as real;
    NStepEuler(f, p, y, t0, h, n)
  }

  /** As written, every evaluation time of a forward step lies after the target. */
  lemma AsWrittenEvaluatesAfterTarget(t0: real, t: real, n: nat, i: nat)
    requires t0 < t && 0 < n && i < n
    ensures var h := (t - t0) / n as real; EvaluationTimes(t + h, h, n)[i] > t
  {
    var h := (t - t0) / n as real;
    assert h > 0.0;
    assert i as real * h >= 0.0;
  }

  /** The intended rule evaluates only inside the step, in [t0, t). */
  lemma IntendedEvaluatesInsideStep(t0: real, t: real, n: nat, i: nat)
    requires t0 < t && 0 < n && i < n
    ensures var h := (t - t0) / n as real;
            t0 <= EvaluationTimes(t0, h, n)[i] < t
  {
    var h := (t - t0) / n as real;
    assert h * n as real == t - t0;
    assert i as real * h < n as real * h by {
      assert (n as real - i as real) * h > 0.0;
    }
  }

  /** With one substep the intended rule is the one-step rule. */
  lemma IntendedSingleStepIsEulerStep<P(!new)>(f: SystemEquation<P>, p: P, y: seq<real>, t0: real, t: real)
    requires ShapePreserving(f, |y|)
    ensures NStepEulerIntended(f, p, y, t0, t, 1) == EulerStep(f, p, t0, y, t)
  {
    var h := (t - t0) / 1 as real;
    assert h == t - t0;
    assert t0 + 0 as real * h == t0;
    assert NStepEuler(f, p, y, t0, h, 1) == Add(y, Scale(h, f(t0, y, p)));
  }

  /** For an equation that does not depend on time the two rules agree, so the
    * discrepancy only shows with time-dependent loads. */
  lemma {:induction false} AutonomousRulesAgree<P(!new)>(f: SystemEquation<P>, p: P, y: seq<real>, a: real, b: real, h: real, n: nat)
    requires ShapePreserving(f, |y|)
    requires forall s, u, z :: f(s, z, p) == f(u, z, p)
    ensures NStepEuler(f, p, y, a, h, n) == NStepEuler(f, p, y, b, h, n)
  {
    if n > 0 {
      AutonomousRulesAgree(f, p, y, a, b, h, n - 1);
      var s := NStepEuler(f, p, y, a, h, n - 1);
      assert f(a + (n - 1) as real * h, s, p) == f(b + (n - 1) as real * h, s, p);
    }
  }

  /** The derivative `f(t, y) = t` in every component. */
  function TimeAsRate(s: real, z: seq<real>, q: int): (r: seq<real>)
    ensures |r| == |z| && forall i :: 0 <= i < |z| ==> r[i] == s
  {
    seq(|z|, i => s)
  }

  /** `f(t, y) = t` from `y = [0]` over [0, 1] in two substeps: the rule as
    * written gives 1.75, the intended rule 0.25 (the exact solution is 0.5). */
  lemma AsWrittenCounterexample()
    ensures NStepEulerAsWritten(TimeAsRate, 0, [0.0], 0.0, 1.0, 2) == [1.75]
    ensures NStepEulerIntended(TimeAsRate, 0, [0.0], 0.0, 1.0, 2) == [0.25]
  {
    assert (1.0 - 0.0) / 2 as real == 0.5;
    var w1 := NStepEuler(TimeAsRate, 0, [0.0], 1.5, 0.5, 1);
    assert w1 == Add([0.0], Scale(0.5, TimeAsRate(1.5, [0.0], 0)));
    assert w1 == [0.75];
    var w2 := NStepEuler(TimeAsRate, 0, [0.0], 1.5, 0.5, 2);
    assert w2 == Add(w1, Scale(0.5, TimeAsRate(2.0, w1, 0)));
    assert w2 == [1.75];
    var c1 := NStepEuler(TimeAsRate, 0, [0.0], 0.0, 0.5, 1);
    assert c1 == Add([0.0], Scale(0.5, TimeAsRate(0.0, [0.0], 0)));
    assert c1 == [0.0];
    var c2 := NStepEuler(TimeAsRate, 0, [0.0], 0.0, 0.5, 2);
    assert c2 == Add(c1, Scale(0.5, TimeAsRate(0.5, c1, 0)));
    assert c2 == [0.25];
  }

  /** The Euler solver (ode_solvers/euler_solver.py and solvers.py): the state
    * `y` at time `t`, the stored equation, Jacobian and extra parameters, and
    * the number of substeps chosen at construction. Attributes the source
    * leaves at `None` until they are set are `None` here. */
  class EulerSolver<P(!new)> {
    var t: real
    var y: Option<seq<real>>
    var fParams: Option<P>
    var systemEquation: Option<SystemEquation<P>>
    var systemJacobian: Option<SystemJacobian<P>>
    const nsteps: int

    ghost predicate Valid()
      reads this
    {
      systemEquation.Some? && y.Some? ==> ShapePreserving(systemEquation.value, |y.value|)
    }

    /** `nsteps == 1` selects the one-step rule, anything else the n-step loop. */
    predicate UsesOneStep()
    {
      nsteps == 1
    }

    constructor (nsteps: int)
      ensures this.nsteps == nsteps && t == 0.0
      ensures y == None && fParams == None && systemEquation == None && systemJacobian == None
      ensures Valid()
    {
      this.nsteps := nsteps;
      t := 0.0;
      y, fParams, systemEquation, systemJacobian := None, None, None, None;
    }

    method SetInitialValue(initialValue: seq<real>, t0: real)
      requires systemEquation.Some? ==> ShapePreserving(systemEquation.value, |initialValue|)
      modifies this
      ensures Valid()
      ensures y == Some(initialValue) && t == t0
      ensures fParams == old(fParams) && systemEquation == old(systemEquation)
      ensures systemJacobian == old(systemJacobian)
    {
      y := Some(initialValue);
      t := t0;
    }

    method SetSystemEquation(f: SystemEquation<P>, jac: Option<SystemJacobian<P>>)
      requires y.Some? ==> ShapePreserving(f, |y.value|)
      modifies this
      ensures systemEquation == Some(f) && systemJacobian == jac && Valid()
      ensures t == old(t) && y == old(y) && fParams == old(fParams)
    {
      systemEquation := Some(f);
      systemJacobian := jac;
    }

    method SetFParams(p: P)
      requires Valid()
      modifies this
      ensures Valid() && fParams == Some(p)
      ensures t == old(t) && y == old(y) && systemEquation == old(systemEquation)
      ensures systemJacobian == old(systemJacobian)
    {
      fParams := Some(p);
    }

    /** Everything `integrate` reads has been set. */
    predicate Ready()
      reads this
    {
      y.Some? && fParams.Some? && systemEquation.Some?
    }

    /** `integrate(t)`: the one-step rule or the substep loop. `nsteps == 0`
      * fails (a division by zero); a positive count fails while the state,
      * equation or parameters are missing. A negative count runs no substep,
      * so it needs only the state. */
    method Integrate(target: real) returns (r: Result<seq<real>>)
      requires Valid()
      modifies this
      ensures Valid()
      ensures fParams == old(fParams) && systemEquation == old(systemEquation)
      ensures systemJacobian == old(systemJacobian)
      ensures r.Err? <==> nsteps == 0 || (nsteps > 0 && !old(Ready())) || (nsteps < 0 && old(y).None?)
      ensures r.Err? ==> t == old(t) && y == old(y)
      ensures r.Ok? ==> t == target && y == Some(r.value)
      ensures r.Ok? && nsteps > 0 ==> Ready()
      ensures r.Ok? && UsesOneStep() ==>
                r.value == EulerStep(systemEquation.value, fParams.value, old(t), old(y).value, target)
      ensures r.Ok? && nsteps > 1 ==>
                r.value == NStepEulerIntended(systemEquation.value, fParams.value, old(y).value, old(t), target, nsteps)
      ensures r.Ok? && nsteps < 0 ==> r.value == old(y).value
    {
      if nsteps == 0 {
        return Err("ZeroDivisionError");
      }
      if (nsteps > 0 && !Ready()) || (nsteps < 0 && y.None?) {
        return Err("TypeError: solver not initialised");
      }
      if nsteps == 1 {
        var next := IntegrateOneStep(target);
        r := Ok(next);
      } else {
        var next := IntegrateNSteps(target);
        r := Ok(next);
      }
    }

    method IntegrateOneStep(target: real) returns (next: seq<real>)
      requires Valid() && Ready()
      modifies this
      ensures fParams == old(fParams) && systemEquation == old(systemEquation)
      ensures systemJacobian == old(systemJacobian)
      ensures Valid() && Ready()
      ensures next == EulerStep(systemEquation.value, fParams.value, old(t), old(y).value, target)
      ensures y == Some(next) && t == target
    {
      next := EulerStep(systemEquation.value, fParams.value, t, y.value, target);
      y := Some(next);
      t := target;
    }

    /** The substep loop; `range(nsteps)` is empty for a negative count, which
      * then reads neither the equation nor its parameters. */
    method IntegrateNSteps(target: real) returns (next: seq<real>)
      requires Valid() && y.Some? && nsteps != 0 && (nsteps > 0 ==> Ready())
      modifies this
      ensures fParams == old(fParams) && systemEquation == old(systemEquation)
      ensures systemJacobian == old(systemJacobian)
      ensures Valid()
      ensures nsteps > 0 ==>
                next == NStepEulerIntended(systemEquation.value, fParams.value, old(y).value, old(t), target, nsteps)
      ensures nsteps < 0 ==> next == old(y).value
      ensures y == Some(next) && t == target
    {
      if nsteps < 0 {
        next := y.value;
        t := target;
        return;
      }
      var f := systemEquation.value;
      var p := fParams.value;
      var h := (target - t) / nsteps as real;
      var count: nat := nsteps;
      var state := y.value;
      var currentT := t;
      var i := 0;
      while i < count
        invariant 0 <= i <= count && unchanged(this)
        invariant currentT == old(t) + i as real * h
        invariant state == NStepEuler(f, p, old(y).value, old(t), h, i)
      {
        var delta := Scale(h, f(currentT, state, p));
        NStepEulerUnfold(f, p, old(y).value, old(t), h, i);
        state := Add(state, delta);
        currentT := currentT + h;
        i := i + 1;
      }
      next := state;
      y := Some(next);
      t := target;
    }
  }

  // ------------------------------------------------ SciPy wrapper bookkeeping

  /** `ScipySolveIvpSolver.set_system_equation`: the Jacobian is handed on
    * only for the methods that can use it, which are the methods the
    * `scipy.integrate.ode` wrapper's table marks as using a Jacobian; a
    * missing method forwards nothing. */
  predicate SolveIvpForwardsJacobian(solverMethod: Option<string>)
    ensures SolveIvpForwardsJacobian(solverMethod) <==>
              solverMethod.Some? && ScipyOdeSolverSupportsJacobian(solverMethod.value, None) == Ok(true)
  {
    solverMethod.Some? && solverMethod.value in {"Radau", "BDF", "LSODA"}
  }

  /** `ScipyOdeSolver.__init__`: the Jacobian is used only when the caller left
    * the choice open and the class supports it; an explicit `True` is turned
    * into `False` by the `else` branch. An unknown method name is a KeyError. */
  function ScipyOdeSolverSupportsJacobian(solverMethod: string, supportsJacobian: Option<bool>): (r: Result<bool>)
    ensures r.Err? <==> solverMethod !in {"RK23", "RK45", "DOP853", "Radau", "BDF", "LSODA"}
    ensures r.Ok? ==> (r.value <==> supportsJacobian == None && solverMethod in {"Radau", "BDF", "LSODA"})
  {
    if solverMethod !in {"RK23", "RK45", "DOP853", "Radau", "BDF", "LSODA"} then Err("KeyError")
    else Ok(supportsJacobian == None && solverMethod in {"Radau", "BDF", "LSODA"})
  }

  /** An explicit request for the Jacobian is never honoured. */
  lemma ExplicitJacobianRequestIgnored(solverMethod: string)
    requires solverMethod in {"RK23", "RK45", "DOP853", "Radau", "BDF", "LSODA"}
    ensures ScipyOdeSolverSupportsJacobian(solverMethod, Some(true)) == Ok(false)
  {
  }

  /** A stepper built by `_make_solver(t, y)`: where it starts. */
  datatype Stepper = Stepper(t0: real, y0: seq<real>)

  /** The rebuild flag of `ScipyOdeSolver`: a new initial value marks the
    * stepper stale, and the next `integrate` rebuilds it once. The stepping
    * loop itself runs in SciPy; its outcome is a parameter. */
  class ScipyOdeSolver {
    var t: real
    var y: seq<real>
    var reset: bool
    var stepper: Option<Stepper>
    var builds: nat

    constructor ()
      ensures reset && stepper == None && builds == 0 && t == 0.0 && y == []
    {
      t, y := 0.0, [];
      reset := true;
      stepper := None;
      builds := 0;
    }

    method SetInitialValue(initialValue: seq<real>, t0: real)
      modifies this
      ensures y == initialValue && t == t0 && reset
      ensures stepper == old(stepper) && builds == old(builds)
    {
      y, t := initialValue, t0;
      reset := true;
    }

    /** `integrate(target)`; `outcome` is the (state, time) SciPy's stepper
      * reaches when it stops. */
    method Integrate(target: real, outcome: (seq<real>, real)) returns (next: seq<real>)
      modifies this
      ensures !reset
      ensures old(reset) ==> stepper == Some(Stepper(old(t), old(y))) && builds == old(builds) + 1
      ensures !old(reset) ==> stepper == old(stepper) && builds == old(builds)
      ensures y == outcome.0 && t == outcome.1 && next == y
    {
      if reset {
        stepper := Some(Stepper(t, y));
        builds := builds + 1;
        reset := false;
      }
      y := outcome.0;
      t := outcome.1;
      next := y;
    }
  }
}
