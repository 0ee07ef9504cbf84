/**
 * Voltage supplies (physical_systems/voltage_supplies/): the ideal supply that
 * always delivers its nominal voltage, and the RC supply whose capacitor
 * voltage follows an RC element integrated with the Euler solver.
 */
module Supplies {
  import opened Common
  import opened OdeSolvers

  /** The ideal supply. Shapes are one-dimensional, so a shape is a length. */
  class IdealVoltageSupply {
    var supplyShape: nat
    var uNominal: seq<real>

    ghost predicate Valid()
      reads this
    {
      |uNominal| == supplyShape
    }

    /** The constructor stores the shape and then goes through the
      * `u_nominal` setter. */
    constructor (uNominal: ScalarOrArray, shape: nat)
      ensures Valid()
      ensures this.uNominal == Materialise(uNominal, shape)
      ensures uNominal.Scalar? ==> supplyShape == shape
    {
      supplyShape := shape;
      this.uNominal := Materialise(uNominal, shape);
      supplyShape := |Materialise(uNominal, shape)|;
    }

    /** The `u_nominal` setter: a number fills the current shape, an array is
      * copied and its length becomes the supply shape. */
    method SetUNominal(value: ScalarOrArray)
      modifies this
      ensures uNominal == Materialise(value, old(supplyShape))
      ensures supplyShape == |uNominal| && Valid()
      ensures value.Scalar? ==> supplyShape == old(supplyShape)
    {
      uNominal := Materialise(value, supplyShape);
      supplyShape := |uNominal|;
    }

    /** `u_sup`: the supplied voltage is the nominal voltage. */
    function USup(): (r: seq<real>)
      reads this
      requires Valid()
      ensures r == uNominal && |r| == supplyShape
    {
      uNominal
    }

    /** `get_u_sup(t, i_sup)` ignores both arguments. */
    function GetUSup(t: real, iSup: real): (r: seq<real>)
      reads this
      requires Valid()
      ensures r == USup()
    {
      uNominal
    }
  }

  // ------------------------------------------------------------ RC supply

  /** The extra arguments the RC supply hands to its solver:
    * `set_f_params(u_0, i_sup, r, c)`. */
  datatype RcParameters = RcParameters(u0: real, iSup: real, r: real, c: real)

  /** `system_equation(t, u_sup, u_0, i_sup, r, c)`: the capacitor voltage
    * moves towards `u_0 - r i_sup` with time constant `r c`. The supply's
    * state always has one element; the zero-time-constant case never
    * reaches the solver (see `RcVoltageSupply.GetVoltage`). */
  function RcEquation(t: real, u: seq<real>, p: RcParameters): (r: seq<real>)
    ensures |r| == 1
    ensures |u| > 0 && p.r * p.c != 0.0 ==> r[0] * (p.r * p.c) == p.u0 - u[0] - p.r * p.iSup
  {
    [if |u| == 0 || p.r * p.c == 0.0 then 0.0 else (p.u0 - u[0] - p.r * p.iSup) / (p.r * p.c)]
  }

  /** The voltage is stationary exactly at `u_0 - r i_sup`. */
  lemma RcEquilibrium(t: real, u: real, p: RcParameters)
    requires p.r * p.c != 0.0
    ensures RcEquation(t, [u], p)[0] == 0.0 <==> u == p.u0 - p.r * p.iSup
  {
  }

  /** A scalar helper for `RcStepApproachesEquilibrium`: `u + (e - u) k` with
    * `0 <= k <= 1` lies between `u` and `e`. */
  lemma ConvexStep(u: real, e: real, k: real, d: real)
    requires 0.0 <= k <= 1.0 && d == (e - u) * k
    ensures Min(u, e) <= u + d <= Max(u, e)
  {
    var a := if u <= e then e - u else u - e;
    NonNegativeProduct(a, k);
    NonNegativeProduct(a, 1.0 - k);
    assert a * (1.0 - k) == a - a * k;
    if u <= e {
      assert d == a * k;
    } else {
      assert d == -(a * k);
    }
  }

  lemma NonNegativeProduct(a: real, b: real)
    requires a >= 0.0 && b >= 0.0
    ensures a * b >= 0.0
  {
  }

  /** An Euler step of the RC equation no longer than the time constant never
    * overshoots: the new voltage lies between the old one and the
    * equilibrium `u_0 - r i_sup`. */
  lemma RcStepApproachesEquilibrium(p: RcParameters, u: real, t0: real, t: real)
    requires p.r * p.c > 0.0 && 0.0 <= t - t0 <= p.r * p.c
    ensures var e := p.u0 - p.r * p.iSup;
            Min(u, e) <= EulerStep(RcEquation, p, t0, [u], t)[0] <= Max(u, e)
  {
    var e := p.u0 - p.r * p.iSup;
    var rc := p.r * p.c;
    var du := RcEquation(t0, [u], p)[0];
    assert du * rc == e - u;
    var k := (t - t0) / rc;
    assert 0.0 <= k <= 1.0;
    assert (t - t0) * du == (e - u) * k by {
      assert (t - t0) == k * rc;
      assert (t - t0) * du == k * (du * rc);
    }
    ConvexStep(u, e, k, (t - t0) * du);
    assert EulerStep(RcEquation, p, t0, [u], t)[0] == u + (t - t0) * du;
  }

  /** Defaults apply when the parameter dict is missing or empty (falsy). */
  function EffectiveRcParameters(given: Option<map<string, real>>): (r: map<string, real>)
    ensures (given.None? || given.value == map[]) ==> r == map["R" := 1.0, "C" := 0.004]
    ensures (given.Some? && given.value != map[]) ==> r == given.value
  {
    if given.None? || given.value == map[] then map["R" := 1.0, "C" := 0.004] else given.value
  }

  /** The RC supply (voltage_supplies/rc_voltage_supply.py). */
  class RcVoltageSupply {
    const uNominal: real
    const supplyRange: (real, real)
    const r: real
    const c: real
    const u0: real
    /** `R C`. */
    const timeConstant: real
    /** Whether construction warned that `R C < 1e-4`. */
    const warnsSmallTimeConstant: bool
    var uSup: seq<real>
    const solver: EulerSolver<RcParameters>

    ghost predicate Valid()
      reads this, solver
    {
      solver.Valid() && solver.systemEquation == Some(RcEquation) && solver.nsteps == 1
      && (solver.y.Some? ==> |solver.y.value| == 1)
    }

    constructor (uNominal: real, r: real, c: real)
      ensures Valid() && fresh(solver)
      ensures this.uNominal == uNominal && u0 == uNominal && this.r == r && this.c == c
      ensures supplyRange == (0.0, uNominal) && uSup == [uNominal]
      ensures timeConstant == r * c && (warnsSmallTimeConstant <==> timeConstant < 0.0001)
      ensures solver.y == None && solver.fParams == None
    {
      this.uNominal := uNominal;
      this.r := r;
      this.c := c;
      supplyRange := (0.0, uNominal);
      timeConstant := r * c;
      warnsSmallTimeConstant := r * c < 0.0001;
      uSup := [uNominal];
      u0 := uNominal;
      var s := new EulerSolver<RcParameters>(1);
      s.SetSystemEquation(RcEquation, None);
      solver := s;
    }

    /** `reset`: the capacitor is charged again. */
    method Reset() returns (u: seq<real>)
      requires Valid()
      modifies this, solver
      ensures Valid()
      ensures solver.y == Some([u0]) && solver.t == 0.0
      ensures solver.fParams == old(solver.fParams)
      ensures uSup == [u0] && u == uSup
    {
      solver.SetInitialValue([u0], 0.0);
      uSup := [u0];
      u := uSup;
    }

    /** `get_voltage(t, i_sup)`: one Euler step of the RC equation from the
      * solver's time to `t`. Before the first reset the solver has no state,
      * and a zero time constant divides by zero; both fail. */
    method GetVoltage(t: real, iSup: real) returns (res: Result<seq<real>>)
      requires Valid()
      modifies this, solver
      ensures Valid()
      ensures solver.fParams == Some(RcParameters(u0, iSup, r, c))
      ensures res.Err? <==> old(solver.y).None? || r * c == 0.0
      ensures res.Err? ==> uSup == old(uSup) && solver.t == old(solver.t) && solver.y == old(solver.y)
      ensures res.Ok? ==> old(solver.y).Some? && res.value == uSup && solver.t == t && solver.y == Some(uSup)
      ensures res.Ok? ==>
                uSup == EulerStep(RcEquation, RcParameters(u0, iSup, r, c), old(solver.t), old(solver.y).value, t)
    {
      solver.SetFParams(RcParameters(u0, iSup, r, c));
      if solver.y.Some? && r * c == 0.0 {
        return Err("ZeroDivisionError");
      }
      res := solver.Integrate(t);
      if res.Ok? {
        uSup := res.value;
      }
    }
  }

  /** Construction with a parameter dict: both keys must be present. */
  method NewRcVoltageSupply(uNominal: real, supplyParameter: Option<map<string, real>>)
    returns (res: Result<RcVoltageSupply>)
    ensures var p := EffectiveRcParameters(supplyParameter);
            res.Ok? <==> "R" in p && "C" in p
    ensures res.Ok? ==> var p := EffectiveRcParameters(supplyParameter);
                        res.value.Valid() && fresh(res.value) && fresh(res.value.solver)
                        && res.value.r == p["R"] && res.value.c == p["C"]
                        && res.value.timeConstant == p["R"] * p["C"]
                        && res.value.uSup == [uNominal] && res.value.u0 == uNominal
    ensures res.Ok? ==> (res.value.warnsSmallTimeConstant <==> res.value.timeConstant < 0.0001)
  {
    var p := EffectiveRcParameters(supplyParameter);
    if "R" !in p || "C" !in p {
      return Err("AssertionError: Pass key 'R' and 'C' in your dict");
    }
    var rr, cc := p["R"], p["C"];
    var s := new RcVoltageSupply(uNominal, rr, cc);
    res := Ok(s);
  }

  /** Without a parameter dict the defaults R = 1 and C = 4e-3 are used, and
    * their time constant does not trigger the warning. */
  method DefaultRcSupplyDoesNotWarn(uNominal: real) returns (warns: bool)
    ensures !warns
  {
    var res := NewRcVoltageSupply(uNominal, None);
    var p := EffectiveRcParameters(None);
    assert "R" in p && "C" in p && p["R"] * p["C"] == 0.004;
    warns := res.value.warnsSmallTimeConstant;
  }
}
