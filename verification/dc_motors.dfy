/**
 * The DC motor family (physical_systems/electric_motors/): the limit and
 * nominal arrays every electric motor builds from its defaults and the
 * user's dicts, the externally excited DC motor (armature and excitation
 * circuit) and the permanently excited DC motor (armature circuit and a
 * permanent magnet), each with its electrical ODE, torque and hand-written
 * Jacobian, and the limit rules of both.
 *
 * Exactness of a Jacobian column is stated in the form that suits functions
 * that are affine in each coordinate: moving coordinate `j` from `x[j]` to
 * `v` changes the function by exactly `(v - x[j])` times the column. For
 * such functions that column is the partial derivative.
 */
module DcMotors {
  import opened Common

  // --------------------------------------------------- electric motor base

  /** `update_parameter_dict(defaults, given)`: the user's entries override
    * the defaults key by key. A missing dict (`None`, or an empty dict,
    * which is falsy) is the empty map. */
  function UpdateParameterDict(defaults: map<string, real>, given: map<string, real>): (r: map<string, real>)
    ensures r.Keys == defaults.Keys + given.Keys
    ensures forall k :: k in given ==> r[k] == given[k]
    ensures forall k :: k in defaults && k !in given ==> r[k] == defaults[k]
  {
    defaults + given
  }

  /** `np.array([d[obs] for obs in names])`: a missing name is a KeyError. */
  function AlignedArray(d: map<string, real>, names: seq<string>): (r: Result<seq<real>>)
    ensures r.Ok? <==> forall i :: 0 <= i < |names| ==> names[i] in d
    ensures r.Ok? ==> |r.value| == |names| && forall i :: 0 <= i < |names| ==> r.value[i] == d[names[i]]
  {
    if forall i :: 0 <= i < |names| ==> names[i] in d then
      Ok(seq(|names|, i requires 0 <= i < |names| && names[i] in d => d[names[i]]))
    else
      Err("KeyError")
  }

  /** What `ElectricMotor.__init__` computes. */
  datatype MotorSetup = MotorSetup(motorParameter: map<string, real>, limits: seq<real>, nominalState: seq<real>)

  /** `ElectricMotor.__init__`: parameters, limits and nominal values are the
    * defaults overridden by the user, and the limit and nominal arrays list
    * them in the order of the observation names. */
  function ElectricMotorSetup(
    defaultParameter: map<string, real>, defaultNominal: map<string, real>, defaultLimits: map<string, real>,
    observationNames: seq<string>,
    motorParameter: map<string, real>, nominalValues: map<string, real>, limitValues: map<string, real>)
    : (r: Result<MotorSetup>)
    ensures r.Ok? <==> AlignedArray(defaultLimits + limitValues, observationNames).Ok?
                       && AlignedArray(defaultNominal + nominalValues, observationNames).Ok?
    ensures r.Ok? ==> r.value.motorParameter == UpdateParameterDict(defaultParameter, motorParameter)
    ensures r.Ok? ==> |r.value.limits| == |observationNames| && |r.value.nominalState| == |observationNames|
    ensures r.Ok? ==> forall i :: 0 <= i < |observationNames| ==>
              var name := observationNames[i];
              r.value.limits[i] == (if name in limitValues then limitValues[name] else defaultLimits[name])
              && r.value.nominalState[i] == (if name in nominalValues then nominalValues[name] else defaultNominal[name])
  {
    var limits := AlignedArray(UpdateParameterDict(defaultLimits, limitValues), observationNames);
    var nominals := AlignedArray(UpdateParameterDict(defaultNominal, nominalValues), observationNames);
    if limits.Err? || nominals.Err? then Err("KeyError")
    else Ok(MotorSetup(UpdateParameterDict(defaultParameter, motorParameter), limits.value, nominals.value))
  }

  /** The base motor and the plain DC motor offer no Jacobian; the externally
    * excited and the permanently excited motors do. */
  const ElectricMotorHasJacobian := false
  const DcExternallyExcitedHasJacobian := true
  const PermanentlyExcitedHasJacobian := true

  // ------------------------------------------------------------ linear algebra

  function Dot(a: seq<real>, b: seq<real>): real
    requires |a| == |b|
  {
    if |a| == 0 then 0.0 else Dot(a[..|a| - 1], b[..|a| - 1]) + a[|a| - 1] * b[|a| - 1]
  }

  /** `np.matmul` of a matrix and a vector. */
  function MatVec(m: seq<seq<real>>, v: seq<real>): (r: seq<real>)
    requires forall i :: 0 <= i < |m| ==> |m[i]| == |v|
    ensures |r| == |m|
  {
    seq(|m|, i requires 0 <= i < |m| => Dot(m[i], v))
  }

  function Column(m: seq<seq<real>>, j: nat): (c: seq<real>)
    requires forall i :: 0 <= i < |m| ==> j < |m[i]|
    ensures |c| == |m| && forall i :: 0 <= i < |m| ==> c[i] == m[i][j]
  {
    seq(|m|, i requires 0 <= i < |m| => m[i][j])
  }

  lemma Dot3(a: seq<real>, b: seq<real>)
    requires |a| == 3 && |b| == 3
    ensures Dot(a, b) == a[0] * b[0] + a[1] * b[1] + a[2] * b[2]
  {
    var a2, b2 := a[..2], b[..2];
    var a1, b1 := a2[..1], b2[..1];
    assert Dot(a1[..0], b1[..0]) == 0.0;
    assert Dot(a1, b1) == a[0] * b[0];
    assert Dot(a2, b2) == Dot(a1, b1) + a[1] * b[1];
    assert Dot(a, b) == Dot(a2, b2) + a[2] * b[2];
  }

  lemma Dot5(a: seq<real>, b: seq<real>)
    requires |a| == 5 && |b| == 5
    ensures Dot(a, b) == a[0] * b[0] + a[1] * b[1] + a[2] * b[2] + a[3] * b[3] + a[4] * b[4]
  {
    var a4, b4 := a[..4], b[..4];
    Dot3(a4[..3], b4[..3]);
    assert Dot(a4, b4) == Dot(a4[..3], b4[..3]) + a[3] * b[3];
    assert Dot(a, b) == Dot(a4, b4) + a[4] * b[4];
  }

  // -------------------------------------------------- externally excited DC motor

  /** Motor parameters of `DcMotor`. */
  datatype DcParameters = DcParameters(ra: real, re: real, la: real, le: real, lePrime: real, jRotor: real)

  const DcDefaultParameters := DcParameters(0.016, 0.16, 0.000019, 0.0054, 0.0017, 0.0025)

  const DcDefaultNominal: map<string, real> :=
    map["omega" := 300.0, "torque" := 16.0, "i" := 97.0, "i_a" := 97.0, "i_e" := 97.0,
        "u" := 60.0, "u_a" := 60.0, "u_e" := 60.0]

  const DcDefaultLimits: map<string, real> :=
    map["omega" := 400.0, "torque" := 38.0, "i" := 210.0, "i_a" := 210.0, "i_e" := 210.0,
        "u" := 60.0, "u_a" := 60.0, "u_e" := 60.0]

  const DcObservationNames: seq<string> := ["i_a", "i_e", "u_a", "u_e"]

  /** Inductances divide the equations; a zero inductance is not a motor. */
  predicate PhysicalDc(mp: DcParameters)
  {
    mp.la != 0.0 && mp.le != 0.0
  }

  /** `_update_model`: the constant matrix of the system equation, each row
    * divided by its circuit's inductance. */
  function DcModelConstants(mp: DcParameters): (m: seq<seq<real>>)
    requires PhysicalDc(mp)
    ensures |m| == 2 && |m[0]| == 5 && |m[1]| == 5
  {
    [[-mp.ra / mp.la, 0.0 / mp.la, -mp.lePrime / mp.la, 1.0 / mp.la, 0.0 / mp.la],
     [0.0 / mp.le, -mp.re / mp.le, 0.0 / mp.le, 0.0 / mp.le, 1.0 / mp.le]]
  }

  /** `electrical_ode(state, omega)` with the motor's input voltages `u_in`:
    * the constant matrix times `[i_a, i_e, omega i_e, u_a, u_e]`. */
  function DcOde(mp: DcParameters, state: seq<real>, omega: real, uIn: seq<real>): (r: seq<real>)
    requires PhysicalDc(mp) && |state| == 2 && |uIn| == 2
    ensures |r| == 2
  {
    MatVec(DcModelConstants(mp), [state[0], state[1], omega * state[1], uIn[0], uIn[1]])
  }

  /** The matrix form is the pair of circuit equations
    * `di_a = (-r_a i_a - l_e' omega i_e + u_a) / l_a` and
    * `di_e = (-r_e i_e + u_e) / l_e`. */
  lemma DcOdeCircuitEquations(mp: DcParameters, state: seq<real>, omega: real, uIn: seq<real>)
    requires PhysicalDc(mp) && |state| == 2 && |uIn| == 2
    ensures DcOde(mp, state, omega, uIn)
            == [(-mp.ra * state[0] - mp.lePrime * omega * state[1] + uIn[0]) / mp.la,
                (-mp.re * state[1] + uIn[1]) / mp.le]
  {
    var m := DcModelConstants(mp);
    var v := [state[0], state[1], omega * state[1], uIn[0], uIn[1]];
    Dot5(m[0], v);
    Dot5(m[1], v);
    CoefficientTimes(-mp.ra, state[0], mp.la);
    CoefficientTimes(-mp.lePrime, omega * state[1], mp.la);
    CoefficientTimes(1.0, uIn[0], mp.la);
    CoefficientTimes(-mp.re, state[1], mp.le);
    CoefficientTimes(1.0, uIn[1], mp.le);
    DivideSum3(-mp.ra * state[0], -mp.lePrime * (omega * state[1]), uIn[0], mp.la);
    DivideSum3(0.0, -mp.re * state[1], uIn[1], mp.le);
    assert -mp.lePrime * (omega * state[1]) == -mp.lePrime * omega * state[1];
    var r := DcOde(mp, state, omega, uIn);
    assert r[0] == Dot(m[0], v);
    assert r[1] == Dot(m[1], v);
    assert Dot(m[0], v) == (-mp.ra * state[0] - mp.lePrime * omega * state[1] + uIn[0]) / mp.la;
    assert Dot(m[1], v) == (-mp.re * state[1] + uIn[1]) / mp.le;
  }

  lemma CoefficientTimes(c: real, x: real, d: real)
    requires d != 0.0
    ensures (c / d) * x == (c * x) / d
  {
  }

  /** `x / d + y / d + z / d == (x + y + z) / d`, with each quotient written
    * as coefficient times value. */
  lemma DivideSum3(x: real, y: real, z: real, d: real)
    requires d != 0.0
    ensures x / d + y / d + z / d == (x + y + z) / d
  {
  }

  /** `torque`: `l_e' i_a i_e`. */
  function DcTorque(mp: DcParameters, state: seq<real>): real
    requires |state| == 2
  {
    mp.lePrime * state[0] * state[1]
  }

  /** `i_in`: the currents flowing into the motor are its ODE state. */
  function DcIIn(state: seq<real>): (r: seq<real>)
    ensures r == state
  {
    state
  }

  /** `electrical_jacobian(state, omega)`: the derivative of the ODE with
    * respect to the state, its derivative with respect to omega, and the
    * gradient of the torque. */
  datatype MotorJacobian = MotorJacobian(stateBlock: seq<seq<real>>, overOmega: seq<real>, torqueGradient: seq<real>)

  function DcJacobian(mp: DcParameters, state: seq<real>, omega: real): (r: MotorJacobian)
    requires PhysicalDc(mp) && |state| == 2
    ensures |r.stateBlock| == 2 && |r.stateBlock[0]| == 2 && |r.stateBlock[1]| == 2
    ensures |r.overOmega| == 2 && |r.torqueGradient| == 2
  {
    MotorJacobian(
      [[-mp.ra / mp.la, -mp.lePrime / mp.la * omega], [0.0, -mp.re / mp.le]],
      [-mp.lePrime * state[1] / mp.la, 0.0],
      [mp.lePrime * state[1], mp.lePrime * state[0]])
  }

  /** The state block of the hand-written Jacobian is the exact partial
    * derivative of the ODE with respect to `i_a` and `i_e`. */
  lemma DcJacobianStateColumnsExact(mp: DcParameters, state: seq<real>, omega: real, uIn: seq<real>, j: nat, v: real)
    requires PhysicalDc(mp) && |state| == 2 && |uIn| == 2 && j < 2
    ensures DcOde(mp, state[j := v], omega, uIn)
            == Add(DcOde(mp, state, omega, uIn), Scale(v - state[j], Column(DcJacobian(mp, state, omega).stateBlock, j)))
  {
    var col := Column(DcJacobian(mp, state, omega).stateBlock, j);
    if j == 0 {
      ArmatureColumnExact(mp, state, omega, uIn, v);
      assert col == [-mp.ra / mp.la, 0.0];
    } else {
      ExcitationColumnExact(mp, state, omega, uIn, v);
      var sb := DcJacobian(mp, state, omega).stateBlock;
      assert sb[0][1] == -mp.lePrime / mp.la * omega;
      assert sb[1][1] == -mp.re / mp.le;
      assert col[0] == sb[0][1];
      assert col == [-mp.lePrime / mp.la * omega, -mp.re / mp.le];
    }
  }

  lemma ArmatureColumnExact(mp: DcParameters, state: seq<real>, omega: real, uIn: seq<real>, v: real)
    requires PhysicalDc(mp) && |state| == 2 && |uIn| == 2
    ensures DcOde(mp, state[0 := v], omega, uIn)
            == Add(DcOde(mp, state, omega, uIn), Scale(v - state[0], [-mp.ra / mp.la, 0.0]))
  {
    var s' := state[0 := v];
    assert s'[0] == v && s'[1] == state[1];
    DcOdeCircuitEquations(mp, state, omega, uIn);
    DcOdeCircuitEquations(mp, s', omega, uIn);
    ArmatureShift(mp, state[0], v, state[1], omega, uIn[0]);
    PairShift(DcOde(mp, state, omega, uIn), DcOde(mp, s', omega, uIn), v - state[0], [-mp.ra / mp.la, 0.0]);
  }

  lemma ExcitationColumnExact(mp: DcParameters, state: seq<real>, omega: real, uIn: seq<real>, v: real)
    requires PhysicalDc(mp) && |state| == 2 && |uIn| == 2
    ensures DcOde(mp, state[1 := v], omega, uIn)
            == Add(DcOde(mp, state, omega, uIn), Scale(v - state[1], [-mp.lePrime / mp.la * omega, -mp.re / mp.le]))
  {
    var s' := state[1 := v];
    assert s'[0] == state[0] && s'[1] == v;
    DcOdeCircuitEquations(mp, state, omega, uIn);
    DcOdeCircuitEquations(mp, s', omega, uIn);
    ExcitationShift(mp, state[0], state[1], v, omega, uIn[0], uIn[1]);
    PairShift(DcOde(mp, state, omega, uIn), DcOde(mp, s', omega, uIn), v - state[1], [-mp.lePrime / mp.la * omega, -mp.re / mp.le]);
  }

  /** A pair moved coordinate by coordinate along `c`. */
  lemma PairShift(a: seq<real>, b: seq<real>, d: real, c: seq<real>)
    requires |a| == 2 && |b| == 2 && |c| == 2
    requires b[0] == a[0] + d * c[0] && b[1] == a[1] + d * c[1]
    ensures b == Add(a, Scale(d, c))
  {
    var r := Add(a, Scale(d, c));
    assert r[0] == b[0] && r[1] == b[1];
  }

  /** The armature equation when `i_a` moves from `x` to `y`. */
  lemma ArmatureShift(mp: DcParameters, x: real, y: real, ie: real, omega: real, ua: real)
    requires PhysicalDc(mp)
    ensures (-mp.ra * y - mp.lePrime * omega * ie + ua) / mp.la
            == (-mp.ra * x - mp.lePrime * omega * ie + ua) / mp.la + (y - x) * (-mp.ra / mp.la)
  {
    ShiftQuotient(-mp.ra, x, y, -mp.lePrime * omega * ie + ua, mp.la);
  }

  /** Both equations when `i_e` moves from `x` to `y`. */
  lemma ExcitationShift(mp: DcParameters, ia: real, x: real, y: real, omega: real, ua: real, ue: real)
    requires PhysicalDc(mp)
    ensures (-mp.ra * ia - mp.lePrime * omega * y + ua) / mp.la
            == (-mp.ra * ia - mp.lePrime * omega * x + ua) / mp.la + (y - x) * (-mp.lePrime / mp.la * omega)
    ensures (-mp.re * y + ue) / mp.le == (-mp.re * x + ue) / mp.le + (y - x) * (-mp.re / mp.le)
  {
    ShiftQuotient(-mp.lePrime * omega, x, y, -mp.ra * ia + ua, mp.la);
    CoefficientTimes(-mp.lePrime, omega, mp.la);
    ShiftQuotient(-mp.re, x, y, ue, mp.le);
  }

  /** Moving `x` to `y` in the quotient `(c x + rest) / d` adds `(y - x)`
    * times the coefficient `c / d`. */
  lemma ShiftQuotient(c: real, x: real, y: real, rest: real, d: real)
    requires d != 0.0
    ensures (c * y + rest) / d == (c * x + rest) / d + (y - x) * (c / d)
  {
    CoefficientTimes(c, y - x, d);
    assert c * y + rest == (c * x + rest) + c * (y - x);
  }

  /** The omega column is the exact partial derivative with respect to omega. */
  lemma DcJacobianOmegaColumnExact(mp: DcParameters, state: seq<real>, omega: real, w: real, uIn: seq<real>)
    requires PhysicalDc(mp) && |state| == 2 && |uIn| == 2
    ensures DcOde(mp, state, w, uIn)
            == Add(DcOde(mp, state, omega, uIn), Scale(w - omega, DcJacobian(mp, state, omega).overOmega))
  {
    DcOdeCircuitEquations(mp, state, omega, uIn);
    DcOdeCircuitEquations(mp, state, w, uIn);
    var c := -mp.lePrime * state[1];
    var rest := -mp.ra * state[0] + uIn[0];
    ShiftQuotient(c, omega, w, rest, mp.la);
    assert -mp.lePrime * w * state[1] == c * w && -mp.lePrime * omega * state[1] == c * omega;
    var after := DcOde(mp, state, w, uIn);
    var shifted := Add(DcOde(mp, state, omega, uIn), Scale(w - omega, DcJacobian(mp, state, omega).overOmega));
    assert after[0] == shifted[0] && after[1] == shifted[1];
  }

  /** The torque gradient is the exact partial derivative of the torque. */
  lemma DcTorqueGradientExact(mp: DcParameters, state: seq<real>, omega: real, j: nat, v: real)
    requires PhysicalDc(mp) && |state| == 2 && j < 2
    ensures DcTorque(mp, state[j := v])
            == DcTorque(mp, state) + (v - state[j]) * DcJacobian(mp, state, omega).torqueGradient[j]
  {
  }

  /** `DcMotor._update_limits`: the torque limit is the torque at the current
    * limits of `i_a` and `i_e` as they stand before the agenda is merged. */
  function DcUpdateLimits(mp: DcParameters, limits: map<string, real>, agenda: map<string, real>)
    : (r: Result<map<string, real>>)
    ensures r.Ok? <==> "i_a" in limits && "i_e" in limits
    ensures r.Ok? ==> r.value.Keys == limits.Keys + agenda.Keys + {"torque"}
    ensures r.Ok? ==> r.value["torque"] == DcTorque(mp, [limits["i_a"], limits["i_e"]])
    ensures r.Ok? ==> forall k :: k in agenda && k != "torque" ==> r.value[k] == agenda[k]
    ensures r.Ok? ==> forall k :: k in limits && k !in agenda && k != "torque" ==> r.value[k] == limits[k]
  {
    if "i_a" !in limits || "i_e" !in limits then Err("KeyError")
    else Ok(limits + agenda[("torque") := DcTorque(mp, [limits["i_a"], limits["i_e"]])])
  }

  /** `r_a` with the guard against a zero armature resistance. */
  function GuardedResistance(r: real): (g: real)
    ensures g != 0.0 && (r != 0.0 ==> g == r)
  {
    if r == 0.0 then 1.0 else r
  }

  /** `x or y` on a possibly missing limit: a missing or zero limit is falsy. */
  function LimitOr(limits: map<string, real>, name: string, fallback: real): (r: real)
    ensures name in limits && limits[name] != 0.0 ==> r == limits[name]
    ensures !(name in limits && limits[name] != 0.0) ==> r == fallback
  {
    if name in limits && limits[name] != 0.0 then limits[name] else fallback
  }

  /** `DcExternallyExcitedMotor._update_limits`: both voltages get the default
    * `u` limit; each current gets the general `i` limit when it is set, and
    * otherwise the current `u` drives through that circuit's resistance. */
  function ExternallyExcitedLimits(mp: DcParameters, limits: map<string, real>): (r: Result<map<string, real>>)
    ensures var iSet := "i" in limits && limits["i"] != 0.0;
            r.Ok? <==> (iSet || ("u" in limits && mp.re != 0.0)) && "i_a" in limits && "i_e" in limits
    ensures r.Ok? ==> r.value.Keys == limits.Keys + {"u_a", "u_e", "i_a", "i_e", "torque"}
    ensures r.Ok? ==> r.value["u_a"] == DcDefaultLimits["u"] && r.value["u_e"] == DcDefaultLimits["u"]
    ensures r.Ok? && "i" in limits && limits["i"] != 0.0 ==> r.value["i_a"] == limits["i"] && r.value["i_e"] == limits["i"]
    ensures r.Ok? && !("i" in limits && limits["i"] != 0.0) ==>
              r.value["i_a"] * GuardedResistance(mp.ra) == limits["u"] && r.value["i_e"] * mp.re == limits["u"]
    ensures r.Ok? ==> r.value["torque"] == DcTorque(mp, [limits["i_a"], limits["i_e"]])
    ensures r.Ok? ==> forall k :: k in limits && k !in {"u_a", "u_e", "i_a", "i_e", "torque"} ==> r.value[k] == limits[k]
  {
    var iSet := "i" in limits && limits["i"] != 0.0;
    if !iSet && "u" !in limits then Err("KeyError: u")
    else if !iSet && mp.re == 0.0 then Err("ZeroDivisionError")
    else
      var agenda := ExcitedAgenda(mp, limits);
      ExcitedAgendaKeys(limits.Keys);
      DcUpdateLimits(mp, limits, agenda)
  }

  /** The four entries the externally excited motor sets before the torque. */
  function ExcitedAgenda(mp: DcParameters, limits: map<string, real>): (a: map<string, real>)
    requires ("i" in limits && limits["i"] != 0.0) || ("u" in limits && mp.re != 0.0)
    ensures a.Keys == {"u_a", "u_e", "i_a", "i_e"}
    ensures a["u_a"] == DcDefaultLimits["u"] && a["u_e"] == DcDefaultLimits["u"]
    ensures "i" in limits && limits["i"] != 0.0 ==> a["i_a"] == limits["i"] && a["i_e"] == limits["i"]
    ensures !("i" in limits && limits["i"] != 0.0) ==>
              a["i_a"] * GuardedResistance(mp.ra) == limits["u"] && a["i_e"] * mp.re == limits["u"]
  {
    var ia := LimitOr(limits, "i", if "u" in limits then limits["u"] / GuardedResistance(mp.ra) else 0.0);
    var ie := LimitOr(limits, "i", if "u" in limits && mp.re != 0.0 then limits["u"] / mp.re else 0.0);
    map["u_a" := DcDefaultLimits["u"], "u_e" := DcDefaultLimits["u"], "i_a" := ia, "i_e" := ie]
  }

  /** The names the externally excited motor's limit update adds. */
  lemma ExcitedAgendaKeys(keys: set<string>)
    ensures keys + {"u_a", "u_e", "i_a", "i_e"} + {"torque"} == keys + {"u_a", "u_e", "i_a", "i_e", "torque"}
  {
  }

  /** With a zero armature resistance and no current limit, the armature
    * current limit is the voltage limit itself (the resistance counts as 1). */
  lemma ZeroArmatureResistanceIsGuarded(mp: DcParameters, limits: map<string, real>)
    requires mp.ra == 0.0 && mp.re != 0.0 && "i" !in limits
    requires "u" in limits && "i_a" in limits && "i_e" in limits
    ensures ExternallyExcitedLimits(mp, limits).Ok?
    ensures ExternallyExcitedLimits(mp, limits).value["i_a"] == limits["u"]
  {
  }

  // ---------------------------------------------- permanently excited DC motor

  /** Motor parameters of the permanently excited DC motor. */
  datatype PeParameters = PeParameters(ra: real, la: real, psiE: real, jRotor: real)

  const PeDefaultParameters := PeParameters(0.016, 0.000019, 0.165, 0.025)

  const PeDefaultNominal: map<string, real> := map["omega" := 300.0, "torque" := 16.0, "i" := 97.0, "u" := 60.0]

  const PeDefaultLimits: map<string, real> := map["omega" := 400.0, "torque" := 38.0, "i" := 210.0, "u" := 60.0]

  /** The observation names in the order `get_observation` fills them. */
  const PeObservationNames: seq<string> := ["torque", "i", "u"]

  /** One ODE state (the current); torque and input are single values. */
  const PeOdeSize := 1
  const PeTorqueShape := 1
  const PeInputShape := 1

  /** `_update_model`: `[-psi_e, -r_a, 1] / l_a`. */
  function PeModelConstants(mp: PeParameters): (m: seq<seq<real>>)
    requires mp.la != 0.0
    ensures |m| == 1 && |m[0]| == 3
  {
    [[-mp.psiE / mp.la, -mp.ra / mp.la, 1.0 / mp.la]]
  }

  /** `electrical_ode(state, omega)`: the constant row times `[omega, i, u]`. */
  function PeOde(mp: PeParameters, state: seq<real>, omega: real, uIn: seq<real>): (r: seq<real>)
    requires mp.la != 0.0 && |state| == 1 && |uIn| == 1
    ensures |r| == 1
  {
    MatVec(PeModelConstants(mp), [omega, state[0], uIn[0]])
  }

  /** The matrix form is `di = (-psi_e omega - r_a i + u) / l_a`. */
  lemma PeOdeCircuitEquation(mp: PeParameters, state: seq<real>, omega: real, uIn: seq<real>)
    requires mp.la != 0.0 && |state| == 1 && |uIn| == 1
    ensures PeOde(mp, state, omega, uIn) == [(-mp.psiE * omega - mp.ra * state[0] + uIn[0]) / mp.la]
  {
    var m := PeModelConstants(mp);
    var v := [omega, state[0], uIn[0]];
    Dot3(m[0], v);
    CoefficientTimes(-mp.psiE, omega, mp.la);
    CoefficientTimes(-mp.ra, state[0], mp.la);
    CoefficientTimes(1.0, uIn[0], mp.la);
    DivideSum3(-mp.psiE * omega, -mp.ra * state[0], uIn[0], mp.la);
    assert PeOde(mp, state, omega, uIn)[0] == Dot(m[0], v);
    assert Dot(m[0], v) == (-mp.psiE * omega - mp.ra * state[0] + uIn[0]) / mp.la;
  }

  /** `torque`: `psi_e i`. */
  function PeTorque(mp: PeParameters, state: seq<real>): real
    requires |state| == 1
  {
    mp.psiE * state[0]
  }

  /** `electrical_jacobian`: `[[-r_a / l_a]]`, `[-psi_e / l_a]`, `[psi_e]`. */
  function PeJacobian(mp: PeParameters): (r: MotorJacobian)
    requires mp.la != 0.0
    ensures |r.stateBlock| == 1 && |r.stateBlock[0]| == 1 && |r.overOmega| == 1 && |r.torqueGradient| == 1
  {
    MotorJacobian([[-mp.ra / mp.la]], [-mp.psiE / mp.la], [mp.psiE])
  }

  /** The three parts of the Jacobian are the exact partial derivatives of the
    * ODE with respect to the current and to omega, and of the torque. */
  lemma PeJacobianExact(mp: PeParameters, state: seq<real>, omega: real, uIn: seq<real>, v: real, w: real)
    requires mp.la != 0.0 && |state| == 1 && |uIn| == 1
    ensures PeOde(mp, [v], omega, uIn)
            == Add(PeOde(mp, state, omega, uIn), Scale(v - state[0], Column(PeJacobian(mp).stateBlock, 0)))
    ensures PeOde(mp, state, w, uIn)
            == Add(PeOde(mp, state, omega, uIn), Scale(w - omega, PeJacobian(mp).overOmega))
    ensures PeTorque(mp, [v]) == PeTorque(mp, state) + (v - state[0]) * PeJacobian(mp).torqueGradient[0]
  {
    PeOdeCircuitEquation(mp, state, omega, uIn);
    PeOdeCircuitEquation(mp, [v], omega, uIn);
    PeOdeCircuitEquation(mp, state, w, uIn);
    ShiftQuotient(-mp.ra, state[0], v, -mp.psiE * omega + uIn[0], mp.la);
    ShiftQuotient(-mp.psiE, omega, w, -mp.ra * state[0] + uIn[0], mp.la);
    var col := Column(PeJacobian(mp).stateBlock, 0);
    assert col == [-mp.ra / mp.la];
    var shifted := Add(PeOde(mp, state, omega, uIn), Scale(v - state[0], col));
    assert PeOde(mp, [v], omega, uIn)[0] == shifted[0];
    var turned := Add(PeOde(mp, state, omega, uIn), Scale(w - omega, PeJacobian(mp).overOmega));
    assert PeOde(mp, state, w, uIn)[0] == turned[0];
  }

  /** `get_observation(state)` with the stored input voltage: torque,
    * current and voltage, in the order of the observation names. */
  function PeObservation(mp: PeParameters, state: seq<real>, uIn: seq<real>): (r: seq<real>)
    requires |state| == 1 && |uIn| == 1
    ensures |r| == |PeObservationNames|
    ensures r[0] == PeTorque(mp, state) && r[1] == state[0] && r[2] == uIn[0]
  {
    [PeTorque(mp, state), state[0], uIn[0]]
  }

  /** `DcPermanentlyExcitedMotor._update_limits`: the default voltage limit,
    * the current the voltage limit drives through the (guarded) armature
    * resistance, and the torque at the current limit before the update. */
  function PermanentlyExcitedLimits(mp: PeParameters, limits: map<string, real>): (r: Result<map<string, real>>)
    ensures r.Ok? <==> "u" in limits && "i" in limits
    ensures r.Ok? ==> r.value.Keys == limits.Keys + {"torque"}
    ensures r.Ok? ==> r.value["u"] == PeDefaultLimits["u"]
    ensures r.Ok? ==> r.value["i"] * GuardedResistance(mp.ra) == limits["u"]
    ensures r.Ok? ==> r.value["torque"] == PeTorque(mp, [limits["i"]])
    ensures r.Ok? ==> forall k :: k in limits && k !in {"u", "i", "torque"} ==> r.value[k] == limits[k]
  {
    if "u" !in limits || "i" !in limits then Err("KeyError")
    else
      var agenda := map["u" := PeDefaultLimits["u"], "i" := limits["u"] / GuardedResistance(mp.ra)];
      Ok(limits + agenda[("torque") := PeTorque(mp, [limits["i"]])])
  }

  /** `get_state_space(input_currents, input_voltages)`: lower bounds are -1
    * for the quantities whose input space reaches -1 and 0 otherwise; every
    * upper bound is 1. */
  function PeStateSpace(currentLow: real, voltageLow: real): (r: (map<string, real>, map<string, real>))
    ensures r.0.Keys == {"omega", "torque", "i", "u"} && r.1.Keys == r.0.Keys
    ensures r.0["omega"] == r.0["u"] == (if voltageLow == -1.0 then -1.0 else 0.0)
    ensures r.0["torque"] == r.0["i"] == (if currentLow == -1.0 then -1.0 else 0.0)
    ensures forall k :: k in r.1 ==> r.1[k] == 1.0
  {
    var v := if voltageLow == -1.0 then -1.0 else 0.0;
    var c := if currentLow == -1.0 then -1.0 else 0.0;
    (map["omega" := v, "torque" := c, "i" := c, "u" := v],
     map["omega" := 1.0, "torque" := 1.0, "i" := 1.0, "u" := 1.0])
  }

  /** The defaults fit together: the default parameters, limits and nominal
    * values build both motors without a KeyError. */
  lemma DefaultMotorsBuild()
    ensures ElectricMotorSetup(map[], DcDefaultNominal, DcDefaultLimits, DcObservationNames, map[], map[], map[]).Ok?
    ensures ElectricMotorSetup(map[], PeDefaultNominal, PeDefaultLimits, PeObservationNames, map[], map[], map[]).Ok?
  {
    NamesCovered(DcDefaultLimits, DcObservationNames);
    NamesCovered(DcDefaultNominal, DcObservationNames);
    NamesCovered(PeDefaultLimits, PeObservationNames);
    NamesCovered(PeDefaultNominal, PeObservationNames);
  }

  /** A dict holding every observation name, with nothing merged into it,
    * aligns without a KeyError. */
  lemma NamesCovered(d: map<string, real>, names: seq<string>)
    requires forall i :: 0 <= i < |names| ==> names[i] in d
    ensures AlignedArray(d + map[], names).Ok?
  {
    assert d + map[] == d;
  }
}
