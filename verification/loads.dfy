/**
 * Mechanical loads (physical_systems/mechanical_loads/): the base load with
 * its total moment of inertia and empty default ODE, and the constant-speed
 * load that pins the speed to a fixed value.
 */
module Loads {
  import opened Common
  import opened Components

  /** The base load: the load's own inertia plus every rotor inertia added to it. */
  class MechanicalLoad {
    const jLoad: real
    var jTotal: real

    /** The base load has no ODE states and no Jacobian. */
    const odeSize: nat
    const hasJacobian: bool

    constructor (jLoad: real)
      ensures this.jLoad == jLoad && jTotal == jLoad
      ensures odeSize == 0 && !hasJacobian
    {
      this.jLoad := jLoad;
      jTotal := jLoad;
      odeSize := 0;
      hasJacobian := false;
    }

    /** `set_j_rotor`: the rotor's inertia is added, so repeated calls
      * accumulate. */
    method SetJRotor(jRotor: real)
      modifies this
      ensures jTotal == old(jTotal) + jRotor
    {
      jTotal := jTotal + jRotor;
    }
  }

  /** `mechanical_ode` of the base load: no states, no derivatives. */
  function DefaultMechanicalOde(t: real, mechanicalState: seq<real>, torque: real): (r: seq<real>)
    ensures |r| == 0
  {
    []
  }

  /** `mechanical_jacobian` of the base load: a pair of empty arrays. */
  function DefaultMechanicalJacobian(t: real, mechanicalState: seq<real>, torque: real): (r: (seq<seq<real>>, seq<real>))
    ensures |r.0| == 0 && |r.1| == 0
  {
    ([], [])
  }

  /** The constant-speed load. It keeps the speed it was given; its limits,
    * nominal state and observation are that speed. */
  class ConstantSpeedLoad {
    const base: MechanicalLoad
    var shape: nat
    var omega: seq<real>

    ghost predicate Valid()
      reads this
    {
      |omega| == shape
    }

    constructor (omega: ScalarOrArray, jLoad: real, shape: nat)
      ensures Valid() && fresh(base)
      ensures base.jLoad == jLoad && base.jTotal == jLoad
      ensures this.omega == Materialise(omega, shape)
    {
      base := new MechanicalLoad(jLoad);
      this.shape := shape;
      this.omega := Materialise(omega, shape);
      this.shape := |Materialise(omega, shape)|;
    }

    /** The `omega` setter: a number fills the stored shape, an array is copied
      * and defines the shape. */
    method SetOmega(value: ScalarOrArray)
      modifies this
      ensures omega == Materialise(value, old(shape)) && Valid()
      ensures value.Scalar? ==> shape == old(shape)
    {
      omega := Materialise(value, shape);
      shape := |omega|;
    }

    /** `speed_shape`. */
    function SpeedShape(): (r: nat)
      reads this
      requires Valid()
      ensures r == |omega|
    {
      shape
    }

    /** `get_omega(load_state)`: the fixed speed, whatever the state. */
    function GetOmega(loadState: seq<real>): (r: seq<real>)
      reads this
      ensures r == omega
    {
      omega
    }

    /** Limits, nominal state and observation are all the speed, under the
      * single name `omega`. */
    function Info(): (r: ComponentInfo)
      reads this
      ensures r.observationNames == ["omega"]
      ensures r.limits == omega && r.nominalState == omega
    {
      ComponentInfo(["omega"], ["\\frac{1}{s}"], Some(["\\omega"]), None, omega, omega)
    }

    function GetObservation(loadState: seq<real>): (r: seq<real>)
      reads this
      ensures r == Info().limits
    {
      omega
    }
  }
}
