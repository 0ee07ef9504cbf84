/**
 * The SCML system (physical_systems/scml_system.py): a supply, a converter, a
 * motor and a mechanical load, simulated together by an ODE solver whose
 * state is the load's ODE state followed by the motor's.
 *
 * The components are seen through the operations the system calls on them,
 * as function values; a component's own state is part of the arguments
 * those functions take (the converter's action, the motor's input voltage,
 * the solver's current value and time).
 */
module ScmlSystems {
  import opened Common
  import opened Components
  import opened StepCounters
  import opened Seeding

  datatype LoadModel = LoadModel(
    info: ComponentInfo,
    odeSize: nat,
    speedShape: nat,
    hasJacobian: bool,
    isRandom: bool,
    getOmega: seq<real> -> seq<real>,
    mechanicalOde: (real, seq<real>, seq<real>) -> seq<real>,
    observation: seq<real> -> seq<real>)

  /** The motor; `electricalOde(state, omega, uIn)` reads the input voltage the
    * system last handed to `set_u_in`. */
  datatype MotorModel = MotorModel(
    info: ComponentInfo,
    odeSize: nat,
    inputShape: nat,
    torqueShape: nat,
    hasJacobian: bool,
    isRandom: bool,
    jRotor: real,
    iIn: (real, seq<real>) -> seq<real>,
    electricalOde: (seq<real>, seq<real>, seq<real>) -> seq<real>,
    torque: seq<real> -> seq<real>,
    observation: seq<real> -> seq<real>)

  /** The converter; `iSup` and `convert` answer for the action last set. */
  datatype ConverterModel<!A> = ConverterModel(
    info: ComponentInfo,
    outputShape: nat,
    supplyShape: nat,
    isRandom: bool,
    setAction: (A, real) -> seq<real>,
    iSup: (A, seq<real>) -> real,
    convert: (A, real, seq<real>, seq<real>) -> seq<real>,
    observation: seq<real>)

  datatype SupplyModel = SupplyModel(
    info: ComponentInfo,
    supplyShape: nat,
    isRandom: bool,
    getUSup: (real, real) -> seq<real>,
    observation: seq<real>)

  /** The solver: `integrate(y, t0, t, uIn)` is its value at `t` when it holds
    * `y` at `t0` and the motor's input voltage is `uIn`. */
  datatype SolverModel = SolverModel(
    isRandom: bool,
    integrate: (seq<real>, real, real, seq<real>) -> seq<real>)

  /** The construction-time assertions: the supply feeds the converter, the
    * converter feeds the motor, and the motor's torque drives the load. */
  predicate ShapesAgree<A>(load: LoadModel, motor: MotorModel, converter: ConverterModel<A>, supply: SupplyModel)
  {
    supply.supplyShape == converter.supplyShape
    && converter.outputShape == motor.inputShape
    && motor.torqueShape == load.speedShape
  }

  /** What the components promise about sizes: derivatives fill their ODE
    * slice, the solver keeps the state's length, and each observation lines
    * up with the component's non-zero limits. */
  ghost predicate WellBehaved<A>(load: LoadModel, motor: MotorModel, converter: ConverterModel<A>, supply: SupplyModel, solver: SolverModel)
  {
    (forall t, s, tq :: |load.mechanicalOde(t, s, tq)| == load.odeSize)
    && (forall s, w, u :: |motor.electricalOde(s, w, u)| == motor.odeSize)
    && (forall y, t0, t, u :: |solver.integrate(y, t0, t, u)| == |y|)
    && (forall s :: |load.observation(s)| == |load.info.limits|)
    && (forall s :: |motor.observation(s)| == |motor.info.limits|)
    && |converter.observation| == |converter.info.limits|
    && |supply.observation| == |supply.info.limits|
    && (forall i :: 0 <= i < |Flatten(LimitsOf([load.info, motor.info, converter.info, supply.info]))| ==>
          Flatten(LimitsOf([load.info, motor.info, converter.info, supply.info]))[i] != 0.0)
  }

  /** The Jacobian decision of the constructor: `use` says whether the solver
    * receives the system Jacobian, `warn` whether a warning is issued. An
    * unset request means "whenever both components provide one". */
  function JacobianChoice(calcJacobian: Option<bool>, motorHas: bool, loadHas: bool): (r: (bool, bool))
    ensures r.0 <==> motorHas && loadHas && (calcJacobian.None? || calcJacobian.value)
    ensures r.1 <==> calcJacobian == Some(true) && !(motorHas && loadHas)
  {
    var requested := if calcJacobian.None? then motorHas && loadHas else calcJacobian.value;
    var use := requested && motorHas && loadHas;
    (use, requested && !use)
  }

  /** Four blocks, concatenated left to right. */
  lemma FlattenFour<T>(a: seq<T>, b: seq<T>, c: seq<T>, d: seq<T>)
    ensures Flatten([a, b, c, d]) == a + b + c + d
  {
    assert [a, b, c, d][..3] == [a, b, c];
    assert [a, b, c][..2] == [a, b];
    assert [a, b][..1] == [a];
    assert [a][..0] == [];
    assert Flatten([a]) == a;
    assert Flatten([a, b]) == a + b;
    assert Flatten([a, b, c]) == a + b + c;
  }

  /** `buf[lo:lo + len(v)] = v`, element by element. */
  method WriteSlice(buf: array<real>, lo: nat, v: seq<real>)
    requires lo + |v| <= buf.Length
    modifies buf
    ensures buf[..] == old(buf[..lo]) + v + old(buf[lo + |v|..])
  {
    for j := 0 to |v|
      invariant buf[..lo] == old(buf[..lo])
      invariant buf[lo..lo + j] == v[..j]
      invariant buf[lo + j..] == old(buf[lo + j..])
    {
      buf[lo + j] := v[j];
    }
    assert buf[..] == buf[..lo] + buf[lo..lo + |v|] + buf[lo + |v|..];
  }

  class ScmlSystem<A> {
    const load: LoadModel
    const motor: MotorModel
    const converter: ConverterModel<A>
    const supply: SupplyModel
    const solver: SolverModel
    const tau: real
    /** Whether the solver received the system Jacobian, and whether the
      * constructor warned that it could not. */
    const useJacobian: bool
    const jacobianWarning: bool
    /** The load's total inertia after the motor's rotor was added to it. */
    const loadInertiaAdded: real
    /** `_system_derivative`, the buffer the system equation writes into. */
    const systemDerivative: array<real>

    var counters: Counters
    var initialOdeValue: seq<real>
    /** The solver's current value and time. */
    var odeY: seq<real>
    var odeT: real
    /** The motor's input voltage as last set. */
    var motorInput: seq<real>
    var motorState: Option<seq<real>>
    var loadState: Option<seq<real>>
    var systemObservation: seq<real>
    var seedSequence: Option<SeedSequence>
    var componentSeeds: seq<Option<SeedSequence>>
    /** The times the last `simulate` integrated to, in order. */
    ghost var integrationTargets: seq<real>

    function OdeSize(): nat
    {
      load.odeSize + motor.odeSize
    }

    /** What the constructor established about the components. */
    ghost predicate Composed()
    {
      ShapesAgree(load, motor, converter, supply)
      && WellBehaved(load, motor, converter, supply, solver)
    }

    ghost predicate Valid()
      reads this
    {
      Composed()
      && systemDerivative.Length == OdeSize()
      && |initialOdeValue| == OdeSize() && |odeY| == OdeSize()
      && odeT == counters.t
      && (motorState.Some? ==> |motorState.value| == motor.odeSize)
      && (loadState.Some? ==> |loadState.value| == load.odeSize)
    }

    /** The components in observation order: load, motor, converter, supply. */
    function ComponentInfos(): (r: seq<ComponentInfo>)
      ensures r == [load.info, motor.info, converter.info, supply.info]
    {
      [load.info, motor.info, converter.info, supply.info]
    }

    /** `state_names`: every component's observation names, in component order. */
    function StateNames(): (r: seq<string>)
      ensures r == load.info.observationNames + motor.info.observationNames
                   + converter.info.observationNames + supply.info.observationNames
    {
      FlattenFour(load.info.observationNames, motor.info.observationNames,
                  converter.info.observationNames, supply.info.observationNames);
      assert NamesOf(ComponentInfos()) == [load.info.observationNames, motor.info.observationNames,
                                           converter.info.observationNames, supply.info.observationNames];
      Flatten(NamesOf(ComponentInfos()))
    }

    /** `limits`: every component's limits, in the same order. */
    function Limits(): (r: seq<real>)
      ensures r == load.info.limits + motor.info.limits + converter.info.limits + supply.info.limits
    {
      FlattenFour(load.info.limits, motor.info.limits, converter.info.limits, supply.info.limits);
      assert LimitsOf(ComponentInfos()) == [load.info.limits, motor.info.limits,
                                            converter.info.limits, supply.info.limits];
      Flatten(LimitsOf(ComponentInfos()))
    }

    /** `nominal_state`: every component's nominal values, in the same order. */
    function NominalState(): (r: seq<real>)
      ensures r == load.info.nominalState + motor.info.nominalState
                   + converter.info.nominalState + supply.info.nominalState
    {
      FlattenFour(load.info.nominalState, motor.info.nominalState,
                  converter.info.nominalState, supply.info.nominalState);
      assert NominalsOf(ComponentInfos()) == [load.info.nominalState, motor.info.nominalState,
                                              converter.info.nominalState, supply.info.nominalState];
      Flatten(NominalsOf(ComponentInfos()))
    }

    /** The concatenated observation of the components for the given load and
      * motor states. */
    function Observation(ls: seq<real>, ms: seq<real>): (r: seq<real>)
      requires Composed()
      ensures |r| == |Limits()|
      ensures r == load.observation(ls) + motor.observation(ms) + converter.observation + supply.observation
    {
      load.observation(ls) + motor.observation(ms) + converter.observation + supply.observation
    }

    /** The observation divided elementwise by the limits. */
    function Normalised(ls: seq<real>, ms: seq<real>): (r: seq<real>)
      requires Composed()
      ensures |r| == |Limits()|
      ensures forall i :: 0 <= i < |r| ==> r[i] * Limits()[i] == Observation(ls, ms)[i]
    {
      Divide(Observation(ls, ms), Limits())
    }

    /** What the solver holds, at what time, and the motor input last set,
      * after integrating to each of `targets` in turn, starting from `y` at
      * `t0`. Before each integration the converter's output is recomputed
      * from the motor state `ms` of the start of the step and the supply
      * voltage at the step's start time `t`. */
    function Integrated(y: seq<real>, t0: real, targets: seq<real>, ms: seq<real>, action: A, t: real, u0: seq<real>): (r: (seq<real>, real, seq<real>))
      requires WellBehaved(load, motor, converter, supply, solver)
      ensures |r.0| == |y|
      ensures |targets| > 0 ==> r.1 == targets[|targets| - 1]
      ensures |targets| == 0 ==> r == (y, t0, u0)
    {
      if |targets| == 0 then (y, t0, u0)
      else
        var prev := Integrated(y, t0, targets[..|targets| - 1], ms, action, t, u0);
        var target := targets[|targets| - 1];
        var iIn := motor.iIn(target, ms);
        var iSup := converter.iSup(action, iIn);
        var uSup := supply.getUSup(t, iSup);
        var uIn := converter.convert(action, prev.1, iIn, uSup);
        (solver.integrate(prev.0, prev.1, target, uIn), target, uIn)
    }

    constructor (load: LoadModel, motor: MotorModel, converter: ConverterModel<A>, supply: SupplyModel,
                 solver: SolverModel, tau: real, calcJacobian: Option<bool>)
      requires ShapesAgree(load, motor, converter, supply)
      requires WellBehaved(load, motor, converter, supply, solver)
      ensures Valid() && fresh(systemDerivative)
      ensures this.load == load && this.motor == motor && this.converter == converter
      ensures this.supply == supply && this.solver == solver && this.tau == tau
      ensures (useJacobian, jacobianWarning) == JacobianChoice(calcJacobian, motor.hasJacobian, load.hasJacobian)
      ensures loadInertiaAdded == motor.jRotor
      ensures counters == Initial && odeY == Zeros(OdeSize()) && odeT == 0.0
      ensures initialOdeValue == Zeros(OdeSize())
      ensures motorState == None && loadState == None
    {
      this.load := load;
      this.motor := motor;
      this.converter := converter;
      this.supply := supply;
      this.solver := solver;
      this.tau := tau;
      var choice := JacobianChoice(calcJacobian, motor.hasJacobian, load.hasJacobian);
      useJacobian := choice.0;
      jacobianWarning := choice.1;
      loadInertiaAdded := motor.jRotor;
      counters := Initial;
      initialOdeValue := Zeros(load.odeSize + motor.odeSize);
      odeY := Zeros(load.odeSize + motor.odeSize);
      odeT := 0.0;
      motorInput := [];
      motorState := None;
      loadState := None;
      systemObservation := [];
      seedSequence := None;
      componentSeeds := [];
      integrationTargets := [];
      systemDerivative := new real[load.odeSize + motor.odeSize](_ => 0.0);
    }

    /** The `initial_ode_value` setter writes into the existing vector with
      * numpy broadcasting: a number or a one-element array fills every entry,
      * an array of the vector's length replaces it entry by entry, and an
      * array of any other length is rejected. */
    method SetInitialOdeValue(value: ScalarOrArray) returns (r: Result<()>)
      requires Valid()
      modifies this
      ensures Valid()
      ensures r.Err? <==> value.Array? && |value.values| != 1 && |value.values| != OdeSize()
      ensures r.Ok? ==> |initialOdeValue| == OdeSize() && forall i :: 0 <= i < OdeSize() ==>
                initialOdeValue[i] == (if value.Scalar? then value.x
                                       else if |value.values| == 1 then value.values[0]
                                       else value.values[i])
      ensures r.Err? ==> initialOdeValue == old(initialOdeValue)
    {
      if value.Array? && |value.values| != 1 && |value.values| != OdeSize() {
        return Err("ValueError: could not broadcast the value into the ODE vector");
      }
      if value.Array? && |value.values| == 1 {
        initialOdeValue := Materialise(Scalar(value.values[0]), OdeSize());
      } else {
        initialOdeValue := Materialise(value, OdeSize());
      }
      r := Ok(());
    }

    /** `seed`: a fresh root sequence spawns one child per random part, in the
      * order supply, converter, motor, load, solver. */
    method Seed(seed: Option<int>)
      requires Valid()
      modifies this
      ensures Valid()
      ensures seedSequence == Some(Spawn(Root(seed), 5).0)
      ensures |componentSeeds| == 5
      ensures forall i :: 0 <= i < 5 ==>
                componentSeeds[i] == (if RandomParts()[i] then Some(Spawn(Root(seed), 5).1[i]) else None)
    {
      var root := Root(seed);
      var spawned := Spawn(root, 5);
      seedSequence := Some(spawned.0);
      componentSeeds := DistributeSeeds(spawned.1, RandomParts());
    }

    /** Which of supply, converter, motor, load and solver draw random numbers. */
    function RandomParts(): (r: seq<bool>)
      ensures r == [supply.isRandom, converter.isRandom, motor.isRandom, load.isRandom, solver.isRandom]
    {
      [supply.isRandom, converter.isRandom, motor.isRandom, load.isRandom, solver.isRandom]
    }

    /** `_system_equation(t, state)`: the motor derivative goes into the motor
      * slice of the buffer, the load derivative into the load slice. */
    method SystemEquation(t: real, state: seq<real>) returns (d: seq<real>)
      requires Valid() && |state| == OdeSize()
      modifies systemDerivative
      ensures d == systemDerivative[..] && |d| == OdeSize()
      ensures d[..load.odeSize] == load.mechanicalOde(t, state[..load.odeSize], motor.torque(state[load.odeSize..]))
      ensures d[load.odeSize..] == motor.electricalOde(state[load.odeSize..], load.getOmega(state[..load.odeSize]), motorInput)
    {
      var l := load.odeSize;
      var ms := state[l..];
      var ls := state[..l];
      var omega := load.getOmega(ls);
      var motorDerivative := motor.electricalOde(ms, omega, motorInput);
      WriteSlice(systemDerivative, l, motorDerivative);
      var loadDerivative := load.mechanicalOde(t, ls, motor.torque(ms));
      ghost var afterMotor := systemDerivative[..];
      WriteSlice(systemDerivative, 0, loadDerivative);
      d := systemDerivative[..];
      assert d[l..] == afterMotor[l..];
    }

    /** The integration loop of `simulate`, on the solver's value, its time and
      * the motor input. */
    method IntegrateAll(y0: seq<real>, t0: real, times: seq<real>, ms: seq<real>, action: A, start: real, u0: seq<real>)
      returns (y: seq<real>, t: real, u: seq<real>)
      requires Composed()
      ensures (y, t, u) == Integrated(y0, t0, times, ms, action, start, u0)
    {
      y, t, u := y0, t0, u0;
      var k := 0;
      while k < |times|
        invariant 0 <= k <= |times|
        invariant (y, t, u) == Integrated(y0, t0, times[..k], ms, action, start, u0)
      {
        var target := times[k];
        var iIn := motor.iIn(target, ms);
        var iSup := converter.iSup(action, iIn);
        var uSup := supply.getUSup(start, iSup);
        u := converter.convert(action, t, iIn, uSup);
        y := solver.integrate(y, t, target, u);
        t := target;
        assert times[..k + 1][..k] == times[..k];
        k := k + 1;
      }
      assert times[..k] == times;
    }

    /** `simulate(action)`: the converter takes the action at the current time;
      * the solver integrates to each switching time it returns and then to
      * `t + tau`; one step is counted; the components' observation is
      * returned normalised by the limits. */
    method Simulate(action: A) returns (obs: seq<real>)
      requires Valid() && motorState.Some?
      modifies this
      ensures Valid()
      ensures counters == StepCounted(old(counters), tau)
      ensures integrationTargets == converter.setAction(action, old(counters.t)) + [old(counters.t) + tau]
      ensures (odeY, odeT, motorInput)
              == Integrated(old(odeY), old(odeT), integrationTargets, old(motorState).value, action, old(counters.t), old(motorInput))
      ensures loadState == Some(odeY[..load.odeSize]) && motorState == Some(odeY[load.odeSize..])
      ensures systemObservation == Observation(loadState.value, motorState.value)
      ensures obs == Normalised(loadState.value, motorState.value)
    {
      var start := counters.t;
      var times := converter.setAction(action, start) + [start + tau];
      ghost var stepped := Integrated(odeY, odeT, times, motorState.value, action, start, motorInput);
      assert |stepped.0| == OdeSize() && stepped.1 == start + tau;
      odeY, odeT, motorInput := IntegrateAll(odeY, odeT, times, motorState.value, action, start, motorInput);
      integrationTargets := times;
      counters := StepCounted(counters, tau);
      loadState := Some(odeY[..load.odeSize]);
      motorState := Some(odeY[load.odeSize..]);
      systemObservation := Observation(loadState.value, motorState.value);
      obs := Normalised(loadState.value, motorState.value);
    }

    /** `reset`: the episode counters restart, the solver starts again from
      * the initial ODE value at time 0, and the normalised observation of
      * that state is returned. */
    method Reset() returns (obs: seq<real>)
      requires Valid()
      modifies this
      ensures Valid()
      ensures counters == ResetCounters(old(counters))
      ensures odeY == initialOdeValue && odeT == 0.0 && initialOdeValue == old(initialOdeValue)
      ensures loadState == Some(initialOdeValue[..load.odeSize])
      ensures motorState == Some(initialOdeValue[load.odeSize..])
      ensures systemObservation == Observation(loadState.value, motorState.value)
      ensures obs == Normalised(loadState.value, motorState.value)
    {
      counters := ResetCounters(counters);
      odeY := initialOdeValue;
      odeT := counters.t;
      loadState := Some(odeY[..load.odeSize]);
      motorState := Some(odeY[load.odeSize..]);
      systemObservation := Observation(loadState.value, motorState.value);
      obs := Normalised(loadState.value, motorState.value);
    }
  }

  /** Whatever switching times the converter asks for, a step ends with the
    * solver at the step's end time `t + tau`, and the system's episode clock
    * reads the same time. */
  lemma StepEndsAtTauLater<A>(s: ScmlSystem<A>, y: seq<real>, t0: real, ms: seq<real>, action: A, t: real, u0: seq<real>)
    requires WellBehaved(s.load, s.motor, s.converter, s.supply, s.solver)
    ensures s.Integrated(y, t0, s.converter.setAction(action, t) + [t + s.tau], ms, action, t, u0).1 == t + s.tau
    ensures StepCounted(Counters(0, t, 0, t), s.tau).t == t + s.tau
  {
  }

  /** Without a request the constructor never warns; an explicit `False`
    * switches the Jacobian off and never warns either. */
  lemma DefaultJacobianChoiceNeverWarns(motorHas: bool, loadHas: bool)
    ensures !JacobianChoice(None, motorHas, loadHas).1
    ensures JacobianChoice(Some(false), motorHas, loadHas) == (false, false)
    ensures JacobianChoice(None, motorHas, loadHas).0 == JacobianChoice(Some(true), motorHas, loadHas).0
  {
  }
}
