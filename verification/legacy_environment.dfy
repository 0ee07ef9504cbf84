/**
 * The older environment (core/gym_electric_motor_environment.py). It runs
 * the same cycle as the newer one. The differences: it shows only the
 * states picked by a state filter; the reference generator's `reset` returns
 * the references; and the reward function is reset with the first state
 * and reference.
 */
module LegacyEnvironments {
  import opened Common
  import opened Seeding
  import opened Constraints
  import opened Environments

  /** `reset` of the older reference generator returns the world afterwards,
    * the reference and the next reference observation (its trajectories are
    * not modelled). */
  datatype LegacyReferenceGenerator<!W> = LegacyReferenceGenerator(
    reset: (W, seq<real>) -> (W, seq<real>, seq<real>),
    getReference: (W, seq<real>) -> (W, seq<real>),
    getReferenceObservation: (W, seq<real>) -> (W, seq<real>),
    isRandom: bool)

  datatype LegacyReward<!W, !A> = LegacyReward(
    reset: (W, seq<real>, seq<real>) -> W,
    reward: (W, seq<real>, seq<real>, nat, A, real) -> (W, real),
    isRandom: bool)

  /** `names.index(s)`: the first position of `s`. */
  function IndexOf(names: seq<string>, s: string): (i: nat)
    requires s in names
    ensures i < |names| && names[i] == s && forall j :: 0 <= j < i ==> names[j] != s
  {
    if names[0] == s then 0 else 1 + IndexOf(names[1..], s)
  }

  /** `state_filter or state_names`: no filter, or an empty one, shows every
    * state. */
  function ChosenNames(names: seq<string>, stateFilter: Option<seq<string>>): (r: seq<string>)
    ensures stateFilter.None? || stateFilter.value == [] ==> r == names
    ensures stateFilter.Some? && stateFilter.value != [] ==> r == stateFilter.value
  {
    if stateFilter.None? || stateFilter.value == [] then names else stateFilter.value
  }

  /** Every chosen name is one of the state names. */
  predicate KnownNames(names: seq<string>, stateFilter: Option<seq<string>>)
  {
    var chosen := ChosenNames(names, stateFilter);
    forall i :: 0 <= i < |chosen| ==> chosen[i] in names
  }

  /** The state filter: the first position of every chosen name among the
    * state names; a name the system does not have is a ValueError. */
  method StateFilterFor(names: seq<string>, stateFilter: Option<seq<string>>) returns (r: Result<seq<nat>>)
    ensures var chosen := ChosenNames(names, stateFilter);
            (r.Ok? <==> forall i :: 0 <= i < |chosen| ==> chosen[i] in names)
            && (r.Ok? ==> |r.value| == |chosen|
                          && (forall i :: 0 <= i < |chosen| ==>
                                r.value[i] < |names| && names[r.value[i]] == chosen[i]
                                && forall j :: 0 <= j < r.value[i] ==> names[j] != chosen[i]))
  {
    var chosen := ChosenNames(names, stateFilter);
    var filter: seq<nat> := [];
    for i := 0 to |chosen|
      invariant forall k :: 0 <= k < i ==> chosen[k] in names
      invariant |filter| == i
      invariant forall k :: 0 <= k < i ==> filter[k] == IndexOf(names, chosen[k])
    {
      if chosen[i] !in names {
        return Err("ValueError: '" + chosen[i] + "' is not in list");
      }
      filter := filter + [IndexOf(names, chosen[i])];
    }
    r := Ok(filter);
  }

  /** Without a filter and with distinct state names the filter shows every
    * state in its own place. */
  lemma DefaultFilterShowsAll(names: seq<string>, filter: seq<nat>)
    requires forall i, j :: 0 <= i < j < |names| ==> names[i] != names[j]
    requires |filter| == |names|
    requires forall i :: 0 <= i < |names| ==> filter[i] < |names| && names[filter[i]] == names[i]
    ensures forall i :: 0 <= i < |names| ==> filter[i] == i
    ensures forall xs: seq<real> :: |xs| == |names| ==> Pick(xs, filter) == xs
  {
    forall i | 0 <= i < |names| ensures filter[i] == i {
      assert names[filter[i]] == names[i];
    }
  }

  class LegacyEnvironment<W(!new), A(!new)> {
    const physicalSystem: PhysicalSystemModel<W, A>
    const constraintMonitor: ConstraintMonitor
    const visualizations: seq<CallbackModel>
    const callbacks: seq<CallbackModel>
    /** Positions of the shown states among the physical system's states. */
    const stateFilter: seq<nat>
    var referenceGenerator: LegacyReferenceGenerator<W>
    var rewardFunction: LegacyReward<W, A>
    var world: W
    var done: bool
    var trace: seq<Event<A>>

    /** The filter points into the system's states, whose limits and nominal
      * values are aligned with its names; the monitor can judge every state
      * the physical system produces. */
    ghost predicate Valid()
      reads ObjectsOf(constraintMonitor.constraints)
    {
      constraintMonitor.Valid() && SimulatesStates(physicalSystem) && ResetsStates(physicalSystem)
      && physicalSystem.info.WellFormed() && |physicalSystem.nominalState| == |physicalSystem.info.stateNames|
      && (forall i :: 0 <= i < |stateFilter| ==> stateFilter[i] < |physicalSystem.info.stateNames|)
      && ReadyFor(constraintMonitor.constraints, |physicalSystem.info.stateNames|)
    }

    /** The `state_names` property: the names of the shown states. */
    function StateNames(): (r: seq<string>)
      reads ObjectsOf(constraintMonitor.constraints)
      requires Valid()
      ensures |r| == |stateFilter|
    {
      Pick(physicalSystem.info.stateNames, stateFilter)
    }

    /** The `limits` property: the physical limits of the shown states. */
    function Limits(): (r: seq<real>)
      reads ObjectsOf(constraintMonitor.constraints)
      requires Valid()
      ensures |r| == |stateFilter|
    {
      Pick(physicalSystem.info.limits, stateFilter)
    }

    /** The `nominal_state` property. */
    function NominalState(): (r: seq<real>)
      reads ObjectsOf(constraintMonitor.constraints)
      requires Valid()
      ensures |r| == |stateFilter|
    {
      Pick(physicalSystem.nominalState, stateFilter)
    }

    /** The filtered names, limits and nominal values stay aligned: entry `i` of
      * each belongs to the same physical state. */
    lemma FilteredViewAligned(i: nat)
      requires Valid() && i < |stateFilter|
      ensures var p := stateFilter[i];
              StateNames()[i] == physicalSystem.info.stateNames[p]
              && Limits()[i] == physicalSystem.info.limits[p]
              && NominalState()[i] == physicalSystem.nominalState[p]
    {
    }

    constructor (physicalSystem: PhysicalSystemModel<W, A>, referenceGenerator: LegacyReferenceGenerator<W>,
                 rewardFunction: LegacyReward<W, A>, visualizations: seq<CallbackModel>,
                 callbacks: seq<CallbackModel>, constraintMonitor: ConstraintMonitor, stateFilter: seq<nat>, world: W)
      ensures this.physicalSystem == physicalSystem && this.referenceGenerator == referenceGenerator
      ensures this.rewardFunction == rewardFunction && this.constraintMonitor == constraintMonitor
      ensures this.visualizations == visualizations && this.callbacks == callbacks + visualizations
      ensures this.stateFilter == stateFilter && this.world == world && done
      ensures trace == HookCalls(|callbacks| + |visualizations|, SetEnv)
    {
      this.physicalSystem := physicalSystem;
      this.referenceGenerator := referenceGenerator;
      this.rewardFunction := rewardFunction;
      this.constraintMonitor := constraintMonitor;
      this.visualizations := visualizations;
      this.callbacks := callbacks + visualizations;
      this.stateFilter := stateFilter;
      this.world := world;
      done := true;
      trace := [];
      new;
      CallCallbacks(SetEnv);
    }

    method CallCallbacks(hook: Hook<A>)
      modifies this
      ensures trace == old(trace) + HookCalls(|callbacks|, hook)
      ensures world == old(world) && done == old(done)
      ensures referenceGenerator == old(referenceGenerator) && rewardFunction == old(rewardFunction)
    {
      for i := 0 to |callbacks|
        invariant trace == old(trace) + HookCalls(i, hook)
        invariant world == old(world) && done == old(done)
        invariant referenceGenerator == old(referenceGenerator) && rewardFunction == old(rewardFunction)
      {
        trace := trace + [Callback(i, hook)];
      }
    }

    method SetReferenceGenerator(g: LegacyReferenceGenerator<W>)
      modifies this
      ensures referenceGenerator == g && done
      ensures rewardFunction == old(rewardFunction) && world == old(world) && trace == old(trace)
    {
      referenceGenerator := g;
      done := true;
    }

    method SetRewardFunction(f: LegacyReward<W, A>)
      modifies this
      ensures rewardFunction == f && done
      ensures referenceGenerator == old(referenceGenerator) && world == old(world) && trace == old(trace)
    {
      rewardFunction := f;
      done := true;
    }

    /** `reset`: the reference generator's reset yields the reference and the
      * next reference; the reward function is reset with the state and the
      * reference; the filtered state and the next reference are returned. */
    method Reset() returns (shown: seq<real>, referenceNext: seq<real>)
      requires Valid()
      modifies this
      ensures !done
      ensures var (w1, state) := physicalSystem.reset(old(world));
              var (w2, reference, next) := referenceGenerator.reset(w1, state);
              shown == Pick(state, stateFilter) && referenceNext == next
              && world == rewardFunction.reset(w2, state, reference)
              && trace == old(trace) + HookCalls(|callbacks|, OnResetBegin)
                          + [PhysicalReset, ReferenceReset, RewardReset]
                          + HookCalls(|callbacks|, OnResetEnd(state, reference))
      ensures referenceGenerator == old(referenceGenerator) && rewardFunction == old(rewardFunction)
    {
      var reset := physicalSystem.reset(world);
      var state := reset.1;
      var got := referenceGenerator.reset(reset.0, state);
      CallCallbacks(OnResetBegin);
      Restart(rewardFunction.reset(got.0, state, got.1));
      CallCallbacks(OnResetEnd(state, got.1));
      shown := Pick(state, stateFilter);
      referenceNext := got.2;
    }

    /** The work between the two reset hooks, once its results are known. */
    method Restart(w: W)
      modifies this
      ensures world == w && !done
      ensures trace == old(trace) + [PhysicalReset, ReferenceReset, RewardReset]
      ensures referenceGenerator == old(referenceGenerator) && rewardFunction == old(rewardFunction)
    {
      done := false;
      world := w;
      trace := trace + [PhysicalReset, ReferenceReset, RewardReset];
    }

    /** `step(action)` as in the newer environment, with the state filtered. */
    method Step(action: A) returns (r: Result<StepResult>)
      requires Valid()
      modifies this
      ensures old(done) ==> r.Err? && world == old(world) && trace == old(trace) && done
      ensures !old(done) ==>
                var o := old(Stepping(physicalSystem, referenceGenerator.getReference, referenceGenerator.getReferenceObservation,
                                      rewardFunction.reward, constraintMonitor, world, action));
                r == Ok(StepResult(Pick(o.state, stateFilter), o.referenceNext, o.reward, o.violation >= 1.0))
                && done == (o.violation >= 1.0) && world == o.world
                && trace == old(trace) + StepTrace(|callbacks|, physicalSystem.k(old(world)), action,
                                                   physicalSystem.k(o.world), o.state, o.reference, o.reward, done)
      ensures referenceGenerator == old(referenceGenerator) && rewardFunction == old(rewardFunction)
    {
      if done {
        return Err("AssertionError: A reset is required before the environment can perform further steps");
      }
      var o := Stepping(physicalSystem, referenceGenerator.getReference, referenceGenerator.getReferenceObservation,
                        rewardFunction.reward, constraintMonitor, world, action);
      var d := Run(o);
      r := Ok(StepResult(Pick(o.state, stateFilter), o.referenceNext, o.reward, d));
    }

    /** The step between its checks and its result: the two step hooks around
      * the work, once the work's results are known. */
    method Run(o: Stepped<W, A>) returns (d: bool)
      modifies this
      ensures world == o.world && done == (o.violation >= 1.0) && d == done
      ensures trace == old(trace) + StepTrace(|callbacks|, physicalSystem.k(old(world)), o.action,
                                              physicalSystem.k(o.world), o.state, o.reference, o.reward, d)
      ensures referenceGenerator == old(referenceGenerator) && rewardFunction == old(rewardFunction)
    {
      CallCallbacks(OnStepBegin(physicalSystem.k(world), o.action));
      Conclude(o);
      CallCallbacks(OnStepEnd(physicalSystem.k(world), o.state, o.reference, o.reward, done));
      d := done;
    }

    method Conclude(o: Stepped<W, A>)
      modifies this
      ensures world == o.world && done == (o.violation >= 1.0)
      ensures trace == old(trace) + [Simulate(o.action), GetReference, CheckConstraints, Reward, ReferenceObservation]
      ensures referenceGenerator == old(referenceGenerator) && rewardFunction == old(rewardFunction)
    {
      done := o.violation >= 1.0;
      world := o.world;
      trace := trace + [Simulate(o.action), GetReference, CheckConstraints, Reward, ReferenceObservation];
    }

    /** `seed` is the same as in the newer environment. */
    method Seed(seed: Option<int>, osEntropy: int) returns (r: seq<int>)
      modifies this
      ensures var entropy := if seed.Some? then seed.value else osEntropy;
              var flags := RandomFlags(physicalSystem.isRandom, referenceGenerator.isRandom, rewardFunction.isRandom, callbacks);
              r == [entropy]
              && trace == old(trace) + SeedCalls(Spawn(Root(Some(entropy)), |flags|).1, flags)
      ensures world == old(world) && done == old(done)
      ensures referenceGenerator == old(referenceGenerator) && rewardFunction == old(rewardFunction)
    {
      var entropy := if seed.Some? then seed.value else osEntropy;
      var flags := RandomFlags(physicalSystem.isRandom, referenceGenerator.isRandom, rewardFunction.isRandom, callbacks);
      var children := Spawn(Root(Some(entropy)), |flags|).1;
      var calls: seq<Event<A>> := [];
      for i := 0 to |flags|
        invariant calls == SeedCalls(children[..i], flags[..i])
      {
        assert children[..i + 1][..i] == children[..i] && flags[..i + 1][..i] == flags[..i];
        if flags[i] {
          calls := calls + [Seeded(i, children[i])];
        }
      }
      assert children[..|flags|] == children && flags[..|flags|] == flags;
      trace := trace + calls;
      r := [entropy];
    }

    method Close()
      modifies this
      ensures trace == old(trace) + HookCalls(|callbacks|, OnClose)
                       + [Closed(RewardPart), Closed(PhysicalPart), Closed(ReferencePart)]
      ensures world == old(world) && done == old(done)
    {
      CallCallbacks(OnClose);
      trace := trace + [Closed(RewardPart), Closed(PhysicalPart), Closed(ReferencePart)];
    }
  }

  /** The constructor as a whole: the monitor as in the newer environment,
    * then the state filter, which fails on a name the system does not
    * have. */
  method NewLegacyEnvironment<W(!new), A(!new)>(physicalSystem: PhysicalSystemModel<W, A>,
                                                referenceGenerator: LegacyReferenceGenerator<W>,
                                                rewardFunction: LegacyReward<W, A>, visualizations: seq<CallbackModel>,
                                                stateFilter: Option<seq<string>>, callbacks: seq<CallbackModel>,
                                                constraints: ConstraintsArgument, world: W)
    returns (r: Result<LegacyEnvironment<W, A>>)
    requires DividingLimits(physicalSystem.info) && SimulatesStates(physicalSystem) && ResetsStates(physicalSystem)
    requires |physicalSystem.nominalState| == |physicalSystem.info.stateNames|
    requires constraints.GivenMonitor? ==> constraints.monitor.Valid()
    modifies ObjectsOf(GivenConstraints(constraints))
    ensures r.Ok? <==> AllKnown(GivenConstraints(constraints), physicalSystem.info)
                       && KnownNames(physicalSystem.info.stateNames, stateFilter)
    ensures r.Ok? ==> r.value.Valid() && r.value.done
    ensures r.Ok? ==> r.value.trace == HookCalls(|callbacks| + |visualizations|, SetEnv)
    ensures r.Ok? ==> var chosen := ChosenNames(physicalSystem.info.stateNames, stateFilter);
                      r.value.StateNames() == chosen
    ensures (exists i :: 0 <= i < |ChosenNames(physicalSystem.info.stateNames, stateFilter)|
                         && ChosenNames(physicalSystem.info.stateNames, stateFilter)[i] !in physicalSystem.info.stateNames)
            ==> r.Err?
  {
    var cm := MonitorFor(constraints);
    var ok := cm.SetModules(physicalSystem.info);
    if constraints.ConstraintList? {
      KnownWithTrailingLimits(cm.constraints, GivenConstraints(constraints), physicalSystem.info);
    }
    if !ok {
      return Err("KeyError: unknown state name");
    }
    ConfiguredConstraintsAreReady(cm.constraints, physicalSystem.info);
    r := FilteredEnvironment(physicalSystem, referenceGenerator, rewardFunction, visualizations, stateFilter,
                             callbacks, cm, world);
  }

  /** The rest of the constructor once the monitor is configured: the state
    * filter, which fails on a name the system does not have, and the
    * environment itself. */
  method FilteredEnvironment<W(!new), A(!new)>(physicalSystem: PhysicalSystemModel<W, A>,
                                               referenceGenerator: LegacyReferenceGenerator<W>,
                                               rewardFunction: LegacyReward<W, A>, visualizations: seq<CallbackModel>,
                                               stateFilter: Option<seq<string>>, callbacks: seq<CallbackModel>,
                                               cm: ConstraintMonitor, world: W)
    returns (r: Result<LegacyEnvironment<W, A>>)
    requires physicalSystem.info.WellFormed() && SimulatesStates(physicalSystem) && ResetsStates(physicalSystem)
    requires |physicalSystem.nominalState| == |physicalSystem.info.stateNames|
    requires cm.Valid() && ReadyFor(cm.constraints, |physicalSystem.info.stateNames|)
    ensures r.Ok? <==> KnownNames(physicalSystem.info.stateNames, stateFilter)
    ensures r.Ok? ==> r.value.Valid() && r.value.done && r.value.constraintMonitor == cm
    ensures r.Ok? ==> r.value.trace == HookCalls(|callbacks| + |visualizations|, SetEnv)
    ensures r.Ok? ==> r.value.StateNames() == ChosenNames(physicalSystem.info.stateNames, stateFilter)
  {
    var filter := StateFilterFor(physicalSystem.info.stateNames, stateFilter);
    if filter.Err? {
      return Err(filter.error);
    }
    var env := new LegacyEnvironment(physicalSystem, referenceGenerator, rewardFunction, visualizations, callbacks,
                                     cm, filter.value, world);
    r := Ok(env);
  }
}
