/**
 * The environment that ties a drive simulation together
 * (core/electric_motor_environment.py): it resets and steps the physical
 * system, asks the reference generator for references, the constraint
 * monitor for the violation degree and the reward function for the reward,
 * tells its callbacks before and after each phase, and hands seeds down to
 * its random parts.
 *
 * The physical system, the reference generator and the reward function are
 * abstract here: each is a record of functions on a world value `W` that
 * stands for everything they keep between calls. The environment records
 * every call it makes, in order, in `trace`; what a callback does when it is
 * called is not modelled.
 */
module Environments {
  import opened Common
  import opened Seeding
  import opened Constraints

  /** A callback hook, with the arguments the environment passes to it. */
  datatype Hook<A> =
    | SetEnv
    | OnResetBegin
    | OnResetEnd(state: seq<real>, reference: seq<real>)
    | OnStepBegin(k: nat, action: A)
    | OnStepEnd(k: nat, state: seq<real>, reference: seq<real>, reward: real, done: bool)
    | OnClose

  /** The parts `close` closes, in this order after the callbacks. */
  datatype Part = RewardPart | PhysicalPart | ReferencePart

  /** One call the environment makes. */
  datatype Event<A> =
    | Callback(index: nat, hook: Hook<A>)
    | PhysicalReset
    | Simulate(action: A)
    | ReferenceReset
    | GetReference
    | ReferenceObservation
    | RewardReset
    | Reward
    | CheckConstraints
    | Seeded(component: nat, seed: SeedSequence)
    | Closed(part: Part)

  /** The physical system as the environment sees it: its description for
    * `set_modules`, `reset`, `simulate` and the step counter `k`. */
  datatype PhysicalSystemModel<!W, !A> = PhysicalSystemModel(
    info: SystemInfo,
    nominalState: seq<real>,
    reset: W -> (W, seq<real>),
    simulate: (W, A) -> (W, seq<real>),
    k: W -> nat,
    isRandom: bool)

  datatype ReferenceGeneratorModel<!W> = ReferenceGeneratorModel(
    reset: (W, seq<real>) -> W,
    getReference: (W, seq<real>) -> (W, seq<real>),
    getReferenceObservation: (W, seq<real>) -> (W, seq<real>),
    isRandom: bool)

  /** A reward function; calling it (`__call__`) only forwards to `reward`. */
  datatype RewardModel<!W, !A> = RewardModel(
    reset: W -> W,
    reward: (W, seq<real>, seq<real>, nat, A, real) -> (W, real),
    isRandom: bool)

  datatype CallbackModel = CallbackModel(isRandom: bool)

  /** `((state, ref_next), reward, done, {})`. */
  datatype StepResult = StepResult(state: seq<real>, referenceNext: seq<real>, reward: real, done: bool)

  /** The calls one `_call_callbacks(hook, ...)` makes: every callback, in list
    * order. */
  function HookCalls<A>(n: nat, hook: Hook<A>): (ev: seq<Event<A>>)
    ensures |ev| == n && forall i :: 0 <= i < n ==> ev[i] == Callback(i, hook)
  {
    seq(n, i requires 0 <= i < n => Callback(i, hook))
  }

  /** The calls of one `reset`. */
  function ResetTrace<A>(n: nat, state: seq<real>, reference: seq<real>): seq<Event<A>>
  {
    HookCalls(n, OnResetBegin) + [PhysicalReset, ReferenceReset, ReferenceObservation, RewardReset]
    + HookCalls(n, OnResetEnd(state, reference))
  }

  /** The calls of one `step`. */
  function StepTrace<A>(n: nat, kBefore: nat, action: A, kAfter: nat, state: seq<real>, reference: seq<real>,
                        reward: real, done: bool): seq<Event<A>>
  {
    HookCalls(n, OnStepBegin(kBefore, action))
    + [Simulate(action), GetReference, CheckConstraints, Reward, ReferenceObservation]
    + HookCalls(n, OnStepEnd(kAfter, state, reference, reward, done))
  }

  /** A list of callback calls holds no other event. */
  lemma OnlyCallbacks<A>(ev: seq<Event<A>>)
    requires forall i :: 0 <= i < |ev| ==> ev[i].Callback?
    ensures PhysicalReset !in ev
  {
  }

  /** In a reset every callback hears `on_reset_begin` before the physical
    * system is reset and `on_reset_end`, with the state and reference that
    * reset returns, after it. */
  lemma ResetHooksSurroundPhysicalReset<A>(n: nat, state: seq<real>, reference: seq<real>)
    ensures var ev := ResetTrace<A>(n, state, reference);
            (forall c :: 0 <= c < n ==>
               Callback(c, OnResetBegin) in ev[..n] && Callback(c, OnResetEnd(state, reference)) in ev[n + 4..])
            && ev[n] == PhysicalReset
            && PhysicalReset !in ev[..n] && PhysicalReset !in ev[n + 1..]
  {
    var ev := ResetTrace<A>(n, state, reference);
    var before := HookCalls<A>(n, OnResetBegin);
    var after := HookCalls<A>(n, OnResetEnd(state, reference));
    assert ev[..n] == before;
    assert ev[n + 4..] == after;
    assert ev[n + 1..] == [ReferenceReset, ReferenceObservation, RewardReset] + after;
    OnlyCallbacks(before);
    OnlyCallbacks(after);
    forall c | 0 <= c < n
      ensures Callback(c, OnResetBegin) in ev[..n] && Callback(c, OnResetEnd(state, reference)) in ev[n + 4..]
    {
      assert before[c] == Callback(c, OnResetBegin);
      assert after[c] == Callback(c, OnResetEnd(state, reference));
    }
  }

  /** In a step every callback hears `on_step_begin` before `simulate` runs and
    * `on_step_end` after all of the step's work, and the `done` it hears is
    * the one the step returns. */
  lemma StepHooksSurroundSimulation<A>(n: nat, kBefore: nat, action: A, kAfter: nat, state: seq<real>,
                                       reference: seq<real>, reward: real, done: bool)
    ensures var ev := StepTrace(n, kBefore, action, kAfter, state, reference, reward, done);
            |ev| == 2 * n + 5 && ev[n] == Simulate(action)
            && (forall i :: 0 <= i < n ==> ev[i] == Callback(i, OnStepBegin(kBefore, action)))
            && (forall i :: n + 5 <= i < |ev| ==> ev[i] == Callback(i - n - 5, OnStepEnd(kAfter, state, reference, reward, done)))
            && (forall i :: 0 <= i < |ev| && ev[i].Simulate? ==> i == n)
  {
    var ev := StepTrace(n, kBefore, action, kAfter, state, reference, reward, done);
    var before := HookCalls<A>(n, OnStepBegin(kBefore, action));
    var after := HookCalls<A>(n, OnStepEnd(kAfter, state, reference, reward, done));
    forall i | n + 5 <= i < |ev|
      ensures ev[i] == Callback(i - n - 5, OnStepEnd(kAfter, state, reference, reward, done))
    {
      assert ev[i] == after[i - n - 5];
    }
  }

  /** The seeding calls of `seed`: component `i` is seeded with child `i` when it
    * is random, in component order. */
  function SeedCalls<A>(children: seq<SeedSequence>, isRandom: seq<bool>): (ev: seq<Event<A>>)
    requires |children| == |isRandom|
    ensures forall i :: 0 <= i < |ev| ==> ev[i].Seeded? && ev[i].component < |isRandom|
                                          && isRandom[ev[i].component] && ev[i].seed == children[ev[i].component]
    ensures forall c :: 0 <= c < |isRandom| && isRandom[c] ==> Seeded(c, children[c]) in ev
  {
    if |isRandom| == 0 then []
    else
      var n := |isRandom| - 1;
      var rest := SeedCalls<A>(children[..n], isRandom[..n]);
      rest + (if isRandom[n] then [Seeded(n, children[n])] else [])
  }

  /** The components in seeding order: physical system, reference generator,
    * reward function, constraint monitor (never random), then the callbacks. */
  function RandomFlags(ps: bool, rg: bool, rf: bool, callbacks: seq<CallbackModel>): (flags: seq<bool>)
    ensures |flags| == 4 + |callbacks|
    ensures flags[0] == ps && flags[1] == rg && flags[2] == rf && !flags[3]
    ensures forall i :: 0 <= i < |callbacks| ==> flags[4 + i] == callbacks[i].isRandom
  {
    [ps, rg, rf, false] + seq(|callbacks|, i requires 0 <= i < |callbacks| => callbacks[i].isRandom)
  }

  /** No two components are given the same seed. */
  lemma {:induction false} SeedCallsDistinct<A>(s: SeedSequence, isRandom: seq<bool>)
    ensures var ev := SeedCalls<A>(Spawn(s, |isRandom|).1, isRandom);
            forall i, j :: 0 <= i < j < |ev| ==> ev[i].seed != ev[j].seed && ev[i].component < ev[j].component
  {
    var children := Spawn(s, |isRandom|).1;
    SpawnedChildrenDistinct(s, |isRandom|, 0);
    SeedCallsIncreasing<A>(children, isRandom);
    var ev := SeedCalls<A>(children, isRandom);
    forall i, j | 0 <= i < j < |ev| ensures ev[i].seed != ev[j].seed {
      var a, b := ev[i].component, ev[j].component;
      assert a < b < |isRandom|;
      assert children[a] != children[b];
    }
  }

  /** Seeding calls name their components in strictly increasing order. */
  predicate InComponentOrder<A>(ev: seq<Event<A>>)
  {
    forall i, j :: 0 <= i < j < |ev| && ev[i].Seeded? && ev[j].Seeded? ==> ev[i].component < ev[j].component
  }

  lemma {:induction false} SeedCallsIncreasing<A>(children: seq<SeedSequence>, isRandom: seq<bool>)
    requires |children| == |isRandom|
    ensures InComponentOrder(SeedCalls<A>(children, isRandom))
  {
    if |isRandom| > 0 {
      var n := |isRandom| - 1;
      SeedCallsIncreasing<A>(children[..n], isRandom[..n]);
      var rest := SeedCalls<A>(children[..n], isRandom[..n]);
      var ev := SeedCalls<A>(children, isRandom);
      assert ev == rest + (if isRandom[n] then [Seeded(n, children[n])] else []);
      forall i, j | 0 <= i < j < |ev| && ev[i].Seeded? && ev[j].Seeded? ensures ev[i].component < ev[j].component {
        if j < |rest| {
          assert ev[i] == rest[i] && ev[j] == rest[j];
          assert rest[i].component < rest[j].component;
        } else {
          assert ev[j] == Seeded(n, children[n]);
          assert ev[i] == rest[i] && rest[i].component < n;
        }
      }
    }
  }

  // ------------------------------------------------ the constraints argument

  /** An entry of a constraint list: a state name whose limit is to be watched,
    * or a constraint object (a plain callable is not a `Constraint`). */
  datatype ConstraintEntry = StateName(name: string) | ConstraintObject(c: Constraint)

  datatype ConstraintsArgument = GivenMonitor(monitor: ConstraintMonitor) | ConstraintList(entries: seq<ConstraintEntry>)

  /** `[c for c in constraints if type(c) is str]`. */
  function LimitNamesOf(entries: seq<ConstraintEntry>): (names: seq<string>)
    ensures forall n :: n in names <==> StateName(n) in entries
    ensures |names| <= |entries|
  {
    if |entries| == 0 then []
    else
      var n := |entries| - 1;
      var rest := LimitNamesOf(entries[..n]);
      assert entries == entries[..n] + [entries[n]];
      rest + (if entries[n].StateName? then [entries[n].name] else [])
  }

  /** Whether an entry passes `isinstance(c, gem.Constraint)`. */
  predicate IsConstraintObject(e: ConstraintEntry)
  {
    e.ConstraintObject? && !e.c.Callable?
  }

  /** `[c for c in constraints if isinstance(c, gem.Constraint)]`. */
  function AdditionalOf(entries: seq<ConstraintEntry>): (cs: seq<ConstraintArgument>)
    ensures AllCallable(cs) && |cs| <= |entries|
  {
    if |entries| == 0 then []
    else
      var n := |entries| - 1;
      var rest := AdditionalOf(entries[..n]);
      assert entries == entries[..n] + [entries[n]];
      rest + (if IsConstraintObject(entries[n]) then [Given(entries[n].c)] else [])
  }

  /** The additional constraints are exactly the constraint objects of the
    * list: each comes from some entry, and every constraint object is there. */
  lemma {:induction false} AdditionalOfSelects(entries: seq<ConstraintEntry>)
    ensures var cs := AdditionalOf(entries);
            (forall i :: 0 <= i < |cs| ==>
               exists j :: 0 <= j < |entries| && IsConstraintObject(entries[j]) && cs[i] == Given(entries[j].c))
            && (forall j :: 0 <= j < |entries| && IsConstraintObject(entries[j]) ==> Given(entries[j].c) in cs)
  {
    if |entries| > 0 {
      var n := |entries| - 1;
      AdditionalOfSelects(entries[..n]);
      var rest := AdditionalOf(entries[..n]);
      var cs := AdditionalOf(entries);
      assert cs == rest + (if IsConstraintObject(entries[n]) then [Given(entries[n].c)] else []);
      forall i | 0 <= i < |cs|
        ensures exists j :: 0 <= j < |entries| && IsConstraintObject(entries[j]) && cs[i] == Given(entries[j].c)
      {
        if i < |rest| {
          assert cs[i] == rest[i];
          var j :| 0 <= j < |entries[..n]| && IsConstraintObject(entries[..n][j]) && rest[i] == Given(entries[..n][j].c);
          assert entries[j] == entries[..n][j];
        } else {
          assert cs[i] == Given(entries[n].c);
        }
      }
      forall j | 0 <= j < |entries| && IsConstraintObject(entries[j]) ensures Given(entries[j].c) in cs {
        if j < n {
          assert entries[..n][j] == entries[j];
        }
      }
    }
  }

  /** A system description whose limits can divide states. */
  predicate DividingLimits(info: SystemInfo)
  {
    info.WellFormed() && forall i :: 0 <= i < |info.limits| ==> info.limits[i] != 0.0
  }

  /** `physical_system.simulate` always returns a state of the described size. */
  ghost predicate SimulatesStates<W(!new), A(!new)>(ps: PhysicalSystemModel<W, A>)
  {
    forall w, a :: |ps.simulate(w, a).1| == |ps.info.stateNames|
  }

  /** So does `physical_system.reset`. */
  ghost predicate ResetsStates<W(!new), A(!new)>(ps: PhysicalSystemModel<W, A>)
  {
    forall w :: |ps.reset(w).1| == |ps.info.stateNames|
  }

  /** The constraint objects the caller hands over. */
  function GivenConstraints(arg: ConstraintsArgument): seq<Constraint>
  {
    if arg.GivenMonitor? then arg.monitor.constraints else Unwrap(AdditionalOf(arg.entries))
  }

  /** The limit constraint a list adds after its constraint objects never
    * decides whether construction succeeds. */
  lemma KnownWithTrailingLimits(cs: seq<Constraint>, given: seq<Constraint>, ps: SystemInfo)
    requires ps.WellFormed()
    requires |given| <= |cs| && cs[..|given|] == given
    requires forall i :: |given| <= i < |cs| ==> cs[i].Limit?
    ensures AllKnown(cs, ps) <==> AllKnown(given, ps)
  {
    assert forall i :: 0 <= i < |given| ==> cs[i] == given[i];
  }

  /** The monitor in use: the given one as it is, or one built from the list
    * with the constraint objects as additional constraints and the names as
    * one limit constraint after them, merged by maximum. */
  method MonitorFor(arg: ConstraintsArgument) returns (cm: ConstraintMonitor)
    requires arg.GivenMonitor? ==> arg.monitor.Valid()
    ensures cm.Valid()
    ensures arg.GivenMonitor? ==> cm == arg.monitor
    ensures arg.ConstraintList? ==>
              var additional := Unwrap(AdditionalOf(arg.entries));
              var names := LimitNamesOf(arg.entries);
              |cm.constraints| == |additional| + (if names == [] then 0 else 1)
              && cm.constraints[..|additional|] == additional
              && (names != [] ==> cm.constraints[|additional|].Limit?
                                  && cm.constraints[|additional|].lc.observedStateNames == Names(names))
              && SelectMerge(|cm.constraints|, MergeByName("max")) == Ok(cm.mergeRule)
    ensures forall o :: o in ObjectsOf(cm.constraints) ==> o in ObjectsOf(GivenConstraints(arg)) || fresh(o)
  {
    if arg.GivenMonitor? {
      return arg.monitor;
    }
    var additional := AdditionalOf(arg.entries);
    var names := LimitNamesOf(arg.entries);
    var r := NewConstraintMonitor(names, additional, MergeByName("max"));
    cm := r.value;
    var given := Unwrap(additional);
    forall o | o in ObjectsOf(cm.constraints) ensures o in ObjectsOf(given) || fresh(o) {
      var i :| 0 <= i < |cm.constraints| && ((cm.constraints[i].Limit? && o == cm.constraints[i].lc)
                                            || (cm.constraints[i].Squared? && o == cm.constraints[i].sc));
      if i < |given| {
        assert cm.constraints[i] == given[i];
      }
    }
  }

  // ------------------------------------------------------- the environment

  /** What one step computes: the state `simulate` returns, the reference for
    * it, the violation degree of that same state, the reward, the next
    * reference observation, and the world afterwards. */
  datatype Stepped<!W, A> = Stepped(action: A, state: seq<real>, reference: seq<real>, violation: real,
                                    reward: real, referenceNext: seq<real>, world: W)

  function Stepping<W(!new), A(!new)>(ps: PhysicalSystemModel<W, A>, getReference: (W, seq<real>) -> (W, seq<real>),
                                      getReferenceObservation: (W, seq<real>) -> (W, seq<real>),
                                      reward: (W, seq<real>, seq<real>, nat, A, real) -> (W, real),
                                      cm: ConstraintMonitor, w: W, action: A): (o: Stepped<W, A>)
    reads cm, ObjectsOf(cm.constraints)
    requires cm.Valid() && SimulatesStates(ps) && ReadyFor(cm.constraints, |ps.info.stateNames|)
    ensures o.action == action && o.state == ps.simulate(w, action).1
    ensures o.violation == cm.CheckConstraints(o.state)
  {
    var (w1, state) := ps.simulate(w, action);
    var (w2, reference) := getReference(w1, state);
    var v := cm.CheckConstraints(state);
    var (w3, r) := reward(w2, state, reference, ps.k(w2), action, v);
    var (w4, referenceNext) := getReferenceObservation(w3, state);
    Stepped(action, state, reference, v, r, referenceNext, w4)
  }

  class Environment<W(!new), A(!new)> {
    const physicalSystem: PhysicalSystemModel<W, A>
    const constraintMonitor: ConstraintMonitor
    const visualizations: seq<CallbackModel>
    /** The user callbacks followed by the visualizations. */
    const callbacks: seq<CallbackModel>
    var referenceGenerator: ReferenceGeneratorModel<W>
    var rewardFunction: RewardModel<W, A>
    var world: W
    var done: bool
    var trace: seq<Event<A>>

    /** The monitor can judge every state the physical system produces. */
    ghost predicate Valid()
      reads ObjectsOf(constraintMonitor.constraints)
    {
      constraintMonitor.Valid() && SimulatesStates(physicalSystem)
      && ReadyFor(constraintMonitor.constraints, |physicalSystem.info.stateNames|)
    }

    /** The constructor from `self._done = True` on; the monitor has already
      * been configured for the physical system. */
    constructor (physicalSystem: PhysicalSystemModel<W, A>, referenceGenerator: ReferenceGeneratorModel<W>,
                 rewardFunction: RewardModel<W, A>, visualizations: seq<CallbackModel>,
                 callbacks: seq<CallbackModel>, constraintMonitor: ConstraintMonitor, world: W)
      ensures this.physicalSystem == physicalSystem && this.referenceGenerator == referenceGenerator
      ensures this.rewardFunction == rewardFunction && this.constraintMonitor == constraintMonitor
      ensures this.visualizations == visualizations && this.callbacks == callbacks + visualizations
      ensures this.world == world && done
      ensures trace == HookCalls(|callbacks| + |visualizations|, SetEnv)
    {
      this.physicalSystem := physicalSystem;
      this.referenceGenerator := referenceGenerator;
      this.rewardFunction := rewardFunction;
      this.constraintMonitor := constraintMonitor;
      this.visualizations := visualizations;
      this.callbacks := callbacks + visualizations;
      this.world := world;
      done := true;
      trace := [];
      new;
      CallCallbacks(SetEnv);
    }

    /** `_call_callbacks`: the hook on every callback, in list order. */
    method CallCallbacks(hook: Hook<A>)
      modifies this
      ensures trace == old(trace) + HookCalls(|callbacks|, hook)
      ensures world == old(world) && done == old(done)
      ensures referenceGenerator == old(referenceGenerator) && rewardFunction == old(rewardFunction)
    {
      for i := 0 to |callbacks|
        invariant trace == old(trace) + HookCalls(i, hook)
        invariant world == old(world) && done == old(done)
        invariant referenceGenerator == old(referenceGenerator) && rewardFunction == old(rewardFunction)
      {
        trace := trace + [Callback(i, hook)];
      }
    }

    /** Replacing the reference generator requires a reset. */
    method SetReferenceGenerator(g: ReferenceGeneratorModel<W>)
      modifies this
      ensures referenceGenerator == g && done
      ensures rewardFunction == old(rewardFunction) && world == old(world) && trace == old(trace)
    {
      referenceGenerator := g;
      done := true;
    }

    /** Replacing the reward function requires a reset. */
    method SetRewardFunction(f: RewardModel<W, A>)
      modifies this
      ensures rewardFunction == f && done
      ensures referenceGenerator == old(referenceGenerator) && world == old(world) && trace == old(trace)
    {
      rewardFunction := f;
      done := true;
    }

    /** `reset`: the physical system's reset state and the reference
      * observation of it, between the two reset hooks. */
    method Reset() returns (state: seq<real>, reference: seq<real>)
      modifies this
      ensures !done
      ensures var (w1, s) := physicalSystem.reset(old(world));
              var w2 := referenceGenerator.reset(w1, s);
              var (w3, ref) := referenceGenerator.getReferenceObservation(w2, s);
              state == s && reference == ref && world == rewardFunction.reset(w3)
      ensures trace == old(trace) + ResetTrace(|callbacks|, state, reference)
      ensures referenceGenerator == old(referenceGenerator) && rewardFunction == old(rewardFunction)
    {
      CallCallbacks(OnResetBegin);
      done := false;
      var w1, s := physicalSystem.reset(world).0, physicalSystem.reset(world).1;
      state := s;
      var w2 := referenceGenerator.reset(w1, state);
      var w3, ref := referenceGenerator.getReferenceObservation(w2, state).0, referenceGenerator.getReferenceObservation(w2, state).1;
      reference := ref;
      world := rewardFunction.reset(w3);
      trace := trace + [PhysicalReset, ReferenceReset, ReferenceObservation, RewardReset];
      CallCallbacks(OnResetEnd(state, reference));
    }

    /** `step(action)`: refused while a reset is due; otherwise the simulated
      * state, the reference for it, the violation degree of that same state,
      * the reward, and `done` exactly when the degree reaches 1.0. */
    method Step(action: A) returns (r: Result<StepResult>)
      requires Valid()
      modifies this
      ensures old(done) ==> r.Err? && world == old(world) && trace == old(trace) && done
      ensures !old(done) ==>
                var o := old(Stepping(physicalSystem, referenceGenerator.getReference, referenceGenerator.getReferenceObservation,
                         rewardFunction.reward, constraintMonitor, world, action));
                r == Ok(StepResult(o.state, o.referenceNext, o.reward, o.violation >= 1.0))
                && done == (o.violation >= 1.0) && world == o.world
                && trace == old(trace) + StepTrace(|callbacks|, physicalSystem.k(old(world)), action,
                                                   physicalSystem.k(o.world), o.state, o.reference, o.reward, done)
      ensures referenceGenerator == old(referenceGenerator) && rewardFunction == old(rewardFunction)
    {
      if done {
        return Err("AssertionError: A reset is required before the environment can perform further steps");
      }
      var o := Stepping(physicalSystem, referenceGenerator.getReference, referenceGenerator.getReferenceObservation,
                         rewardFunction.reward, constraintMonitor, world, action);
      var d := Run(o);
      r := Ok(StepResult(o.state, o.referenceNext, o.reward, d));
    }

    /** The step between its checks and its result: the two step hooks around
      * the work, once the work's results are known. */
    method Run(o: Stepped<W, A>) returns (d: bool)
      modifies this
      ensures world == o.world && done == (o.violation >= 1.0) && d == done
      ensures trace == old(trace) + StepTrace(|callbacks|, physicalSystem.k(old(world)), o.action,
                                              physicalSystem.k(o.world), o.state, o.reference, o.reward, d)
      ensures referenceGenerator == old(referenceGenerator) && rewardFunction == old(rewardFunction)
    {
      CallCallbacks(OnStepBegin(physicalSystem.k(world), o.action));
      Conclude(o);
      CallCallbacks(OnStepEnd(physicalSystem.k(world), o.state, o.reference, o.reward, done));
      d := done;
    }

    /** The work between the two step hooks, once its results are known. */
    method Conclude(o: Stepped<W, A>)
      modifies this
      ensures world == o.world && done == (o.violation >= 1.0)
      ensures trace == old(trace) + [Simulate(o.action), GetReference, CheckConstraints, Reward, ReferenceObservation]
      ensures referenceGenerator == old(referenceGenerator) && rewardFunction == old(rewardFunction)
    {
      done := o.violation >= 1.0;
      world := o.world;
      trace := trace + [Simulate(o.action), GetReference, CheckConstraints, Reward, ReferenceObservation];
    }

    /** `seed(seed)`: a root sequence from the seed (or from `osEntropy` when no
      * seed is given), one child per component, each random component seeded
      * with its own child; the root entropy is returned. */
    method Seed(seed: Option<int>, osEntropy: int) returns (r: seq<int>)
      modifies this
      ensures var entropy := if seed.Some? then seed.value else osEntropy;
              var flags := RandomFlags(physicalSystem.isRandom, referenceGenerator.isRandom, rewardFunction.isRandom, callbacks);
              r == [entropy]
              && trace == old(trace) + SeedCalls(Spawn(Root(Some(entropy)), |flags|).1, flags)
      ensures world == old(world) && done == old(done)
      ensures referenceGenerator == old(referenceGenerator) && rewardFunction == old(rewardFunction)
    {
      var entropy := if seed.Some? then seed.value else osEntropy;
      var flags := RandomFlags(physicalSystem.isRandom, referenceGenerator.isRandom, rewardFunction.isRandom, callbacks);
      var children := Spawn(Root(Some(entropy)), |flags|).1;
      var calls: seq<Event<A>> := [];
      for i := 0 to |flags|
        invariant calls == SeedCalls(children[..i], flags[..i])
      {
        assert children[..i + 1][..i] == children[..i] && flags[..i + 1][..i] == flags[..i];
        if flags[i] {
          calls := calls + [Seeded(i, children[i])];
        }
      }
      assert children[..|flags|] == children && flags[..|flags|] == flags;
      trace := trace + calls;
      r := [entropy];
    }

    /** `close`: the close hook, then the reward function, the physical system
      * and the reference generator. */
    method Close()
      modifies this
      ensures trace == old(trace) + HookCalls(|callbacks|, OnClose)
                       + [Closed(RewardPart), Closed(PhysicalPart), Closed(ReferencePart)]
      ensures world == old(world) && done == old(done)
    {
      CallCallbacks(OnClose);
      trace := trace + [Closed(RewardPart), Closed(PhysicalPart), Closed(ReferencePart)];
    }
  }

  /** The constructor as a whole: the constraints argument becomes a monitor,
    * the monitor is configured for the physical system (a name it does not
    * know stops construction), and the environment starts out needing a
    * reset. */
  method NewEnvironment<W(!new), A(!new)>(physicalSystem: PhysicalSystemModel<W, A>,
                                          referenceGenerator: ReferenceGeneratorModel<W>,
                                          rewardFunction: RewardModel<W, A>, visualizations: seq<CallbackModel>,
                                          callbacks: seq<CallbackModel>, constraints: ConstraintsArgument, world: W)
    returns (r: Result<Environment<W, A>>)
    requires DividingLimits(physicalSystem.info) && SimulatesStates(physicalSystem)
    requires constraints.GivenMonitor? ==> constraints.monitor.Valid()
    modifies ObjectsOf(GivenConstraints(constraints))
    ensures constraints.GivenMonitor? ==>
              (r.Ok? <==> AllKnown(constraints.monitor.constraints, physicalSystem.info))
    ensures constraints.ConstraintList? ==>
              (r.Ok? <==> AllKnown(GivenConstraints(constraints), physicalSystem.info))
    ensures r.Ok? ==> r.value.Valid() && r.value.done
    ensures r.Ok? ==> r.value.trace == HookCalls(|callbacks| + |visualizations|, SetEnv)
    ensures r.Ok? ==> r.value.callbacks == callbacks + visualizations && r.value.world == world
    ensures r.Ok? && constraints.GivenMonitor? ==> r.value.constraintMonitor == constraints.monitor
  {
    var cm := MonitorFor(constraints);
    var ok := cm.SetModules(physicalSystem.info);
    if constraints.ConstraintList? {
      KnownWithTrailingLimits(cm.constraints, GivenConstraints(constraints), physicalSystem.info);
    }
    if !ok {
      return Err("KeyError: unknown state name");
    }
    ConfiguredConstraintsAreReady(cm.constraints, physicalSystem.info);
    var env := new Environment(physicalSystem, referenceGenerator, rewardFunction, visualizations, callbacks, cm, world);
    r := Ok(env);
  }
}
