/**
 * The classic controllers of examples/classic_controllers/classic_controllers.py:
 * the stage controllers (PI, PID, on/off, three-point) and the controllers
 * composed from them. Composed controllers either act on a continuous action
 * directly, act on a discrete one, or run a cascade of stages.
 *
 * The four stage classes are one class, `Stage`, whose `law` picks the
 * behaviour. Its memory (the integral, the last error, the last switching
 * level and the three-point branch) is specified by pure functions of the
 * old memory and the control error.
 */
module Controllers {
  import opened Common

  /** The control law of a stage and its parameters. */
  datatype Law =
    | PI(pGain: real, iGain: real)
    | PID(pGain: real, iGain: real, dGain: real)
    | OnOff(hysteresis: real, offLevel: int)
    | ThreePoint(pos: real, neg: real, fromPos: real, fromNeg: real, negative: int)
  {
    /** Continuous laws integrate and their output may be clipped. */
    predicate Continuous() { PI? || PID? }
  }

  /** The defaults of the constructors. */
  const DefaultPI := PI(5.0, 5.0)
  const DefaultPID := PID(5.0, 5.0, 0.005)
  const DefaultHysteresis := 0.02

  /** The on level of the on/off controller and the positive and neutral
    * levels of the three-point controller. */
  const SwitchOnLevel := 1
  const PositiveLevel := 1
  const NeutralLevel := 0

  /** Branch codes kept in `recent_action` by the three-point controller. */
  const RecentPositive := 1
  const RecentNegative := 2
  const RecentNeutral := 0

  /** The off level of an on/off controller: 2 for action spaces of three or
    * four actions (unless it drives the field), else 0; an outer stage of a
    * cascade switches off to the state space's low bound instead. */
  function OnOffOffLevel(actionSpaceN: int, controlE: bool, cascadedLow: Option<int>): (off: int)
    ensures cascadedLow.Some? ==> off == cascadedLow.value
    ensures cascadedLow.None? ==> (off == 2 <==> actionSpaceN in {3, 4} && !controlE)
    ensures cascadedLow.None? ==> (off == 0 <==> !(actionSpaceN in {3, 4} && !controlE))
  {
    if cascadedLow.Some? then cascadedLow.value else if actionSpaceN in {3, 4} && !controlE then 2 else 0
  }

  /** The negative level of a three-point controller, by the same rule with
    * eight-action spaces added. */
  function ThreePointNegativeLevel(actionSpaceN: int, controlE: bool, cascadedLow: Option<int>): (negative: int)
    ensures cascadedLow.Some? ==> negative == cascadedLow.value
    ensures cascadedLow.None? ==> (negative == 2 <==> actionSpaceN in {3, 4, 8} && !controlE)
    ensures cascadedLow.None? ==> (negative == 0 <==> !(actionSpaceN in {3, 4, 8} && !controlE))
  {
    if cascadedLow.Some? then cascadedLow.value else if actionSpaceN in {3, 4, 8} && !controlE then 2 else 0
  }

  /** What a stage remembers between calls. */
  datatype Memory = Memory(integrated: real, eOld: real, action: int, recent: int)

  /** The memory of a freshly built stage. */
  function Initial(law: Law): (m: Memory)
    ensures m.integrated == 0.0 && m.eOld == 0.0 && m.recent == RecentNeutral
    ensures m.action == (if law.OnOff? then SwitchOnLevel else NeutralLevel)
  {
    Memory(0.0, 0.0, if law.OnOff? then SwitchOnLevel else NeutralLevel, RecentNeutral)
  }

  /** The memory after `control` with error `e = reference - state`: a PI stage
    * keeps it, a PID stage remembers the error, and a switching stage
    * remembers its level (and the three-point stage its branch). */
  function AfterControl(law: Law, m: Memory, e: real): (r: Memory)
    ensures r.integrated == m.integrated
  {
    match law
    case PI(_, _) => m
    case PID(_, _, _) => m.(eOld := e)
    case OnOff(h, off) =>
      if e > h then m.(action := SwitchOnLevel) else if e < h then m.(action := off) else m
    case ThreePoint(pos, neg, fromPos, fromNeg, negative) =>
      if e > pos || (fromPos < e && m.recent == RecentPositive) then m.(action := PositiveLevel, recent := RecentPositive)
      else if e < -neg || (-fromNeg > e && m.recent == RecentNegative) then m.(action := negative, recent := RecentNegative)
      else m.(action := NeutralLevel, recent := RecentNeutral)
  }

  /** `integrate`: the error times the sampling time is added to the integral,
    * and nothing else changes. */
  function AfterIntegrate(m: Memory, tau: real, e: real): (r: Memory)
    ensures r.integrated - m.integrated == e * tau
    ensures r.(integrated := m.integrated) == m
  {
    m.(integrated := m.integrated + e * tau)
  }

  /** `reset`: a PI stage clears its integral, a PID stage also its last
    * error, an on/off stage switches on, a three-point stage goes neutral. */
  function ResetMemory(law: Law, m: Memory): (r: Memory)
    ensures law.Continuous() ==> r.integrated == 0.0
    ensures law.PID? ==> r.eOld == 0.0
    ensures law.OnOff? ==> r.action == SwitchOnLevel
    ensures law.ThreePoint? ==> r.action == NeutralLevel && r.recent == RecentNeutral
  {
    match law
    case PI(_, _) => m.(integrated := 0.0)
    case PID(_, _, _) => m.(integrated := 0.0, eOld := 0.0)
    case OnOff(_, _) => m.(action := SwitchOnLevel)
    case ThreePoint(_, _, _, _, _) => m.(action := NeutralLevel, recent := RecentNeutral)
  }

  /** A PID stage divides by its sampling time. */
  predicate Sampled(law: Law, tau: real)
  {
    law.PID? ==> tau != 0.0
  }

  /** The value `control` returns for error `e`. A PI stage adds to the
    * proportional term the integral that `integrate` would store, without
    * storing it; a PID stage adds the difference quotient of the error; a
    * switching stage returns the level it switches to. */
  function Output(law: Law, m: Memory, tau: real, e: real): (r: real)
    requires Sampled(law, tau)
    ensures law.PI? ==> r == law.pGain * e + law.iGain * AfterIntegrate(m, tau, e).integrated
    ensures law.PID? ==> r == law.pGain * e + law.iGain * AfterIntegrate(m, tau, e).integrated
                              + law.dGain * (e - m.eOld) / tau
    ensures !law.Continuous() ==> r == AfterControl(law, m, e).action as real
  {
    match law
    case PI(p, i) => p * e + i * (m.integrated + e * tau)
    case PID(p, i, d) => p * e + i * (m.integrated + e * tau) + d * (e - m.eOld) / tau
    case OnOff(_, _) => AfterControl(law, m, e).action as real
    case ThreePoint(_, _, _, _, _) => AfterControl(law, m, e).action as real
  }

  /** The on/off stage: above the hysteresis it switches on, below it switches
    * off, and exactly at it keeps its previous level. */
  lemma OnOffSwitching(law: Law, m: Memory, e: real)
    requires law.OnOff?
    ensures e > law.hysteresis ==> AfterControl(law, m, e).action == SwitchOnLevel
    ensures e < law.hysteresis ==> AfterControl(law, m, e).action == law.offLevel
    ensures e == law.hysteresis ==> AfterControl(law, m, e) == m
  {
  }

  /** The three-point stage always ends in one of its three levels, and the
    * branch it records is the one whose level it took. */
  lemma ThreePointTracksBranch(law: Law, m: Memory, e: real)
    requires law.ThreePoint?
    ensures var r := AfterControl(law, m, e);
            (r.recent == RecentPositive && r.action == PositiveLevel)
            || (r.recent == RecentNegative && r.action == law.negative)
            || (r.recent == RecentNeutral && r.action == NeutralLevel)
  {
  }

  /** The three-point stage's hysteresis: a large positive error switches it to
    * positive whatever it did before, and once positive it stays positive
    * while the error exceeds the lower threshold `fromPos`; once negative it
    * stays negative while the error stays below `-fromNeg`, unless the error
    * is large enough to switch to positive. */
  lemma ThreePointHysteresis(law: Law, m: Memory, e: real, e2: real)
    requires law.ThreePoint?
    ensures e > law.pos ==> AfterControl(law, m, e).recent == RecentPositive
    ensures var r := AfterControl(law, m, e);
            r.recent == RecentPositive && e2 > law.fromPos ==> AfterControl(law, r, e2).action == PositiveLevel
    ensures e <= law.pos && !(law.fromPos < e && m.recent == RecentPositive) && e < -law.neg
            ==> AfterControl(law, m, e).action == law.negative
    ensures var r := AfterControl(law, m, e);
            r.recent == RecentNegative && e2 < -law.fromNeg && e2 <= law.pos
            ==> AfterControl(law, r, e2).action == law.negative
  {
  }

  /** Calling `control` of a PI stage leaves its memory alone; a PID stage only
    * remembers the error. */
  lemma ControlKeepsIntegral(law: Law, m: Memory, e: real)
    requires law.Continuous()
    ensures law.PI? ==> AfterControl(law, m, e) == m
    ensures law.PID? ==> AfterControl(law, m, e) == m.(eOld := e)
  {
  }

  /** `integrate` called `n` times. */
  function Integrations(m: Memory, tau: real, e: real, n: nat): (r: Memory)
  {
    if n == 0 then m else AfterIntegrate(Integrations(m, tau, e, n - 1), tau, e)
  }

  /** With a steady error the integral grows by exactly `n · e · tau` over `n`
    * integrations. */
  lemma {:induction false} IntegralGrowsLinearly(m: Memory, tau: real, e: real, n: nat)
    ensures Integrations(m, tau, e, n).integrated == m.integrated + n as real * e * tau
    ensures Integrations(m, tau, e, n).(integrated := m.integrated) == m
  {
    if n > 0 {
      IntegralGrowsLinearly(m, tau, e, n - 1);
      assert n as real * e * tau == (n - 1) as real * e * tau + e * tau;
    }
  }

  /** When the error does not change between two calls, the derivative term of
    * a PID stage vanishes and it answers like the PI stage with its gains. */
  lemma PIDSteadyErrorHasNoDerivative(law: Law, m: Memory, tau: real, e: real)
    requires law.PID? && tau != 0.0
    ensures Output(law, AfterControl(law, m, e), tau, e) == Output(PI(law.pGain, law.iGain), m, tau, e)
  {
    assert law.dGain * (e - e) / tau == 0.0;
  }

  /** After `reset` a continuous stage answers a zero error with zero. */
  lemma ResetStageIsQuiet(law: Law, m: Memory, tau: real)
    requires law.Continuous() && Sampled(law, tau)
    ensures Output(law, ResetMemory(law, m), tau, 0.0) == 0.0
  {
    if law.PID? {
      assert law.dGain * (0.0 - 0.0) / tau == 0.0;
    }
  }

  /** One stage of any of the four kinds. */
  class Stage {
    const law: Law
    /** The sampling time of the environment; only continuous laws use it. */
    const tau: real
    var integrated: real
    var eOld: real
    var action: int
    var recent: int

    function State(): Memory
      reads this
    {
      Memory(integrated, eOld, action, recent)
    }

    constructor (law: Law, tau: real)
      requires Sampled(law, tau)
      ensures this.law == law && this.tau == tau && State() == Initial(law)
    {
      this.law := law;
      this.tau := tau;
      integrated := 0.0;
      eOld := 0.0;
      action := if law.OnOff? then SwitchOnLevel else NeutralLevel;
      recent := RecentNeutral;
    }

    method Control(state: real, reference: real) returns (a: real)
      requires Sampled(law, tau)
      modifies this
      ensures a == Output(law, old(State()), tau, reference - state)
      ensures State() == AfterControl(law, old(State()), reference - state)
    {
      var e := reference - state;
      match law
      case PI(p, i) =>
        a := p * e + i * (integrated + e * tau);
      case PID(p, i, d) =>
        a := p * e + i * (integrated + e * tau) + d * (e - eOld) / tau;
        eOld := e;
      case OnOff(h, off) =>
        if e > h {
          action := SwitchOnLevel;
        } else if e < h {
          action := off;
        }
        a := action as real;
      case ThreePoint(pos, neg, fromPos, fromNeg, negative) =>
        if e > pos || (fromPos < e && recent == RecentPositive) {
          action, recent := PositiveLevel, RecentPositive;
        } else if e < -neg || (-fromNeg > e && recent == RecentNegative) {
          action, recent := negative, RecentNegative;
        } else {
          action, recent := NeutralLevel, RecentNeutral;
        }
        a := action as real;
    }

    method Integrate(state: real, reference: real)
      requires law.Continuous()
      modifies this
      ensures State() == AfterIntegrate(old(State()), tau, reference - state)
    {
      integrated := integrated + (reference - state) * tau;
    }

    method Reset()
      modifies this
      ensures State() == ResetMemory(law, old(State()))
    {
      match law
      case PI(_, _) =>
        integrated := 0.0;
      case PID(_, _, _) =>
        integrated, eOld := 0.0, 0.0;
      case OnOff(_, _) =>
        action := SwitchOnLevel;
      case ThreePoint(_, _, _, _, _) =>
        action, recent := NeutralLevel, RecentNeutral;
    }
  }

  /** The memory of a continuous stage after `control` followed by `integrate`
    * when its output lay in range, or after `control` alone when it did not
    * (the anti-windup of the composed controllers). */
  function Advanced(law: Law, m: Memory, tau: real, e: real, inRange: bool): (r: Memory)
    ensures inRange ==> r.integrated == m.integrated + e * tau
    ensures !inRange ==> r.integrated == m.integrated
  {
    if inRange then AfterIntegrate(AfterControl(law, m, e), tau, e) else AfterControl(law, m, e)
  }

  /** Control a continuous stage, add `offset` to its output, and integrate only
    * if the sum lies within `[lo, hi]`. */
  method ControlWithAntiWindup(stage: Stage, state: real, reference: real, offset: real, lo: real, hi: real)
    returns (a: real)
    requires stage.law.Continuous() && Sampled(stage.law, stage.tau)
    modifies stage
    ensures a == Output(stage.law, old(stage.State()), stage.tau, reference - state) + offset
    ensures stage.State() == Advanced(stage.law, old(stage.State()), stage.tau, reference - state, lo <= a <= hi)
  {
    a := stage.Control(state, reference);
    a := a + offset;
    if lo <= a <= hi {
      stage.Integrate(state, reference);
    }
  }

  /** `np.clip` of a vector against per-entry bounds. */
  function ClipAll(xs: seq<real>, lo: seq<real>, hi: seq<real>): (r: seq<real>)
    requires |xs| <= |lo| && |xs| <= |hi|
    ensures |r| == |xs|
    ensures forall i :: 0 <= i < |xs| && lo[i] <= hi[i] ==> lo[i] <= r[i] <= hi[i]
    ensures forall i :: 0 <= i < |xs| && lo[i] <= xs[i] <= hi[i] ==> r[i] == xs[i]
    ensures forall i :: 0 <= i < |xs| && xs[i] < lo[i] <= hi[i] ==> r[i] == lo[i]
    ensures forall i :: 0 <= i < |xs| && lo[i] <= hi[i] < xs[i] ==> r[i] == hi[i]
    ensures forall i :: 0 <= i < |xs| ==> r[i] == Clip(xs[i], lo[i], hi[i])
  {
    seq(|xs|, i requires 0 <= i < |xs| => Clip(xs[i], lo[i], hi[i]))
  }

  /** The field flux of the feedforward term: the motor's `psi_e` when it is
    * given and not zero, else `l_e' · i_e` in physical units; without either
    * parameter the product with `None` raises a TypeError. */
  function FieldFlux(psiE: Option<real>, lE: Option<real>, iE: real, iLimit: real): (r: Option<real>)
    ensures psiE.Some? && psiE.value != 0.0 ==> r == psiE
    ensures !(psiE.Some? && psiE.value != 0.0) ==> (r.Some? <==> lE.Some?)
  {
    if psiE.Some? && psiE.value != 0.0 then psiE
    else if lE.Some? then Some(lE.value * iE * iLimit)
    else None
  }

  /** The induced voltage `omega · psi_e`, normalised to the voltage limit. */
  function InducedVoltage(omega: real, omegaLimit: real, flux: real, uLimit: real): real
    requires uLimit != 0.0
  {
    omega * omegaLimit * flux / uLimit
  }

  /** The reference of the field current, corrected: the referenced `i_e` when
    * `i_e` is among the referenced states, else the fixed `ref_e`. */
  function FieldReference(refE: real, refEIdx: Option<nat>, reference: seq<real>): (r: real)
    requires refEIdx.Some? ==> refEIdx.value < |reference|
    ensures refEIdx.Some? ==> r == reference[refEIdx.value]
    ensures refEIdx.None? ==> r == refE
  {
    if refEIdx.Some? then reference[refEIdx.value] else refE
  }

  /** The same choice as written, `ref_e if not ref_e_idx else ...`: an index
    * of 0 is false in Python, so an `i_e` referenced first is ignored. */
  function FieldReferenceAsWritten(refE: real, refEIdx: Option<nat>, reference: seq<real>): (r: real)
    requires refEIdx.Some? ==> refEIdx.value < |reference|
    ensures refEIdx.Some? && refEIdx.value != 0 ==> r == FieldReference(refE, refEIdx, reference)
    ensures refEIdx.None? ==> r == refE
  {
    if refEIdx.None? || refEIdx.value == 0 then refE else reference[refEIdx.value]
  }

  /** With the references ordered `['i_e', 'omega']` the rule as written
    * controls the field current to the fixed 0.1 instead of the referenced 0.5. */
  lemma FieldReferenceAsWrittenIgnoresFirst()
    ensures FieldReferenceAsWritten(0.1, Some(0), [0.5, 0.2]) == 0.1
    ensures FieldReference(0.1, Some(0), [0.5, 0.2]) == 0.5
  {
  }

  /** A controller acting on a continuous action space with one continuous
    * stage for the controlled state and, for an externally excited motor, a
    * second one for the field current. */
  class ContinuousActionController {
    const controller: Stage
    /** Present exactly when the motor is externally excited. */
    const fieldController: Stage?
    /** The bounds of the action space. */
    const low: seq<real>
    const high: seq<real>
    /** Position of the controlled reference and of the controlled state. */
    const refIdx: nat
    const refStateIdx: nat
    const iIdx: nat
    const omegaIdx: nat
    const uIdx: nat
    /** The physical limits of the (filtered) states. */
    const limit: seq<real>
    const psiE: Option<real>
    const lE: Option<real>
    const refE: real
    const refEIdx: Option<nat>
    /** The last unclipped action. */
    var action: seq<real>

    /** The stages come built; the action starts at zero. */
    constructor (controller: Stage, fieldController: Stage?, low: seq<real>, high: seq<real>, refIdx: nat,
                 refStateIdx: nat, iIdx: nat, omegaIdx: nat, uIdx: nat, limit: seq<real>, psiE: Option<real>,
                 lE: Option<real>, refE: real, refEIdx: Option<nat>)
      ensures this.controller == controller && this.fieldController == fieldController
      ensures this.low == low && this.high == high && this.limit == limit
      ensures this.refIdx == refIdx && this.refStateIdx == refStateIdx && this.iIdx == iIdx
      ensures this.omegaIdx == omegaIdx && this.uIdx == uIdx
      ensures this.psiE == psiE && this.lE == lE && this.refE == refE && this.refEIdx == refEIdx
      ensures action == Zeros(|low|)
    {
      this.controller, this.fieldController := controller, fieldController;
      this.low, this.high, this.limit := low, high, limit;
      this.refIdx, this.refStateIdx, this.iIdx, this.omegaIdx, this.uIdx := refIdx, refStateIdx, iIdx, omegaIdx, uIdx;
      this.psiE, this.lE, this.refE, this.refEIdx := psiE, lE, refE, refEIdx;
      action := Zeros(|low|);
    }

    ghost predicate Valid()
      reads this
    {
      Shaped() && |action| == |low|
    }

    /** The settings fit together: two different continuous stages, ordered
      * action bounds with an entry per stage, indices within the states. */
    predicate Shaped()
    {
      controller.law.Continuous() && Sampled(controller.law, controller.tau)
      && (fieldController != null ==>
            fieldController != controller && fieldController.law.Continuous()
            && Sampled(fieldController.law, fieldController.tau) && 2 <= |low|)
      && 1 <= |low| && |low| == |high|
      && (forall i :: 0 <= i < |low| ==> low[i] <= high[i])
      && refStateIdx < |limit| && iIdx < |limit| && omegaIdx < |limit| && uIdx < |limit| && limit[uIdx] != 0.0
    }

    /** The feedforward term, or None when it raises. */
    function Feedforward(state: seq<real>): (r: Option<real>)
      requires Shaped() && |state| == |limit|
      ensures r.Some? <==> FieldFlux(psiE, lE, state[iIdx], limit[iIdx]).Some?
    {
      var flux := FieldFlux(psiE, lE, state[iIdx], limit[iIdx]);
      if flux.Some? then Some(InducedVoltage(state[omegaIdx], limit[omegaIdx], flux.value, limit[uIdx])) else None
    }

    /** `control(state, reference)`: each stage integrates only when its own
      * unclipped action is within the action bounds, and the returned action
      * is clipped to the bounds. */
    method Control(state: seq<real>, reference: seq<real>) returns (r: Result<seq<real>>)
      requires Valid() && |state| == |limit| && refIdx < |reference|
      requires refEIdx.Some? ==> refEIdx.value < |reference|
      modifies this, controller, fieldController
      ensures Valid()
      ensures var e := reference[refIdx] - state[refStateIdx];
              var m := old(controller.State());
              var ff := Feedforward(state);
              (ff.None? ==> r.Err? && controller.State() == AfterControl(controller.law, m, e))
              && (ff.Some? ==>
                    var a := Output(controller.law, m, controller.tau, e) + ff.value;
                    controller.State() == Advanced(controller.law, m, controller.tau, e, low[0] <= a <= high[0])
                    && action[0] == a
                    && r == Ok(ClipAll(action, low, high)))
      ensures r.Ok? ==> forall i :: 0 <= i < |low| ==> low[i] <= r.value[i] <= high[i]
      ensures r.Ok? && fieldController != null ==>
                var e := FieldReference(refE, refEIdx, reference) - state[iIdx];
                var m := old(fieldController.State());
                var a := Output(fieldController.law, m, fieldController.tau, e);
                action == old(action)[0 := action[0]][1 := a]
                && fieldController.State() == Advanced(fieldController.law, m, fieldController.tau, e, low[1] <= a <= high[1])
      ensures (r.Err? || fieldController == null) ==> action[1..] == old(action)[1..]
      ensures r.Err? ==> action == old(action)
      ensures r.Err? && fieldController != null ==> fieldController.State() == old(fieldController.State())
    {
      if Feedforward(state).None? {
        var _ := controller.Control(state[refStateIdx], reference[refIdx]);
        return Err("TypeError: unsupported operand type(s) for *: 'NoneType' and 'float'");
      }
      Act(state, reference, Feedforward(state).value);
      r := Ok(ClipAll(action, low, high));
    }

    /** The stages of `control` once the feedforward term `ff` is known. */
    method Act(state: seq<real>, reference: seq<real>, ff: real)
      requires Valid() && |state| == |limit| && refIdx < |reference|
      requires refEIdx.Some? ==> refEIdx.value < |reference|
      modifies this, controller, fieldController
      ensures Valid()
      ensures var e := reference[refIdx] - state[refStateIdx];
              var m := old(controller.State());
              var a := Output(controller.law, m, controller.tau, e) + ff;
              controller.State() == Advanced(controller.law, m, controller.tau, e, low[0] <= a <= high[0])
              && action[0] == a
      ensures fieldController == null ==> action[1..] == old(action)[1..]
      ensures fieldController != null ==>
                var e := FieldReference(refE, refEIdx, reference) - state[iIdx];
                var m := old(fieldController.State());
                var a := Output(fieldController.law, m, fieldController.tau, e);
                action == old(action)[0 := action[0]][1 := a]
                && fieldController.State() == Advanced(fieldController.law, m, fieldController.tau, e, low[1] <= a <= high[1])
    {
      var a := ControlWithAntiWindup(controller, state[refStateIdx], reference[refIdx], ff, low[0], high[0]);
      action := action[0 := a];
      if fieldController != null {
        var ae := ControlWithAntiWindup(fieldController, state[iIdx], FieldReference(refE, refEIdx, reference), 0.0,
                                        low[1], high[1]);
        action := action[1 := ae];
      }
    }

    method Reset()
      modifies controller, fieldController
      ensures controller.State() == ResetMemory(controller.law, old(controller.State()))
      ensures fieldController != null && fieldController != controller ==>
                fieldController.State() == ResetMemory(fieldController.law, old(fieldController.State()))
    {
      controller.Reset();
      if fieldController != null && fieldController != controller {
        fieldController.Reset();
      }
    }
  }

  /** A controller acting on a discrete action space with one switching stage
    * and, for an externally excited motor, a second one for the field. */
  class DiscreteActionController {
    const controller: Stage
    const fieldController: Stage?
    const refIdx: nat
    const refStateIdx: nat
    const iIdx: nat
    const refE: real
    const refEIdx: Option<nat>

    constructor (controller: Stage, fieldController: Stage?, refIdx: nat, refStateIdx: nat, iIdx: nat, refE: real,
                 refEIdx: Option<nat>)
      ensures this.controller == controller && this.fieldController == fieldController
      ensures this.refIdx == refIdx && this.refStateIdx == refStateIdx && this.iIdx == iIdx
      ensures this.refE == refE && this.refEIdx == refEIdx
    {
      this.controller, this.fieldController := controller, fieldController;
      this.refIdx, this.refStateIdx, this.iIdx := refIdx, refStateIdx, iIdx;
      this.refE, this.refEIdx := refE, refEIdx;
    }

    predicate Valid()
    {
      !controller.law.Continuous()
      && (fieldController != null ==> fieldController != controller && !fieldController.law.Continuous())
    }

    /** `control`: the switching level of the stage, and of the field stage
      * when there is one. */
    method Control(state: seq<real>, reference: seq<real>) returns (r: seq<real>)
      requires Valid() && refStateIdx < |state| && iIdx < |state| && refIdx < |reference|
      requires refEIdx.Some? ==> refEIdx.value < |reference|
      modifies controller, fieldController
      ensures |r| == if fieldController == null then 1 else 2
      ensures var e := reference[refIdx] - state[refStateIdx];
              controller.State() == AfterControl(controller.law, old(controller.State()), e)
              && r[0] == controller.action as real
      ensures fieldController != null ==>
                var e := FieldReference(refE, refEIdx, reference) - state[iIdx];
                fieldController.State() == AfterControl(fieldController.law, old(fieldController.State()), e)
                && r[1] == fieldController.action as real
    {
      var a := controller.Control(state[refStateIdx], reference[refIdx]);
      if fieldController == null {
        r := [a];
      } else {
        var ae := fieldController.Control(state[iIdx], FieldReference(refE, refEIdx, reference));
        r := [a, ae];
      }
    }

    method Reset()
      requires Valid()
      modifies controller, fieldController
      ensures controller.State() == ResetMemory(controller.law, old(controller.State()))
      ensures fieldController != null ==>
                fieldController.State() == ResetMemory(fieldController.law, old(fieldController.State()))
    {
      controller.Reset();
      if fieldController != null {
        fieldController.Reset();
      }
    }
  }

  /** The share of the state-space bounds an intermediate reference may use. */
  const Band := 0.85

  /** One outer stage of the cascade: its output becomes the reference of the
    * stage inside it. A continuous stage integrates only when that output lies
    * within `Band` of the inner state's bounds, and is clipped to that band
    * otherwise; a switching stage's level is passed on unchanged. The error
    * integrated is the one the stage was controlled with. */
  function OuterStep(law: Law, m: Memory, tau: real, e: real, lo: real, hi: real): (r: (real, Memory))
    requires Sampled(law, tau)
    ensures law.Continuous() && lo <= hi ==> Band * lo <= r.0 <= Band * hi
    ensures var raw := Output(law, m, tau, e);
            (!law.Continuous() ==> r == (raw, AfterControl(law, m, e)))
            && (law.Continuous() ==>
                  r.1 == Advanced(law, m, tau, e, Band * lo <= raw <= Band * hi)
                  && (Band * lo <= raw <= Band * hi ==> r.0 == raw))
  {
    var raw := Output(law, m, tau, e);
    if !law.Continuous() then (raw, AfterControl(law, m, e))
    else if Band * lo <= raw <= Band * hi then (raw, AfterIntegrate(AfterControl(law, m, e), tau, e))
    else (Clip(raw, Band * lo, Band * hi), AfterControl(law, m, e))
  }

  /** The outer stage as written: it integrates with `reference[0] - state`
    * (`eIntegrated`) rather than with the error it was controlled with. */
  function OuterStepAsWritten(law: Law, m: Memory, tau: real, e: real, eIntegrated: real, lo: real, hi: real)
    : (r: (real, Memory))
    requires Sampled(law, tau)
    ensures eIntegrated == e ==> r == OuterStep(law, m, tau, e, lo, hi)
  {
    var raw := Output(law, m, tau, e);
    if !law.Continuous() then (raw, AfterControl(law, m, e))
    else if Band * lo <= raw <= Band * hi then (raw, AfterIntegrate(AfterControl(law, m, e), tau, eIntegrated))
    else (Clip(raw, Band * lo, Band * hi), AfterControl(law, m, e))
  }

  /** A speed stage with gains 0.5 under the references `['i_e', 'omega'] =
    * [0.3, 0.5]` at standstill: as written it integrates the field current's
    * reference 0.3, the corrected stage its own error 0.5. */
  lemma OuterStepAsWrittenIntegratesWrongError()
    ensures OuterStepAsWritten(PI(0.5, 0.5), Initial(PI(0.5, 0.5)), 1.0, 0.5 - 0.0, 0.3 - 0.0, -1.0, 1.0).1.integrated == 0.3
    ensures OuterStep(PI(0.5, 0.5), Initial(PI(0.5, 0.5)), 1.0, 0.5 - 0.0, -1.0, 1.0).1.integrated == 0.5
  {
    assert Output(PI(0.5, 0.5), Initial(PI(0.5, 0.5)), 1.0, 0.5) == 0.5;
  }

  /** The cascade: stage 0 drives the action, and each stage `i > 0` produces
    * the reference of stage `i - 1`; the outermost follows the environment's
    * reference. */
  class CascadedController {
    const stages: seq<Stage>
    /** The state each stage controls. */
    const refStateIdx: seq<nat>
    const fieldController: Stage?
    const low: seq<real>
    const high: seq<real>
    /** The bounds of the physical system's state space. */
    const stateLow: seq<real>
    const stateHigh: seq<real>
    const refIdx: nat
    const iEIdx: nat
    const omegaIdx: nat
    const uIdx: nat
    const limit: seq<real>
    const psiE: Option<real>
    const lE: Option<real>
    const refE: real
    const refEIdx: Option<nat>
    /** The reference of every stage from the last call. */
    var refs: seq<real>

    /** The stages come built, innermost first; the references start at zero. */
    constructor (stages: seq<Stage>, refStateIdx: seq<nat>, fieldController: Stage?, low: seq<real>, high: seq<real>,
                 stateLow: seq<real>, stateHigh: seq<real>, refIdx: nat, iEIdx: nat, omegaIdx: nat, uIdx: nat,
                 limit: seq<real>, psiE: Option<real>, lE: Option<real>, refE: real, refEIdx: Option<nat>)
      ensures this.stages == stages && this.refStateIdx == refStateIdx && this.fieldController == fieldController
      ensures this.low == low && this.high == high && this.stateLow == stateLow && this.stateHigh == stateHigh
      ensures this.refIdx == refIdx && this.iEIdx == iEIdx && this.omegaIdx == omegaIdx && this.uIdx == uIdx
      ensures this.limit == limit && this.psiE == psiE && this.lE == lE && this.refE == refE && this.refEIdx == refEIdx
      ensures refs == Zeros(|stages|)
    {
      this.stages, this.refStateIdx, this.fieldController := stages, refStateIdx, fieldController;
      this.low, this.high, this.stateLow, this.stateHigh := low, high, stateLow, stateHigh;
      this.refIdx, this.iEIdx, this.omegaIdx, this.uIdx := refIdx, iEIdx, omegaIdx, uIdx;
      this.limit, this.psiE, this.lE, this.refE, this.refEIdx := limit, psiE, lE, refE, refEIdx;
      refs := Zeros(|stages|);
    }

    ghost predicate Valid()
      reads this
    {
      Shaped() && |refs| == |stages|
    }

    /** The settings fit together: one controlled state per stage, distinct
      * stages, bounds that are ordered. */
    predicate Shaped()
    {
      1 <= |stages| && |refStateIdx| == |stages|
      && (forall i, j :: 0 <= i < j < |stages| ==> stages[i] != stages[j])
      && (forall i :: 0 <= i < |stages| ==> Sampled(stages[i].law, stages[i].tau))
      && (forall i :: 0 <= i < |stages| ==> refStateIdx[i] < |limit|)
      && |stateLow| == |limit| && |stateHigh| == |limit|
      && (forall i :: 0 <= i < |limit| ==> stateLow[i] <= stateHigh[i])
      && iEIdx < |limit| && omegaIdx < |limit| && uIdx < |limit| && limit[uIdx] != 0.0
      && 1 <= |low| && |low| == |high| && (forall i :: 0 <= i < |low| ==> low[i] <= high[i])
      && (fieldController != null ==>
            fieldController !in stages && Sampled(fieldController.law, fieldController.tau)
            && (fieldController.law.Continuous() <==> stages[0].law.Continuous())
            && (stages[0].law.Continuous() ==> 2 <= |low|))
    }

    /** The feedforward term of the cascade: as in the continuous action
      * controller, with the flux kept at least `1e-6`. */
    function Feedforward(state: seq<real>): (r: Option<real>)
      requires Shaped() && |state| == |limit|
      ensures r.Some? <==> FieldFlux(psiE, lE, state[iEIdx], limit[iEIdx]).Some?
    {
      var flux := FieldFlux(psiE, lE, state[iEIdx], limit[iEIdx]);
      if flux.Some? then Some(InducedVoltage(state[omegaIdx], limit[omegaIdx], Max(flux.value, 0.000001), limit[uIdx]))
      else None
    }

    /** `control(state, reference)`: the outer stages, from the outermost
      * inwards, each set the reference of the stage inside it; then the
      * innermost stage produces the action. */
    method Control(state: seq<real>, reference: seq<real>) returns (r: Result<seq<real>>)
      requires Valid() && |state| == |limit| && refIdx < |reference|
      requires refEIdx.Some? ==> refEIdx.value < |reference|
      modifies this, (set s | s in stages), fieldController
      ensures Valid()
      ensures refs[|stages| - 1] == reference[refIdx]
      ensures forall k :: 0 < k < |stages| ==> refs[k - 1] == Handed(state, refs[k], old(stages[k].State()), k).0
      ensures forall k :: 0 < k < |stages| ==> stages[k].State() == Handed(state, refs[k], old(stages[k].State()), k).1
      ensures forall k :: 0 < k < |stages| && stages[k].law.Continuous() ==>
                Band * stateLow[refStateIdx[k - 1]] <= refs[k - 1] <= Band * stateHigh[refStateIdx[k - 1]]
      ensures InnerSpec(state, reference, refs[0], old(stages[0].State()), old(FieldState()), r)
    {
      var rs := Propagate(state, reference);
      refs := rs;
      r := Inner(state, reference, rs[0]);
    }

    /** The loop of `control` over the outer stages, from the outermost inwards:
      * the references it leaves, and the memories of the outer stages. */
    method Propagate(state: seq<real>, reference: seq<real>) returns (rs: seq<real>)
      requires Shaped() && |refs| == |stages| && |state| == |limit| && refIdx < |reference|
      modifies set j | 1 <= j < |stages| :: stages[j]
      ensures |rs| == |stages| && rs[|stages| - 1] == reference[refIdx]
      ensures forall k :: 0 < k < |stages| ==> rs[k - 1] == Handed(state, rs[k], old(stages[k].State()), k).0
      ensures forall k :: 0 < k < |stages| ==> stages[k].State() == Handed(state, rs[k], old(stages[k].State()), k).1
      ensures stages[0].State() == old(stages[0].State())
    {
      var n := |stages|;
      rs := refs[n - 1 := reference[refIdx]];
      var i := n - 1;
      while i > 0
        invariant 0 <= i < n && |rs| == n && rs[n - 1] == reference[refIdx]
        invariant forall k :: i < k < n ==> rs[k - 1] == Handed(state, rs[k], old(stages[k].State()), k).0
        invariant forall k :: i < k < n ==> stages[k].State() == Handed(state, rs[k], old(stages[k].State()), k).1
        invariant forall j :: 0 <= j <= i ==> stages[j].State() == old(stages[j].State())
      {
        assert forall k :: 0 <= k < n && k != i ==> stages[k] != stages[i];
        var next := StepOuter(state, rs[i], i);
        rs := rs[i - 1 := next];
        i := i - 1;
      }
    }

    /** What outer stage `j`, from memory `m` and with reference `ref`, hands
      * to the stage inside it, and its memory afterwards. */
    function Handed(state: seq<real>, ref: real, m: Memory, j: nat): (real, Memory)
      requires Shaped() && |state| == |limit| && 0 < j < |stages|
    {
      OuterStep(stages[j].law, m, stages[j].tau, ref - state[refStateIdx[j]],
                stateLow[refStateIdx[j - 1]], stateHigh[refStateIdx[j - 1]])
    }

    /** One pass of the loop body: stage `i` sets the reference of stage
      * `i - 1`. */
    method StepOuter(state: seq<real>, reference: real, i: nat) returns (next: real)
      requires Shaped() && |state| == |limit| && 0 < i < |stages|
      modifies stages[i]
      ensures (next, stages[i].State()) == Handed(state, reference, old(stages[i].State()), i)
    {
      var lo, hi := stateLow[refStateIdx[i - 1]], stateHigh[refStateIdx[i - 1]];
      var stage := stages[i];
      next := stage.Control(state[refStateIdx[i]], reference);
      if stage.law.Continuous() {
        if Band * lo <= next <= Band * hi {
          stage.Integrate(state[refStateIdx[i]], reference);
        } else {
          next := Clip(next, Band * lo, Band * hi);
        }
      }
    }

    function FieldState(): Memory
      reads this, fieldController
    {
      if fieldController == null then Initial(PI(0.0, 0.0)) else fieldController.State()
    }

    /** What the innermost stage and the field stage do with reference `ref0`,
      * from their memories `m0` and `mE` before the call. */
    ghost predicate InnerSpec(state: seq<real>, reference: seq<real>, ref0: real, m0: Memory, mE: Memory,
                              r: Result<seq<real>>)
      reads this, stages[0], fieldController
      requires Shaped() && |state| == |limit| && (refEIdx.Some? ==> refEIdx.value < |reference|)
    {
      if stages[0].law.Continuous() then ContinuousInnerSpec(state, reference, ref0, m0, mE, r)
      else DiscreteInnerSpec(state, reference, ref0, m0, mE, r)
    }

    /** A switching innermost stage returns its level, and the field stage its
      * own. */
    ghost predicate DiscreteInnerSpec(state: seq<real>, reference: seq<real>, ref0: real, m0: Memory, mE: Memory,
                                      r: Result<seq<real>>)
      reads this, stages[0], fieldController
      requires Shaped() && |state| == |limit| && (refEIdx.Some? ==> refEIdx.value < |reference|)
    {
      var stage := stages[0];
      var e := ref0 - state[refStateIdx[0]];
      var a := Output(stage.law, m0, stage.tau, e);
      stage.State() == AfterControl(stage.law, m0, e)
      && (fieldController == null ==> r == Ok([a]))
      && (fieldController != null ==>
            var eE := FieldReference(refE, refEIdx, reference) - state[iEIdx];
            fieldController.State() == AfterControl(fieldController.law, mE, eE)
            && r == Ok([a, Output(fieldController.law, mE, fieldController.tau, eE)]))
    }

    /** A continuous innermost stage adds the feedforward term (failing when it
      * raises), integrates only while the sum is within the action bounds,
      * and its action is clipped; the field stage likewise without the
      * feedforward term. */
    ghost predicate ContinuousInnerSpec(state: seq<real>, reference: seq<real>, ref0: real, m0: Memory, mE: Memory,
                                        r: Result<seq<real>>)
      reads this, stages[0], fieldController
      requires Shaped() && |state| == |limit| && (refEIdx.Some? ==> refEIdx.value < |reference|) && stages[0].law.Continuous()
    {
      var stage := stages[0];
      var e := ref0 - state[refStateIdx[0]];
      var ff := Feedforward(state);
      if ff.None? then
        stage.State() == AfterControl(stage.law, m0, e) && r.Err?
        && (fieldController != null ==> fieldController.State() == mE)
      else
        var a := Output(stage.law, m0, stage.tau, e) + ff.value;
        stage.State() == Advanced(stage.law, m0, stage.tau, e, low[0] <= a <= high[0])
        && (fieldController == null ==> r == Ok([Clip(a, low[0], high[0])]))
        && (fieldController != null ==>
              var eE := FieldReference(refE, refEIdx, reference) - state[iEIdx];
              var aE := Output(fieldController.law, mE, fieldController.tau, eE);
              fieldController.State() == Advanced(fieldController.law, mE, fieldController.tau, eE, low[1] <= aE <= high[1])
              && r == Ok([Clip(a, low[0], high[0]), Clip(aE, low[1], high[1])]))
    }

    /** The innermost stage and the field stage. */
    method Inner(state: seq<real>, reference: seq<real>, ref0: real) returns (r: Result<seq<real>>)
      requires Shaped() && |state| == |limit| && (refEIdx.Some? ==> refEIdx.value < |reference|)
      modifies stages[0], fieldController
      ensures InnerSpec(state, reference, ref0, old(stages[0].State()), old(FieldState()), r)
      ensures r.Ok? && stages[0].law.Continuous() ==>
                |r.value| <= |low| && forall i :: 0 <= i < |r.value| ==> low[i] <= r.value[i] <= high[i]
    {
      if !stages[0].law.Continuous() {
        r := DiscreteInner(state, reference, ref0);
      } else if Feedforward(state).None? {
        var _ := stages[0].Control(state[refStateIdx[0]], ref0);
        r := Err("TypeError: unsupported operand type(s) for *: 'NoneType' and 'float'");
      } else {
        r := ContinuousInner(state, reference, ref0);
      }
    }

    method DiscreteInner(state: seq<real>, reference: seq<real>, ref0: real) returns (r: Result<seq<real>>)
      requires Shaped() && |state| == |limit| && (refEIdx.Some? ==> refEIdx.value < |reference|)
      requires !stages[0].law.Continuous()
      modifies stages[0], fieldController
      ensures DiscreteInnerSpec(state, reference, ref0, old(stages[0].State()), old(FieldState()), r)
    {
      var a := stages[0].Control(state[refStateIdx[0]], ref0);
      if fieldController == null {
        r := Ok([a]);
      } else {
        var aE := fieldController.Control(state[iEIdx], FieldReference(refE, refEIdx, reference));
        r := Ok([a, aE]);
      }
    }

    method ContinuousInner(state: seq<real>, reference: seq<real>, ref0: real) returns (r: Result<seq<real>>)
      requires Shaped() && |state| == |limit| && (refEIdx.Some? ==> refEIdx.value < |reference|)
      requires stages[0].law.Continuous() && Feedforward(state).Some?
      modifies stages[0], fieldController
      ensures ContinuousInnerSpec(state, reference, ref0, old(stages[0].State()), old(FieldState()), r)
      ensures r.Ok? ==> |r.value| <= |low| && forall i :: 0 <= i < |r.value| ==> low[i] <= r.value[i] <= high[i]
    {
      var stage := stages[0];
      assert fieldController != stage;
      var a := ControlWithAntiWindup(stage, state[refStateIdx[0]], ref0, Feedforward(state).value, low[0], high[0]);
      if fieldController == null {
        r := Ok([Clip(a, low[0], high[0])]);
      } else {
        var aE := FieldAction(state, reference);
        r := Ok([Clip(a, low[0], high[0]), Clip(aE, low[1], high[1])]);
      }
    }

    /** The field stage next to a continuous innermost stage. */
    method FieldAction(state: seq<real>, reference: seq<real>) returns (aE: real)
      requires Shaped() && |state| == |limit| && (refEIdx.Some? ==> refEIdx.value < |reference|)
      requires fieldController != null && stages[0].law.Continuous()
      modifies fieldController
      ensures var eE := FieldReference(refE, refEIdx, reference) - state[iEIdx];
              aE == Output(fieldController.law, old(fieldController.State()), fieldController.tau, eE)
              && fieldController.State()
                 == Advanced(fieldController.law, old(fieldController.State()), fieldController.tau, eE, low[1] <= aE <= high[1])
    {
      aE := ControlWithAntiWindup(fieldController, state[iEIdx], FieldReference(refE, refEIdx, reference), 0.0,
                                  low[1], high[1]);
    }

    /** `reset`: every stage and the field stage are reset. */
    method Reset()
      requires Valid()
      modifies (set s | s in stages), fieldController
      ensures forall j :: 0 <= j < |stages| ==> stages[j].State() == ResetMemory(stages[j].law, old(stages[j].State()))
      ensures fieldController != null ==>
                fieldController.State() == ResetMemory(fieldController.law, old(fieldController.State()))
    {
      for i := 0 to |stages|
        invariant forall j :: 0 <= j < i ==> stages[j].State() == ResetMemory(stages[j].law, old(stages[j].State()))
        invariant forall j :: i <= j < |stages| ==> stages[j].State() == old(stages[j].State())
        invariant fieldController != null ==> fieldController.State() == old(fieldController.State())
      {
        stages[i].Reset();
      }
      if fieldController != null {
        fieldController.Reset();
      }
    }
  }
}
