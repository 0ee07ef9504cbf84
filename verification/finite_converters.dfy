/**
 * The finite-control-set converters (converters/finite_control_set/) and the
 * no-converter (converters/no_converter.py). Each converter keeps the time
 * its action started and the action itself; the two-quadrant converter also
 * keeps a switching pattern and the switching state in force, and the
 * four-quadrant converter and the B6 bridge are built from two and three
 * two-quadrant converters.
 *
 * Voltages are per unit of the supply voltage the caller passes, so an
 * ideal converter conserves power: output voltage times output current is
 * supply voltage times supply current. That is the partner property of
 * every `convert` and `i_sup` pair below.
 */
module FiniteConverters {
  import opened Common

  // ------------------------------------------------- two-quadrant rules

  /** `FiniteTwoQuadrantConverter._set_switching_pattern`: a switch straight
    * between the upper (1) and the lower (2) transistor passes through the
    * all-off state 0 for the interlocking time; otherwise the action holds
    * for the whole step. Returns the pattern and the switching times. */
  function TwoQuadrantPattern(action: int, state: int, start: real, tau: real, interlockingTime: real)
    : (r: (seq<int>, seq<real>))
    ensures |r.0| == |r.1| && 1 <= |r.0| <= 2
    ensures r.0[|r.0| - 1] == action && r.1[|r.1| - 1] == start + tau
  {
    if action == 0 || state == 0 || action == state || interlockingTime == 0.0 then
      ([action], [start + tau])
    else
      ([0, action], [start + interlockingTime, start + tau])
  }

  /** No shoot-through: with a non-zero interlocking time, the state in force
    * and the new pattern never step directly between the upper and the lower
    * transistor. */
  lemma TwoQuadrantNoShootThrough(action: int, state: int, start: real, tau: real, interlockingTime: real)
    requires interlockingTime != 0.0 && 0 <= action < 3
    ensures var s := [state] + TwoQuadrantPattern(action, state, start, tau, interlockingTime).0;
            forall k :: 0 <= k < |s| - 1 ==> !(s[k] == 1 && s[k + 1] == 2) && !(s[k] == 2 && s[k + 1] == 1)
  {
    var s := [state] + TwoQuadrantPattern(action, state, start, tau, interlockingTime).0;
    if action == 0 || state == 0 || action == state {
      assert |s| == 2 && s[0] == state && s[1] == action;
    } else {
      assert |s| == 3 && s[0] == state && s[1] == 0 && s[2] == action;
    }
  }

  /** The switching times are ascending when the interlocking time is shorter
    * than the step, and always end at `start + tau`. */
  lemma TwoQuadrantTimesAscend(action: int, state: int, start: real, tau: real, interlockingTime: real)
    requires interlockingTime < tau
    ensures StrictlyIncreasing(TwoQuadrantPattern(action, state, start, tau, interlockingTime).1)
  {
  }

  /** The switching state in force at time `t`: the converter switches
    * `tau / 1000` early, to be safe from the solver's inaccuracy. */
  function ActiveSwitchingState(pattern: seq<int>, t: real, start: real, tau: real, interlockingTime: real): int
    requires |pattern| > 0
  {
    if t - tau / 1000.0 > start + interlockingTime then pattern[|pattern| - 1] else pattern[0]
  }

  /** During the interlocking period of a bridged switch both transistors are
    * off; otherwise the action is in force. */
  lemma ActiveStateFollowsPattern(action: int, state: int, start: real, tau: real, interlockingTime: real, t: real)
    ensures var p := TwoQuadrantPattern(action, state, start, tau, interlockingTime).0;
            ActiveSwitchingState(p, t, start, tau, interlockingTime)
            == (if |p| == 2 && t - tau / 1000.0 <= start + interlockingTime then 0 else action)
  {
  }

  /** Whether switching state `state` connects the supply to the output:
    * always for the upper transistor, and through the free-wheeling diode
    * when both are off and the current is negative. */
  predicate PassesSupply(state: int, i: real)
  {
    state == 1 || (state == 0 && i < 0.0)
  }

  /** `convert` of the 2QC once the switching state is chosen. */
  function TwoQuadrantVoltage(state: int, i: real, uSup: seq<real>): (r: Result<seq<real>>)
    ensures r.Ok? <==> 0 <= state < 3
    ensures r.Ok? ==> r.value == (if PassesSupply(state, i) then uSup else [0.0])
  {
    if state == 0 then (if i < 0.0 then Ok(uSup) else Ok([0.0]))
    else if state == 1 then Ok(uSup)
    else if state == 2 then Ok([0.0])
    else Err("Invalid switching state of the converter")
  }

  /** `i_sup` of the 2QC. */
  function TwoQuadrantCurrent(state: int, i: real): (r: Result<real>)
    ensures r.Ok? <==> 0 <= state < 3
    ensures r.Ok? ==> r.value == (if PassesSupply(state, i) then i else 0.0)
  {
    if state == 0 then (if i < 0.0 then Ok(i) else Ok(0.0))
    else if state == 1 then Ok(i)
    else if state == 2 then Ok(0.0)
    else Err("Invalid switching state of the converter")
  }

  /** Only the first supply voltage matters to the callers that index the
    * 2QC's output. */
  lemma FirstVoltage(state: int, i: real, uSup: seq<real>)
    requires 0 <= state < 3 && |uSup| > 0
    ensures |TwoQuadrantVoltage(state, i, uSup).value| > 0
    ensures TwoQuadrantVoltage(state, i, uSup).value[0] == TwoQuadrantVoltage(state, i, [uSup[0]]).value[0]
  {
  }

  /** The supply current is drawn exactly when the supply voltage is passed
    * through, so the 2QC conserves power. */
  lemma TwoQuadrantPowerBalance(state: int, i: real, u: real)
    requires 0 <= state < 3
    ensures TwoQuadrantVoltage(state, i, [u]).Ok? && TwoQuadrantCurrent(state, i).Ok?
    ensures TwoQuadrantVoltage(state, i, [u]).value[0] * i == u * TwoQuadrantCurrent(state, i).value
  {
  }

  class FiniteTwoQuadrantConverter {
    const tau: real
    const interlockingTime: real
    var actionStartTime: real
    var currentAction: int
    var switchingPattern: seq<int>
    var switchingState: int

    ghost predicate Valid()
      reads this
    {
      0 <= switchingState < 3 && 0 <= currentAction < 3
      && forall k :: 0 <= k < |switchingPattern| ==> 0 <= switchingPattern[k] < 3
    }

    /** Reset action 0, start time 0, switching state 0, and an empty pattern
      * until the first action is set. */
    constructor (tau: real, interlockingTime: real)
      ensures Valid() && this.tau == tau && this.interlockingTime == interlockingTime
      ensures actionStartTime == 0.0 && currentAction == 0 && switchingPattern == [] && switchingState == 0
    {
      this.tau := tau;
      this.interlockingTime := interlockingTime;
      actionStartTime := 0.0;
      currentAction := 0;
      switchingPattern := [];
      switchingState := 0;
    }

    /** `reset`: the reset action and start time 0; the output is `[0.0]`. */
    method Reset() returns (u: seq<real>)
      requires Valid()
      modifies this
      ensures Valid() && currentAction == 0 && actionStartTime == 0.0 && u == [0.0]
      ensures switchingPattern == old(switchingPattern) && switchingState == old(switchingState)
    {
      currentAction := 0;
      actionStartTime := 0.0;
      u := [0.0];
    }

    /** `set_action`: an action outside {0, 1, 2} fails the assertion; a valid
      * one is recorded with its start time and its switching pattern. */
    method SetAction(action: int, t: real) returns (r: Result<seq<real>>)
      requires Valid()
      modifies this
      ensures Valid() && switchingState == old(switchingState)
      ensures r.Err? <==> !(0 <= action < 3)
      ensures r.Err? ==> actionStartTime == old(actionStartTime) && currentAction == old(currentAction)
                         && switchingPattern == old(switchingPattern)
      ensures r.Ok? ==> actionStartTime == t && currentAction == action
                        && (switchingPattern, r.value) == TwoQuadrantPattern(action, switchingState, t, tau, interlockingTime)
    {
      if !(0 <= action < 3) {
        return Err("AssertionError: action not in the action space");
      }
      actionStartTime := t;
      currentAction := action;
      var p := TwoQuadrantPattern(action, switchingState, actionStartTime, tau, interlockingTime);
      switchingPattern := p.0;
      r := Ok(p.1);
    }

    /** `convert(t, i_out, u_sup)`: picks the switching state in force at `t`
      * and outputs accordingly. Before any action is set the pattern is
      * empty and picking fails. */
    method Convert(t: real, iOut: seq<real>, uSup: seq<real>) returns (r: Result<seq<real>>)
      requires Valid() && |iOut| > 0
      modifies this
      ensures Valid()
      ensures actionStartTime == old(actionStartTime) && currentAction == old(currentAction)
      ensures switchingPattern == old(switchingPattern)
      ensures |switchingPattern| == 0 ==> r.Err? && switchingState == old(switchingState)
      ensures |switchingPattern| > 0 ==>
                switchingState == ActiveSwitchingState(switchingPattern, t, actionStartTime, tau, interlockingTime)
                && r == TwoQuadrantVoltage(switchingState, iOut[0], uSup) && r.Ok?
    {
      if |switchingPattern| == 0 {
        return Err("IndexError: list index out of range");
      }
      switchingState := ActiveSwitchingState(switchingPattern, t, actionStartTime, tau, interlockingTime);
      r := TwoQuadrantVoltage(switchingState, iOut[0], uSup);
    }

    /** `i_sup(i_out)` in the switching state last chosen by `convert`. */
    function ISup(iOut: seq<real>): (r: Result<real>)
      reads this
      requires Valid() && |iOut| > 0
      ensures r.Ok? && r == TwoQuadrantCurrent(switchingState, iOut[0])
    {
      TwoQuadrantCurrent(switchingState, iOut[0])
    }
  }

  // ------------------------------------------------- one-quadrant converter

  /** `convert` of the 1QC: the transistor passes `u_sup` when on and 0 when
    * off, but a negative current free-wheels through the diode and sees
    * `u_sup` whatever the action. */
  function OneQuadrantVoltage(action: int, i: real, u: real): (r: real)
    ensures i < 0.0 ==> r == u
    ensures i >= 0.0 ==> r == action as real * u
  {
    if i >= 0.0 then action as real * u else u
  }

  /** `i_sup` of the 1QC: the output current while the transistor is on. */
  function OneQuadrantCurrent(action: int, i: real): (r: real)
    ensures r == (if action == 1 then i else 0.0)
  {
    if action == 1 then i else 0.0
  }

  /** For the non-negative currents the 1QC is built for, it conserves power. */
  lemma OneQuadrantPowerBalance(action: int, i: real, u: real)
    requires 0 <= action < 2 && i >= 0.0
    ensures OneQuadrantVoltage(action, i, u) * i == u * OneQuadrantCurrent(action, i)
  {
  }

  class FiniteOneQuadrantConverter {
    const tau: real
    var actionStartTime: real
    var currentAction: int
    var switchingPattern: seq<int>

    ghost predicate Valid()
      reads this
    {
      0 <= currentAction < 2
    }

    constructor (tau: real)
      ensures Valid() && this.tau == tau
      ensures actionStartTime == 0.0 && currentAction == 0 && switchingPattern == []
    {
      this.tau := tau;
      actionStartTime := 0.0;
      currentAction := 0;
      switchingPattern := [];
    }

    method Reset() returns (u: seq<real>)
      requires Valid()
      modifies this
      ensures Valid() && currentAction == 0 && actionStartTime == 0.0 && u == [0.0]
      ensures switchingPattern == old(switchingPattern)
    {
      currentAction := 0;
      actionStartTime := 0.0;
      u := [0.0];
    }

    /** `set_action`: an action outside {0, 1} fails; a valid one holds for the
      * whole step, whose only switching time is `t + tau`. */
    method SetAction(action: int, t: real) returns (r: Result<seq<real>>)
      requires Valid()
      modifies this
      ensures Valid()
      ensures r.Err? <==> !(0 <= action < 2)
      ensures r.Err? ==> actionStartTime == old(actionStartTime) && currentAction == old(currentAction)
                         && switchingPattern == old(switchingPattern)
      ensures r.Ok? ==> actionStartTime == t && currentAction == action && switchingPattern == [action]
                        && r.value == [t + tau]
    {
      if !(0 <= action < 2) {
        return Err("AssertionError: action not in the action space");
      }
      actionStartTime := t;
      currentAction := action;
      switchingPattern := [action];
      r := Ok([actionStartTime + tau]);
    }

    function Convert(t: real, iOut: seq<real>, uSup: seq<real>): (r: seq<real>)
      reads this
      requires |iOut| > 0 && |uSup| > 0
      ensures r == [OneQuadrantVoltage(currentAction, iOut[0], uSup[0])]
    {
      [if iOut[0] >= 0.0 then currentAction as real * uSup[0] else uSup[0]]
    }

    function ISup(iOut: seq<real>): (r: real)
      reads this
      requires |iOut| > 0
      ensures r == OneQuadrantCurrent(currentAction, iOut[0])
    {
      if currentAction == 1 then iOut[0] else 0.0
    }
  }

  // ------------------------------------------------ four-quadrant converter

  /** The sub-actions of the two half bridges for each 4QC action. */
  function FourQuadrantSubactions(action: int): (r: (int, int))
    requires 0 <= action < 4
    ensures r.0 == (if action < 2 then 1 else 2) && r.1 == (if action % 2 == 0 then 1 else 2)
  {
    ([1, 1, 2, 2][action], [1, 2, 1, 2][action])
  }

  /** The voltage of the 4QC: first half bridge on `i`, minus the second on
    * `-i`. */
  function FourQuadrantVoltage(s0: int, s1: int, i: real, u: real): Result<real>
  {
    var v0 := TwoQuadrantVoltage(s0, i, [u]);
    var v1 := TwoQuadrantVoltage(s1, -i, [u]);
    if v0.Err? then Err(v0.error) else if v1.Err? then Err(v1.error) else Ok(v0.value[0] - v1.value[0])
  }

  function FourQuadrantCurrent(s0: int, s1: int, i: real): Result<real>
  {
    var c0 := TwoQuadrantCurrent(s0, i);
    var c1 := TwoQuadrantCurrent(s1, -i);
    if c0.Err? then Err(c0.error) else if c1.Err? then Err(c1.error) else Ok(c0.value + c1.value)
  }

  /** Once both half bridges are in their sub-action's state, the four
    * actions give the output voltages 0, +u, -u and 0 and draw the supply
    * currents 0, i, -i and 0; every switching state conserves power. */
  lemma FourQuadrantOperatingPoints(action: int, i: real, u: real)
    requires 0 <= action < 4
    ensures var (a0, a1) := FourQuadrantSubactions(action);
            FourQuadrantVoltage(a0, a1, i, u) == Ok([0.0, u, -u, 0.0][action])
            && FourQuadrantCurrent(a0, a1, i) == Ok([0.0, i, -i, 0.0][action])
  {
  }

  lemma FourQuadrantPowerBalance(s0: int, s1: int, i: real, u: real)
    requires 0 <= s0 < 3 && 0 <= s1 < 3
    ensures FourQuadrantVoltage(s0, s1, i, u).Ok? && FourQuadrantCurrent(s0, s1, i).Ok?
    ensures FourQuadrantVoltage(s0, s1, i, u).value * i == u * FourQuadrantCurrent(s0, s1, i).value
  {
    TwoQuadrantPowerBalance(s0, i, u);
    TwoQuadrantPowerBalance(s1, -i, u);
  }

  class FiniteFourQuadrantConverter {
    const sub0: FiniteTwoQuadrantConverter
    const sub1: FiniteTwoQuadrantConverter

    ghost predicate Valid()
      reads this, sub0, sub1
    {
      sub0 != sub1 && sub0.Valid() && sub1.Valid()
    }

    constructor (tau: real, interlockingTime: real)
      ensures Valid() && fresh(sub0) && fresh(sub1)
      ensures sub0.tau == tau && sub1.tau == tau
      ensures sub0.interlockingTime == interlockingTime && sub1.interlockingTime == interlockingTime
      ensures sub0.switchingPattern == [] && sub1.switchingPattern == []
    {
      sub0 := new FiniteTwoQuadrantConverter(tau, interlockingTime);
      sub1 := new FiniteTwoQuadrantConverter(tau, interlockingTime);
    }

    /** `reset` resets both half bridges (and returns nothing). */
    method Reset()
      requires Valid()
      modifies sub0, sub1
      ensures Valid()
      ensures sub0.currentAction == 0 && sub0.actionStartTime == 0.0
      ensures sub1.currentAction == 0 && sub1.actionStartTime == 0.0
      ensures sub0.switchingPattern == old(sub0.switchingPattern) && sub0.switchingState == old(sub0.switchingState)
      ensures sub1.switchingPattern == old(sub1.switchingPattern) && sub1.switchingState == old(sub1.switchingState)
    {
      var _ := sub0.Reset();
      var _ := sub1.Reset();
    }

    /** `set_action`: actions outside {0, .., 3} fail; otherwise each half
      * bridge takes its sub-action and the result lists every switching time
      * of either, once, in ascending order. */
    method SetAction(action: int, t: real) returns (r: Result<seq<real>>)
      requires Valid()
      modifies sub0, sub1
      ensures Valid()
      ensures r.Err? <==> !(0 <= action < 4)
      ensures r.Err? ==> unchanged(sub0) && unchanged(sub1)
      ensures r.Ok? ==>
                var (a0, a1) := FourQuadrantSubactions(action);
                var p0 := TwoQuadrantPattern(a0, old(sub0.switchingState), t, sub0.tau, sub0.interlockingTime);
                var p1 := TwoQuadrantPattern(a1, old(sub1.switchingState), t, sub1.tau, sub1.interlockingTime);
                sub0.currentAction == a0 && sub1.currentAction == a1
                && sub0.actionStartTime == t && sub1.actionStartTime == t
                && sub0.switchingPattern == p0.0 && sub1.switchingPattern == p1.0
                && StrictlyIncreasing(r.value)
                && forall y :: y in r.value <==> y in p0.1 || y in p1.1
    {
      if !(0 <= action < 4) {
        return Err("AssertionError: action not in the action space");
      }
      var (a0, a1) := FourQuadrantSubactions(action);
      var times: seq<real> := [];
      var t0 := sub0.SetAction(a0, t);
      times := SortedUnion(times, t0.value);
      var t1 := sub1.SetAction(a1, t);
      times := SortedUnion(times, t1.value);
      r := Ok(times);
    }

    /** `convert`: first half bridge on `i`, minus the second on `-i`. */
    method Convert(t: real, iOut: seq<real>, uSup: seq<real>) returns (r: Result<seq<real>>)
      requires Valid() && |iOut| > 0 && |uSup| > 0
      modifies sub0, sub1
      ensures Valid()
      ensures r.Ok? <==> |sub0.switchingPattern| > 0 && |sub1.switchingPattern| > 0
      ensures sub0.switchingPattern == old(sub0.switchingPattern) && sub1.switchingPattern == old(sub1.switchingPattern)
      ensures r.Ok? ==>
                sub0.switchingState == ActiveSwitchingState(sub0.switchingPattern, t, sub0.actionStartTime, sub0.tau, sub0.interlockingTime)
                && sub1.switchingState == ActiveSwitchingState(sub1.switchingPattern, t, sub1.actionStartTime, sub1.tau, sub1.interlockingTime)
                && r.value == [FourQuadrantVoltage(sub0.switchingState, sub1.switchingState, iOut[0], uSup[0]).value]
    {
      var v0 := sub0.Convert(t, iOut, uSup);
      if v0.Err? {
        return Err(v0.error);
      }
      var v1 := sub1.Convert(t, [-iOut[0]], uSup);
      if v1.Err? {
        return Err(v1.error);
      }
      FirstVoltage(sub0.switchingState, iOut[0], uSup);
      FirstVoltage(sub1.switchingState, -iOut[0], uSup);
      r := Ok([v0.value[0] - v1.value[0]]);
    }

    /** `i_sup`: the first half bridge's on `i` plus the second's on `-i`. */
    function ISup(iOut: seq<real>): (r: real)
      reads this, sub0, sub1
      requires Valid() && |iOut| > 0
      ensures Ok(r) == FourQuadrantCurrent(sub0.switchingState, sub1.switchingState, iOut[0])
    {
      sub0.ISup(iOut).value + sub1.ISup([-iOut[0]]).value
    }
  }

  // ------------------------------------------------------------ B6 bridge

  /** The action table of the B6 bridge: leg k is upper (1) or lower (2). */
  const B6Subactions: seq<seq<int>> :=
    [[2, 2, 2], [2, 2, 1], [2, 1, 2], [2, 1, 1], [1, 2, 2], [1, 2, 1], [1, 1, 2], [1, 1, 1]]

  function Pow2(k: nat): (r: nat)
    ensures r >= 1
  {
    if k == 0 then 1 else 2 * Pow2(k - 1)
  }

  /** The table reads the action as three bits, most significant first: leg k
    * is upper exactly when bit `2 - k` of the action is set. */
  lemma B6LegsFollowBits(action: nat, k: nat)
    requires action < 8 && k < 3
    ensures B6Subactions[action][k] == (if (action / Pow2(2 - k)) % 2 == 1 then 1 else 2)
  {
    assert Pow2(0) == 1 && Pow2(1) == 2 && Pow2(2) == 4;
  }

  /** Each phase voltage of the B6 bridge is its leg's output minus the
    * constant 0.5, which is half the supply voltage only for a unit supply. */
  function B6Voltages(states: seq<int>, currents: seq<real>, u: real): (r: Result<seq<real>>)
    requires |states| == 3 && |currents| == 3
    ensures r.Ok? <==> forall k :: 0 <= k < 3 ==> 0 <= states[k] < 3
    ensures r.Ok? ==> |r.value| == 3 && forall k :: 0 <= k < 3 ==>
              r.value[k] == (if PassesSupply(states[k], currents[k]) then u else 0.0) - 0.5
  {
    if forall k :: 0 <= k < 3 ==> 0 <= states[k] < 3 then
      Ok(seq(3, k requires 0 <= k < 3 => TwoQuadrantVoltage(states[k], currents[k], [u]).value[0] - 0.5))
    else
      Err("Invalid switching state of the converter")
  }

  /** Three two-quadrant legs, each on its own phase current and shifted by
    * 0.5, give the bridge's phase voltages. */
  lemma B6FromLegs(states: seq<int>, currents: seq<real>, u: real, legs: seq<real>)
    requires |states| == 3 && |currents| == 3 && |legs| == 3
    requires forall k :: 0 <= k < 3 ==> 0 <= states[k] < 3
    requires forall k :: 0 <= k < 3 ==> legs[k] == TwoQuadrantVoltage(states[k], currents[k], [u]).value[0]
    ensures B6Voltages(states, currents, u) == Ok([legs[0] - 0.5, legs[1] - 0.5, legs[2] - 0.5])
  {
    var expected := B6Voltages(states, currents, u).value;
    assert forall k :: 0 <= k < 3 ==> expected[k] == legs[k] - 0.5;
    assert expected == [legs[0] - 0.5, legs[1] - 0.5, legs[2] - 0.5];
  }

  function B6Current(states: seq<int>, currents: seq<real>): (r: Result<real>)
    requires |states| == 3 && |currents| == 3
    ensures r.Ok? <==> forall k :: 0 <= k < 3 ==> 0 <= states[k] < 3
  {
    if forall k :: 0 <= k < 3 ==> 0 <= states[k] < 3 then
      Ok(TwoQuadrantCurrent(states[0], currents[0]).value + TwoQuadrantCurrent(states[1], currents[1]).value
         + TwoQuadrantCurrent(states[2], currents[2]).value)
    else
      Err("Invalid switching state of the converter")
  }

  /** With a unit supply and phase currents that sum to zero, the bridge
    * conserves power: the half-supply offset of the phase voltages carries
    * no power. */
  lemma B6PowerBalance(states: seq<int>, currents: seq<real>)
    requires |states| == 3 && |currents| == 3
    requires forall k :: 0 <= k < 3 ==> 0 <= states[k] < 3
    requires currents[0] + currents[1] + currents[2] == 0.0
    ensures var v := B6Voltages(states, currents, 1.0).value;
            v[0] * currents[0] + v[1] * currents[1] + v[2] * currents[2] == B6Current(states, currents).value
  {
    var v := B6Voltages(states, currents, 1.0).value;
    TwoQuadrantPowerBalance(states[0], currents[0], 1.0);
    TwoQuadrantPowerBalance(states[1], currents[1], 1.0);
    TwoQuadrantPowerBalance(states[2], currents[2], 1.0);
    assert v[0] * currents[0] + v[1] * currents[1] + v[2] * currents[2]
        == (v[0] + 0.5) * currents[0] + (v[1] + 0.5) * currents[1] + (v[2] + 0.5) * currents[2];
  }

  class FiniteB6BridgeConverter {
    const leg0: FiniteTwoQuadrantConverter
    const leg1: FiniteTwoQuadrantConverter
    const leg2: FiniteTwoQuadrantConverter

    ghost predicate Valid()
      reads this, leg0, leg1, leg2
    {
      leg0 != leg1 && leg1 != leg2 && leg0 != leg2 && leg0.Valid() && leg1.Valid() && leg2.Valid()
    }

    constructor (tau: real, interlockingTime: real)
      ensures Valid() && fresh(leg0) && fresh(leg1) && fresh(leg2)
      ensures leg0.tau == tau && leg1.tau == tau && leg2.tau == tau
      ensures leg0.interlockingTime == interlockingTime && leg1.interlockingTime == interlockingTime
      ensures leg2.interlockingTime == interlockingTime
    {
      leg0 := new FiniteTwoQuadrantConverter(tau, interlockingTime);
      leg1 := new FiniteTwoQuadrantConverter(tau, interlockingTime);
      leg2 := new FiniteTwoQuadrantConverter(tau, interlockingTime);
    }

    /** `reset` resets the three legs. */
    method Reset()
      requires Valid()
      modifies leg0, leg1, leg2
      ensures Valid()
      ensures leg0.currentAction == 0 && leg1.currentAction == 0 && leg2.currentAction == 0
      ensures leg0.actionStartTime == 0.0 && leg1.actionStartTime == 0.0 && leg2.actionStartTime == 0.0
      ensures leg0.switchingPattern == old(leg0.switchingPattern) && leg0.switchingState == old(leg0.switchingState)
      ensures leg1.switchingPattern == old(leg1.switchingPattern) && leg1.switchingState == old(leg1.switchingState)
      ensures leg2.switchingPattern == old(leg2.switchingPattern) && leg2.switchingState == old(leg2.switchingState)
    {
      var _ := leg0.Reset();
      var _ := leg1.Reset();
      var _ := leg2.Reset();
    }

    /** `set_action`: actions outside {0, .., 7} fail; otherwise each leg takes
      * its entry of the table and the result lists the legs' switching times
      * once each, ascending. */
    method SetAction(action: int, t: real) returns (r: Result<seq<real>>)
      requires Valid()
      modifies leg0, leg1, leg2
      ensures Valid()
      ensures r.Err? <==> !(0 <= action < 8)
      ensures r.Err? ==> unchanged(leg0) && unchanged(leg1) && unchanged(leg2)
      ensures r.Ok? ==>
                var p0 := TwoQuadrantPattern(B6Subactions[action][0], old(leg0.switchingState), t, leg0.tau, leg0.interlockingTime);
                var p1 := TwoQuadrantPattern(B6Subactions[action][1], old(leg1.switchingState), t, leg1.tau, leg1.interlockingTime);
                var p2 := TwoQuadrantPattern(B6Subactions[action][2], old(leg2.switchingState), t, leg2.tau, leg2.interlockingTime);
                leg0.currentAction == B6Subactions[action][0] && leg1.currentAction == B6Subactions[action][1]
                && leg2.currentAction == B6Subactions[action][2]
                && leg0.switchingPattern == p0.0 && leg1.switchingPattern == p1.0 && leg2.switchingPattern == p2.0
                && StrictlyIncreasing(r.value)
                && forall y :: y in r.value <==> y in p0.1 || y in p1.1 || y in p2.1
    {
      if !(0 <= action < 8) {
        return Err("AssertionError: action not in the action space");
      }
      var sub := B6Subactions[action];
      var times: seq<real> := [];
      var t0 := leg0.SetAction(sub[0], t);
      times := SortedUnion(times, t0.value);
      var t1 := leg1.SetAction(sub[1], t);
      times := SortedUnion(times, t1.value);
      var t2 := leg2.SetAction(sub[2], t);
      times := SortedUnion(times, t2.value);
      r := Ok(times);
    }

    /** `convert`: each leg converts its own phase current; the phase voltage
      * is the leg's output minus 0.5. */
    method Convert(t: real, iOut: seq<real>, uSup: seq<real>) returns (r: Result<seq<real>>)
      requires Valid() && |iOut| == 3 && |uSup| > 0
      modifies leg0, leg1, leg2
      ensures Valid()
      ensures r.Ok? <==> |leg0.switchingPattern| > 0 && |leg1.switchingPattern| > 0 && |leg2.switchingPattern| > 0
      ensures r.Ok? ==>
                leg0.switchingState == ActiveSwitchingState(leg0.switchingPattern, t, leg0.actionStartTime, leg0.tau, leg0.interlockingTime)
                && leg1.switchingState == ActiveSwitchingState(leg1.switchingPattern, t, leg1.actionStartTime, leg1.tau, leg1.interlockingTime)
                && leg2.switchingState == ActiveSwitchingState(leg2.switchingPattern, t, leg2.actionStartTime, leg2.tau, leg2.interlockingTime)
                && r == B6Voltages([leg0.switchingState, leg1.switchingState, leg2.switchingState], iOut, uSup[0])
    {
      var v0 := leg0.Convert(t, [iOut[0]], uSup);
      if v0.Err? { return Err(v0.error); }
      var v1 := leg1.Convert(t, [iOut[1]], uSup);
      if v1.Err? { return Err(v1.error); }
      var v2 := leg2.Convert(t, [iOut[2]], uSup);
      if v2.Err? { return Err(v2.error); }
      FirstVoltage(leg0.switchingState, iOut[0], uSup);
      FirstVoltage(leg1.switchingState, iOut[1], uSup);
      FirstVoltage(leg2.switchingState, iOut[2], uSup);
      r := Ok([v0.value[0] - 0.5, v1.value[0] - 0.5, v2.value[0] - 0.5]);
      B6FromLegs([leg0.switchingState, leg1.switchingState, leg2.switchingState], iOut, uSup[0], [v0.value[0], v1.value[0], v2.value[0]]);
    }

    /** `i_sup`: the sum of the legs' supply currents on their own phase. */
    function ISup(iOut: seq<real>): (r: real)
      reads this, leg0, leg1, leg2
      requires Valid() && |iOut| == 3
      ensures Ok(r) == B6Current([leg0.switchingState, leg1.switchingState, leg2.switchingState], iOut)
    {
      leg0.ISup([iOut[0]]).value + leg1.ISup([iOut[1]]).value + leg2.ISup([iOut[2]]).value
    }
  }

  // ------------------------------------------------------------ no converter

  /** The no-converter passes the supply straight to the motor. It keeps the
    * base converter's bookkeeping: no reset action, start time 0, and the
    * default pattern of one action per step. */
  class NoConverter {
    const tau: real
    var actionStartTime: real
    var currentAction: Option<seq<real>>
    var switchingPattern: seq<seq<real>>

    constructor (tau: real)
      ensures this.tau == tau && actionStartTime == 0.0 && currentAction == None && switchingPattern == []
    {
      this.tau := tau;
      actionStartTime := 0.0;
      currentAction := None;
      switchingPattern := [];
    }

    /** `reset` (inherited): no action, start time 0, output `[0.0]`. */
    method Reset() returns (u: seq<real>)
      modifies this
      ensures currentAction == None && actionStartTime == 0.0 && u == [0.0]
      ensures switchingPattern == old(switchingPattern)
    {
      currentAction := None;
      actionStartTime := 0.0;
      u := [0.0];
    }

    /** `set_action` (inherited, unchecked): the only switching time is
      * `t + tau`. */
    method SetAction(action: seq<real>, t: real) returns (times: seq<real>)
      modifies this
      ensures actionStartTime == t && currentAction == Some(action) && switchingPattern == [action]
      ensures times == [t + tau]
    {
      actionStartTime := t;
      currentAction := Some(action);
      switchingPattern := [action];
      times := [actionStartTime + tau];
    }

    /** `convert`: the motor sees the supply voltage. */
    function Convert(t: real, iOut: seq<real>, uSup: seq<real>): (r: seq<real>)
      ensures r == uSup
    {
      uSup
    }

    /** `i_sup`: the supply delivers the motor currents themselves. */
    function ISup(iOut: seq<real>): (r: seq<real>)
      ensures r == iOut
    {
      iOut
    }
  }
}
