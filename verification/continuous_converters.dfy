/**
 * Continuously controlled converters, dynamically averaged over one step
 * (converters/continuous_dynamically_averaged_control_set/): the action is a
 * duty cycle, the output is the duty cycle's average voltage (normalised to
 * the supply) less a discount for the transistors' interlocking time.
 */
module ContinuousConverters {
  import opened Common

  // ------------------------------------------------------ shared averaging

  /** `_interlock`: `sign(i) / tau * interlocking_time`, the share of the step
    * lost to the interlocking time, against the direction of the current. */
  function InterlockDiscount(i: real, tau: real, til: real): (r: real)
    requires tau > 0.0
    ensures r * tau == Sign(i) * til
    ensures til == 0.0 || i == 0.0 ==> r == 0.0
    ensures til >= 0.0 ==> (i > 0.0 ==> r >= 0.0) && (i < 0.0 ==> r <= 0.0)
  {
    Sign(i) / tau * til
  }

  /** `convert` of the base class: the idealised voltage less the discount,
    * kept within the converter's output range. */
  function AveragedOutput(ideal: real, discount: real, low: real, high: real): (r: seq<real>)
    requires low <= high
    ensures |r| == 1 && low <= r[0] <= high
    ensures low <= ideal - discount <= high ==> r[0] == ideal - discount
  {
    [Clip(ideal - discount, low, high)]
  }

  /** `set_action` of the base class on a one-element action: the action is
    * clipped into the action space. */
  function ClippedAction(action: seq<real>, low: real, high: real): (r: seq<real>)
    requires |action| == 1 && low <= high
    ensures |r| == 1 && low <= r[0] <= high
    ensures low <= action[0] <= high ==> r == action
  {
    [Clip(action[0], low, high)]
  }

  // ------------------------------------------------------------------ 1QC

  /** `_convert` of the 1QC: the duty cycle while the current is not negative;
    * a negative current flows through the free-wheeling diode and the motor
    * sees the full supply. */
  function OneQuadrantIdeal(duty: real, i: real): (r: real)
    ensures i >= 0.0 ==> r == duty
    ensures i < 0.0 ==> r == 1.0
  {
    if i >= 0.0 then duty else 1.0
  }

  /** 1QC output voltage: no interlocking discount, range [0, 1]. */
  function ContOneQuadrantVoltage(duty: real, i: real): (r: seq<real>)
    ensures |r| == 1 && 0.0 <= r[0] <= 1.0
    ensures 0.0 <= duty <= 1.0 && i >= 0.0 ==> r == [duty]
    ensures i < 0.0 ==> r == [1.0]
  {
    AveragedOutput(OneQuadrantIdeal(duty, i), 0.0, 0.0, 1.0)
  }

  /** 1QC supply current: the duty cycle's share of the motor current. */
  function ContOneQuadrantISup(duty: real, i: real): (r: real)
    ensures duty == 0.0 ==> r == 0.0
    ensures 0.0 <= duty <= 1.0 && i >= 0.0 ==> 0.0 <= r <= i
  {
    duty * i
  }

  /** For a non-negative current the converter neither makes nor loses power:
    * output voltage times motor current equals the supply current (both
    * normalised to the supply voltage). */
  lemma ContOneQuadrantPowerBalance(duty: real, i: real)
    requires 0.0 <= duty <= 1.0 && i >= 0.0
    ensures ContOneQuadrantVoltage(duty, i)[0] * i == ContOneQuadrantISup(duty, i)
  {
  }

  // ------------------------------------------------------------------ 2QC

  /** 2QC supply current: during the interlocking time the supply carries the
    * current only when it is negative. */
  function ContTwoQuadrantISup(duty: real, i: real, tau: real, til: real): (r: real)
    requires tau > 0.0
  {
    var interlockingCurrent := if i < 0.0 then 1.0 else 0.0;
    (duty + til / tau * (interlockingCurrent - duty)) * i
  }

  /** The effective duty cycle behind the 2QC supply current lies between the
    * duty cycle and the interlocking indicator, so the supply never carries
    * more than the motor current; without interlocking it is the duty
    * cycle. */
  lemma ContTwoQuadrantISupBounds(duty: real, i: real, tau: real, til: real)
    requires tau > 0.0 && 0.0 <= til <= tau && 0.0 <= duty <= 1.0
    ensures Abs(ContTwoQuadrantISup(duty, i, tau, til)) <= Abs(i)
    ensures til == 0.0 ==> ContTwoQuadrantISup(duty, i, tau, til) == duty * i
  {
    var x := til / tau;
    var c := if i < 0.0 then 1.0 else 0.0;
    assert 0.0 <= x <= 1.0 by {
      assert x * tau == til && (1.0 - x) * tau == tau - til;
      NonNegativeFactor(x, tau);
      NonNegativeFactor(1.0 - x, tau);
    }
    var e := duty + x * (c - duty);
    assert e == (1.0 - x) * duty + x * c;
    NonNegativeProduct(1.0 - x, duty);
    NonNegativeProduct(x, c);
    NonNegativeProduct(1.0 - x, 1.0 - duty);
    NonNegativeProduct(x, 1.0 - c);
    assert 0.0 <= e <= 1.0;
    BoundedFactor(e, i);
  }

  lemma NonNegativeProduct(a: real, b: real)
    requires a >= 0.0 && b >= 0.0
    ensures a * b >= 0.0
  {
  }

  lemma NonNegativeFactor(a: real, b: real)
    requires b > 0.0 && a * b >= 0.0
    ensures a >= 0.0
  {
  }

  lemma BoundedFactor(e: real, i: real)
    requires 0.0 <= e <= 1.0
    ensures Abs(e * i) <= Abs(i)
  {
    if i >= 0.0 {
      NonNegativeProduct(1.0 - e, i);
      NonNegativeProduct(e, i);
    } else {
      NonNegativeProduct(1.0 - e, -i);
      NonNegativeProduct(e, -i);
    }
  }

  /** `_add_interlock`'s wrapped function (defined but never applied): the
    * voltage less the interlocking discount, clipped to the supply range. */
  function AddInterlock(u: real, i: real, uSup: real, tau: real, til: real): (r: real)
    requires tau > 0.0
    ensures uSup >= 0.0 ==> -uSup <= r <= uSup
    ensures -uSup <= u - InterlockDiscount(i, tau, til) <= uSup ==> r == u - InterlockDiscount(i, tau, til)
  {
    Clip(u - InterlockDiscount(i, tau, til), -uSup, uSup)
  }

  /** `convert` of the 2QC as written: the class leaves the base `_convert`,
    * which raises. */
  function ContTwoQuadrantConvertAsWritten(duty: real, i: real, tau: real, til: real): (r: Result<seq<real>>)
    ensures r.Err?
  {
    Err("NotImplementedError")
  }

  /** `convert` of the 2QC as its documentation describes it: the idealised
    * voltage is the duty cycle of the upper transistor, less the interlocking
    * discount, within the output range [0, 1]. */
  function ContTwoQuadrantVoltage(duty: real, i: real, tau: real, til: real): (r: seq<real>)
    requires tau > 0.0
    ensures |r| == 1 && 0.0 <= r[0] <= 1.0
    ensures til == 0.0 && 0.0 <= duty <= 1.0 ==> r == [duty]
  {
    AveragedOutput(duty, InterlockDiscount(i, tau, til), 0.0, 1.0)
  }

  /** Without interlocking the 2QC works in both current directions with no
    * loss: output voltage times motor current equals the supply current. */
  lemma ContTwoQuadrantPowerBalance(duty: real, i: real, tau: real)
    requires tau > 0.0 && 0.0 <= duty <= 1.0
    ensures ContTwoQuadrantVoltage(duty, i, tau, 0.0)[0] * i == ContTwoQuadrantISup(duty, i, tau, 0.0)
  {
  }

  // ------------------------------------------------------------------ 4QC

  /** The two 2QC duty cycles the 4QC derives from its action:
    * `0.5 * (a + 1)` and `-0.5 * (a - 1)`. They add up to one and their
    * difference is the action. */
  function DutySplit(a: real): (r: (real, real))
    ensures r.0 + r.1 == 1.0 && r.0 - r.1 == a
    ensures -1.0 <= a <= 1.0 ==> 0.0 <= r.0 <= 1.0 && 0.0 <= r.1 <= 1.0
  {
    (0.5 * (a + 1.0), -0.5 * (a - 1.0))
  }

  /** 4QC output: the first 2QC's voltage less the second's, both for the same
    * motor current. */
  function ContFourQuadrantVoltage(d0: real, d1: real, i: real, tau: real, til: real): (r: seq<real>)
    requires tau > 0.0
    ensures |r| == 1 && -1.0 <= r[0] <= 1.0
  {
    [ContTwoQuadrantVoltage(d0, i, tau, til)[0] - ContTwoQuadrantVoltage(d1, i, tau, til)[0]]
  }

  /** 4QC supply current: the first 2QC carries the motor current, the second
    * carries it reversed. */
  function ContFourQuadrantISup(d0: real, d1: real, i: real, tau: real, til: real): (r: real)
    requires tau > 0.0
  {
    ContTwoQuadrantISup(d0, i, tau, til) + ContTwoQuadrantISup(d1, -i, tau, til)
  }

  /** As written, the 4QC's `convert` fails whatever the action and current,
    * because its first 2QC's `convert` does. */
  lemma ContFourQuadrantConvertAsWrittenFails(a: real, i: real, tau: real, til: real)
    ensures ContTwoQuadrantConvertAsWritten(DutySplit(a).0, i, tau, til).Err?
  {
  }

  /** With the 2QC voltage as documented and no interlocking, the 4QC outputs
    * its action, and draws from the supply exactly the power it delivers. */
  lemma ContFourQuadrantVoltageIsAction(a: real, i: real, tau: real)
    requires tau > 0.0 && -1.0 <= a <= 1.0
    ensures ContFourQuadrantVoltage(DutySplit(a).0, DutySplit(a).1, i, tau, 0.0) == [a]
    ensures ContFourQuadrantVoltage(DutySplit(a).0, DutySplit(a).1, i, tau, 0.0)[0] * i
            == ContFourQuadrantISup(DutySplit(a).0, DutySplit(a).1, i, tau, 0.0)
  {
    var d := DutySplit(a);
    assert ContTwoQuadrantISup(d.0, i, tau, 0.0) == d.0 * i;
    assert ContTwoQuadrantISup(d.1, -i, tau, 0.0) == d.1 * -i;
  }

  // -------------------------------------------------------------- classes

  /** The kinds of elementary continuous converter and their action and
    * output ranges. */
  datatype Kind = OneQuadrant | TwoQuadrant

  function ActionLow(k: Kind): real { 0.0 }

  function ActionHigh(k: Kind): real { 1.0 }

  /** An elementary continuous converter (1QC or 2QC): the state every
    * converter keeps, with the duty cycle as its action. */
  class ContinuousConverter {
    const kind: Kind
    const tau: real
    const interlockingTime: real
    var actionStartTime: real
    var currentAction: seq<real>
    var switchingPattern: seq<seq<real>>

    ghost predicate Valid()
      reads this
    {
      tau > 0.0 && |currentAction| == 1
    }

    /** The reset action `[0]` is current from the start. */
    constructor (kind: Kind, tau: real, interlockingTime: real)
      requires tau > 0.0
      ensures Valid() && this.kind == kind && this.tau == tau && this.interlockingTime == interlockingTime
      ensures actionStartTime == 0.0 && currentAction == [0.0] && switchingPattern == []
    {
      this.kind := kind;
      this.tau := tau;
      this.interlockingTime := interlockingTime;
      actionStartTime := 0.0;
      currentAction := [0.0];
      switchingPattern := [];
    }

    /** `reset`: the reset action, start time 0, output `[0.0]`. */
    method Reset() returns (u: seq<real>)
      requires Valid()
      modifies this
      ensures Valid() && currentAction == [0.0] && actionStartTime == 0.0 && u == [0.0]
      ensures switchingPattern == old(switchingPattern)
    {
      currentAction := [0.0];
      actionStartTime := 0.0;
      u := [0.0];
    }

    /** `set_action`: the duty cycle is clipped into [0, 1] and held for one
      * step; the only switching time is the end of the step. */
    method SetAction(action: seq<real>, t: real) returns (times: seq<real>)
      requires Valid() && |action| == 1
      modifies this
      ensures Valid() && actionStartTime == t
      ensures currentAction == ClippedAction(action, ActionLow(kind), ActionHigh(kind))
      ensures switchingPattern == [currentAction] && times == [t + tau]
    {
      actionStartTime := t;
      currentAction := ClippedAction(action, ActionLow(kind), ActionHigh(kind));
      switchingPattern := [currentAction];
      times := [actionStartTime + tau];
    }

    /** `convert(i_out, t)` for the current duty cycle. */
    function Convert(iOut: seq<real>, t: real): (r: seq<real>)
      reads this
      requires Valid() && |iOut| >= 1
      ensures |r| == 1 && 0.0 <= r[0] <= 1.0
      ensures kind == OneQuadrant ==> r == ContOneQuadrantVoltage(currentAction[0], iOut[0])
      ensures kind == TwoQuadrant ==> r == ContTwoQuadrantVoltage(currentAction[0], iOut[0], tau, interlockingTime)
    {
      match kind
      case OneQuadrant => ContOneQuadrantVoltage(currentAction[0], iOut[0])
      case TwoQuadrant => ContTwoQuadrantVoltage(currentAction[0], iOut[0], tau, interlockingTime)
    }

    /** `i_sup(i_out)` for the current duty cycle. */
    function ISup(iOut: seq<real>): (r: real)
      reads this
      requires Valid() && |iOut| >= 1
      ensures kind == OneQuadrant ==> r == ContOneQuadrantISup(currentAction[0], iOut[0])
      ensures kind == TwoQuadrant ==> r == ContTwoQuadrantISup(currentAction[0], iOut[0], tau, interlockingTime)
    {
      match kind
      case OneQuadrant => ContOneQuadrantISup(currentAction[0], iOut[0])
      case TwoQuadrant => ContTwoQuadrantISup(currentAction[0], iOut[0], tau, interlockingTime)
    }
  }

  /** The continuous 4QC: two 2QCs driven with complementary duty cycles. */
  class ContFourQuadrantConverter {
    const tau: real
    const interlockingTime: real
    var actionStartTime: real
    var currentAction: seq<real>
    var switchingPattern: seq<seq<real>>
    const sub0: ContinuousConverter
    const sub1: ContinuousConverter

    ghost predicate Valid()
      reads this, sub0, sub1
    {
      tau > 0.0 && |currentAction| == 1 && sub0 != sub1
      && sub0.Valid() && sub1.Valid() && sub0.kind == TwoQuadrant && sub1.kind == TwoQuadrant
      && sub0.tau == tau && sub1.tau == tau
      && sub0.interlockingTime == interlockingTime && sub1.interlockingTime == interlockingTime
    }

    constructor (tau: real, interlockingTime: real)
      requires tau > 0.0
      ensures Valid() && this.tau == tau && this.interlockingTime == interlockingTime
      ensures fresh(sub0) && fresh(sub1)
      ensures actionStartTime == 0.0 && currentAction == [0.0]
      ensures sub0.currentAction == [0.0] && sub1.currentAction == [0.0]
    {
      this.tau := tau;
      this.interlockingTime := interlockingTime;
      actionStartTime := 0.0;
      currentAction := [0.0];
      switchingPattern := [];
      sub0 := new ContinuousConverter(TwoQuadrant, tau, interlockingTime);
      sub1 := new ContinuousConverter(TwoQuadrant, tau, interlockingTime);
    }

    /** `reset`: both 2QCs, then the 4QC's own state. */
    method Reset() returns (u: seq<real>)
      requires Valid()
      modifies this, sub0, sub1
      ensures Valid() && u == [0.0]
      ensures currentAction == [0.0] && actionStartTime == 0.0
      ensures sub0.currentAction == [0.0] && sub0.actionStartTime == 0.0
      ensures sub1.currentAction == [0.0] && sub1.actionStartTime == 0.0
      ensures switchingPattern == old(switchingPattern)
    {
      var _ := sub0.Reset();
      var _ := sub1.Reset();
      currentAction := [0.0];
      actionStartTime := 0.0;
      u := [0.0];
    }

    /** `set_action`: the action is clipped into [-1, 1] and recorded; the two
      * 2QCs receive `0.5 * (a + 1)` and `-0.5 * (a - 1)` of the unclipped
      * action, which they clip into [0, 1] themselves. */
    method SetAction(action: seq<real>, t: real) returns (times: seq<real>)
      requires Valid() && |action| == 1
      modifies this, sub0, sub1
      ensures Valid() && actionStartTime == t && currentAction == ClippedAction(action, -1.0, 1.0)
      ensures switchingPattern == [currentAction]
      ensures sub0.currentAction == ClippedAction([DutySplit(action[0]).0], 0.0, 1.0) && sub0.actionStartTime == t
      ensures sub1.currentAction == ClippedAction([DutySplit(action[0]).1], 0.0, 1.0) && sub1.actionStartTime == t
      ensures times == [t + tau]
    {
      actionStartTime := t;
      currentAction := ClippedAction(action, -1.0, 1.0);
      switchingPattern := [currentAction];
      var split := DutySplit(action[0]);
      var times0 := sub0.SetAction([split.0], t);
      var times1 := sub1.SetAction([split.1], t);
      times := SortedUnion([], times0 + times1);
      var end := t + tau;
      assert times0 + times1 == [end, end];
      assert [end, end][..1] == [end];
      assert Insert([], end) == [end];
      assert SortedUnion([], [end]) == [end];
    }

    /** `convert(i_out, t)` with the 2QC voltage as documented. */
    function Convert(iOut: seq<real>, t: real): (r: seq<real>)
      reads this, sub0, sub1
      requires Valid() && |iOut| >= 1
      ensures r == ContFourQuadrantVoltage(sub0.currentAction[0], sub1.currentAction[0], iOut[0], tau, interlockingTime)
    {
      [sub0.Convert(iOut, t)[0] - sub1.Convert(iOut, t)[0]]
    }

    /** `i_sup(i_out)`: the second 2QC sees the reversed current. */
    function ISup(iOut: seq<real>): (r: real)
      reads this, sub0, sub1
      requires Valid() && |iOut| >= 1
      ensures r == ContFourQuadrantISup(sub0.currentAction[0], sub1.currentAction[0], iOut[0], tau, interlockingTime)
    {
      sub0.ISup(iOut) + sub1.ISup([-iOut[0]])
    }
  }

  /** After `set_action(a)` with `a` in [-1, 1] and no interlocking, the 4QC
    * converts to `a` and balances power. */
  lemma ContFourQuadrantAfterSetAction(c: ContFourQuadrantConverter, a: real, i: real, t: real)
    requires c.Valid() && c.interlockingTime == 0.0 && -1.0 <= a <= 1.0
    requires c.sub0.currentAction == ClippedAction([DutySplit(a).0], 0.0, 1.0)
    requires c.sub1.currentAction == ClippedAction([DutySplit(a).1], 0.0, 1.0)
    ensures c.Convert([i], t) == [a]
    ensures c.Convert([i], t)[0] * i == c.ISup([i])
  {
    ContFourQuadrantVoltageIsAction(a, i, c.tau);
    assert c.sub0.currentAction[0] == DutySplit(a).0 && c.sub1.currentAction[0] == DutySplit(a).1;
    assert c.ISup([i]) == ContFourQuadrantISup(DutySplit(a).0, DutySplit(a).1, i, c.tau, 0.0);
  }
}
