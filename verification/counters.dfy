/**
 * Step and time counters of a physical system (core/physical_system.py) and
 * the older physical-system base of core.py with its name-to-position table.
 */
module StepCounters {
  import opened Common

  /** The four counters a physical system keeps: steps and seconds of the
    * current episode, and steps and seconds across all episodes. */
  datatype Counters = Counters(k: nat, t: real, kCumulative: nat, tCumulative: real)

  const Initial := Counters(0, 0.0, 0, 0.0)

  /** `_count_step`: one more step of `tau` seconds, in the episode and overall. */
  function StepCounted(c: Counters, tau: real): (r: Counters)
    ensures r.k == c.k + 1 && r.kCumulative == c.kCumulative + 1
    ensures r.t - c.t == tau && r.tCumulative - c.tCumulative == tau
  {
    Counters(c.k + 1, c.t + tau, c.kCumulative + 1, c.tCumulative + tau)
  }

  /** `reset`: a new episode starts; the cumulative counters run on. */
  function ResetCounters(c: Counters): (r: Counters)
    ensures r.k == 0 && r.t == 0.0
    ensures r.kCumulative == c.kCumulative && r.tCumulative == c.tCumulative
  {
    c.(k := 0, t := 0.0)
  }

  /** `n` consecutive calls of `_count_step`. */
  function Steps(c: Counters, tau: real, n: nat): Counters
  {
    if n == 0 then c else StepCounted(Steps(c, tau, n - 1), tau)
  }

  /** The relation every reachable counter state satisfies: episode time is the
    * step count times `tau`, cumulative time likewise, and the episode never
    * has more steps than the system overall. */
  predicate Consistent(c: Counters, tau: real)
  {
    c.t == c.k as real * tau && c.tCumulative == c.kCumulative as real * tau && c.k <= c.kCumulative
  }

  lemma CountStepPreserves(c: Counters, tau: real)
    requires Consistent(c, tau)
    ensures Consistent(StepCounted(c, tau), tau)
  {
    assert (c.k + 1) as real * tau == c.k as real * tau + tau;
    assert (c.kCumulative + 1) as real * tau == c.kCumulative as real * tau + tau;
  }

  lemma ResetPreserves(c: Counters, tau: real)
    requires Consistent(c, tau)
    ensures Consistent(ResetCounters(c), tau)
  {
  }

  /** With a non-negative step size the episode clock never runs ahead of the
    * cumulative clock. */
  lemma EpisodeTimeBelowCumulative(c: Counters, tau: real)
    requires Consistent(c, tau) && tau >= 0.0
    ensures c.t <= c.tCumulative
  {
    assert (c.kCumulative - c.k) as real * tau >= 0.0;
    assert c.tCumulative - c.t == (c.kCumulative - c.k) as real * tau;
  }

  /** After `n` steps from any reset, the episode counters read `n` and `n * tau`. */
  lemma {:induction false} StepsAfterReset(c: Counters, tau: real, n: nat)
    ensures Steps(ResetCounters(c), tau, n).k == n
    ensures Steps(ResetCounters(c), tau, n).t == n as real * tau
    ensures Steps(ResetCounters(c), tau, n).kCumulative == c.kCumulative + n
  {
    if n > 0 {
      StepsAfterReset(c, tau, n - 1);
      assert n as real * tau == (n - 1) as real * tau + tau;
    }
  }

  /** The counter part of a physical system (core/physical_system.py). The step
    * size `tau` is fixed by the concrete system that owns the counters. */
  class PhysicalSystem {
    var k: nat
    var t: real
    var kCumulative: nat
    var tCumulative: real
    const tau: real

    function Value(): Counters
      reads this
    {
      Counters(k, t, kCumulative, tCumulative)
    }

    ghost predicate Valid()
      reads this
    {
      Consistent(Value(), tau)
    }

    constructor (tau: real)
      ensures Value() == Initial && this.tau == tau && Valid()
    {
      k, t, kCumulative, tCumulative := 0, 0.0, 0, 0.0;
      this.tau := tau;
    }

    /** `unwrapped`: a plain system is its own innermost system. */
    function Unwrapped(): (s: PhysicalSystem)
      ensures s == this
    {
      this
    }

    method Reset()
      requires Valid()
      modifies this
      ensures Value() == ResetCounters(old(Value())) && Valid()
    {
      t := 0.0;
      k := 0;
    }

    method CountStep()
      requires Valid()
      modifies this
      ensures Value() == StepCounted(old(Value()), tau) && Valid()
    {
      CountStepPreserves(Value(), tau);
      k := k + 1;
      kCumulative := kCumulative + 1;
      t := t + tau;
      tCumulative := tCumulative + tau;
    }
  }

  /** The name-to-index table of core.py: the dict comprehension over
    * `enumerate(state_names)`, where a repeated name keeps its last index. */
  function StatePositions(names: seq<string>): (m: map<string, nat>)
    ensures m.Keys == set i | 0 <= i < |names| :: names[i]
    ensures forall n :: n in m ==> m[n] < |names| && names[m[n]] == n
    ensures forall n :: n in m ==> forall j :: m[n] < j < |names| ==> names[j] != n
  {
    if |names| == 0 then map[]
    else
      var last := |names| - 1;
      var m := StatePositions(names[..last]);
      assert forall i :: 0 <= i < last ==> names[..last][i] == names[i];
      m[names[last] := last]
  }

  /** With distinct names the table is the exact inverse of the name list. */
  lemma PositionsOfDistinctNames(names: seq<string>, i: nat)
    requires forall a, b :: 0 <= a < b < |names| ==> names[a] != names[b]
    requires i < |names|
    ensures names[i] in StatePositions(names) && StatePositions(names)[names[i]] == i
  {
    var m := StatePositions(names);
    assert names[i] in m.Keys;
    var p := m[names[i]];
    assert names[p] == names[i];
  }

  /** The older physical-system base of core.py. Its constructor sets only the
    * step counter; the episode time and the cumulative counters it never sets
    * are `None` here, so `_count_step` fails on them. */
  class LegacyPhysicalSystem {
    const stateNames: seq<string>
    const statePositions: map<string, nat>
    const tau: real
    var k: int
    var t: Option<real>
    var kCumulative: Option<int>
    var tCumulative: Option<real>

    constructor (stateNames: seq<string>, tau: real)
      ensures this.stateNames == stateNames && this.tau == tau
      ensures statePositions == StatePositions(stateNames)
      ensures k == 0 && t == None && kCumulative == None && tCumulative == None
    {
      this.stateNames := stateNames;
      statePositions := StatePositions(stateNames);
      this.tau := tau;
      k := 0;
      t, kCumulative, tCumulative := None, None, None;
    }

    /** `_count_step` as written: the increments of the unset attributes raise,
      * after `_k` has already been incremented. */
    method CountStep() returns (ok: bool)
      modifies this
      ensures k == old(k) + 1
      ensures ok <==> old(kCumulative).Some? && old(t).Some? && old(tCumulative).Some?
      ensures ok ==> (kCumulative == Some(old(kCumulative).value + 1)
                      && t == Some(old(t).value + tau)
                      && tCumulative == Some(old(tCumulative).value + tau))
      ensures !ok ==> kCumulative == old(kCumulative) && t == old(t) && tCumulative == old(tCumulative)
    {
      k := k + 1;
      if kCumulative.None? || t.None? || tCumulative.None? {
        return false;
      }
      kCumulative := Some(kCumulative.value + 1);
      t := Some(t.value + tau);
      tCumulative := Some(tCumulative.value + tau);
      ok := true;
    }
  }

  /** A freshly built legacy system cannot count a step. */
  method LegacyCountStepFailsAfterConstruction(names: seq<string>, tau: real) returns (ok: bool)
    ensures !ok
  {
    var ps := new LegacyPhysicalSystem(names, tau);
    ok := ps.CountStep();
  }
}
