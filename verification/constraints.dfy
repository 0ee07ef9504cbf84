/**
 * Constraint monitoring: the limit and squared constraints (constraints/) and
 * the constraint monitor that merges their violation degrees
 * (core/constraint_monitor.py and its duplicate in core.py).
 */
module Constraints {
  import opened Common

  /** What a constraint learns from the physical system in `set_modules`. */
  datatype SystemInfo = SystemInfo(
    stateNames: seq<string>,
    statePositions: map<string, nat>,
    limits: seq<real>,
    stateSpaceHigh: seq<real>)
  {
    predicate WellFormed()
    {
      |limits| == |stateNames| && |stateSpaceHigh| == |stateNames|
      && forall n :: n in statePositions ==> statePositions[n] < |stateNames|
    }
  }

  // ------------------------------------------------------ limit constraint

  /** The states a limit constraint observes: `None`, or a list of names in
    * which the entry "all_states" stands for every state. */
  datatype ObservedNames = NoNames | Names(names: seq<string>)

  const AllStates: string := "all_states"

  /** The names after `set_modules`: "all_states" expands to every state name of
    * the system and `None` observes nothing. */
  function ConfiguredNames(observed: ObservedNames, stateNames: seq<string>): (r: ObservedNames)
    ensures r.Names?
    ensures observed.NoNames? ==> r.names == []
    ensures observed.Names? && AllStates in observed.names ==> r.names == stateNames
    ensures observed.Names? && AllStates !in observed.names ==> r == observed
  {
    match observed
    case NoNames => Names([])
    case Names(ns) => if AllStates in ns then Names(stateNames) else observed
  }

  /** `set_modules` as written checks `'all_states' in names` before it checks for
    * `None`, so a constraint built with `None` raises a TypeError there. */
  function ConfiguredNamesAsWritten(observed: ObservedNames, stateNames: seq<string>): (r: Result<ObservedNames>)
    ensures r.Err? <==> observed.NoNames?
    ensures r.Ok? ==> r.value == ConfiguredNames(observed, stateNames)
  {
    match observed
    case NoNames => Err("TypeError: argument of type 'NoneType' is not iterable")
    case Names(ns) => Ok(if AllStates in ns then Names(stateNames) else observed)
  }

  /** A constraint built with `None` cannot be configured as written, while the
    * intended reading observes nothing. */
  lemma NoneObservedAsWrittenFails(stateNames: seq<string>)
    ensures ConfiguredNamesAsWritten(NoNames, stateNames).Err?
    ensures ConfiguredNames(NoNames, stateNames) == Names([])
  {
  }

  /** The boolean mask over the system's state names. */
  function Mask(observed: ObservedNames, stateNames: seq<string>): (m: seq<bool>)
    ensures |m| == |stateNames|
    ensures forall i :: 0 <= i < |m| ==> (m[i] <==> observed.Names? && stateNames[i] in observed.names)
  {
    seq(|stateNames|, i requires 0 <= i < |stateNames| => observed.Names? && stateNames[i] in observed.names)
  }

  /** Python's `any(abs(state[mask]) > 1.0)`. */
  function AnyAboveOne(mask: seq<bool>, state: seq<real>): (b: bool)
    requires |mask| == |state|
    ensures b <==> exists i :: 0 <= i < |state| && mask[i] && Abs(state[i]) > 1.0
  {
    if |state| == 0 then false
    else
      var n := |state| - 1;
      var rest := AnyAboveOne(mask[..n], state[..n]);
      assert forall i :: 0 <= i < n ==> mask[..n][i] == mask[i] && state[..n][i] == state[i];
      rest || (mask[n] && Abs(state[n]) > 1.0)
  }

  /** The limit constraint's violation degree: a hard 0/1 flag. */
  function LimitDegree(mask: seq<bool>, state: seq<real>): (r: real)
    requires |mask| == |state|
    ensures r == 0.0 || r == 1.0
    ensures r == 1.0 <==> exists i :: 0 <= i < |state| && mask[i] && Abs(state[i]) > 1.0
  {
    if AnyAboveOne(mask, state) then 1.0 else 0.0
  }

  /** Observing "all_states" flags any normalised state outside [-1, 1]. */
  lemma AllStatesObservesEveryState(stateNames: seq<string>, state: seq<real>, i: nat)
    requires |state| == |stateNames| && i < |state| && Abs(state[i]) > 1.0
    ensures LimitDegree(Mask(ConfiguredNames(Names([AllStates]), stateNames), stateNames), state) == 1.0
  {
    assert stateNames[i] in stateNames;
  }

  /** Observing nothing never flags a violation. */
  lemma NothingObservedNeverViolates(stateNames: seq<string>, state: seq<real>)
    requires |state| == |stateNames|
    ensures LimitDegree(Mask(ConfiguredNames(NoNames, stateNames), stateNames), state) == 0.0
  {
  }

  class LimitConstraint {
    var observedStateNames: ObservedNames
    var limits: seq<real>
    var observedStates: seq<bool>

    constructor (observedStateNames: ObservedNames)
      ensures this.observedStateNames == observedStateNames
      ensures limits == [] && observedStates == []
    {
      this.observedStateNames := observedStateNames;
      limits := [];
      observedStates := [];
    }

    /** Configured for a system: the mask is aligned with its state names. */
    predicate ConfiguredFor(ps: SystemInfo)
      reads this
    {
      observedStateNames.Names? && limits == ps.limits
      && observedStates == Mask(observedStateNames, ps.stateNames)
    }

    method SetModules(ps: SystemInfo)
      modifies this
      ensures observedStateNames == ConfiguredNames(old(observedStateNames), ps.stateNames)
      ensures ConfiguredFor(ps)
    {
      limits := ps.limits;
      observedStateNames := ConfiguredNames(observedStateNames, ps.stateNames);
      observedStates := Mask(observedStateNames, ps.stateNames);
    }

    function Call(state: seq<real>): (r: real)
      reads this
      requires |state| == |observedStates|
      ensures r == 0.0 || r == 1.0
      ensures r == 1.0 <==> exists i :: 0 <= i < |state| && observedStates[i] && Abs(state[i]) > 1.0
    {
      LimitDegree(observedStates, state)
    }
  }

  // ----------------------------------------------------- squared constraint

  /** The sum of the squares: never negative, and no smaller than any single
    * square. */
  function SumOfSquares(s: seq<real>): (r: real)
    ensures r >= 0.0
    ensures forall i :: 0 <= i < |s| ==> r >= s[i] * s[i]
  {
    if |s| == 0 then 0.0 else SumOfSquares(s[..|s| - 1]) + s[|s| - 1] * s[|s| - 1]
  }

  /** `xs[indices]` on a numpy array, or the list comprehension over it. */
  function Pick<T>(xs: seq<T>, indices: seq<nat>): (r: seq<T>)
    requires forall i :: 0 <= i < |indices| ==> indices[i] < |xs|
    ensures |r| == |indices| && forall i :: 0 <= i < |indices| ==> r[i] == xs[indices[i]]
  {
    seq(|indices|, i requires 0 <= i < |indices| => xs[indices[i]])
  }

  /** What `set_modules` stores: indices in the order the names were given, the
    * limits at those indices, and whether the state space is already normalised
    * (its upper bounds are not the limits). A name the system does not know is a
    * KeyError. */
  datatype SquaredSetup = SquaredSetup(indices: seq<nat>, limits: seq<real>, normalized: bool)

  function SquaredSetupFor(states: seq<string>, ps: SystemInfo): (r: Result<SquaredSetup>)
    requires ps.WellFormed()
    ensures r.Ok? <==> forall i :: 0 <= i < |states| ==> states[i] in ps.statePositions
    ensures r.Ok? ==> |r.value.indices| == |states| && |r.value.limits| == |states|
    ensures r.Ok? ==> forall i :: 0 <= i < |states| ==>
              r.value.indices[i] == ps.statePositions[states[i]]
              && r.value.limits[i] == ps.limits[ps.statePositions[states[i]]]
    ensures r.Ok? ==> (r.value.normalized <==>
              exists i :: 0 <= i < |states| && ps.stateSpaceHigh[r.value.indices[i]] != r.value.limits[i])
  {
    if forall i :: 0 <= i < |states| ==> states[i] in ps.statePositions then
      var idx := seq(|states|, i requires 0 <= i < |states| && states[i] in ps.statePositions => ps.statePositions[states[i]]);
      var lim := Pick(ps.limits, idx);
      var high := Pick(ps.stateSpaceHigh, idx);
      Ok(SquaredSetup(idx, lim, high != lim))
    else
      Err("KeyError: unknown state name")
  }

  /** The observed states as the squared constraint sees them: taken as they
    * are in a normalised space, otherwise divided by their limits. */
  function ScaledObserved(setup: SquaredSetup, state: seq<real>): (r: seq<real>)
    requires forall i :: 0 <= i < |setup.indices| ==> setup.indices[i] < |state|
    requires !setup.normalized ==> |setup.limits| == |setup.indices|
                                   && forall i :: 0 <= i < |setup.limits| ==> setup.limits[i] != 0.0
    ensures |r| == |setup.indices|
    ensures setup.normalized ==> forall i :: 0 <= i < |r| ==> r[i] == state[setup.indices[i]]
    ensures !setup.normalized ==> forall i :: 0 <= i < |r| ==> r[i] * setup.limits[i] == state[setup.indices[i]]
  {
    var observed := Pick(state, setup.indices);
    if setup.normalized then observed else Divide(observed, setup.limits)
  }

  /** The squared constraint's violation degree: 1.0 iff the squares of the
    * (normalised) observed states sum to more than one. */
  function SquaredDegree(setup: SquaredSetup, state: seq<real>): (r: real)
    requires forall i :: 0 <= i < |setup.indices| ==> setup.indices[i] < |state|
    requires !setup.normalized ==> |setup.limits| == |setup.indices|
                                   && forall i :: 0 <= i < |setup.limits| ==> setup.limits[i] != 0.0
    ensures r == 0.0 || r == 1.0
    ensures r == 1.0 <==> SumOfSquares(ScaledObserved(setup, state)) > 1.0
    ensures setup.indices == [] ==> r == 0.0
  {
    if SumOfSquares(ScaledObserved(setup, state)) > 1.0 then 1.0 else 0.0
  }

  /** A single observed state outside [-1, 1], after scaling, is enough to
    * violate the squared constraint. */
  lemma SquaredTripsOnOneOutside(setup: SquaredSetup, state: seq<real>, k: nat)
    requires forall i :: 0 <= i < |setup.indices| ==> setup.indices[i] < |state|
    requires !setup.normalized ==> |setup.limits| == |setup.indices|
                                   && forall i :: 0 <= i < |setup.limits| ==> setup.limits[i] != 0.0
    requires k < |setup.indices| && Abs(ScaledObserved(setup, state)[k]) > 1.0
    ensures SquaredDegree(setup, state) == 1.0
  {
    var x := ScaledObserved(setup, state)[k];
    assert x * x > 1.0 by {
      if x > 1.0 { assert x * x > x; } else { assert x < -1.0; assert x * x > -x; }
    }
  }

  /** Inside the unit ball nothing is violated: with every scaled state zero
    * the degree is 0. */
  lemma SquaredQuietAtZero(setup: SquaredSetup, state: seq<real>)
    requires forall i :: 0 <= i < |setup.indices| ==> setup.indices[i] < |state|
    requires !setup.normalized ==> |setup.limits| == |setup.indices|
                                   && forall i :: 0 <= i < |setup.limits| ==> setup.limits[i] != 0.0
    requires forall i :: 0 <= i < |setup.indices| ==> state[setup.indices[i]] == 0.0
    ensures SquaredDegree(setup, state) == 0.0
  {
    var scaled := ScaledObserved(setup, state);
    ZeroSumOfSquares(scaled);
  }

  lemma {:induction false} ZeroSumOfSquares(s: seq<real>)
    requires forall i :: 0 <= i < |s| ==> s[i] == 0.0
    ensures SumOfSquares(s) == 0.0
  {
    if |s| > 0 {
      ZeroSumOfSquares(s[..|s| - 1]);
    }
  }

  /** On a single observed state in a normalised state space the squared
    * constraint and the limit constraint agree. */
  lemma SingleSquaredIsLimit(setup: SquaredSetup, state: seq<real>, j: nat)
    requires setup.normalized && setup.indices == [j] && j < |state|
    ensures SquaredDegree(setup, state) ==
            LimitDegree(seq(|state|, i requires 0 <= i < |state| => i == j), state)
  {
    var s := state[j];
    assert SumOfSquares([s]) == s * s by {
      assert [s][..0] == [];
    }
    assert Pick(state, [j]) == [s];
    if Abs(s) > 1.0 {
      assert s * s > 1.0 by {
        if s > 1.0 { assert s * s > s; } else { assert s < -1.0; assert s * s > -s; }
      }
    } else {
      assert s * s <= 1.0 by {
        if s >= 0.0 { assert s * s <= s; } else { assert s * s <= -s; }
      }
    }
  }

  /** Dividing by the limits in an unnormalised space gives the same verdict as
    * a normalised space holding the already divided states. */
  lemma SquaredNormalisationAgrees(setup: SquaredSetup, state: seq<real>)
    requires !setup.normalized
    requires forall i :: 0 <= i < |setup.indices| ==> setup.indices[i] < |state|
    requires |setup.limits| == |setup.indices|
    requires forall i :: 0 <= i < |setup.limits| ==> setup.limits[i] != 0.0
    ensures SquaredDegree(setup, state) ==
            SquaredDegree(SquaredSetup(seq(|setup.indices|, i => i), [], true),
                          Divide(Pick(state, setup.indices), setup.limits))
  {
    var n := |setup.indices|;
    var scaled := Divide(Pick(state, setup.indices), setup.limits);
    assert Pick(scaled, seq(n, i => i)) == scaled;
  }

  class SquaredConstraint {
    const states: seq<string>
    var setup: SquaredSetup

    constructor (states: seq<string>)
      ensures this.states == states && setup == SquaredSetup([], [], false)
    {
      this.states := states;
      setup := SquaredSetup([], [], false);
    }

    predicate ConfiguredFor(ps: SystemInfo)
      reads this
    {
      ps.WellFormed() && SquaredSetupFor(states, ps) == Ok(setup)
    }

    /** `set_modules`; `ok` is false where the source raises a KeyError, and
      * then nothing has been stored. */
    method SetModules(ps: SystemInfo) returns (ok: bool)
      requires ps.WellFormed()
      modifies this
      ensures ok <==> SquaredSetupFor(states, ps).Ok?
      ensures ok ==> ConfiguredFor(ps)
      ensures !ok ==> setup == old(setup)
    {
      var r := SquaredSetupFor(states, ps);
      if r.Ok? {
        setup := r.value;
      }
      ok := r.Ok?;
    }

    /** Ready to evaluate states of length `n`. */
    predicate ReadyFor(n: nat)
      reads this
    {
      (forall i :: 0 <= i < |setup.indices| ==> setup.indices[i] < n)
      && (!setup.normalized ==> |setup.limits| == |setup.indices|
                                && forall i :: 0 <= i < |setup.limits| ==> setup.limits[i] != 0.0)
    }

    function Call(state: seq<real>): (r: real)
      reads this
      requires ReadyFor(|state|)
      ensures r == 0.0 || r == 1.0
      ensures r == 1.0 <==> SumOfSquares(ScaledObserved(setup, state)) > 1.0
      ensures setup.indices == [] ==> r == 0.0
    {
      SquaredDegree(setup, state)
    }
  }

  // ------------------------------------------------------- merging degrees

  /** The maximum of a non-empty list, as Python's `max`. */
  function MaxOf(vs: seq<real>): (m: real)
    requires |vs| > 0
    ensures m in vs && forall i :: 0 <= i < |vs| ==> vs[i] <= m
  {
    if |vs| == 1 then vs[0]
    else
      var n := |vs| - 1;
      var m := MaxOf(vs[..n]);
      assert forall i :: 0 <= i < n ==> vs[..n][i] == vs[i];
      assert m in vs by { assert m in vs[..n]; }
      Max(m, vs[n])
  }

  /** `1 - prod(1 - v)` over the degrees: no degrees merge to 0, and a
    * single degree is kept as it is. */
  function ProductMerge(vs: seq<real>): (r: real)
    ensures |vs| == 0 ==> r == 0.0
    ensures |vs| == 1 ==> r == vs[0]
  {
    var fs := seq(|vs|, i requires 0 <= i < |vs| => 1.0 - vs[i]);
    assert |vs| == 1 ==> fs[..0] == [] && Product(fs) == 1.0 * fs[0];
    1.0 - Product(fs)
  }

  predicate AllDegrees(vs: seq<real>)
  {
    forall i :: 0 <= i < |vs| ==> 0.0 <= vs[i] <= 1.0
  }

  predicate AllHard(vs: seq<real>)
  {
    forall i :: 0 <= i < |vs| ==> vs[i] == 0.0 || vs[i] == 1.0
  }

  lemma UnitProduct(q: real, f: real, m: real)
    requires 0.0 <= q <= 1.0 && 0.0 <= f <= 1.0 && m == q * f
    ensures 0.0 <= m <= q && m <= f
    ensures m == 0.0 <==> q == 0.0 || f == 0.0
  {
    assert q * f <= q * 1.0;
    assert q * f <= 1.0 * f;
  }

  lemma {:induction false} ProductOfUnitFactors(fs: seq<real>)
    requires forall i :: 0 <= i < |fs| ==> 0.0 <= fs[i] <= 1.0
    ensures 0.0 <= Product(fs) <= 1.0
    ensures forall i :: 0 <= i < |fs| ==> Product(fs) <= fs[i]
    ensures Product(fs) == 0.0 <==> exists i :: 0 <= i < |fs| && fs[i] == 0.0
  {
    if |fs| > 0 {
      var n := |fs| - 1;
      var p := fs[..n];
      assert forall i :: 0 <= i < n ==> p[i] == fs[i];
      ProductOfUnitFactors(p);
      var q := Product(p);
      var f := fs[n];
      var pr := Product(fs);
      UnitProduct(q, f, pr);
      forall i | 0 <= i < |fs| ensures pr <= fs[i] {
        if i < n {
          assert q <= p[i];
          assert p[i] == fs[i];
        } else {
          assert fs[i] == f;
        }
      }
      if q == 0.0 {
        var i :| 0 <= i < n && p[i] == 0.0;
        assert fs[i] == 0.0;
      }
    }
  }

  /** The product merge of degrees in [0, 1] is a degree in [0, 1], dominates
    * every single degree, and reaches 1 exactly when some degree is 1. */
  lemma ProductMergeIsDegree(vs: seq<real>)
    requires AllDegrees(vs)
    ensures 0.0 <= ProductMerge(vs) <= 1.0
    ensures forall i :: 0 <= i < |vs| ==> vs[i] <= ProductMerge(vs)
    ensures ProductMerge(vs) == 1.0 <==> exists i :: 0 <= i < |vs| && vs[i] == 1.0
  {
    var fs := seq(|vs|, i requires 0 <= i < |vs| => 1.0 - vs[i]);
    ProductOfUnitFactors(fs);
    forall i | 0 <= i < |vs| ensures vs[i] <= ProductMerge(vs) {
      assert Product(fs) <= fs[i];
    }
    if ProductMerge(vs) == 1.0 {
      var i :| 0 <= i < |fs| && fs[i] == 0.0;
      assert vs[i] == 1.0;
    }
    if exists i :: 0 <= i < |vs| && vs[i] == 1.0 {
      var i :| 0 <= i < |vs| && vs[i] == 1.0;
      assert fs[i] == 0.0;
    }
  }

  /** How `merge_violations` was chosen. */
  datatype MergeRule = ZeroMerge | MaxMerge | ProductMergeRule | CustomMerge(merge: seq<real> -> real)

  /** The `merge_violations` argument: a name, or a callable. */
  datatype MergeArgument = MergeByName(name: string) | MergeBy(merge: seq<real> -> real)

  /** The selection of the constructor: an unknown name fails the assertion;
    * without constraints the merge is the constant 0.0. */
  function SelectMerge(constraintCount: nat, arg: MergeArgument): (r: Result<MergeRule>)
    ensures r.Err? <==> arg.MergeByName? && arg.name != "max" && arg.name != "product"
    ensures r.Ok? && constraintCount == 0 ==> r.value == ZeroMerge
    ensures r.Ok? && constraintCount > 0 ==>
              (arg == MergeByName("max") ==> r.value == MaxMerge)
              && (arg == MergeByName("product") ==> r.value == ProductMergeRule)
              && (arg.MergeBy? ==> r.value == CustomMerge(arg.merge))
  {
    if arg.MergeByName? && arg.name != "max" && arg.name != "product" then Err("AssertionError: unknown merge")
    else if constraintCount == 0 then Ok(ZeroMerge)
    else if arg == MergeByName("max") then Ok(MaxMerge)
    else if arg == MergeByName("product") then Ok(ProductMergeRule)
    else Ok(CustomMerge(arg.merge))
  }

  /** `self._merge_violations(violations)` for the chosen rule: the constant
    * 0.0, the largest degree, a degree in [0, 1] at least as large as each
    * one, or the user's function. */
  function Merge(rule: MergeRule, vs: seq<real>): (r: real)
    requires rule.MaxMerge? ==> |vs| > 0
    ensures rule.ZeroMerge? ==> r == 0.0
    ensures rule.MaxMerge? ==> r in vs && forall i :: 0 <= i < |vs| ==> vs[i] <= r
    ensures rule.ProductMergeRule? && AllDegrees(vs) ==>
              0.0 <= r <= 1.0 && forall i :: 0 <= i < |vs| ==> vs[i] <= r
    ensures rule.CustomMerge? ==> r == rule.merge(vs)
  {
    match rule
    case ZeroMerge => 0.0
    case MaxMerge => MaxOf(vs)
    case ProductMergeRule =>
      if AllDegrees(vs) then ProductMergeIsDegree(vs); ProductMerge(vs) else ProductMerge(vs)
    case CustomMerge(f) => f(vs)
  }

  /** With hard (0/1) constraints, both built-in merges reach 1.0 exactly when
    * some constraint is violated, so the episode ends on any violation. */
  lemma HardMergeMeansSomeViolation(rule: MergeRule, vs: seq<real>)
    requires rule == MaxMerge || rule == ProductMergeRule
    requires |vs| > 0 && AllHard(vs)
    ensures Merge(rule, vs) >= 1.0 <==> exists i :: 0 <= i < |vs| && vs[i] == 1.0
  {
    assert AllDegrees(vs);
    ProductMergeIsDegree(vs);
  }

  // --------------------------------------------------- the monitor itself

  /** A monitored constraint: one of the two configurable constraint classes,
    * or a plain callable on the state. */
  datatype Constraint =
    | Limit(lc: LimitConstraint)
    | Squared(sc: SquaredConstraint)
    | Callable(f: seq<real> -> real)

  /** An entry of `additional_constraints`, which must be callable. */
  datatype ConstraintArgument = Given(c: Constraint) | NotCallable

  function ObjectsOf(cs: seq<Constraint>): set<object>
  {
    (set i | 0 <= i < |cs| && cs[i].Limit? :: cs[i].lc as object)
    + (set i | 0 <= i < |cs| && cs[i].Squared? :: cs[i].sc as object)
  }

  /** Every configurable constraint can evaluate states of length `n`. */
  predicate ReadyFor(cs: seq<Constraint>, n: nat)
    reads ObjectsOf(cs)
  {
    forall i :: 0 <= i < |cs| ==>
      (cs[i].Limit? ==> |cs[i].lc.observedStates| == n)
      && (cs[i].Squared? ==> cs[i].sc.ReadyFor(n))
  }

  /** A prefix of a ready list is ready, and its objects are among the list's. */
  lemma PrefixReady(cs: seq<Constraint>, n: nat, len: nat)
    requires n <= |cs| && ReadyFor(cs, len)
    ensures ObjectsOf(cs[..n]) <= ObjectsOf(cs) && ReadyFor(cs[..n], len)
  {
    assert forall i :: 0 <= i < n ==> cs[..n][i] == cs[i];
  }

  /** The object a configurable constraint lives in. */
  function ObjectOf(c: Constraint): set<object>
  {
    if c.Limit? then {c.lc} else if c.Squared? then {c.sc} else {}
  }

  /** `constraint(state)` for one constraint: the two configurable
    * constraints answer 0 or 1, a plain callable answers what it returns. */
  function Degree(c: Constraint, state: seq<real>): (r: real)
    reads if c.Limit? then {c.lc as object} else if c.Squared? then {c.sc as object} else {}
    requires c.Limit? ==> |c.lc.observedStates| == |state|
    requires c.Squared? ==> c.sc.ReadyFor(|state|)
    ensures !c.Callable? ==> r == 0.0 || r == 1.0
    ensures c.Limit? ==> (r == 1.0 <==> exists i :: 0 <= i < |state| && c.lc.observedStates[i] && Abs(state[i]) > 1.0)
    ensures c.Callable? ==> r == c.f(state)
  {
    match c
    case Limit(lc) => lc.Call(state)
    case Squared(sc) => sc.Call(state)
    case Callable(f) => f(state)
  }

  /** `[constraint(state) for constraint in constraints]`. */
  function Degrees(cs: seq<Constraint>, state: seq<real>): (vs: seq<real>)
    reads ObjectsOf(cs)
    requires ReadyFor(cs, |state|)
    ensures |vs| == |cs|
    ensures forall i :: 0 <= i < |cs| ==> ObjectOf(cs[i]) <= ObjectsOf(cs) && vs[i] == Degree(cs[i], state)
  {
    if |cs| == 0 then []
    else
      var n := |cs| - 1;
      PrefixReady(cs, n, |state|);
      assert ObjectOf(cs[n]) <= ObjectsOf(cs);
      Degrees(cs[..n], state) + [Degree(cs[n], state)]
  }

  /** Every squared constraint names only states the system knows, which is
    * what configuring the whole list needs. */
  predicate AllKnown(cs: seq<Constraint>, ps: SystemInfo)
    requires ps.WellFormed()
  {
    forall i :: 0 <= i < |cs| && cs[i].Squared? ==> SquaredSetupFor(cs[i].sc.states, ps).Ok?
  }

  /** Once configured for a system without zero limits, every constraint can
    * evaluate that system's states. */
  lemma ConfiguredConstraintsAreReady(cs: seq<Constraint>, ps: SystemInfo)
    requires ps.WellFormed()
    requires forall i :: 0 <= i < |ps.limits| ==> ps.limits[i] != 0.0
    requires forall i :: 0 <= i < |cs| ==>
               (cs[i].Limit? ==> cs[i].lc.ConfiguredFor(ps))
               && (cs[i].Squared? ==> cs[i].sc.ConfiguredFor(ps))
    ensures ReadyFor(cs, |ps.stateNames|)
  {
    forall i | 0 <= i < |cs| && cs[i].Squared?
      ensures cs[i].sc.ReadyFor(|ps.stateNames|)
    {
      var sc := cs[i].sc;
      var setup := sc.setup;
      assert SquaredSetupFor(sc.states, ps) == Ok(setup);
      forall j | 0 <= j < |setup.indices| ensures setup.indices[j] < |ps.stateNames| {
        assert sc.states[j] in ps.statePositions;
      }
      forall j | 0 <= j < |setup.limits| ensures setup.limits[j] != 0.0 {
        assert setup.limits[j] == ps.limits[ps.statePositions[sc.states[j]]];
      }
    }
  }

  class ConstraintMonitor {
    const constraints: seq<Constraint>
    const mergeRule: MergeRule

    ghost predicate Valid()
    {
      (constraints == [] <==> mergeRule == ZeroMerge)
    }

    constructor (constraints: seq<Constraint>, mergeRule: MergeRule)
      requires constraints == [] <==> mergeRule == ZeroMerge
      ensures this.constraints == constraints && this.mergeRule == mergeRule && Valid()
    {
      this.constraints := constraints;
      this.mergeRule := mergeRule;
    }

    /** `set_modules`: every configurable constraint is configured for the
      * system, in list order; a KeyError of a squared constraint stops it. */
    method SetModules(ps: SystemInfo) returns (ok: bool)
      requires ps.WellFormed()
      modifies ObjectsOf(constraints)
      ensures ok <==> AllKnown(constraints, ps)
      ensures ok ==> forall i :: 0 <= i < |constraints| ==>
                (constraints[i].Limit? ==> constraints[i].lc.ConfiguredFor(ps))
                && (constraints[i].Squared? ==> constraints[i].sc.ConfiguredFor(ps))
    {
      var i := 0;
      ok := true;
      while i < |constraints|
        invariant 0 <= i <= |constraints|
        invariant AllKnown(constraints[..i], ps)
        invariant forall j :: 0 <= j < i ==>
                    (constraints[j].Limit? ==> constraints[j].lc.ConfiguredFor(ps))
                    && (constraints[j].Squared? ==> constraints[j].sc.ConfiguredFor(ps))
      {
        assert constraints[..i + 1] == constraints[..i] + [constraints[i]];
        match constraints[i] {
          case Limit(lc) =>
            assert lc in ObjectsOf(constraints);
            lc.SetModules(ps);
          case Squared(sc) =>
            assert sc in ObjectsOf(constraints);
            var done := sc.SetModules(ps);
            if !done {
              assert !AllKnown(constraints, ps) by {
                assert constraints[i].Squared? && constraints[i].sc == sc;
              }
              return false;
            }
          case Callable(_) =>
        }
        i := i + 1;
      }
    }

    /** `check_constraints`: every constraint on the same state, in list order,
      * then the merge. */
    function CheckConstraints(state: seq<real>): (r: real)
      reads this, ObjectsOf(constraints)
      requires Valid() && ReadyFor(constraints, |state|)
      ensures constraints == [] ==> r == 0.0
      ensures r == Merge(mergeRule, Degrees(constraints, state))
    {
      Merge(mergeRule, Degrees(constraints, state))
    }
  }

  /** The `limit_constraints` shortcut appends one limit constraint after all
    * additional constraints. */
  function Assemble(additional: seq<Constraint>, limit: Option<LimitConstraint>): (cs: seq<Constraint>)
    ensures |cs| == |additional| + (if limit.Some? then 1 else 0)
    ensures cs[..|additional|] == additional
    ensures limit.Some? ==> cs[|additional|] == Limit(limit.value)
  {
    if limit.Some? then additional + [Limit(limit.value)] else additional
  }

  predicate AllCallable(args: seq<ConstraintArgument>)
  {
    forall i :: 0 <= i < |args| ==> args[i].Given?
  }

  function Unwrap(args: seq<ConstraintArgument>): (cs: seq<Constraint>)
    requires AllCallable(args)
    ensures |cs| == |args| && forall i :: 0 <= i < |args| ==> cs[i] == args[i].c
  {
    seq(|args|, i requires 0 <= i < |args| && AllCallable(args) => args[i].c)
  }

  /** `ConstraintMonitor.__init__`: the limit shortcut (a non-empty name list,
    * where "all_states" means every state), the additional constraints, the two
    * assertions, and the merge selection. */
  method NewConstraintMonitor(limitConstraints: seq<string>, additional: seq<ConstraintArgument>,
                              mergeViolations: MergeArgument)
    returns (r: Result<ConstraintMonitor>)
    ensures r.Ok? <==> AllCallable(additional) && SelectMerge(0, mergeViolations).Ok?
    ensures r.Ok? ==> r.value.Valid()
    ensures r.Ok? ==> |r.value.constraints| == |additional| + (if |limitConstraints| > 0 then 1 else 0)
    ensures r.Ok? ==> r.value.constraints[..|additional|] == Unwrap(additional)
    ensures r.Ok? && |limitConstraints| > 0 ==>
              r.value.constraints[|additional|].Limit? && fresh(r.value.constraints[|additional|].lc)
              && r.value.constraints[|additional|].lc.observedStateNames == Names(limitConstraints)
    ensures r.Ok? ==> SelectMerge(|r.value.constraints|, mergeViolations) == Ok(r.value.mergeRule)
  {
    if !AllCallable(additional) {
      return Err("AssertionError: constraint is not callable");
    }
    var limit: Option<LimitConstraint> := None;
    if |limitConstraints| > 0 {
      var lc := new LimitConstraint(Names(limitConstraints));
      limit := Some(lc);
    }
    var cs := Assemble(Unwrap(additional), limit);
    var rule := SelectMerge(|cs|, mergeViolations);
    if rule.Err? {
      return Err(rule.error);
    }
    var cm := new ConstraintMonitor(cs, rule.value);
    r := Ok(cm);
  }
}
