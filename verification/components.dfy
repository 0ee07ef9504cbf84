/**
 * What every SCML component reports about its observed quantities
 * (physical_systems/scml_component.py): names, units, TeX variants, limits
 * and nominal values, each defaulting to nothing.
 */
module Components {
  import opened Common

  /** The observation description of one component. A component that does not
    * override the TeX names or units has `None` there. */
  datatype ComponentInfo = ComponentInfo(
    observationNames: seq<string>,
    observationUnits: seq<string>,
    texNames: Option<seq<string>>,
    texUnits: Option<seq<string>>,
    limits: seq<real>,
    nominalState: seq<real>)

  /** A component that overrides nothing. */
  const DefaultComponent := ComponentInfo([], [], None, None, [], [])

  /** `observation_tex_names`: the plain names unless overridden. */
  function ObservationTexNames(c: ComponentInfo): (r: seq<string>)
    ensures c.texNames.None? ==> r == c.observationNames
    ensures c.texNames.Some? ==> r == c.texNames.value
  {
    if c.texNames.Some? then c.texNames.value else c.observationNames
  }

  /** `observation_tex_units`: the plain units unless overridden. */
  function ObservationTexUnits(c: ComponentInfo): (r: seq<string>)
    ensures c.texUnits.None? ==> r == c.observationUnits
    ensures c.texUnits.Some? ==> r == c.texUnits.value
  {
    if c.texUnits.Some? then c.texUnits.value else c.observationUnits
  }

  /** `get_observation` of a component that does not override it. */
  function DefaultObservation(state: seq<real>): (r: seq<real>)
    ensures |r| == 0
  {
    []
  }

  function NamesOf(cs: seq<ComponentInfo>): (r: seq<seq<string>>)
    ensures |r| == |cs| && forall i :: 0 <= i < |cs| ==> r[i] == cs[i].observationNames
  {
    seq(|cs|, i requires 0 <= i < |cs| => cs[i].observationNames)
  }

  function LimitsOf(cs: seq<ComponentInfo>): (r: seq<seq<real>>)
    ensures |r| == |cs| && forall i :: 0 <= i < |cs| ==> r[i] == cs[i].limits
  {
    seq(|cs|, i requires 0 <= i < |cs| => cs[i].limits)
  }

  function NominalsOf(cs: seq<ComponentInfo>): (r: seq<seq<real>>)
    ensures |r| == |cs| && forall i :: 0 <= i < |cs| ==> r[i] == cs[i].nominalState
  {
    seq(|cs|, i requires 0 <= i < |cs| => cs[i].nominalState)
  }

  /** An empty block leaves a concatenation as it is, wherever it sits. */
  lemma {:induction false} FlattenSkipsEmpty<T>(ss: seq<seq<T>>, k: nat)
    requires k <= |ss|
    ensures Flatten(ss[..k] + [[]] + ss[k..]) == Flatten(ss)
  {
    if k == |ss| {
      assert ss[..k] + [[]] + ss[k..] == ss + [[]];
      assert (ss + [[]])[..|ss|] == ss;
    } else {
      var n := |ss| - 1;
      var t := ss[..k] + [[]] + ss[k..];
      assert t[..|t| - 1] == ss[..n][..k] + [[]] + ss[..n][k..];
      assert t[|t| - 1] == ss[n];
      FlattenSkipsEmpty(ss[..n], k);
      assert ss[..n] + [ss[n]] == ss;
    }
  }

  /** A default component contributes nothing to the concatenated names,
    * limits and nominal values of a system. */
  lemma DefaultContributesNothing(cs: seq<ComponentInfo>, k: nat)
    requires k <= |cs|
    ensures var ds := cs[..k] + [DefaultComponent] + cs[k..];
            Flatten(NamesOf(ds)) == Flatten(NamesOf(cs))
            && Flatten(LimitsOf(ds)) == Flatten(LimitsOf(cs))
            && Flatten(NominalsOf(ds)) == Flatten(NominalsOf(cs))
  {
    var ds := cs[..k] + [DefaultComponent] + cs[k..];
    assert NamesOf(ds) == NamesOf(cs)[..k] + [[]] + NamesOf(cs)[k..];
    assert LimitsOf(ds) == LimitsOf(cs)[..k] + [[]] + LimitsOf(cs)[k..];
    assert NominalsOf(ds) == NominalsOf(cs)[..k] + [[]] + NominalsOf(cs)[k..];
    FlattenSkipsEmpty(NamesOf(cs), k);
    FlattenSkipsEmpty(LimitsOf(cs), k);
    FlattenSkipsEmpty(NominalsOf(cs), k);
  }
}
