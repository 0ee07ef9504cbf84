/**
 * Multi converters (finite_control_set/finite_multi_converter.py and
 * continuous_dynamically_averaged_control_set/continuous_multi_converter.py):
 * several independent sub-converters driven as one. The motor's currents
 * and voltages are cut into contiguous slices, one per sub-converter, and
 * the sub-converters' answers are concatenated, summed or merged.
 *
 * A sub-converter is seen here through what it answers for the step at
 * hand (its output for given currents, its supply current, its switching
 * times for an action); how each kind of converter computes those answers
 * is modelled in its own module.
 */
module MultiConverters {
  import opened Common
  import FiniteConverters

  // ------------------------------------------------------------ slicing

  /** Part `k` of `s` when `s` is cut into consecutive blocks of `dims`. */
  function Block(s: seq<real>, dims: seq<nat>, k: nat): (r: seq<real>)
    requires k < |dims| && Offset(dims, |dims|) <= |s|
    ensures |r| == dims[k]
  {
    OffsetMonotone(dims, k + 1, |dims|);
    s[Offset(dims, k)..Offset(dims, k + 1)]
  }

  /** Where block `k` ends, given where it starts: the next slice cut. */
  method NextBlock(s: seq<real>, dims: seq<nat>, k: nat, low: nat) returns (high: nat)
    requires k < |dims| && Offset(dims, |dims|) <= |s| && low == Offset(dims, k)
    ensures high == Offset(dims, k + 1) && low <= high <= |s|
    ensures s[low..high] == Block(s, dims, k)
  {
    OffsetMonotone(dims, k + 1, |dims|);
    high := low + dims[k];
  }

  function Blocks(s: seq<real>, dims: seq<nat>): (r: seq<seq<real>>)
    requires Offset(dims, |dims|) <= |s|
    ensures |r| == |dims| && forall k :: 0 <= k < |dims| ==> r[k] == Block(s, dims, k)
  {
    seq(|dims|, k requires 0 <= k < |dims| => Block(s, dims, k))
  }

  /** The blocks tile the input: put back together they give the part of
    * `s` that the dimensions cover, without gap or overlap. */
  lemma {:induction false} BlocksReassemble(s: seq<real>, dims: seq<nat>)
    requires Offset(dims, |dims|) <= |s|
    ensures Flatten(Blocks(s, dims)) == s[..Offset(dims, |dims|)]
  {
    if |dims| > 0 {
      var n := |dims| - 1;
      var front := dims[..n];
      OffsetPrefix(dims, front, n);
      OffsetMonotone(dims, n, |dims|);
      BlocksReassemble(s, front);
      var bs := Blocks(s, dims);
      assert bs[..n] == Blocks(s, front) by {
        forall k | 0 <= k < n ensures bs[k] == Blocks(s, front)[k] {
          OffsetPrefix(dims, front, k);
          OffsetPrefix(dims, front, k + 1);
        }
      }
      assert s[..Offset(dims, n)] + s[Offset(dims, n)..Offset(dims, |dims|)] == s[..Offset(dims, |dims|)];
    }
  }

  /** The constructor loop of `FiniteMultiConverter`: slice `k` starts where
    * slice `k - 1` stops, the first starts at 0, and each is as wide as its
    * sub-converter's voltage dimension. */
  method SubConverterSlices(dims: seq<nat>) returns (slices: seq<(nat, nat)>)
    ensures |slices| == |dims|
    ensures forall k :: 0 <= k < |dims| ==> slices[k] == (Offset(dims, k), Offset(dims, k + 1))
  {
    slices := [];
    var start: nat := 0;
    for k := 0 to |dims|
      invariant |slices| == k && start == Offset(dims, k)
      invariant forall j :: 0 <= j < k ==> slices[j] == (Offset(dims, j), Offset(dims, j + 1))
    {
      slices := slices + [(start, start + dims[k])];
      start := slices[k].1;
    }
  }

  /** `Flatten` grows one block at a time. */
  lemma FlattenSnoc<T>(ss: seq<seq<T>>, k: nat)
    requires k < |ss|
    ensures Flatten(ss[..k + 1]) == Flatten(ss[..k]) + ss[k]
  {
    assert ss[..k + 1][..k] == ss[..k];
  }

  /** An element is in a concatenation exactly when it is in one of the
    * concatenated blocks. */
  lemma {:induction false} InFlatten<T>(ss: seq<seq<T>>)
    ensures forall y :: y in Flatten(ss) ==> exists k :: 0 <= k < |ss| && y in ss[k]
    ensures forall y, k :: 0 <= k < |ss| && y in ss[k] ==> y in Flatten(ss)
  {
    if |ss| > 0 {
      var n := |ss| - 1;
      InFlatten(ss[..n]);
      assert Flatten(ss) == Flatten(ss[..n]) + ss[n];
      forall y | y in Flatten(ss) ensures exists k :: 0 <= k < |ss| && y in ss[k] {
        if y !in ss[n] {
          assert y in Flatten(ss[..n]);
          assert exists k :: 0 <= k < |ss[..n]| && y in ss[..n][k];
          var k :| 0 <= k < |ss[..n]| && y in ss[..n][k];
          assert y in ss[k];
        }
      }
      forall y, k | 0 <= k < |ss| && y in ss[k] ensures y in Flatten(ss) {
        if k < n {
          assert y in ss[..n][k];
        }
      }
    }
  }

  lemma SumSnoc(s: seq<real>, k: nat)
    requires k < |s|
    ensures Sum(s[..k + 1]) == Sum(s[..k]) + s[k]
  {
    assert s[..k + 1][..k] == s[..k];
  }

  // ------------------------------------------------- finite multi converter

  /** A finite sub-converter as the multi converter uses it. */
  datatype FiniteSub = FiniteSub(
    voltageDim: nat,
    convert: (real, seq<real>, seq<real>) -> seq<real>,
    iSup: seq<real> -> real,
    setAction: (int, real) -> seq<real>)

  function VoltageDims(subs: seq<FiniteSub>): (r: seq<nat>)
    ensures |r| == |subs| && forall k :: 0 <= k < |subs| ==> r[k] == subs[k].voltageDim
  {
    seq(|subs|, k requires 0 <= k < |subs| => subs[k].voltageDim)
  }

  /** The supply voltages the sub-converters receive: a single supply voltage
    * is repeated for every sub-converter. */
  function BroadcastSupply(uSup: seq<real>, n: nat): (r: seq<real>)
    ensures |uSup| == 1 ==> |r| == n && forall k :: 0 <= k < n ==> r[k] == uSup[0]
    ensures |uSup| != 1 ==> r == uSup
  {
    if |uSup| == 1 then seq(n, _ => uSup[0]) else uSup
  }

  /** `u_sup * len(sub_converters)` as written, on the numpy array the supply
    * hands over: multiplying an array scales its entries and never adds
    * one, so a single supply voltage stays a single, multiplied entry. */
  function BroadcastSupplyAsWritten(uSup: seq<real>, n: nat): (r: seq<real>)
    ensures |r| == |uSup|
    ensures |uSup| == 1 ==> r[0] == uSup[0] * n as real
    ensures |uSup| != 1 ==> r == uSup
  {
    if |uSup| == 1 then [uSup[0] * n as real] else uSup
  }

  // ------------------------------- the sub-converters as written call them

  /** The finite converters a multi converter combines, each with the state
    * its `convert` reads: the 1QC's action, the switching state the 2QC has
    * in force at the time of the call, and that of each of the 4QC's two
    * half bridges. The B6 bridge's `convert` fails before it reads any. */
  datatype FiniteKind = OneQuadrant(action: int) | TwoQuadrant(state: int) | FourQuadrant(s0: int, s1: int) | B6Bridge

  /** Three phases for the B6 bridge, one voltage for the others. */
  function KindDim(kind: FiniteKind): (d: nat)
    ensures d == (if kind.B6Bridge? then 3 else 1)
  {
    if kind.B6Bridge? then 3 else 1
  }

  function KindDims(kinds: seq<FiniteKind>): (r: seq<nat>)
    ensures |r| == |kinds| && forall k :: 0 <= k < |kinds| ==> r[k] == KindDim(kinds[k])
  {
    seq(|kinds|, k requires 0 <= k < |kinds| => KindDim(kinds[k]))
  }

  /** What a sub-converter's `convert` comes back with when its supply is a
    * bare number instead of a list: an exception, a list, or the bare
    * number itself. */
  datatype BareReply = Raised(error: string) | Listed(voltages: seq<real>) | Bare(u: real)

  const ScalarIndexError := "IndexError: invalid index to scalar variable."

  /** `FiniteTwoQuadrantConverter.convert` with a bare supply `u`: where the
    * supply is passed through, `u_sup` is returned as it came in. */
  function TwoQuadrantBare(state: int, i: seq<real>, u: real): (r: BareReply)
    requires |i| == 1
    ensures r.Raised? <==> !(0 <= state < 3)
    ensures r.Bare? <==> 0 <= state < 3 && FiniteConverters.PassesSupply(state, i[0])
    ensures r.Bare? ==> r.u == u
    ensures r.Listed? ==> r.voltages == [0.0]
  {
    if state == 0 then (if i[0] < 0.0 then Bare(u) else Listed([0.0]))
    else if state == 1 then Bare(u)
    else if state == 2 then Listed([0.0])
    else Raised("Exception: Invalid switching state of the converter")
  }

  /** `convert(t, i_out, u)` of each kind of sub-converter with a bare number
    * `u` as its supply, as the multi converter as written calls it. The 1QC
    * indexes `u_sup[0]` in both branches; the 2QC hands the bare number
    * back where it passes the supply; the 4QC indexes each half bridge's
    * reply; the B6 bridge calls its legs as `convert([i], t)`, without a
    * supply, which raises whatever it is given. */
  function BareSupplyReply(kind: FiniteKind, i: seq<real>, u: real): (r: BareReply)
    requires |i| == KindDim(kind)
    ensures kind.OneQuadrant? || kind.B6Bridge? ==> r.Raised?
    ensures r.Listed? ==> r.voltages == [0.0]
    ensures kind.TwoQuadrant? ==> r == TwoQuadrantBare(kind.state, i, u)
    ensures kind.FourQuadrant? ==>
              (r.Listed? <==> TwoQuadrantBare(kind.s0, i, u).Listed? && TwoQuadrantBare(kind.s1, [-i[0]], u).Listed?)
  {
    match kind
    case OneQuadrant(_) => Raised(ScalarIndexError)
    case TwoQuadrant(state) => TwoQuadrantBare(state, i, u)
    case FourQuadrant(s0, s1) =>
      var first := TwoQuadrantBare(s0, i, u);
      if first.Raised? then first
      else if first.Bare? then Raised(ScalarIndexError)
      else
        var second := TwoQuadrantBare(s1, [-i[0]], u);
        if second.Raised? then second
        else if second.Bare? then Raised(ScalarIndexError)
        else Listed([first.voltages[0] - second.voltages[0]])
    case B6Bridge => Raised("TypeError: convert() missing 1 required positional argument: 'u_sup'")
  }

  /** Sub-converter `j` answers its bare supply number with a list. */
  predicate ListsAt(kinds: seq<FiniteKind>, iOut: seq<real>, supplies: seq<real>, j: nat)
    requires j < |kinds| && j < |supplies| && Offset(KindDims(kinds), |kinds|) <= |iOut|
  {
    BareSupplyReply(kinds[j], Block(iOut, KindDims(kinds), j), supplies[j]).Listed?
  }

  /** The replies the `zip` of sub-converters, slices and supply entries
    * collects as written: sub-converter `j` on its slice of the currents and
    * supply entry `j` as a bare number, as many as the shorter list. */
  function BareReplies(kinds: seq<FiniteKind>, iOut: seq<real>, supplies: seq<real>): (r: seq<BareReply>)
    requires Offset(KindDims(kinds), |kinds|) <= |iOut|
    ensures |r| == Min(|kinds| as real, |supplies| as real) as int
    ensures forall j :: 0 <= j < |r| ==>
              r[j] == BareSupplyReply(kinds[j], Block(iOut, KindDims(kinds), j), supplies[j])
              && (r[j].Listed? <==> ListsAt(kinds, iOut, supplies, j))
    ensures forall j :: 0 <= j < |r| && r[j].Listed? ==> r[j].voltages == [0.0]
  {
    var n := if |kinds| < |supplies| then |kinds| else |supplies|;
    seq(n, j requires 0 <= j < n => BareSupplyReply(kinds[j], Block(iOut, KindDims(kinds), j), supplies[j]))
  }

  /** The loop of `FiniteMultiConverter.convert` as written, from reply `k`
    * on: `u_in +=` each reply in turn, which passes an exception on and
    * raises TypeError on a bare number. */
  function BareOutputs(replies: seq<BareReply>, k: nat): (r: Result<seq<real>>)
    requires k <= |replies|
    requires forall j :: 0 <= j < |replies| && replies[j].Listed? ==> replies[j].voltages == [0.0]
    ensures r.Ok? <==> forall j :: k <= j < |replies| ==> replies[j].Listed?
    ensures r.Ok? ==> |r.value| == |replies| - k && forall j :: 0 <= j < |r.value| ==> r.value[j] == 0.0
    ensures r.Err? ==> exists j :: k <= j < |replies| && !replies[j].Listed?
                                   && r.error == (if replies[j].Raised? then replies[j].error
                                                  else "TypeError: 'numpy.float64' object is not iterable")
    decreases |replies| - k
  {
    if k == |replies| then Ok([])
    else if replies[k].Raised? then Err(replies[k].error)
    else if replies[k].Bare? then Err("TypeError: 'numpy.float64' object is not iterable")
    else
      var rest := BareOutputs(replies, k + 1);
      if rest.Err? then rest else Ok(replies[k].voltages + rest.value)
  }

  /** `FiniteMultiConverter.convert` as written: the supply after
    * `u_sup * len(...)` is zipped with the sub-converters, each gets its
    * entry as a bare number, and the call succeeds only when every
    * sub-converter it reaches answers with a list; the list is then always
    * `[0.0]`, so as written the supply voltage never reaches the motor. */
  function FiniteMultiConvertAsWritten(kinds: seq<FiniteKind>, iOut: seq<real>, uSup: seq<real>): (r: Result<seq<real>>)
    requires Offset(KindDims(kinds), |kinds|) <= |iOut|
    ensures var supplies := BroadcastSupplyAsWritten(uSup, |kinds|);
            r.Ok? <==> forall k :: 0 <= k < |kinds| && k < |supplies| ==> ListsAt(kinds, iOut, supplies, k)
    ensures r.Ok? ==> forall j :: 0 <= j < |r.value| ==> r.value[j] == 0.0
  {
    BareOutputs(BareReplies(kinds, iOut, BroadcastSupplyAsWritten(uSup, |kinds|)), 0)
  }

  /** As written, a single supply voltage reaches only the first
    * sub-converter, multiplied by their number and as a bare number: the
    * call succeeds exactly when that one sub-converter answers with a list,
    * and then outputs its single zero. */
  lemma {:induction false} MultiSupplyAsWrittenDrivesFirstOnly(kinds: seq<FiniteKind>, iOut: seq<real>, u: real)
    requires |kinds| >= 1 && Offset(KindDims(kinds), |kinds|) <= |iOut|
    ensures var reply := BareSupplyReply(kinds[0], Block(iOut, KindDims(kinds), 0), u * |kinds| as real);
            var r := FiniteMultiConvertAsWritten(kinds, iOut, [u]);
            (r.Ok? <==> reply.Listed?) && (r.Ok? ==> r.value == [0.0])
  {
    var supplies := BroadcastSupplyAsWritten([u], |kinds|);
    assert |supplies| == 1 && supplies[0] == u * |kinds| as real;
    var reply := BareSupplyReply(kinds[0], Block(iOut, KindDims(kinds), 0), supplies[0]);
    assert ListsAt(kinds, iOut, supplies, 0) <==> reply.Listed?;
    if reply.Listed? {
      assert BareOutputs(BareReplies(kinds, iOut, supplies), 1) == Ok([]);
      assert reply.voltages + [] == [0.0];
    }
  }

  /** What the sub-converters output, in sub order, for the supply list
    * `supplies` (`zip` stops at the shorter of the two lists). */
  function FiniteOutputs(subs: seq<FiniteSub>, supplies: seq<real>, t: real, iOut: seq<real>): (r: seq<seq<real>>)
    requires Offset(VoltageDims(subs), |subs|) <= |iOut|
    ensures |r| == Min(|subs| as real, |supplies| as real) as int
  {
    var n := if |subs| < |supplies| then |subs| else |supplies|;
    seq(n, k requires 0 <= k < n => subs[k].convert(t, Block(iOut, VoltageDims(subs), k), [supplies[k]]))
  }

  /** With the supply repeated, every sub-converter converts its own slice
    * of the currents on the one supply voltage, handed over as a list. */
  lemma SingleSupplyReachesEverySub(subs: seq<FiniteSub>, u: real, t: real, iOut: seq<real>)
    requires Offset(VoltageDims(subs), |subs|) <= |iOut|
    ensures |FiniteOutputs(subs, BroadcastSupply([u], |subs|), t, iOut)| == |subs|
    ensures forall k :: 0 <= k < |subs| ==>
              FiniteOutputs(subs, BroadcastSupply([u], |subs|), t, iOut)[k]
              == subs[k].convert(t, Block(iOut, VoltageDims(subs), k), [u])
  {
  }

  /** Two one-quadrant converters holding `action` with step `tau`, as the
    * multi converter sees them: one voltage each. */
  function OneQuadrantPair(action: int, tau: real): (subs: seq<FiniteSub>)
    ensures |subs| == 2 && Offset(VoltageDims(subs), 2) == 2
    ensures forall k, t, i, us :: 0 <= k < 2 && |i| > 0 && |us| > 0 ==>
              subs[k].convert(t, i, us) == [FiniteConverters.OneQuadrantVoltage(action, i[0], us[0])]
  {
    var sub := FiniteSub(1,
      (t: real, i: seq<real>, us: seq<real>) =>
        if |i| > 0 && |us| > 0 then [FiniteConverters.OneQuadrantVoltage(action, i[0], us[0])] else [],
      (i: seq<real>) => if |i| > 0 then FiniteConverters.OneQuadrantCurrent(action, i[0]) else 0.0,
      (a: int, t: real) => [t + tau]);
    var subs := [sub, sub];
    assert Offset(VoltageDims(subs), 1) == 1;
    subs
  }

  /** Two switched-on one-quadrant converters, as the as-written model sees
    * them: one current each. */
  function SwitchedOnOneQuadrants(): (kinds: seq<FiniteKind>)
    ensures kinds == [OneQuadrant(1), OneQuadrant(1)] && Offset(KindDims(kinds), |kinds|) == 2
  {
    var kinds := [OneQuadrant(1), OneQuadrant(1)];
    assert Offset(KindDims(kinds), 1) == 1;
    kinds
  }

  /** Two switched-on one-quadrant converters on one supply of 1.0 with unit
    * currents: as written the first of them is handed the bare number 2.0
    * and the call raises IndexError; with the supply repeated, each
    * converter outputs the supply voltage. */
  lemma MultiSupplyAsWrittenRaises(tau: real)
    ensures FiniteMultiConvertAsWritten(SwitchedOnOneQuadrants(), [1.0, 1.0], [1.0]) == Err(ScalarIndexError)
    ensures Flatten(FiniteOutputs(OneQuadrantPair(1, tau), BroadcastSupply([1.0], 2), 0.0, [1.0, 1.0])) == [1.0, 1.0]
  {
    var kinds := SwitchedOnOneQuadrants();
    var subs := OneQuadrantPair(1, tau);
    var dims := VoltageDims(subs);
    assert Offset(dims, 1) == 1;
    var outs := FiniteOutputs(subs, BroadcastSupply([1.0], 2), 0.0, [1.0, 1.0]);
    assert Block([1.0, 1.0], dims, 0) == [1.0] && Block([1.0, 1.0], dims, 1) == [1.0];
    assert outs[0] == [1.0] && outs[1] == [1.0];
    assert outs[..1] == [outs[0]];
    assert Flatten(outs[..1]) == [1.0];
  }

  class FiniteMultiConverter {
    const subs: seq<FiniteSub>
    const slices: seq<(nat, nat)>

    ghost predicate Valid()
    {
      |slices| == |subs|
      && forall k :: 0 <= k < |subs| ==> slices[k] == (Offset(VoltageDims(subs), k), Offset(VoltageDims(subs), k + 1))
    }

    constructor (subs: seq<FiniteSub>)
      ensures Valid() && this.subs == subs
    {
      this.subs := subs;
      var s := SubConverterSlices(VoltageDims(subs));
      slices := s;
    }

    /** `convert`: each sub-converter converts its slice of the currents with
      * its supply voltage; the outputs are concatenated in sub order. */
    method Convert(t: real, iOut: seq<real>, uSup: seq<real>) returns (uIn: seq<real>)
      requires Valid() && Offset(VoltageDims(subs), |subs|) <= |iOut|
      ensures uIn == Flatten(FiniteOutputs(subs, BroadcastSupply(uSup, |subs|), t, iOut))
    {
      var supplies := BroadcastSupply(uSup, |subs|);
      var outputs := FiniteOutputs(subs, supplies, t, iOut);
      ghost var dims := VoltageDims(subs);
      uIn := [];
      var k := 0;
      while k < |subs| && k < |supplies|
        invariant 0 <= k <= |outputs|
        invariant uIn == Flatten(outputs[..k])
      {
        OffsetMonotone(dims, k + 1, |subs|);
        assert slices[k] == (Offset(dims, k), Offset(dims, k + 1));
        var part := iOut[slices[k].0..slices[k].1];
        assert part == Block(iOut, dims, k);
        assert outputs[k] == subs[k].convert(t, part, [supplies[k]]);
        uIn := uIn + subs[k].convert(t, part, [supplies[k]]);
        FlattenSnoc(outputs, k);
        k := k + 1;
      }
      assert outputs[..k] == outputs;
    }

    /** `set_action`: the k-th action component goes to the k-th sub-converter;
      * the result lists all their switching times once each, ascending. */
    method SetAction(action: seq<int>, t: real) returns (times: seq<real>)
      ensures StrictlyIncreasing(times)
      ensures forall y :: y in times <==>
                exists k :: 0 <= k < |subs| && k < |action| && y in subs[k].setAction(action[k], t)
    {
      times := [];
      var k := 0;
      while k < |subs| && k < |action|
        invariant 0 <= k <= |subs| && StrictlyIncreasing(times)
        invariant forall y :: y in times <==> exists j :: 0 <= j < k && j < |action| && y in subs[j].setAction(action[j], t)
      {
        ghost var before := times;
        times := SortedUnion(times, subs[k].setAction(action[k], t));
        forall y | y in times
          ensures exists j :: 0 <= j < k + 1 && j < |action| && y in subs[j].setAction(action[j], t)
        {
          if y !in before {
            assert y in subs[k].setAction(action[k], t);
          }
        }
        forall y, j | 0 <= j < k + 1 && j < |action| && y in subs[j].setAction(action[j], t)
          ensures y in times
        {
          if j < k {
            assert y in before;
          }
        }
        k := k + 1;
      }
    }

    /** `i_sup`: the sum of the sub-converters' supply currents on their
      * slices. */
    method ISup(iOut: seq<real>) returns (iSup: real)
      requires Valid() && Offset(VoltageDims(subs), |subs|) <= |iOut|
      ensures iSup == Sum(seq(|subs|, k requires 0 <= k < |subs| => subs[k].iSup(Block(iOut, VoltageDims(subs), k))))
    {
      var parts := seq(|subs|, k requires 0 <= k < |subs| => subs[k].iSup(Block(iOut, VoltageDims(subs), k)));
      ghost var dims := VoltageDims(subs);
      iSup := 0.0;
      for k := 0 to |subs|
        invariant iSup == Sum(parts[..k])
      {
        OffsetMonotone(dims, k + 1, |subs|);
        assert slices[k] == (Offset(dims, k), Offset(dims, k + 1));
        var part := iOut[slices[k].0..slices[k].1];
        assert part == Block(iOut, dims, k);
        assert parts[k] == subs[k].iSup(part);
        iSup := iSup + subs[k].iSup(part);
        SumSnoc(parts, k);
      }
      assert parts[..|subs|] == parts;
    }
  }

  // ---------------------------------------------- continuous multi converter

  /** A continuous sub-converter as the multi converter uses it. */
  datatype ContinuousSub = ContinuousSub(
    voltageShape: nat,
    currentShape: nat,
    actionLow: seq<real>,
    actionHigh: seq<real>,
    convert: (seq<real>, real) -> seq<real>,
    iSup: seq<real> -> real,
    setAction: (seq<real>, real) -> seq<real>,
    resetVoltage: seq<real>)

  /** `np.squeeze(shape) or 1` for a one-dimensional shape: the length, or 1
    * for a zero length. */
  function SubsignalDim(n: nat): (r: nat)
    ensures r >= 1 && (n > 0 ==> r == n)
  {
    if n == 0 then 1 else n
  }

  function ActionWidths(subs: seq<ContinuousSub>): (r: seq<nat>)
    ensures |r| == |subs| && forall k :: 0 <= k < |subs| ==> r[k] == |subs[k].actionLow|
  {
    seq(|subs|, k requires 0 <= k < |subs| => |subs[k].actionLow|)
  }

  function VoltageSignalDims(subs: seq<ContinuousSub>): (r: seq<nat>)
    ensures |r| == |subs| && forall k :: 0 <= k < |subs| ==> r[k] == SubsignalDim(subs[k].voltageShape)
  {
    seq(|subs|, k requires 0 <= k < |subs| => SubsignalDim(subs[k].voltageShape))
  }

  function CurrentSignalDims(subs: seq<ContinuousSub>): (r: seq<nat>)
    ensures |r| == |subs| && forall k :: 0 <= k < |subs| ==> r[k] == SubsignalDim(subs[k].currentShape)
  {
    seq(|subs|, k requires 0 <= k < |subs| => SubsignalDim(subs[k].currentShape))
  }

  function Lows(subs: seq<ContinuousSub>): (r: seq<seq<real>>)
    ensures |r| == |subs| && forall k :: 0 <= k < |subs| ==> r[k] == subs[k].actionLow
  {
    seq(|subs|, k requires 0 <= k < |subs| => subs[k].actionLow)
  }

  function Highs(subs: seq<ContinuousSub>): (r: seq<seq<real>>)
    ensures |r| == |subs| && forall k :: 0 <= k < |subs| ==> r[k] == subs[k].actionHigh
  {
    seq(|subs|, k requires 0 <= k < |subs| => subs[k].actionHigh)
  }

  function ResetVoltages(subs: seq<ContinuousSub>): (r: seq<seq<real>>)
    ensures |r| == |subs| && forall k :: 0 <= k < |subs| ==> r[k] == subs[k].resetVoltage
  {
    seq(|subs|, k requires 0 <= k < |subs| => subs[k].resetVoltage)
  }

  /** The action bounds of the multi converter line up with its sub-actions:
    * the bounds of sub-converter `k` are block `k` of the concatenated
    * bounds. */
  lemma ActionBoundsLineUp(subs: seq<ContinuousSub>, k: nat, j: nat)
    requires k < |subs| && j < |subs[k].actionLow|
    ensures |Flatten(Lows(subs))| == Offset(ActionWidths(subs), |subs|)
    ensures Offset(ActionWidths(subs), k) + j < |Flatten(Lows(subs))|
    ensures Flatten(Lows(subs))[Offset(ActionWidths(subs), k) + j] == subs[k].actionLow[j]
  {
    assert Lengths(Lows(subs)) == ActionWidths(subs);
    FlattenBlock(Lows(subs), k, j);
  }

  class ContMultiConverter {
    const subs: seq<ContinuousSub>
    const voltageDims: seq<nat>
    const currentDims: seq<nat>
    const actionLow: seq<real>
    const actionHigh: seq<real>

    ghost predicate Valid()
    {
      voltageDims == VoltageSignalDims(subs) && currentDims == CurrentSignalDims(subs)
      && actionLow == Flatten(Lows(subs)) && actionHigh == Flatten(Highs(subs))
    }

    /** The constructor collects each sub-converter's signal dimensions and
      * action bounds, in sub order. */
    constructor (subs: seq<ContinuousSub>)
      ensures Valid() && this.subs == subs
    {
      this.subs := subs;
      var vd: seq<nat> := [];
      var cd: seq<nat> := [];
      var lo: seq<real> := [];
      var hi: seq<real> := [];
      for k := 0 to |subs|
        invariant vd == VoltageSignalDims(subs)[..k] && cd == CurrentSignalDims(subs)[..k]
        invariant lo == Flatten(Lows(subs)[..k]) && hi == Flatten(Highs(subs)[..k])
      {
        vd := vd + [SubsignalDim(subs[k].voltageShape)];
        cd := cd + [SubsignalDim(subs[k].currentShape)];
        FlattenSnoc(Lows(subs), k);
        FlattenSnoc(Highs(subs), k);
        lo := lo + subs[k].actionLow;
        hi := hi + subs[k].actionHigh;
      }
      assert Lows(subs)[..|subs|] == Lows(subs) && Highs(subs)[..|subs|] == Highs(subs);
      voltageDims := vd;
      currentDims := cd;
      actionLow := lo;
      actionHigh := hi;
    }

    /** `set_action`: each sub-converter takes the next consecutive slice of
      * the action, as wide as its own action space; the result lists the
      * switching times once each, ascending. */
    method SetAction(action: seq<real>, t: real) returns (times: seq<real>)
      requires |action| == Offset(ActionWidths(subs), |subs|)
      ensures StrictlyIncreasing(times)
      ensures forall y :: y in times <==>
                exists k :: 0 <= k < |subs| && y in subs[k].setAction(Block(action, ActionWidths(subs), k), t)
    {
      ghost var widths := ActionWidths(subs);
      ghost var perSub := seq(|subs|, k requires 0 <= k < |subs| => subs[k].setAction(Block(action, widths, k), t));
      var all: seq<real> := [];
      var ind: nat := 0;
      for k := 0 to |subs|
        invariant ind == Offset(widths, k)
        invariant all == Flatten(perSub[..k])
      {
        OffsetMonotone(widths, k + 1, |subs|);
        var subAction := action[ind..ind + |subs[k].actionLow|];
        assert subAction == Block(action, widths, k);
        ind := ind + |subs[k].actionLow|;
        all := all + subs[k].setAction(subAction, t);
        FlattenSnoc(perSub, k);
      }
      assert perSub[..|subs|] == perSub;
      InFlatten(perSub);
      times := SortedUnion([], all);
      forall y | y in times
        ensures exists k :: 0 <= k < |subs| && y in subs[k].setAction(Block(action, widths, k), t)
      {
        var k :| 0 <= k < |perSub| && y in perSub[k];
        assert y in subs[k].setAction(Block(action, widths, k), t);
      }
      forall y, k | 0 <= k < |subs| && y in subs[k].setAction(Block(action, widths, k), t)
        ensures y in times
      {
        assert y in perSub[k];
      }
    }

    /** `reset`: the concatenated reset voltages of the sub-converters. */
    method Reset() returns (uIn: seq<real>)
      ensures uIn == Flatten(ResetVoltages(subs))
    {
      uIn := [];
      for k := 0 to |subs|
        invariant uIn == Flatten(ResetVoltages(subs)[..k])
      {
        FlattenSnoc(ResetVoltages(subs), k);
        uIn := uIn + subs[k].resetVoltage;
      }
      assert ResetVoltages(subs)[..|subs|] == ResetVoltages(subs);
    }

    /** `convert(i_out, t)`: each sub-converter converts its slice of the
      * currents, cut by voltage dimension; outputs are concatenated. */
    method Convert(iOut: seq<real>, t: real) returns (uIn: seq<real>)
      requires voltageDims == VoltageSignalDims(subs) && Offset(voltageDims, |voltageDims|) <= |iOut|
      ensures uIn == Flatten(seq(|subs|, k requires 0 <= k < |subs| => subs[k].convert(Block(iOut, voltageDims, k), t)))
    {
      var outputs := seq(|subs|, k requires 0 <= k < |subs| => subs[k].convert(Block(iOut, voltageDims, k), t));
      uIn := [];
      var low: nat := 0;
      for k := 0 to |subs|
        invariant low == Offset(voltageDims, k)
        invariant uIn == Flatten(outputs[..k])
      {
        var high := NextBlock(iOut, voltageDims, k, low);
        uIn := uIn + subs[k].convert(iOut[low..high], t);
        FlattenSnoc(outputs, k);
        low := high;
      }
      assert outputs[..|subs|] == outputs;
    }

    /** `i_sup`: the sum of the sub-converters' supply currents on slices cut
      * by current dimension. */
    method ISup(iOut: seq<real>) returns (iSup: real)
      requires currentDims == CurrentSignalDims(subs) && Offset(currentDims, |currentDims|) <= |iOut|
      ensures iSup == Sum(seq(|subs|, k requires 0 <= k < |subs| => subs[k].iSup(Block(iOut, currentDims, k))))
    {
      var parts := seq(|subs|, k requires 0 <= k < |subs| => subs[k].iSup(Block(iOut, currentDims, k)));
      iSup := 0.0;
      var low: nat := 0;
      for k := 0 to |subs|
        invariant low == Offset(currentDims, k)
        invariant iSup == Sum(parts[..k])
      {
        var high := NextBlock(iOut, currentDims, k, low);
        iSup := iSup + subs[k].iSup(iOut[low..high]);
        SumSnoc(parts, k);
        low := high;
      }
      assert parts[..|subs|] == parts;
    }
  }
}
