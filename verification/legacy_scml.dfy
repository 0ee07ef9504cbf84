/**
 * The older SCML system (physical_systems/physical_systems.py): limits and
 * nominal values chosen by the min rule over the motor's and the load's
 * dicts, the index layout of the state, the system equation with its cached
 * derivative buffer, the block assembly of the system Jacobian, and the
 * reset and simulate steps that feed the motor the pairwise product of the
 * converter output and the supply voltage.
 */
module LegacyScml {
  import opened Common
  import opened StepCounters
  import opened DcMotors
  import opened ScmlSystems

  // ------------------------------------------------------------ min rule

  /** A limit or nominal value: a number, or numpy's `inf` for a name that
    * neither dict defines. */
  datatype Bound = Finite(value: real) | Infinite

  predicate AtMost(a: Bound, b: Bound)
  {
    b.Infinite? || (a.Finite? && a.value <= b.value)
  }

  /** `d.get(name, np.inf)`. */
  function Lookup(d: map<string, real>, name: string): (b: Bound)
    ensures b.Finite? <==> name in d
    ensures name in d ==> b.value == d[name]
  {
    if name in d then Finite(d[name]) else Infinite
  }

  /** `min(a, b)` with `inf` above every number. */
  function MinBound(a: Bound, b: Bound): (r: Bound)
    ensures r == a || r == b
    ensures AtMost(r, a) && AtMost(r, b)
  {
    if a.Infinite? then b
    else if b.Infinite? then a
    else if a.value <= b.value then a else b
  }

  /** The value the min rule chooses for each state name: infinite exactly
    * when neither dict has the name, otherwise the smaller of the values the
    * dicts define. */
  function MinRule(names: seq<string>, motorValues: map<string, real>, loadValues: map<string, real>): (r: seq<Bound>)
    ensures |r| == |names|
    ensures forall i :: 0 <= i < |names| ==> (r[i].Infinite? <==> names[i] !in motorValues && names[i] !in loadValues)
    ensures forall i :: 0 <= i < |names| && names[i] in motorValues ==> AtMost(r[i], Finite(motorValues[names[i]]))
    ensures forall i :: 0 <= i < |names| && names[i] in loadValues ==> AtMost(r[i], Finite(loadValues[names[i]]))
    ensures forall i :: 0 <= i < |names| && r[i].Finite? ==>
              (names[i] in motorValues && r[i].value == motorValues[names[i]])
              || (names[i] in loadValues && r[i].value == loadValues[names[i]])
  {
    seq(|names|, i requires 0 <= i < |names| => MinBound(Lookup(motorValues, names[i]), Lookup(loadValues, names[i])))
  }

  /** The loop of `_set_limits` and `_set_nominal_state`: entry `i` becomes
    * the min rule's choice for `names[i]`. */
  method FillMin(buf: array<Bound>, names: seq<string>, motorValues: map<string, real>, loadValues: map<string, real>)
    requires buf.Length == |names|
    modifies buf
    ensures buf[..] == MinRule(names, motorValues, loadValues)
  {
    for i := 0 to |names|
      invariant buf[..i] == MinRule(names, motorValues, loadValues)[..i]
    {
      buf[i] := MinBound(Lookup(motorValues, names[i]), Lookup(loadValues, names[i]));
    }
    assert buf[..] == buf[..|names|];
  }

  /** `_set_limits` and `_set_nominal_state`: the min rule written into the
    * array entry by entry, then the entry of `u_sup` overwritten by the
    * supply's nominal voltage. Without a `u_sup` state the lookup fails
    * after the loop. */
  method FillMinRule(buf: array<Bound>, names: seq<string>, motorValues: map<string, real>, loadValues: map<string, real>, uNominal: real)
    returns (r: Result<()>)
    requires buf.Length == |names|
    modifies buf
    ensures r.Err? <==> "u_sup" !in names
    ensures r.Err? ==> buf[..] == MinRule(names, motorValues, loadValues)
    ensures r.Ok? ==> buf[..] == MinRule(names, motorValues, loadValues)[StatePositions(names)["u_sup"] := Finite(uNominal)]
  {
    FillMin(buf, names, motorValues, loadValues);
    var positions := StatePositions(names);
    if "u_sup" !in positions {
      return Err("KeyError: 'u_sup'");
    }
    buf[positions["u_sup"]] := Finite(uNominal);
    r := Ok(());
  }

  /** After the fill every entry but the supply voltage's last position keeps
    * the min rule, and that entry holds the nominal supply voltage. */
  lemma SupplyVoltageOverridesMinRule(names: seq<string>, motorValues: map<string, real>, loadValues: map<string, real>, uNominal: real, filled: seq<Bound>)
    requires "u_sup" in names
    requires filled == MinRule(names, motorValues, loadValues)[StatePositions(names)["u_sup"] := Finite(uNominal)]
    ensures exists p :: 0 <= p < |names| && names[p] == "u_sup" && filled[p] == Finite(uNominal)
    ensures forall i :: 0 <= i < |names| && names[i] != "u_sup" ==>
              filled[i] == MinBound(Lookup(motorValues, names[i]), Lookup(loadValues, names[i]))
  {
    var positions := StatePositions(names);
    var i :| 0 <= i < |names| && names[i] == "u_sup";
    assert names[i] in positions.Keys;
    var p := positions["u_sup"];
    assert names[p] == "u_sup" && filled[p] == Finite(uNominal);
    forall j | 0 <= j < |names| && names[j] != "u_sup"
      ensures filled[j] == MinBound(Lookup(motorValues, names[j]), Lookup(loadValues, names[j]))
    {
      assert j != p;
      assert filled[j] == MinRule(names, motorValues, loadValues)[j];
    }
  }

  // ------------------------------------------------------------- indices

  /** `list(range(lo, hi))`. */
  function Range(lo: nat, hi: nat): (r: seq<nat>)
    requires lo <= hi
    ensures |r| == hi - lo && forall i :: 0 <= i < |r| ==> r[i] == lo + i
  {
    seq(hi - lo, i requires 0 <= i < hi - lo => lo + i)
  }

  /** The index fields of the state layout. */
  datatype Indices = Indices(
    omegaOde: nat, loadOde: seq<nat>, odeCurrents: seq<nat>,
    torque: nat, currents: seq<nat>, voltages: seq<nat>, uSup: seq<nat>)

  /** `_set_indices`: the ODE holds the load's states and then the motor
    * currents; the observation holds the load's states, the torque, the
    * currents, the voltages and the supply voltages. The ODE current range
    * starts after the last load index, which fails when the load has no
    * states. */
  function SetIndices(loadStates: nat, loadOmegaIdx: nat, currents: nat, voltages: nat, voltageLen: nat): (r: Result<Indices>)
    ensures r.Err? <==> loadStates == 0
    ensures r.Ok? ==> r.value.omegaOde == loadOmegaIdx && r.value.torque == loadStates
    ensures r.Ok? ==> r.value.loadOde + r.value.odeCurrents == Range(0, loadStates + currents)
    ensures r.Ok? ==> r.value.currents + r.value.voltages + r.value.uSup
                      == Range(r.value.torque + 1, r.value.torque + 1 + currents + voltages + voltageLen)
    ensures r.Ok? ==> |r.value.currents| == currents && |r.value.voltages| == voltages && |r.value.uSup| == voltageLen
  {
    if loadStates == 0 then Err("IndexError: list index out of range")
    else
      var loadOde := Range(0, loadStates);
      var last := loadOde[|loadOde| - 1];
      var torque := loadStates;
      var currentsLower := torque + 1;
      var currentsUpper := currentsLower + currents;
      var voltagesUpper := currentsUpper + voltages;
      var r := Indices(loadOmegaIdx, loadOde, Range(last + 1, last + 1 + currents), torque,
                       Range(currentsLower, currentsUpper), Range(currentsUpper, voltagesUpper),
                       Range(voltagesUpper, voltagesUpper + voltageLen));
      assert r.loadOde + r.odeCurrents == Range(0, loadStates + currents);
      assert r.currents + r.voltages + r.uSup == Range(torque + 1, torque + 1 + currents + voltages + voltageLen);
      Ok(r)
  }

  // ---------------------------------------------------- pairwise product

  /** `u_sup` times each entry of a row. */
  function Row(u: real, uSup: seq<real>): (r: seq<real>)
    ensures |r| == |uSup| && forall j :: 0 <= j < |uSup| ==> r[j] == u * uSup[j]
  {
    seq(|uSup|, j requires 0 <= j < |uSup| => u * uSup[j])
  }

  /** Where entry `(i, j)` of a row-major `rows x cols` table lands when the
    * table is flattened. */
  function FlatIndex(i: nat, j: nat, cols: nat): nat
  {
    i * cols + j
  }

  lemma {:induction false} FlatIndexInRange(i: nat, j: nat, rows: nat, cols: nat)
    requires i < rows && j < cols
    ensures FlatIndex(i, j, cols) < rows * cols
    decreases rows
  {
    if i + 1 < rows {
      FlatIndexInRange(i, j, rows - 1, cols);
      assert (rows - 1) * cols + cols == rows * cols;
    } else {
      assert i * cols + cols == rows * cols;
    }
  }

  /** `[u * u_s for u in u_in for u_s in u_sup]`: the outer loop runs over the
    * converter outputs, the inner one over the supply voltages. */
  function PairwiseProduct(uIn: seq<real>, uSup: seq<real>): (r: seq<real>)
    ensures |r| == |uIn| * |uSup|
  {
    if |uIn| == 0 then []
    else
      var n := |uIn| - 1;
      var prefix := PairwiseProduct(uIn[..n], uSup);
      assert |prefix| + |uSup| == |uIn| * |uSup|;
      prefix + Row(uIn[n], uSup)
  }

  /** Entry `(i, j)` of the pairwise product, at `i * |u_sup| + j`, is input
    * `i` times supply voltage `j`. */
  lemma {:induction false} PairwiseProductEntry(uIn: seq<real>, uSup: seq<real>, i: nat, j: nat)
    requires i < |uIn| && j < |uSup|
    ensures FlatIndex(i, j, |uSup|) < |PairwiseProduct(uIn, uSup)|
    ensures PairwiseProduct(uIn, uSup)[FlatIndex(i, j, |uSup|)] == uIn[i] * uSup[j]
  {
    var n := |uIn| - 1;
    var prefix := PairwiseProduct(uIn[..n], uSup);
    FlatIndexInRange(i, j, |uIn|, |uSup|);
    assert PairwiseProduct(uIn, uSup) == prefix + Row(uIn[n], uSup);
    if i < n {
      PairwiseProductEntry(uIn[..n], uSup, i, j);
      assert uIn[..n][i] == uIn[i];
    } else {
      assert |prefix| == n * |uSup|;
    }
  }

  /** With a single supply voltage the motor receives the converter output
    * scaled by it. */
  lemma PairwiseProductSingleSupply(uIn: seq<real>, us: real)
    ensures PairwiseProduct(uIn, [us]) == Scale(us, uIn)
  {
    var r := PairwiseProduct(uIn, [us]);
    assert |r| == |uIn| * 1 == |uIn|;
    forall k | 0 <= k < |uIn| ensures r[k] == us * uIn[k] {
      PairwiseProductEntry(uIn, [us], k, 0);
      assert FlatIndex(k, 0, 1) == k;
    }
  }

  // ---------------------------------------------------------- Jacobian

  /** The shapes the Jacobian assembly expects: an `l`-square load Jacobian
    * with its torque column, and an `m`-square motor block with its omega
    * column and torque gradient. */
  predicate Shaped(l: nat, m: nat, loadJac: seq<seq<real>>, loadOverTorque: seq<real>, mj: MotorJacobian)
  {
    |loadJac| == l && (forall i :: 0 <= i < l ==> |loadJac[i]| == l)
    && |loadOverTorque| == l
    && |mj.stateBlock| == m && (forall i :: 0 <= i < m ==> |mj.stateBlock[i]| == m)
    && |mj.overOmega| == m && |mj.torqueGradient| == m
  }

  /** The entry `(i, j)` of the system Jacobian: the load block, the torque
    * coupling `load_over_torque ⊗ torque_over_el_state` in the load rows of
    * the motor columns, the motor block, the omega column in the motor
    * rows, and zero elsewhere. */
  function BlockEntry(l: nat, m: nat, loadJac: seq<seq<real>>, loadOverTorque: seq<real>, mj: MotorJacobian, omegaIdx: nat, i: nat, j: nat): real
    requires Shaped(l, m, loadJac, loadOverTorque, mj) && i < l + m && j < l + m
  {
    if i < l && j < l then loadJac[i][j]
    else if i < l then loadOverTorque[i] * mj.torqueGradient[j - l]
    else if j >= l then mj.stateBlock[i - l][j - l]
    else if j == omegaIdx then mj.overOmega[i - l]
    else 0.0
  }

  function BlockJacobian(l: nat, m: nat, loadJac: seq<seq<real>>, loadOverTorque: seq<real>, mj: MotorJacobian, omegaIdx: nat): (r: seq<seq<real>>)
    requires Shaped(l, m, loadJac, loadOverTorque, mj)
    ensures |r| == l + m && forall i :: 0 <= i < l + m ==> |r[i]| == l + m
    ensures forall i, j :: 0 <= i < l + m && 0 <= j < l + m ==> r[i][j] == BlockEntry(l, m, loadJac, loadOverTorque, mj, omegaIdx, i, j)
  {
    seq(l + m, i requires 0 <= i < l + m =>
      seq(l + m, j requires 0 <= j < l + m => BlockEntry(l, m, loadJac, loadOverTorque, mj, omegaIdx, i, j)))
  }

  predicate Rectangular(block: seq<seq<real>>, cols: nat)
  {
    forall a :: 0 <= a < |block| ==> |block[a]| == cols
  }

  /** `jac[r0:r0 + rows, c0:c0 + cols] = block`. */
  method WriteBlock(jac: array2<real>, r0: nat, c0: nat, block: seq<seq<real>>, cols: nat)
    requires Rectangular(block, cols)
    requires r0 + |block| <= jac.Length0 && c0 + cols <= jac.Length1
    modifies jac
    ensures forall i, j :: 0 <= i < jac.Length0 && 0 <= j < jac.Length1 ==>
              jac[i, j] == if r0 <= i < r0 + |block| && c0 <= j < c0 + cols then block[i - r0][j - c0] else old(jac[i, j])
  {
    for a := 0 to |block|
      invariant forall i, j :: 0 <= i < jac.Length0 && 0 <= j < jac.Length1 ==>
                  jac[i, j] == if r0 <= i < r0 + a && c0 <= j < c0 + cols then block[i - r0][j - c0] else old(jac[i, j])
    {
      for b := 0 to cols
        invariant forall i, j :: 0 <= i < jac.Length0 && 0 <= j < jac.Length1 ==>
                    jac[i, j] == if (r0 <= i < r0 + a && c0 <= j < c0 + cols) || (i == r0 + a && c0 <= j < c0 + b)
                                 then block[i - r0][j - c0] else old(jac[i, j])
      {
        jac[r0 + a, c0 + b] := block[a][b];
      }
    }
  }

  /** `np.matmul(x.reshape(-1, 1), y.reshape(1, -1))`. */
  function Outer(x: seq<real>, y: seq<real>): (r: seq<seq<real>>)
    ensures |r| == |x| && Rectangular(r, |y|)
    ensures forall a, b :: 0 <= a < |x| && 0 <= b < |y| ==> r[a][b] == x[a] * y[b]
  {
    seq(|x|, a requires 0 <= a < |x| => seq(|y|, b requires 0 <= b < |y| => x[a] * y[b]))
  }

  /** A vector as a one-column block. */
  function AsColumn(x: seq<real>): (r: seq<seq<real>>)
    ensures |r| == |x| && Rectangular(r, 1)
    ensures forall a :: 0 <= a < |x| ==> r[a][0] == x[a]
  {
    seq(|x|, a requires 0 <= a < |x| => [x[a]])
  }

  /** `_system_jacobian`'s assembly: a zero matrix, the load block at the top
    * left, the motor block at the bottom right, the omega column in the
    * motor rows, and the torque coupling in the load rows right of the load
    * block. */
  method AssembleJacobian(l: nat, m: nat, loadJac: seq<seq<real>>, loadOverTorque: seq<real>, mj: MotorJacobian, omegaIdx: nat)
    returns (jac: array2<real>)
    requires Shaped(l, m, loadJac, loadOverTorque, mj) && omegaIdx < l
    ensures fresh(jac) && jac.Length0 == l + m && jac.Length1 == l + m
    ensures forall i, j :: 0 <= i < l + m && 0 <= j < l + m ==>
              jac[i, j] == BlockJacobian(l, m, loadJac, loadOverTorque, mj, omegaIdx)[i][j]
  {
    jac := new real[l + m, l + m]((i, j) => 0.0);
    WriteBlock(jac, 0, 0, loadJac, l);
    assert forall i, j :: 0 <= i < l + m && 0 <= j < l + m ==>
             jac[i, j] == if i < l && j < l then loadJac[i][j] else 0.0;
    WriteBlock(jac, l, l, mj.stateBlock, m);
    assert forall i, j :: 0 <= i < l + m && 0 <= j < l + m ==>
             jac[i, j] == if i < l && j < l then loadJac[i][j]
                          else if l <= i && l <= j then mj.stateBlock[i - l][j - l] else 0.0;
    WriteBlock(jac, l, omegaIdx, AsColumn(mj.overOmega), 1);
    assert forall i, j :: 0 <= i < l + m && 0 <= j < l + m ==>
             jac[i, j] == if l <= i && j == omegaIdx then mj.overOmega[i - l]
                          else if i < l && j < l then loadJac[i][j]
                          else if l <= i && l <= j then mj.stateBlock[i - l][j - l] else 0.0;
    var coupling := Outer(loadOverTorque, mj.torqueGradient);
    WriteBlock(jac, 0, l, coupling, m);
    ghost var J := BlockJacobian(l, m, loadJac, loadOverTorque, mj, omegaIdx);
    forall i, j | 0 <= i < l + m && 0 <= j < l + m
      ensures jac[i, j] == J[i][j]
    {
      assert J[i][j] == BlockEntry(l, m, loadJac, loadOverTorque, mj, omegaIdx, i, j);
      if i < l && l <= j {
        assert jac[i, j] == coupling[i][j - l] == loadOverTorque[i] * mj.torqueGradient[j - l];
      }
    }
  }

  // ------------------------------------------------- system equation

  /** The load as the older system sees it: its state names, where omega sits
    * in its state, its limit and nominal dicts, and its ODE and Jacobian
    * for a scalar torque. */
  datatype LegacyLoad = LegacyLoad(
    names: seq<string>,
    omegaIdx: nat,
    limits: map<string, real>,
    nominalValues: map<string, real>,
    mechanicalOde: (real, seq<real>, real) -> seq<real>,
    mechanicalJacobian: (real, seq<real>, real) -> (seq<seq<real>>, seq<real>),
    resetState: seq<real>,
    observation: seq<real> -> seq<real>)

  /** The motor: its currents and voltages, its dicts, and its ODE
    * `electrical_ode(state, u_in, omega)`, Jacobian and torque. */
  datatype LegacyMotor = LegacyMotor(
    names: seq<string>,
    currents: seq<string>,
    voltages: seq<string>,
    limits: map<string, real>,
    nominalValues: map<string, real>,
    electricalOde: (seq<real>, seq<real>, real) -> seq<real>,
    electricalJacobian: (seq<real>, seq<real>, real) -> MotorJacobian,
    torque: seq<real> -> real,
    iIn: seq<real> -> seq<real>,
    resetState: seq<real>,
    observation: seq<real> -> seq<real>)

  /** The system derivative at `state`: the load's derivative followed by the
    * motor's, the load seeing the torque of the motor's currents and the
    * motor seeing the load's omega. */
  function SystemDerivative(load: LegacyLoad, motor: LegacyMotor, t: real, state: seq<real>, uIn: seq<real>): seq<real>
    requires |state| == |load.names| + |motor.currents| && load.omegaIdx < |load.names|
  {
    var l := |load.names|;
    load.mechanicalOde(t, state[..l], motor.torque(state[l..]))
    + motor.electricalOde(state[l..], uIn, state[load.omegaIdx])
  }

  /** `x` with coordinate `k` moved to `v`. */
  function Moved(x: seq<real>, k: nat, v: real): seq<real>
    requires k < |x|
  {
    x[k := v]
  }

  /** The load's Jacobian is exact at `(t, ls, tq)`: each state column and the
    * torque column are the changes of its ODE. */
  ghost predicate LoadJacobianExact(load: LegacyLoad, t: real, ls: seq<real>, tq: real)
  {
    var lj := load.mechanicalJacobian(t, ls, tq).0;
    var lot := load.mechanicalJacobian(t, ls, tq).1;
    |load.mechanicalOde(t, ls, tq)| == |ls| && |lj| == |ls| && |lot| == |ls|
    && (forall r :: 0 <= r < |ls| ==> |lj[r]| == |ls|)
    && (forall k, v :: 0 <= k < |ls| ==>
          load.mechanicalOde(t, Moved(ls, k, v), tq) == Add(load.mechanicalOde(t, ls, tq), Scale(v - ls[k], Column(lj, k))))
    && (forall q :: load.mechanicalOde(t, ls, q) == Add(load.mechanicalOde(t, ls, tq), Scale(q - tq, lot)))
  }

  /** The motor's Jacobian is exact at `(ms, uIn, w)`: its state block, omega
    * column and torque gradient are the changes of its ODE and torque. */
  ghost predicate MotorJacobianExact(motor: LegacyMotor, ms: seq<real>, uIn: seq<real>, w: real)
  {
    var mj := motor.electricalJacobian(ms, uIn, w);
    |motor.electricalOde(ms, uIn, w)| == |ms|
    && |mj.stateBlock| == |ms| && (forall r :: 0 <= r < |ms| ==> |mj.stateBlock[r]| == |ms|)
    && |mj.overOmega| == |ms| && |mj.torqueGradient| == |ms|
    && (forall k, v :: 0 <= k < |ms| ==>
          motor.electricalOde(Moved(ms, k, v), uIn, w) == Add(motor.electricalOde(ms, uIn, w), Scale(v - ms[k], Column(mj.stateBlock, k))))
    && (forall w' :: motor.electricalOde(ms, uIn, w') == Add(motor.electricalOde(ms, uIn, w), Scale(w' - w, mj.overOmega)))
    && (forall k, v :: 0 <= k < |ms| ==>
          motor.torque(Moved(ms, k, v)) == motor.torque(ms) + (v - ms[k]) * mj.torqueGradient[k])
  }

  /** The assembled Jacobian at `state`. */
  function SystemJacobian(load: LegacyLoad, motor: LegacyMotor, t: real, state: seq<real>, uIn: seq<real>): (r: seq<seq<real>>)
    requires |state| == |load.names| + |motor.currents| && load.omegaIdx < |load.names|
    requires var l := |load.names|;
             LoadJacobianExact(load, t, state[..l], motor.torque(state[l..]))
             && MotorJacobianExact(motor, state[l..], uIn, state[load.omegaIdx])
    ensures |r| == |state| && forall i :: 0 <= i < |state| ==> |r[i]| == |state|
  {
    var l := |load.names|;
    var ms := state[l..];
    var lj := load.mechanicalJacobian(t, state[..l], motor.torque(ms));
    BlockJacobian(l, |motor.currents|, lj.0, lj.1, motor.electricalJacobian(ms, uIn, state[load.omegaIdx]), load.omegaIdx)
  }

  /** Column `j` of the block matrix: the load's own column over the omega
    * column (or zeros) for a load state, the torque coupling over the motor
    * block's column for a motor state. */
  lemma BlockColumn(l: nat, m: nat, lj: seq<seq<real>>, lot: seq<real>, mj: MotorJacobian, omegaIdx: nat, j: nat)
    requires Shaped(l, m, lj, lot, mj) && omegaIdx < l && j < l + m
    ensures j < l ==> Column(BlockJacobian(l, m, lj, lot, mj, omegaIdx), j)
                      == Column(lj, j) + (if j == omegaIdx then mj.overOmega else Zeros(m))
    ensures j >= l ==> Column(BlockJacobian(l, m, lj, lot, mj, omegaIdx), j)
                       == Scale(mj.torqueGradient[j - l], lot) + Column(mj.stateBlock, j - l)
  {
    var col := Column(BlockJacobian(l, m, lj, lot, mj, omegaIdx), j);
    if j < l {
      var expected := Column(lj, j) + (if j == omegaIdx then mj.overOmega else Zeros(m));
      assert forall i :: 0 <= i < l + m ==> col[i] == expected[i];
      assert col == expected;
    } else {
      var expected := Scale(mj.torqueGradient[j - l], lot) + Column(mj.stateBlock, j - l);
      assert forall i :: 0 <= i < l + m ==> col[i] == expected[i];
      assert col == expected;
    }
  }

  /** Shifting two blocks by `d` times their columns shifts the concatenation
    * by `d` times the concatenated column. */
  lemma ShiftConcat(a: seq<real>, b: seq<real>, c1: seq<real>, c2: seq<real>, d: real)
    requires |a| == |c1| && |b| == |c2|
    ensures Add(a, Scale(d, c1)) + Add(b, Scale(d, c2)) == Add(a + b, Scale(d, c1 + c2))
  {
    var lhs := Add(a, Scale(d, c1)) + Add(b, Scale(d, c2));
    var rhs := Add(a + b, Scale(d, c1 + c2));
    assert forall i :: 0 <= i < |rhs| ==> lhs[i] == rhs[i];
  }

  /** Whenever the load's and the motor's own Jacobians are exact, the block
    * assembly is the exact Jacobian of the system derivative: moving state
    * `j` to `v` changes the derivative by `(v - state[j])` times column `j`. */
  lemma SystemJacobianExact(load: LegacyLoad, motor: LegacyMotor, t: real, state: seq<real>, uIn: seq<real>, j: nat, v: real)
    requires |state| == |load.names| + |motor.currents| && load.omegaIdx < |load.names| && j < |state|
    requires var l := |load.names|;
             LoadJacobianExact(load, t, state[..l], motor.torque(state[l..]))
             && MotorJacobianExact(motor, state[l..], uIn, state[load.omegaIdx])
    ensures SystemDerivative(load, motor, t, state[j := v], uIn)
            == Add(SystemDerivative(load, motor, t, state, uIn), Scale(v - state[j], Column(SystemJacobian(load, motor, t, state, uIn), j)))
  {
    if j < |load.names| {
      LoadStateColumnExact(load, motor, t, state, uIn, j, v);
    } else {
      MotorStateColumnExact(load, motor, t, state, uIn, j, v);
    }
  }

  /** A load state moves the load's derivative along its own Jacobian column
    * and, when it is omega, the motor's along its omega column. */
  lemma LoadStateColumnExact(load: LegacyLoad, motor: LegacyMotor, t: real, state: seq<real>, uIn: seq<real>, j: nat, v: real)
    requires |state| == |load.names| + |motor.currents| && load.omegaIdx < |load.names| && j < |load.names|
    requires var l := |load.names|;
             LoadJacobianExact(load, t, state[..l], motor.torque(state[l..]))
             && MotorJacobianExact(motor, state[l..], uIn, state[load.omegaIdx])
    ensures SystemDerivative(load, motor, t, state[j := v], uIn)
            == Add(SystemDerivative(load, motor, t, state, uIn), Scale(v - state[j], Column(SystemJacobian(load, motor, t, state, uIn), j)))
  {
    var l := |load.names|;
    var ls, ms := state[..l], state[l..];
    var w := state[load.omegaIdx];
    var tq := motor.torque(ms);
    var lj, lot := load.mechanicalJacobian(t, ls, tq).0, load.mechanicalJacobian(t, ls, tq).1;
    var mj := motor.electricalJacobian(ms, uIn, w);
    assert SystemJacobian(load, motor, t, state, uIn) == BlockJacobian(l, |motor.currents|, lj, lot, mj, load.omegaIdx);
    BlockColumn(l, |motor.currents|, lj, lot, mj, load.omegaIdx, j);
    var x' := state[j := v];
    assert x'[..l] == Moved(ls, j, v) && x'[l..] == ms && x'[load.omegaIdx] == Moved(ls, j, v)[load.omegaIdx];
    assert ls[j] == state[j] && ls[load.omegaIdx] == w;
    LoadMoveExact(load, motor, t, ls, ms, uIn, load.omegaIdx, j, v);
  }

  /** Moving load state `j` to `v` moves the load's derivative along its
    * Jacobian column `j` and, when `j` is omega, the motor's along its omega
    * column. */
  lemma LoadMoveExact(load: LegacyLoad, motor: LegacyMotor, t: real, ls: seq<real>, ms: seq<real>, uIn: seq<real>,
                      omegaIdx: nat, j: nat, v: real)
    requires j < |ls| && omegaIdx < |ls|
    requires LoadJacobianExact(load, t, ls, motor.torque(ms)) && MotorJacobianExact(motor, ms, uIn, ls[omegaIdx])
    ensures var tq := motor.torque(ms);
            var mj := motor.electricalJacobian(ms, uIn, ls[omegaIdx]);
            load.mechanicalOde(t, Moved(ls, j, v), tq) + motor.electricalOde(ms, uIn, Moved(ls, j, v)[omegaIdx])
            == Add(load.mechanicalOde(t, ls, tq) + motor.electricalOde(ms, uIn, ls[omegaIdx]),
                   Scale(v - ls[j], Column(load.mechanicalJacobian(t, ls, tq).0, j)
                                    + (if j == omegaIdx then mj.overOmega else Zeros(|ms|))))
  {
    var tq := motor.torque(ms);
    var w := ls[omegaIdx];
    var mj := motor.electricalJacobian(ms, uIn, w);
    var d := v - ls[j];
    var motorBase := motor.electricalOde(ms, uIn, w);
    var motorColumn := if j == omegaIdx then mj.overOmega else Zeros(|ms|);
    var w' := Moved(ls, j, v)[omegaIdx];
    assert motor.electricalOde(ms, uIn, w') == Add(motorBase, Scale(d, motorColumn)) by {
      if j != omegaIdx {
        assert w' == w;
        assert Add(motorBase, Scale(d, motorColumn)) == motorBase;
      }
    }
    ShiftConcat(load.mechanicalOde(t, ls, tq), motorBase, Column(load.mechanicalJacobian(t, ls, tq).0, j), motorColumn, d);
  }

  /** A motor state moves the motor's derivative along its state block's
    * column and the load's along the torque coupling. */
  lemma MotorStateColumnExact(load: LegacyLoad, motor: LegacyMotor, t: real, state: seq<real>, uIn: seq<real>, j: nat, v: real)
    requires |state| == |load.names| + |motor.currents| && load.omegaIdx < |load.names| && |load.names| <= j < |state|
    requires var l := |load.names|;
             LoadJacobianExact(load, t, state[..l], motor.torque(state[l..]))
             && MotorJacobianExact(motor, state[l..], uIn, state[load.omegaIdx])
    ensures SystemDerivative(load, motor, t, state[j := v], uIn)
            == Add(SystemDerivative(load, motor, t, state, uIn), Scale(v - state[j], Column(SystemJacobian(load, motor, t, state, uIn), j)))
  {
    var l := |load.names|;
    var ls, ms := state[..l], state[l..];
    var w := state[load.omegaIdx];
    var tq := motor.torque(ms);
    var lj, lot := load.mechanicalJacobian(t, ls, tq).0, load.mechanicalJacobian(t, ls, tq).1;
    var mj := motor.electricalJacobian(ms, uIn, w);
    var k := j - l;
    assert SystemJacobian(load, motor, t, state, uIn) == BlockJacobian(l, |motor.currents|, lj, lot, mj, load.omegaIdx);
    BlockColumn(l, |motor.currents|, lj, lot, mj, load.omegaIdx, j);
    var x' := state[j := v];
    assert x'[..l] == ls && x'[l..] == Moved(ms, k, v) && x'[load.omegaIdx] == w;
    assert ms[k] == state[j];
    var d, g := v - ms[k], mj.torqueGradient[k];
    var tq' := motor.torque(Moved(ms, k, v));
    assert tq' == tq + d * g;
    assert load.mechanicalOde(t, ls, tq') == Add(load.mechanicalOde(t, ls, tq), Scale(tq' - tq, lot));
    assert tq' - tq == d * g;
    MotorMoveExact(load.mechanicalOde(t, ls, tq), load.mechanicalOde(t, ls, tq'), motor.electricalOde(ms, uIn, w),
                   motor.electricalOde(Moved(ms, k, v), uIn, w), lot, Column(mj.stateBlock, k), d, g);
  }

  /** The load's derivative moved along `g · lot` and the motor's along `col`,
    * both by `d`, move the concatenation along the concatenated column. */
  lemma MotorMoveExact(loadBase: seq<real>, loadMoved: seq<real>, motorBase: seq<real>, motorMoved: seq<real>,
                       lot: seq<real>, col: seq<real>, d: real, g: real)
    requires |loadBase| == |lot| && |motorBase| == |col|
    requires loadMoved == Add(loadBase, Scale(d * g, lot))
    requires motorMoved == Add(motorBase, Scale(d, col))
    ensures loadMoved + motorMoved == Add(loadBase + motorBase, Scale(d, Scale(g, lot) + col))
  {
    var lhs, rhs := Scale(d * g, lot), Scale(d, Scale(g, lot));
    assert forall i :: 0 <= i < |lot| ==> lhs[i] == (d * g) * lot[i] == d * (g * lot[i]) == rhs[i];
    assert lhs == rhs;
    ShiftConcat(loadBase, motorBase, Scale(g, lot), col, d);
  }

  // ------------------------------------------------------------- system

  /** The converter: `convert(action, i_in, t)` in the older argument order. */
  datatype LegacyConverter<!A> = LegacyConverter(
    names: seq<string>,
    setAction: (A, real) -> seq<real>,
    iSup: (A, seq<real>) -> real,
    convert: (A, seq<real>, real) -> seq<real>,
    resetVoltage: seq<real>,
    observation: seq<real>)

  /** The supply: its nominal voltage, `get_voltage(t, i_sup)`, and its
    * observation of a voltage and a current. */
  datatype LegacySupply = LegacySupply(
    names: seq<string>,
    uNominal: real,
    voltageLen: nat,
    getVoltage: (real, real) -> seq<real>,
    resetVoltage: seq<real>,
    observation: (seq<real>, real) -> seq<real>,
    resetObservation: seq<real>)

  /** What the components promise about sizes. */
  ghost predicate LegacyWellBehaved(load: LegacyLoad, motor: LegacyMotor, solver: SolverModel)
  {
    (forall t, s, q :: |load.mechanicalOde(t, s, q)| == |load.names|)
    && (forall s, u, w :: |motor.electricalOde(s, u, w)| == |motor.currents|)
    && (forall y, t0, t, u :: |solver.integrate(y, t0, t, u)| == |y|)
    && |load.resetState| == |load.names| && |motor.resetState| == |motor.currents|
    && load.omegaIdx < |load.names|
  }

  /** `state / limits` with `inf` limits: a finite number over `inf` is 0.
    * Arrays of different lengths do not broadcast, and a zero limit would
    * divide by zero. */
  predicate NoZeroBound(b: seq<Bound>)
  {
    forall i :: 0 <= i < |b| ==> b[i] != Finite(0.0)
  }

  function NormaliseByBounds(x: seq<real>, b: seq<Bound>): (r: Result<seq<real>>)
    ensures r.Ok? <==> |x| == |b| && NoZeroBound(b)
    ensures r.Ok? ==> |r.value| == |x|
  {
    if |x| != |b| then Err("ValueError: operands could not be broadcast together")
    else if !NoZeroBound(b) then Err("division by zero")
    else Ok(seq(|x|, i requires 0 <= i < |x| => if b[i].Finite? then x[i] / b[i].value else 0.0))
  }

  /** Normalising undoes scaling by the limit: entry times finite limit gives
    * back the state entry, and entries with an infinite limit become 0. */
  lemma NormaliseByBoundsInverts(x: seq<real>, b: seq<Bound>)
    requires |x| == |b| && NoZeroBound(b)
    ensures forall i :: 0 <= i < |x| && b[i].Finite? ==> NormaliseByBounds(x, b).value[i] * b[i].value == x[i]
    ensures forall i :: 0 <= i < |x| && b[i].Infinite? ==> NormaliseByBounds(x, b).value[i] == 0.0
  {
    var r := NormaliseByBounds(x, b).value;
    forall i | 0 <= i < |x| && b[i].Finite? ensures r[i] * b[i].value == x[i] {
      assert b[i].value != 0.0;
      assert r[i] == x[i] / b[i].value;
    }
  }

  /** What one pass of the older switching-time loop leaves behind. */
  datatype LegacyStep = LegacyStep(y: seq<real>, t: real, uIn: seq<real>, uSup: seq<real>, iSup: real)

  class LegacyScmlSystem<A> {
    const load: LegacyLoad
    const motor: LegacyMotor
    const converter: LegacyConverter<A>
    const supply: LegacySupply
    const solver: SolverModel
    const tau: real
    const stateNames: seq<string>
    const indices: Indices
    const useJacobian: bool
    const jacobianWarning: bool
    const limits: array<Bound>
    const nominalState: array<Bound>

    var k: nat
    var t: real
    var odeY: seq<real>
    var odeT: real
    var motorInput: seq<real>
    var motorState: Option<seq<real>>
    var loadState: Option<seq<real>>
    var systemState: seq<real>
    /** `_system_eq_placeholder` and the load derivative's size. */
    var placeholder: Option<seq<real>>
    var loadDerivSize: nat

    function OdeSize(): nat
    {
      |load.names| + |motor.currents|
    }

    /** What the constructor established about the components and arrays. */
    ghost predicate Composed()
    {
      LegacyWellBehaved(load, motor, solver)
      && limits.Length == |stateNames| && nominalState.Length == |stateNames|
    }

    ghost predicate Valid()
      reads this
    {
      Composed()
      && |odeY| == OdeSize()
      && (placeholder.Some? ==> |placeholder.value| == OdeSize() && loadDerivSize == |load.names|)
    }

    /** The state names, in the order load, motor, converter, supply. */
    static function StateNamesOf(load: LegacyLoad, motor: LegacyMotor, converter: LegacyConverter<A>, supply: LegacySupply): seq<string>
    {
      load.names + motor.names + converter.names + supply.names
    }

    /** A fresh array filled by the min rule, with the supply voltage's
      * entry overwritten. */
    static method MinRuleArray(names: seq<string>, motorValues: map<string, real>, loadValues: map<string, real>, uNominal: real)
      returns (a: array<Bound>)
      requires "u_sup" in names
      ensures fresh(a) && a.Length == |names|
      ensures a[..] == MinRule(names, motorValues, loadValues)[StatePositions(names)["u_sup"] := Finite(uNominal)]
    {
      a := new Bound[|names|](_ => Infinite);
      var filled := FillMinRule(a, names, motorValues, loadValues, uNominal);
    }

    /** The constructor past its two failure points: the indices need a load
      * with states, and the limits need a `u_sup` state. */
    constructor (load: LegacyLoad, motor: LegacyMotor, converter: LegacyConverter<A>, supply: LegacySupply,
                 solver: SolverModel, tau: real, calcJacobian: Option<bool>, hasJacobians: (bool, bool))
      requires LegacyWellBehaved(load, motor, solver)
      requires |load.names| > 0 && "u_sup" in StateNamesOf(load, motor, converter, supply)
      ensures Valid() && fresh(limits) && fresh(nominalState)
      ensures this.load == load && this.motor == motor && this.converter == converter
      ensures this.supply == supply && this.solver == solver && this.tau == tau
      ensures stateNames == StateNamesOf(load, motor, converter, supply)
      ensures (useJacobian, jacobianWarning) == JacobianChoice(calcJacobian, hasJacobians.0, hasJacobians.1)
      ensures Ok(indices) == SetIndices(|load.names|, load.omegaIdx, |motor.currents|, |motor.voltages|, supply.voltageLen)
      ensures limits[..] == MinRule(stateNames, motor.limits, load.limits)[StatePositions(stateNames)["u_sup"] := Finite(supply.uNominal)]
      ensures nominalState[..] == MinRule(stateNames, motor.nominalValues, load.nominalValues)[StatePositions(stateNames)["u_sup"] := Finite(supply.uNominal)]
      ensures k == 0 && t == 0.0 && motorState == None && loadState == None && placeholder == None
    {
      this.load := load;
      this.motor := motor;
      this.converter := converter;
      this.supply := supply;
      this.solver := solver;
      this.tau := tau;
      var choice := JacobianChoice(calcJacobian, hasJacobians.0, hasJacobians.1);
      useJacobian := choice.0;
      jacobianWarning := choice.1;
      var names := StateNamesOf(load, motor, converter, supply);
      stateNames := names;
      var idx := SetIndices(|load.names|, load.omegaIdx, |motor.currents|, |motor.voltages|, supply.voltageLen);
      assert idx.Ok?;
      indices := idx.value;
      var lim := MinRuleArray(names, motor.limits, load.limits, supply.uNominal);
      var nominal := MinRuleArray(names, motor.nominalValues, load.nominalValues, supply.uNominal);
      limits, nominalState := lim, nominal;
      k := 0;
      t := 0.0;
      odeY := Zeros(|load.names| + |motor.currents|);
      odeT := 0.0;
      motorInput := [];
      motorState := None;
      loadState := None;
      systemState := Zeros(|names|);
      placeholder := None;
      loadDerivSize := 0;
    }

    /** `_system_equation`: the first call builds the buffer as the load's
      * derivative followed by the motor's; later calls overwrite the two
      * parts in place. Either way the result is the system derivative. */
    method SystemEquation(time: real, state: seq<real>, uIn: seq<real>) returns (d: seq<real>)
      requires Valid() && |state| == OdeSize()
      modifies this
      ensures Valid()
      ensures d == SystemDerivative(load, motor, time, state, uIn)
      ensures placeholder == Some(d)
      ensures k == old(k) && t == old(t) && odeY == old(odeY) && odeT == old(odeT)
      ensures motorState == old(motorState) && loadState == old(loadState) && motorInput == old(motorInput)
    {
      var l := |load.names|;
      var ls, ms := state[..l], state[l..];
      var tq, w := motor.torque(ms), state[load.omegaIdx];
      if placeholder.None? {
        var motorDerivative := motor.electricalOde(ms, uIn, w);
        var loadDerivative := load.mechanicalOde(time, ls, tq);
        placeholder := Some(loadDerivative + motorDerivative);
        loadDerivSize := |loadDerivative|;
      } else {
        var buffer := placeholder.value;
        buffer := load.mechanicalOde(time, ls, tq) + buffer[loadDerivSize..];
        buffer := buffer[..loadDerivSize] + motor.electricalOde(ms, uIn, w);
        placeholder := Some(buffer);
      }
      d := placeholder.value;
    }

    /** The older switching-time loop: before each integration the motor is
      * fed the pairwise product of the converter output and the supply
      * voltage, both computed from the motor state `ms` and the step's start
      * time `start`. */
    function Steps(y: seq<real>, t0: real, targets: seq<real>, ms: seq<real>, action: A, start: real, u0: seq<real>): (r: LegacyStep)
      requires LegacyWellBehaved(load, motor, solver)
      ensures |r.y| == |y|
      ensures |targets| > 0 ==> r.t == targets[|targets| - 1]
      ensures |targets| == 0 ==> r.y == y && r.t == t0 && r.uIn == u0
    {
      if |targets| == 0 then LegacyStep(y, t0, u0, [], 0.0)
      else
        var prev := Steps(y, t0, targets[..|targets| - 1], ms, action, start, u0);
        var target := targets[|targets| - 1];
        var iIn := motor.iIn(ms);
        var iSup := converter.iSup(action, iIn);
        var uSup := supply.getVoltage(start, iSup);
        var uIn := PairwiseProduct(converter.convert(action, iIn, prev.t), uSup);
        LegacyStep(solver.integrate(prev.y, prev.t, target, uIn), target, uIn, uSup, iSup)
    }

    method StepAll(y0: seq<real>, t0: real, times: seq<real>, ms: seq<real>, action: A, start: real, u0: seq<real>)
      returns (r: LegacyStep)
      requires LegacyWellBehaved(load, motor, solver)
      ensures r == Steps(y0, t0, times, ms, action, start, u0)
    {
      r := LegacyStep(y0, t0, u0, [], 0.0);
      for n := 0 to |times|
        invariant r == Steps(y0, t0, times[..n], ms, action, start, u0)
      {
        var iIn := motor.iIn(ms);
        var iSup := converter.iSup(action, iIn);
        var uSup := supply.getVoltage(start, iSup);
        var uIn := converter.convert(action, iIn, r.t);
        uIn := PairwiseProduct(uIn, uSup);
        r := LegacyStep(solver.integrate(r.y, r.t, times[n], uIn), times[n], uIn, uSup, iSup);
        assert times[..n + 1][..n] == times[..n];
      }
      assert times[..|times|] == times;
    }

    /** `simulate(action)` of the older system: it integrates to the switching
      * times alone, takes the motor current from the state stored at reset,
      * sets the time to the solver's and counts the step; without a
      * switching time there is no supply observation to report. */
    method Simulate(action: A) returns (r: Result<seq<real>>)
      requires Valid() && motorState.Some?
      modifies this
      ensures Valid()
      ensures var s := Steps(old(odeY), old(odeT), converter.setAction(action, old(t)), old(motorState).value, action, old(t), old(motorInput));
              odeY == s.y && odeT == s.t && motorInput == s.uIn
              && (converter.setAction(action, old(t)) == [] ==> r.Err?)
              && (converter.setAction(action, old(t)) != [] ==>
                    r == NormaliseByBounds(load.observation(s.y[..|load.names|]) + motor.observation(s.y[|load.names|..])
                                           + supply.observation(s.uSup, s.iSup), limits[..]))
      ensures t == odeT && k == old(k) + 1
      ensures motorState == old(motorState) && loadState == old(loadState)
    {
      var times := converter.setAction(action, t);
      var s := StepAll(odeY, odeT, times, motorState.value, action, t, motorInput);
      Advance(s);
      if |times| == 0 {
        return Err("UnboundLocalError: u_sup");
      }
      var l := |load.names|;
      var observation := load.observation(s.y[..l]) + motor.observation(s.y[l..]) + supply.observation(s.uSup, s.iSup);
      Record(observation);
      r := NormaliseByBounds(observation, limits[..]);
    }

    /** `self.system_state = ...`: the unnormalised observation is kept. */
    method Record(observation: seq<real>)
      requires Valid()
      modifies this
      ensures Valid() && systemState == observation
      ensures odeY == old(odeY) && odeT == old(odeT) && motorInput == old(motorInput) && t == old(t) && k == old(k)
      ensures motorState == old(motorState) && loadState == old(loadState)
    {
      systemState := observation;
    }

    /** The state that `simulate` leaves behind once the switching-time loop
      * has run: the solver's state and time, the last motor input, the
      * time taken over from the solver and the step count. */
    method Advance(s: LegacyStep)
      requires Valid() && |s.y| == OdeSize()
      modifies this
      ensures Valid()
      ensures odeY == s.y && odeT == s.t && motorInput == s.uIn && t == s.t && k == old(k) + 1
      ensures motorState == old(motorState) && loadState == old(loadState) && systemState == old(systemState)
    {
      odeY, odeT, motorInput := s.y, s.t, s.uIn;
      t := odeT;
      k := k + 1;
    }

    /** `reset`: the load's and the motor's reset states make up the ODE state,
      * time and step restart at zero, and the observation with the
      * converter's and the supply's reset observations is returned
      * normalised. */
    method Reset() returns (r: Result<seq<real>>)
      requires Valid()
      modifies this
      ensures Valid()
      ensures loadState == Some(load.resetState) && motorState == Some(motor.resetState)
      ensures odeY == load.resetState + motor.resetState && odeT == 0.0 && t == 0.0 && k == 0
      ensures motorInput == old(motorInput) && systemState == old(systemState)
      ensures r == NormaliseByBounds(load.observation(load.resetState) + motor.observation(motor.resetState)
                                     + converter.observation + supply.resetObservation, limits[..])
    {
      Restart();
      var observation := load.observation(load.resetState) + motor.observation(motor.resetState)
                         + converter.observation + supply.resetObservation;
      r := NormaliseByBounds(observation, limits[..]);
    }

    /** The state part of `reset`: the components' reset states, the solver
      * restarted from them at time zero, and the step count at zero. */
    method Restart()
      requires Valid()
      modifies this
      ensures Valid()
      ensures loadState == Some(load.resetState) && motorState == Some(motor.resetState)
      ensures odeY == load.resetState + motor.resetState && odeT == 0.0 && t == 0.0 && k == 0
      ensures motorInput == old(motorInput) && systemState == old(systemState)
    {
      motorState := Some(motor.resetState);
      loadState := Some(load.resetState);
      t := 0.0;
      k := 0;
      odeY, odeT := load.resetState + motor.resetState, t;
    }
  }
}
