/**
 * Shared vocabulary of the drive-simulation model: optional values and
 * failures, elementwise vector arithmetic on `seq<real>`, clipping, and the
 * sorted duplicate-free time lists that the converters return.
 */
module Common {

  datatype Option<T> = None | Some(value: T)

  /** A computation that either produces a value or fails the way the source
    * raises (an assertion, a KeyError, a NotImplementedError, ...). */
  datatype Result<T> = Ok(value: T) | Err(error: string)

  // ---------------------------------------------------------------- scalars

  /** numpy's `clip(x, lo, hi)`, i.e. `min(max(x, lo), hi)`. */
  function Clip(x: real, lo: real, hi: real): (r: real)
    ensures lo <= hi ==> lo <= r <= hi
    ensures lo <= x <= hi ==> r == x
    ensures x < lo && lo <= hi ==> r == lo
    ensures hi < x && lo <= hi ==> r == hi
  {
    var m := if x < lo then lo else x;
    if m > hi then hi else m
  }

  /** numpy's `sign` on one real. */
  function Sign(x: real): (r: real)
    ensures r == -1.0 || r == 0.0 || r == 1.0
    ensures r * x >= 0.0 && (r == 0.0 <==> x == 0.0)
  {
    if x > 0.0 then 1.0 else if x < 0.0 then -1.0 else 0.0
  }

  function Abs(x: real): real { if x < 0.0 then -x else x }

  function Max(a: real, b: real): real { if a < b then b else a }

  function Min(a: real, b: real): real { if a < b then a else b }

  // ---------------------------------------------------------------- vectors

  /** A setter argument that is either a plain number, filled into the stored
    * shape, or an array, copied as it is (and then defining the shape). */
  datatype ScalarOrArray = Scalar(x: real) | Array(values: seq<real>)

  function Materialise(v: ScalarOrArray, shape: nat): (r: seq<real>)
    ensures v.Scalar? ==> |r| == shape && forall i :: 0 <= i < shape ==> r[i] == v.x
    ensures v.Array? ==> r == v.values
  {
    match v
    case Scalar(x) => seq(shape, i => x)
    case Array(values) => values
  }

  /** Elementwise `a + b`. */
  function Add(a: seq<real>, b: seq<real>): (r: seq<real>)
    requires |a| == |b|
    ensures |r| == |a| && forall i :: 0 <= i < |a| ==> r[i] == a[i] + b[i]
  {
    seq(|a|, i requires 0 <= i < |a| => a[i] + b[i])
  }

  /** `c * a`, elementwise. */
  function Scale(c: real, a: seq<real>): (r: seq<real>)
    ensures |r| == |a| && forall i :: 0 <= i < |a| ==> r[i] == c * a[i]
  {
    seq(|a|, i requires 0 <= i < |a| => c * a[i])
  }

  /** Elementwise `a / b`; numpy would yield inf or nan for a zero divisor. */
  function Divide(a: seq<real>, b: seq<real>): (r: seq<real>)
    requires |a| == |b| && forall i :: 0 <= i < |b| ==> b[i] != 0.0
    ensures |r| == |a| && forall i :: 0 <= i < |a| ==> r[i] * b[i] == a[i]
  {
    seq(|a|, i requires 0 <= i < |a| => a[i] / b[i])
  }

  function Zeros(n: nat): (r: seq<real>)
    ensures |r| == n && forall i :: 0 <= i < n ==> r[i] == 0.0
  {
    seq(n, i => 0.0)
  }

  /** Sum of the elements, accumulated from the left as the source's loops do. */
  function Sum(s: seq<real>): real
  {
    if |s| == 0 then 0.0 else Sum(s[..|s| - 1]) + s[|s| - 1]
  }

  /** Product of the elements, accumulated from the left. */
  function Product(s: seq<real>): real
  {
    if |s| == 0 then 1.0 else Product(s[..|s| - 1]) * s[|s| - 1]
  }

  /** The concatenation `ss[0] + ss[1] + ...`, as `np.concatenate` builds it. */
  function Flatten<T>(ss: seq<seq<T>>): seq<T>
  {
    if |ss| == 0 then [] else Flatten(ss[..|ss| - 1]) + ss[|ss| - 1]
  }

  /** Offsets(ls)[i] is where the i-th block starts in `Flatten` of blocks of lengths `ls`. */
  function Offset(ls: seq<nat>, i: nat): nat
    requires i <= |ls|
  {
    if i == 0 then 0 else Offset(ls, i - 1) + ls[i - 1]
  }

  function Lengths<T>(ss: seq<seq<T>>): (ls: seq<nat>)
    ensures |ls| == |ss| && forall i :: 0 <= i < |ss| ==> ls[i] == |ss[i]|
  {
    seq(|ss|, i requires 0 <= i < |ss| => |ss[i]|)
  }

  /** Block `i` of a concatenation sits at `Offset(lengths, i)`. */
  lemma {:induction false} FlattenBlock<T>(ss: seq<seq<T>>, i: nat, j: nat)
    requires i < |ss| && j < |ss[i]|
    ensures |Flatten(ss)| == Offset(Lengths(ss), |ss|)
    ensures Offset(Lengths(ss), i) + j < |Flatten(ss)|
    ensures Flatten(ss)[Offset(Lengths(ss), i) + j] == ss[i][j]
  {
    var n := |ss| - 1;
    FlattenLength(ss);
    FlattenLength(ss[..n]);
    OffsetPrefix(Lengths(ss), Lengths(ss[..n]), n);
    if i < n {
      FlattenBlock(ss[..n], i, j);
      OffsetPrefix(Lengths(ss), Lengths(ss[..n]), i);
      OffsetMonotone(Lengths(ss), i + 1, n);
    }
  }

  lemma {:induction false} FlattenLength<T>(ss: seq<seq<T>>)
    ensures |Flatten(ss)| == Offset(Lengths(ss), |ss|)
  {
    if |ss| > 0 {
      var n := |ss| - 1;
      FlattenLength(ss[..n]);
      OffsetPrefix(Lengths(ss), Lengths(ss[..n]), n);
    }
  }

  /** Offsets only depend on the lengths before the block. */
  lemma {:induction false} OffsetPrefix(ls: seq<nat>, ms: seq<nat>, i: nat)
    requires i <= |ls| && i <= |ms| && ls[..i] == ms[..i]
    ensures Offset(ls, i) == Offset(ms, i)
  {
    if i > 0 {
      assert ls[..i - 1] == ls[..i][..i - 1] && ms[..i - 1] == ms[..i][..i - 1];
      assert ls[i - 1] == ls[..i][i - 1];
      OffsetPrefix(ls, ms, i - 1);
    }
  }

  lemma {:induction false} OffsetMonotone(ls: seq<nat>, i: nat, j: nat)
    requires i <= j <= |ls|
    ensures Offset(ls, i) <= Offset(ls, j)
  {
    if i < j { OffsetMonotone(ls, i, j - 1); }
  }

  // ------------------------------------------------- sorted(set(times)) lists

  predicate StrictlyIncreasing(s: seq<real>)
  {
    forall i, j :: 0 <= i < j < |s| ==> s[i] < s[j]
  }

  /** Adds `x` to a strictly increasing list, keeping it strictly increasing. */
  function Insert(s: seq<real>, x: real): (r: seq<real>)
    requires StrictlyIncreasing(s)
    ensures StrictlyIncreasing(r)
    ensures forall y :: y in r <==> y in s || y == x
  {
    if |s| == 0 then [x]
    else if x < s[0] then [x] + s
    else if x == s[0] then s
    else
      var rest := Insert(s[1..], x);
      assert forall y :: y in s <==> y == s[0] || y in s[1..];
      assert forall k :: 0 <= k < |rest| ==> s[0] < rest[k] by {
        forall k | 0 <= k < |rest| ensures s[0] < rest[k] {
          assert rest[k] in rest;
        }
      }
      [s[0]] + rest
  }

  /** `sorted(set(acc + xs))` for an `acc` that is already sorted and duplicate-free. */
  function SortedUnion(acc: seq<real>, xs: seq<real>): (r: seq<real>)
    requires StrictlyIncreasing(acc)
    ensures StrictlyIncreasing(r)
    ensures forall y :: y in r <==> y in acc || y in xs
  {
    if |xs| == 0 then acc
    else
      var r := Insert(SortedUnion(acc, xs[..|xs| - 1]), xs[|xs| - 1]);
      assert forall y :: y in xs <==> y in xs[..|xs| - 1] || y == xs[|xs| - 1] by {
        assert xs == xs[..|xs| - 1] + [xs[|xs| - 1]];
      }
      r
  }

  /** A strictly increasing list is determined by its elements, so `SortedUnion`
    * is the one and only sorted, duplicate-free listing of a set of times. */
  lemma {:induction false} SortedUnique(a: seq<real>, b: seq<real>)
    requires StrictlyIncreasing(a) && StrictlyIncreasing(b)
    requires forall y :: y in a <==> y in b
    ensures a == b
  {
    if |a| > 0 { assert a[0] in a; }
    if |b| > 0 { assert b[0] in b; }
    if |a| > 0 {
      // Both heads are the least element of the common set.
      var k :| 0 <= k < |b| && b[k] == a[0];
      assert b[0] <= a[0];
      var m :| 0 <= m < |a| && a[m] == b[0];
      assert a[0] <= b[0];
      forall y ensures y in a[1..] <==> y in b[1..] {
        if y in a[1..] {
          var k :| 1 <= k < |a| && a[k] == y;
          assert y in b && y != b[0];
        }
        if y in b[1..] {
          var k :| 1 <= k < |b| && b[k] == y;
          assert y in a && y != a[0];
        }
      }
      SortedUnique(a[1..], b[1..]);
      assert a == [a[0]] + a[1..] && b == [b[0]] + b[1..];
    }
  }
}
