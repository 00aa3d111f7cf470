/** The uniform-data half of the Hopkins statistic for binary data: each
    probe is a random 0/1 vector (one coin flip per dimension) stored as a
    sparse vector of shorts, and the statistic accumulates the dim-th power
    of every probe's k-nearest-neighbour distance. */
module HopkinsBinary {

  /** Java's 16-bit short. */
  newtype Short = x: int | -0x8000 <= x < 0x8000

  /** SparseShortVector(indices, values, dim): entry values[j] sits at
      dimension indices[j]; every other dimension is 0. */
  datatype SparseShortVector = SparseShortVector(indices: seq<int>, values: seq<Short>, dim: int)

  /** MathUtil.powi: x raised to a non-negative integer power. */
  function Powi(x: real, p: nat): real
  {
    if p == 0 then 1.0 else x * Powi(x, p - 1)
  }

  /** The dimensions whose coin flip came up true, in the order the flips
      were drawn. */
  function SetDimensions(flips: seq<bool>): (r: seq<int>)
    ensures |r| <= |flips|
    ensures forall i :: 0 <= i < |r| ==> 0 <= r[i] < |flips|
  {
    if flips == [] then []
    else
      var p := flips[..|flips| - 1];
      SetDimensions(p) + (if flips[|flips| - 1] then [|flips| - 1] else [])
  }

  /** The probe built from one row of flips: the set dimensions as indices,
      each with value 1, in a space of dim dimensions. */
  function Probe(flips: seq<bool>, dim: int): SparseShortVector
  {
    var ix := SetDimensions(flips);
    SparseShortVector(ix, seq(|ix|, _ => 1 as Short), dim)
  }

  /** The sum over probe rows of powi(kDistance(probe, k), dim). */
  function ProbeSum(rows: seq<seq<bool>>, dim: nat, k: int,
                    kDistance: (SparseShortVector, int) -> real): real
  {
    if rows == [] then 0.0
    else
      ProbeSum(rows[..|rows| - 1], dim, k, kDistance)
        + Powi(kDistance(Probe(rows[|rows| - 1], dim), k), dim)
  }

  /** A dimension is listed exactly when its flip was true, and the list is
      strictly ascending. */
  lemma {:induction false} SetDimensionsSpec(flips: seq<bool>)
    ensures forall d :: d in SetDimensions(flips) <==> 0 <= d < |flips| && flips[d]
    ensures forall i, j :: 0 <= i < j < |SetDimensions(flips)| ==>
      SetDimensions(flips)[i] < SetDimensions(flips)[j]
  {
    if flips != [] {
      var p := flips[..|flips| - 1];
      var n := |flips| - 1;
      SetDimensionsSpec(p);
      var r0 := SetDimensions(p);
      var tail := if flips[n] then [n] else [];
      assert SetDimensions(flips) == r0 + tail;
      forall d
        ensures d in SetDimensions(flips) <==> 0 <= d < |flips| && flips[d]
      {
        if 0 <= d < n {
          assert flips[d] == p[d];
        }
      }
    }
  }

  /** The probe matches its flips: indices are exactly the true dimensions,
      ascending, the values run parallel to them and are all 1, and the
      dimensionality is the one asked for. */
  lemma ProbeMatchesFlips(flips: seq<bool>, dim: int)
    requires |flips| == dim
    ensures var v := Probe(flips, dim);
      && v.dim == dim
      && (forall d :: d in v.indices <==> 0 <= d < dim && flips[d])
      && (forall i, j :: 0 <= i < j < |v.indices| ==> v.indices[i] < v.indices[j])
      && |v.values| == |v.indices|
      && (forall j :: 0 <= j < |v.values| ==> v.values[j] == 1)
  {
    SetDimensionsSpec(flips);
  }

  /** The first loop of a probe: the dimensions whose flip came up true are
      appended to a list. */
  method CollectSetDimensions(flips: seq<bool>) returns (setDimensions: seq<int>)
    ensures setDimensions == SetDimensions(flips)
  {
    setDimensions := [];
    var d := 0;
    while d < |flips|
      invariant 0 <= d <= |flips|
      invariant setDimensions == SetDimensions(flips[..d])
    {
      assert flips[..d + 1][..d] == flips[..d];
      if flips[d] {
        setDimensions := setDimensions + [d];
      }
      d := d + 1;
    }
    assert flips[..d] == flips;
  }

  /** Building one probe: the set dimensions are copied into the index array
      while the value array is filled with 1. */
  method BuildProbe(flips: seq<bool>, dim: int) returns (v: SparseShortVector)
    requires |flips| == dim
    ensures v == Probe(flips, dim)
  {
    var setDimensions := CollectSetDimensions(flips);
    var indices := new int[|setDimensions|];
    var values := new Short[indices.Length];
    var j := 0;
    while j < indices.Length
      invariant 0 <= j <= indices.Length
      invariant indices[..j] == setDimensions[..j]
      invariant forall i :: 0 <= i < j ==> values[i] == 1
    {
      indices[j] := setDimensions[j];
      values[j] := 1;
      j := j + 1;
    }
    assert indices[..] == setDimensions;
    assert values[..] == seq(|setDimensions|, _ => 1 as Short);
    v := SparseShortVector(indices[..], values[..], dim);
  }

  /** computeNNForUniformData: sampleSize probes, one row of flips each
      (Random.nextBoolean, drawn in order), each queried once for its k-th
      nearest-neighbour distance; u sums the dim-th powers. The extend
      argument is passed but never read. The ghost queries record the
      kNN requests in order. */
  method ComputeNNForUniformData(kDistance: (SparseShortVector, int) -> real, k: int,
                                 sampleSize: int, flips: seq<seq<bool>>,
                                 min: seq<real>, extend: seq<real>)
    returns (u: real, ghost queries: seq<(SparseShortVector, int)>)
    requires |flips| == (if sampleSize > 0 then sampleSize else 0)
    requires forall i :: 0 <= i < |flips| ==> |flips[i]| == |min|
    ensures u == ProbeSum(flips, |min|, k, kDistance)
    ensures sampleSize <= 0 ==> u == 0.0
    ensures |queries| == |flips|
    ensures forall i :: 0 <= i < |flips| ==> queries[i] == (Probe(flips[i], |min|), k)
  {
    var dim := |min|;
    u := 0.0;
    queries := [];
    var i := 0;
    while i < sampleSize
      invariant 0 <= i <= |flips|
      invariant u == ProbeSum(flips[..i], dim, k, kDistance)
      invariant |queries| == i
      invariant forall q :: 0 <= q < i ==> queries[q] == (Probe(flips[q], dim), k)
    {
      var vector := BuildProbe(flips[i], dim);
      var kdist := kDistance(vector, k);
      queries := queries + [(vector, k)];
      assert flips[..i + 1][..i] == flips[..i];
      u := u + Powi(kdist, dim);
      i := i + 1;
    }
    assert flips[..i] == flips;
  }

  lemma {:induction false} PowiNonNeg(x: real, p: nat)
    requires x >= 0.0
    ensures Powi(x, p) >= 0.0
  {
    if p > 0 {
      PowiNonNeg(x, p - 1);
    }
  }

  /** A zero distance raised to a positive power is 0. */
  lemma PowiZero(p: nat)
    requires p >= 1
    ensures Powi(0.0, p) == 0.0
  {
  }

  /** With non-negative k-distances the accumulated u is non-negative. */
  lemma {:induction false} ProbeSumNonNeg(rows: seq<seq<bool>>, dim: nat, k: int,
                                          kDistance: (SparseShortVector, int) -> real)
    requires forall i :: 0 <= i < |rows| ==> kDistance(Probe(rows[i], dim), k) >= 0.0
    ensures ProbeSum(rows, dim, k, kDistance) >= 0.0
  {
    if rows != [] {
      var p := rows[..|rows| - 1];
      var last := rows[|rows| - 1];
      assert forall i :: 0 <= i < |p| ==> p[i] == rows[i];
      ProbeSumNonNeg(p, dim, k, kDistance);
      PowiNonNeg(kDistance(Probe(last, dim), k), dim);
    }
  }

  /** The sum over two batches of probes is the sum of their sums. */
  lemma {:induction false} ProbeSumAppend(a: seq<seq<bool>>, b: seq<seq<bool>>, dim: nat, k: int,
                                          kDistance: (SparseShortVector, int) -> real)
    ensures ProbeSum(a + b, dim, k, kDistance) ==
      ProbeSum(a, dim, k, kDistance) + ProbeSum(b, dim, k, kDistance)
  {
    if b == [] {
      assert a + b == a;
    } else {
      var b' := b[..|b| - 1];
      assert (a + b)[..|a + b| - 1] == a + b';
      ProbeSumAppend(a, b', dim, k, kDistance);
    }
  }

  /** A probe whose k-distance is 0 adds nothing to u when dim >= 1: u is
      the same as with that probe left out. */
  lemma ZeroKDistanceContributesNothing(rows: seq<seq<bool>>, i: nat, dim: nat, k: int,
                                        kDistance: (SparseShortVector, int) -> real)
    requires i < |rows| && dim >= 1
    requires kDistance(Probe(rows[i], dim), k) == 0.0
    ensures ProbeSum(rows, dim, k, kDistance) ==
      ProbeSum(rows[..i] + rows[i + 1..], dim, k, kDistance)
  {
    assert rows == rows[..i] + [rows[i]] + rows[i + 1..];
    ProbeSumAppend(rows[..i] + [rows[i]], rows[i + 1..], dim, k, kDistance);
    ProbeSumAppend(rows[..i], [rows[i]], dim, k, kDistance);
    ProbeSumAppend(rows[..i], rows[i + 1..], dim, k, kDistance);
    assert ProbeSum([rows[i]], dim, k, kDistance) == Powi(0.0, dim);
    PowiZero(dim);
  }

  /** Nothing guards against dim = 0: powi(kdist, 0) is 1 for every probe,
      so u counts the probes whatever their k-distances. */
  lemma {:induction false} ZeroDimensionCountsProbes(rows: seq<seq<bool>>, k: int,
                                                     kDistance: (SparseShortVector, int) -> real)
    ensures ProbeSum(rows, 0, k, kDistance) == |rows| as real
  {
    if rows != [] {
      ZeroDimensionCountsProbes(rows[..|rows| - 1], k, kDistance);
    }
  }
}
