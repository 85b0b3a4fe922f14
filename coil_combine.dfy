/** `perform_complex_coil_combine` of the reconstruction gadget, after the
    inverse Fourier transform: every (n, s, slc) volume of the multi-channel
    image is combined into one channel as the sum over channels of the image
    times the conjugate coil sensitivity. */
module CoilCombine {
  import opened Arith
  import opened Arrays

  /** The image [RO, E1, E2, CHA, N, S, SLC] and the coil map
      [RO, E1, E2, CHA', N', S', SLC'] share the spatial extents; the map has
      every channel and slice of the image and at least one N and S entry. */
  predicate CombineInputs(im: NDArray, coilMap: NDArray) {
    im.Valid() && coilMap.Valid() && |im.dims| == 7 && |coilMap.dims| == 7
    && coilMap.dims[0] == im.dims[0] && coilMap.dims[1] == im.dims[1] && coilMap.dims[2] == im.dims[2]
    && coilMap.dims[3] >= im.dims[3]
    && coilMap.dims[4] > 0 && coilMap.dims[5] > 0 && coilMap.dims[6] >= im.dims[6]
  }

  /** The shape of the combined result, [RO, E1, E2, 1, N, S, SLC]. */
  function OutputDims(d: seq<nat>): (r: seq<nat>)
    requires |d| == 7
    ensures |r| == 7 && r[3] == 1
    ensures r[0] == d[0] && r[1] == d[1] && r[2] == d[2] && r[4] == d[4] && r[5] == d[5] && r[6] == d[6]
  {
    [d[0], d[1], d[2], 1, d[4], d[5], d[6]]
  }

  /** The (n, s, slc) task of a flat index. */
  datatype Task = Task(n: int, s: int, slc: int)

  /** The index arithmetic of the parallel loop body. */
  function Decompose(ii: nat, N: nat, S: nat): Task
    requires N > 0 && S > 0
  {
    var slc := ii / (N * S);
    var s := (ii - slc * N * S) / N;
    var n := ii - slc * N * S - s * N;
    Task(n, s, slc)
  }

  /** Every flat index below N*S*SLC names an in-range task, from which it
      is recomputed as n + N*(s + S*slc). */
  lemma DecomposeInRange(ii: nat, N: nat, S: nat, SLC: nat)
    requires ii < N * S * SLC
    ensures N > 0 && S > 0
    ensures 0 <= Decompose(ii, N, S).n < N && 0 <= Decompose(ii, N, S).s < S && 0 <= Decompose(ii, N, S).slc < SLC
    ensures ii == Decompose(ii, N, S).n + N * (Decompose(ii, N, S).s + S * Decompose(ii, N, S).slc)
  {
    FactorsPositive(N, S, SLC, ii);
    var t := Decompose(ii, N, S);
    var NS := N * S;
    DivBelow(ii, NS, SLC);
    var r := ii % NS;
    assert ii == NS * t.slc + r && 0 <= r < NS;
    Associate(t.slc, N, S);
    assert t.slc * N * S == NS * t.slc;
    assert r == ii - t.slc * N * S;
    DivBelow(r, N, S);
    assert r == N * t.s + r % N;
    assert t.n == r % N;
    Distribute(N, t.s, S * t.slc);
    Associate(N, S, t.slc);
  }

  lemma FactorsPositive(a: nat, b: nat, c: nat, x: nat)
    requires x < a * b * c
    ensures a > 0 && b > 0 && c > 0
  {
  }

  /** Every in-range task is the decomposition of the flat index
      n + N*(s + S*slc), so the loop reaches every output volume. */
  lemma DecomposeCompose(n: nat, s: nat, slc: nat, N: nat, S: nat)
    requires n < N && s < S
    ensures Decompose(n + N * (s + S * slc), N, S) == Task(n, s, slc)
  {
    var NS := N * S;
    var ii := n + N * (s + S * slc);
    StepBound(n, N, s, S);
    Distribute(N, s, S * slc);
    Associate(N, S, slc);
    assert ii == NS * slc + (n + N * s);
    DivModOfSum(NS, slc, n + N * s);
    Associate(slc, N, S);
    assert ii - slc * N * S == N * s + n;
    DivModOfSum(N, s, n);
  }

  /** The coil-map indices as the code computes them: n is clamped against
      axis 5 of the map and s against axis 6. */
  function ClampAsWritten(n: nat, s: nat, mapDims: seq<nat>): (nat, nat)
    requires |mapDims| == 7 && mapDims[5] > 0 && mapDims[6] > 0
  {
    (if n >= mapDims[5] then mapDims[5] - 1 else n, if s >= mapDims[6] then mapDims[6] - 1 else s)
  }

  /** With a map of one N and one S entry and three slices, and an image with
      two S entries, the task (n, s, slc) = (0, 1, 0) keeps s = 1: the map
      index is outside axis 5, and the element it addresses is the one of
      slice 1. */
  lemma ClampAsWrittenMissesAxis()
    ensures var mapDims: seq<nat> := [1, 1, 1, 1, 1, 1, 3];
      var cm := ClampAsWritten(0, 1, mapDims);
      cm == (0, 1)
      && !InRange7(mapDims, 0, 0, 0, 0, cm.0, cm.1, 0)
      && Offset7(mapDims, 0, 0, 0, 0, cm.0, cm.1, 0) == Offset7(mapDims, 0, 0, 0, 0, 0, 0, 1)
  {
  }

  /** Inside the gadget the image has one S entry, and the clamp as written
      still misplaces n: with a map of two N entries and an image of two,
      the task n = 1 is sent to map entry 0, where the corrected clamp keeps
      entry 1, which is in range. */
  lemma ClampAsWrittenDropsEntry()
    ensures var mapDims: seq<nat> := [1, 1, 1, 1, 2, 1, 1];
      ClampAsWritten(1, 0, mapDims) == (0, 0)
      && ClampIndices(1, 0, mapDims) == (1, 0)
      && InRange7(mapDims, 0, 0, 0, 0, 1, 0, 0)
  {
  }

  /** The coil-map indices clamped against the axes they index: N' (axis 4)
      and S' (axis 5). An index in range is kept, a larger one becomes the
      last entry. */
  function ClampIndices(n: nat, s: nat, mapDims: seq<nat>): (r: (nat, nat))
    requires |mapDims| == 7 && mapDims[4] > 0 && mapDims[5] > 0
    ensures r.0 < mapDims[4] && r.1 < mapDims[5]
    ensures r.0 <= n && r.1 <= s
    ensures (n < mapDims[4] ==> r.0 == n) && (s < mapDims[5] ==> r.1 == s)
    ensures (n >= mapDims[4] ==> r.0 == mapDims[4] - 1) && (s >= mapDims[5] ==> r.1 == mapDims[5] - 1)
  {
    (if n >= mapDims[4] then mapDims[4] - 1 else n, if s >= mapDims[5] then mapDims[5] - 1 else s)
  }

  /** Sum over the channels below k of image times conjugate map at voxel v. */
  function ChannelSum(im: NDArray, coilMap: NDArray, v: nat, n: nat, s: nat, slc: nat, cmN: nat, cmS: nat, k: nat): Complex
    requires CombineInputs(im, coilMap)
    requires v < SpatialSize(im.dims) && n < im.dims[4] && s < im.dims[5] && slc < im.dims[6]
    requires cmN < coilMap.dims[4] && cmS < coilMap.dims[5] && k <= im.dims[3]
  {
    if k == 0 then Zero
    else
      Add(ChannelSum(im, coilMap, v, n, s, slc, cmN, cmS, k - 1),
          Mul(SpatialAt(im, v, k - 1, n, s, slc), Conj(SpatialAt(coilMap, v, k - 1, cmN, cmS, slc))))
  }

  /** The combined value of voxel v in the volume (n, s, slc). */
  function Combined(im: NDArray, coilMap: NDArray, v: nat, n: nat, s: nat, slc: nat): Complex
    requires CombineInputs(im, coilMap)
    requires v < SpatialSize(im.dims) && n < im.dims[4] && s < im.dims[5] && slc < im.dims[6]
  {
    var cm := ClampIndices(n, s, coilMap.dims);
    ChannelSum(im, coilMap, v, n, s, slc, cm.0, cm.1, im.dims[3])
  }

  /** The combined value at flat position k of the result buffer. */
  function CombinedFlat(im: NDArray, coilMap: NDArray, k: nat): Complex
    requires CombineInputs(im, coilMap)
    requires k < SpatialSize(im.dims) * (im.dims[4] * im.dims[5] * im.dims[6])
  {
    var V, N, S, SLC := SpatialSize(im.dims), im.dims[4], im.dims[5], im.dims[6];
    DivBelow(k, V, N * S * SLC);
    DecomposeInRange(k / V, N, S, SLC);
    var t := Decompose(k / V, N, S);
    Combined(im, coilMap, k % V, t.n, t.s, t.slc)
  }

  /** A view starting at element (0, 0, 0, 0, n, s, slc) reaches channel c of
      voxel v at v + V*c. */
  lemma ViewOffset(d: seq<nat>, v: nat, c: nat, n: nat, s: nat, slc: nat)
    requires |d| == 7
    ensures Offset7(d, 0, 0, 0, 0, n, s, slc) + v + SpatialSize(d) * c == SpatialOffset(d, v, c, n, s, slc)
  {
    Offset7IsSpatialOffset(d, 0, 0, 0, 0, n, s, slc);
    var x := n + d[4] * (s + d[5] * slc);
    Distribute(SpatialSize(d), c, d[3] * x);
  }

  lemma OutputSize(d: seq<nat>)
    requires |d| == 7
    ensures Product(OutputDims(d)) == SpatialSize(d) * (d[4] * d[5] * d[6])
  {
    var o := OutputDims(d);
    Product7(o);
    Associate(d[4], d[5], d[6]);
    Associate(d[2], 1, d[4] * (d[5] * d[6]));
    Associate(d[1], d[2], d[4] * (d[5] * d[6]));
    Associate(d[0], d[1] * d[2], d[4] * (d[5] * d[6]));
    Associate(d[0], d[1], d[2]);
  }

  /** multiplyConj then sum_over_dimension over the channel axis for one
      voxel, reading the image view at imBase and the map view at mapBase. */
  method VoxelSum(im: NDArray, coilMap: NDArray, v: nat, n: nat, s: nat, slc: nat, cmN: nat, cmS: nat) returns (acc: Complex)
    requires CombineInputs(im, coilMap)
    requires v < SpatialSize(im.dims) && n < im.dims[4] && s < im.dims[5] && slc < im.dims[6]
    requires cmN < coilMap.dims[4] && cmS < coilMap.dims[5]
    ensures acc == ChannelSum(im, coilMap, v, n, s, slc, cmN, cmS, im.dims[3])
  {
    var V, CHA := SpatialSize(im.dims), im.dims[3];
    assert SpatialSize(coilMap.dims) == V;
    var imBase := Offset7(im.dims, 0, 0, 0, 0, n, s, slc);
    var mapBase := Offset7(coilMap.dims, 0, 0, 0, 0, cmN, cmS, slc);
    acc := Zero;
    var c := 0;
    while c < CHA
      invariant 0 <= c <= CHA
      invariant acc == ChannelSum(im, coilMap, v, n, s, slc, cmN, cmS, c)
    {
      ViewOffset(im.dims, v, c, n, s, slc);
      ViewOffset(coilMap.dims, v, c, cmN, cmS, slc);
      SpatialOffsetBound(im.dims, v, c, n, s, slc);
      SpatialOffsetBound(coilMap.dims, v, c, cmN, cmS, slc);
      acc := Add(acc, Mul(im.data[imBase + v + V * c], Conj(coilMap.data[mapBase + v + V * c])));
      c := c + 1;
    }
  }

  /** The combined volume (n, s, slc) written to buf[outBase ..
      outBase + V]; nothing else changes. */
  method CombineVolume(im: NDArray, coilMap: NDArray, buf: array<Complex>, n: nat, s: nat, slc: nat, cmN: nat, cmS: nat, outBase: nat)
    requires CombineInputs(im, coilMap)
    requires n < im.dims[4] && s < im.dims[5] && slc < im.dims[6]
    requires cmN < coilMap.dims[4] && cmS < coilMap.dims[5]
    requires outBase + SpatialSize(im.dims) <= buf.Length
    modifies buf
    ensures forall k :: 0 <= k < buf.Length && !(outBase <= k < outBase + SpatialSize(im.dims)) ==> buf[k] == old(buf[k])
    ensures forall k :: outBase <= k < outBase + SpatialSize(im.dims) ==>
              buf[k] == ChannelSum(im, coilMap, k - outBase, n, s, slc, cmN, cmS, im.dims[3])
  {
    var V := SpatialSize(im.dims);
    var v := 0;
    while v < V
      invariant 0 <= v <= V
      invariant forall k :: 0 <= k < buf.Length && !(outBase <= k < outBase + v) ==> buf[k] == old(buf[k])
      invariant forall k :: outBase <= k < outBase + v ==>
                  buf[k] == ChannelSum(im, coilMap, k - outBase, n, s, slc, cmN, cmS, im.dims[3])
    {
      var acc := VoxelSum(im, coilMap, v, n, s, slc, cmN, cmS);
      buf[outBase + v] := acc;
      v := v + 1;
    }
  }

  /** What the flat buffer holds is the combined value of each voxel. */
  lemma FlatIsCombined(im: NDArray, coilMap: NDArray, data: seq<Complex>, v: nat, n: nat, s: nat, slc: nat)
    requires CombineInputs(im, coilMap)
    requires |data| == Product(OutputDims(im.dims))
    requires forall k :: 0 <= k < |data| ==> CombinedFlat.requires(im, coilMap, k) && data[k] == CombinedFlat(im, coilMap, k)
    requires v < SpatialSize(im.dims) && n < im.dims[4] && s < im.dims[5] && slc < im.dims[6]
    ensures NDArray(OutputDims(im.dims), data).Valid()
    ensures SpatialAt(NDArray(OutputDims(im.dims), data), v, 0, n, s, slc) == Combined(im, coilMap, v, n, s, slc)
  {
    var d, o := im.dims, OutputDims(im.dims);
    var V, N, S := SpatialSize(d), d[4], d[5];
    var ii := n + N * (s + S * slc);
    assert SpatialOffset(o, v, 0, n, s, slc) == v + V * ii;
    SpatialOffsetBound(o, v, 0, n, s, slc);
    OutputSize(d);
    var k := v + V * ii;
    DivModOfSum(V, ii, v);
    DecomposeCompose(n, s, slc, N, S);
    assert data[k] == CombinedFlat(im, coilMap, k);
  }

  /** The volume written for task ii is the stretch [V*ii, V*ii + V) of the
      flat result. */
  lemma VolumeIsFlat(im: NDArray, coilMap: NDArray, ii: nat, n: nat, s: nat, slc: nat, k: nat)
    requires CombineInputs(im, coilMap) && im.dims[4] > 0 && im.dims[5] > 0
    requires ii < im.dims[4] * im.dims[5] * im.dims[6]
    requires Decompose(ii, im.dims[4], im.dims[5]) == Task(n, s, slc)
    requires n < im.dims[4] && s < im.dims[5] && slc < im.dims[6]
    requires SpatialSize(im.dims) * ii <= k < SpatialSize(im.dims) * ii + SpatialSize(im.dims)
    ensures k < SpatialSize(im.dims) * (im.dims[4] * im.dims[5] * im.dims[6])
    ensures CombinedFlat(im, coilMap, k) == Combined(im, coilMap, k - SpatialSize(im.dims) * ii, n, s, slc)
  {
    var V := SpatialSize(im.dims);
    var v := k - V * ii;
    MulMonotone(V, ii + 1, im.dims[4] * im.dims[5] * im.dims[6]);
    DivModOfSum(V, ii, v);
    assert k / V == ii && k % V == v;
  }

  /** Task ii is in range, and its output view starts at V*ii, with its
      stretch of V samples inside the result. */
  lemma TaskStretch(d: seq<nat>, ii: nat)
    requires |d| == 7 && ii < d[4] * d[5] * d[6]
    ensures d[4] > 0 && d[5] > 0
    ensures var t := Decompose(ii, d[4], d[5]);
      0 <= t.n < d[4] && 0 <= t.s < d[5] && 0 <= t.slc < d[6]
      && Offset7(OutputDims(d), 0, 0, 0, 0, t.n, t.s, t.slc) == SpatialSize(d) * ii
    ensures SpatialSize(d) * (ii + 1) == SpatialSize(d) * ii + SpatialSize(d) <= SpatialSize(d) * (d[4] * d[5] * d[6])
  {
    var N, S, SLC := d[4], d[5], d[6];
    DecomposeInRange(ii, N, S, SLC);
    var t := Decompose(ii, N, S);
    ViewOffset(OutputDims(d), 0, 0, t.n, t.s, t.slc);
    MulMonotone(SpatialSize(d), ii + 1, N * S * SLC);
  }

  /** One iteration of the parallel loop: task ii's volume is combined into
      its stretch of the result. */
  method CombineTask(im: NDArray, coilMap: NDArray, buf: array<Complex>, ii: nat)
    requires CombineInputs(im, coilMap)
    requires ii < im.dims[4] * im.dims[5] * im.dims[6]
    requires buf.Length == SpatialSize(im.dims) * (im.dims[4] * im.dims[5] * im.dims[6])
    requires SpatialSize(im.dims) * ii <= buf.Length
    requires forall k :: 0 <= k < SpatialSize(im.dims) * ii ==> buf[k] == CombinedFlat(im, coilMap, k)
    modifies buf
    ensures SpatialSize(im.dims) * (ii + 1) <= buf.Length
    ensures forall k :: 0 <= k < SpatialSize(im.dims) * (ii + 1) ==> buf[k] == CombinedFlat(im, coilMap, k)
    ensures forall k :: SpatialSize(im.dims) * (ii + 1) <= k < buf.Length ==> buf[k] == old(buf[k])
  {
    var N, S := im.dims[4], im.dims[5];
    var V := SpatialSize(im.dims);
    TaskStretch(im.dims, ii);
    var t := Decompose(ii, N, S);
    var n, s, slc: nat := t.n, t.s, t.slc;
    var cm := ClampIndices(n, s, coilMap.dims);
    var outBase := Offset7(OutputDims(im.dims), 0, 0, 0, 0, n, s, slc);
    CombineVolume(im, coilMap, buf, n, s, slc, cm.0, cm.1, outBase);
    forall k | V * ii <= k < V * ii + V
      ensures buf[k] == CombinedFlat(im, coilMap, k)
    {
      VolumeIsFlat(im, coilMap, ii, n, s, slc, k);
    }
  }

  /** `res` has the output shape and holds, at channel 0 of every spatial
      voxel of every (n, s, slc) volume, the combined value. */
  predicate IsCombination(im: NDArray, coilMap: NDArray, res: NDArray)
    requires CombineInputs(im, coilMap)
  {
    res.dims == OutputDims(im.dims) && res.Valid()
    && forall v: nat, n: nat, s: nat, slc: nat :: v < SpatialSize(im.dims) && n < im.dims[4] && s < im.dims[5] && slc < im.dims[6] ==>
         SpatialAt(res, v, 0, n, s, slc) == Combined(im, coilMap, v, n, s, slc)
  }

  /** `perform_complex_coil_combine` on a given image buffer: the result is
      created with shape [RO, E1, E2, 1, N, S, SLC] and zeroed, then the
      loop over the N*S*SLC tasks writes every volume. */
  method PerformComplexCoilCombine(im: NDArray, coilMap: NDArray) returns (res: NDArray)
    requires CombineInputs(im, coilMap)
    ensures IsCombination(im, coilMap, res)
  {
    var N, S, SLC := im.dims[4], im.dims[5], im.dims[6];
    var V := SpatialSize(im.dims);
    var outDims := OutputDims(im.dims);
    OutputSize(im.dims);
    var buf := new Complex[Product(outDims)](_ => Zero);
    var num := N * S * SLC;
    var ii := 0;
    while ii < num
      invariant 0 <= ii <= num
      invariant V * ii <= buf.Length
      invariant forall k :: 0 <= k < V * ii ==> buf[k] == CombinedFlat(im, coilMap, k)
    {
      CombineTask(im, coilMap, buf, ii);
      ii := ii + 1;
    }
    res := NDArray(outDims, buf[..]);
    forall v: nat, n: nat, s: nat, slc: nat | v < V && n < N && s < S && slc < SLC
      ensures SpatialAt(res, v, 0, n, s, slc) == Combined(im, coilMap, v, n, s, slc)
    {
      FlatIsCombined(im, coilMap, buf[..], v, n, s, slc);
    }
  }

  /** With one channel and a unit sensitivity the combined value is the
      image sample itself. */
  lemma SingleChannelUnitMap(im: NDArray, coilMap: NDArray, v: nat, n: nat, s: nat, slc: nat)
    requires CombineInputs(im, coilMap) && im.dims[3] == 1
    requires v < SpatialSize(im.dims) && n < im.dims[4] && s < im.dims[5] && slc < im.dims[6]
    requires var cm := ClampIndices(n, s, coilMap.dims);
      SpatialAt(coilMap, v, 0, cm.0, cm.1, slc) == Complex(1.0, 0.0)
    ensures Combined(im, coilMap, v, n, s, slc) == SpatialAt(im, v, 0, n, s, slc)
  {
    var cm := ClampIndices(n, s, coilMap.dims);
    assert ChannelSum(im, coilMap, v, n, s, slc, cm.0, cm.1, 0) == Zero;
  }

  /** The sum of the squared magnitudes of the channels below k of voxel v. */
  function SumSq(im: NDArray, v: nat, n: nat, s: nat, slc: nat, k: nat): real
    requires im.Valid() && |im.dims| == 7
    requires v < SpatialSize(im.dims) && n < im.dims[4] && s < im.dims[5] && slc < im.dims[6] && k <= im.dims[3]
  {
    if k == 0 then 0.0
    else
      var z := SpatialAt(im, v, k - 1, n, s, slc);
      SumSq(im, v, n, s, slc, k - 1) + (z.re * z.re + z.im * z.im)
  }

  /** The channel sum of an image with itself is the real sum of the
      squared magnitudes. */
  lemma {:induction false} SelfChannelSum(im: NDArray, v: nat, n: nat, s: nat, slc: nat, k: nat)
    requires CombineInputs(im, im)
    requires v < SpatialSize(im.dims) && n < im.dims[4] && s < im.dims[5] && slc < im.dims[6] && k <= im.dims[3]
    ensures ChannelSum(im, im, v, n, s, slc, n, s, k) == Complex(SumSq(im, v, n, s, slc, k), 0.0)
  {
    if k > 0 {
      SelfChannelSum(im, v, n, s, slc, k - 1);
      MulConjSelf(SpatialAt(im, v, k - 1, n, s, slc));
    }
  }

  /** The channel sum of an image with itself stays real, and it is zero
      when every channel so far is zero and positive otherwise. */
  lemma {:induction false} SelfChannelSumSign(im: NDArray, v: nat, n: nat, s: nat, slc: nat, k: nat)
    requires CombineInputs(im, im)
    requires v < SpatialSize(im.dims) && n < im.dims[4] && s < im.dims[5] && slc < im.dims[6] && k <= im.dims[3]
    ensures RealSum(ChannelSum(im, im, v, n, s, slc, n, s, k), AllChannelsZero(im, v, n, s, slc, k))
  {
    if k > 0 {
      SelfChannelSumSign(im, v, n, s, slc, k - 1);
      var z := SpatialAt(im, v, k - 1, n, s, slc);
      AllChannelsZeroStep(im, v, n, s, slc, k);
      var prev := ChannelSum(im, im, v, n, s, slc, n, s, k - 1);
      AddSquaredMagnitude(prev, z);
      RealSumStep(prev, ChannelSum(im, im, v, n, s, slc, n, s, k), IsNonzero(z),
                  AllChannelsZero(im, v, n, s, slc, k - 1), AllChannelsZero(im, v, n, s, slc, k));
    }
  }

  /** `c` is real: zero when `zero` holds and positive otherwise. */
  predicate RealSum(c: Complex, zero: bool) {
    c.im == 0.0 && (zero ==> c.re == 0.0) && (!zero ==> c.re > 0.0)
  }

  /** One channel more: a real sum that stays real and grows exactly when
      the new channel is nonzero is positive exactly when some channel so
      far is nonzero. */
  lemma RealSumStep(prev: Complex, next: Complex, grows: bool, zeroBefore: bool, zeroNow: bool)
    requires RealSum(prev, zeroBefore)
    requires next.im == 0.0 && next.re >= prev.re
    requires (grows ==> next.re > prev.re) && (!grows ==> next.re == prev.re)
    requires zeroNow == (zeroBefore && !grows)
    ensures RealSum(next, zeroNow)
  {
  }

  lemma AllChannelsZeroStep(im: NDArray, v: nat, n: nat, s: nat, slc: nat, k: nat)
    requires im.Valid() && |im.dims| == 7
    requires v < SpatialSize(im.dims) && n < im.dims[4] && s < im.dims[5] && slc < im.dims[6] && 0 < k <= im.dims[3]
    ensures AllChannelsZero(im, v, n, s, slc, k) ==
            (AllChannelsZero(im, v, n, s, slc, k - 1) && !IsNonzero(SpatialAt(im, v, k - 1, n, s, slc)))
  {
  }

  /** Every channel below k of voxel v is zero. */
  predicate AllChannelsZero(im: NDArray, v: nat, n: nat, s: nat, slc: nat, k: nat)
    requires im.Valid() && |im.dims| == 7
    requires v < SpatialSize(im.dims) && n < im.dims[4] && s < im.dims[5] && slc < im.dims[6] && k <= im.dims[3]
  {
    forall c :: 0 <= c < k ==> !IsNonzero(SpatialAt(im, v, c, n, s, slc))
  }

  /** Combining an image with itself gives the sum of the squared magnitudes
      of the channels: a real value, zero when every channel is zero and
      positive otherwise. */
  lemma SelfCombine(im: NDArray, v: nat, n: nat, s: nat, slc: nat)
    requires CombineInputs(im, im)
    requires v < SpatialSize(im.dims) && n < im.dims[4] && s < im.dims[5] && slc < im.dims[6]
    ensures Combined(im, im, v, n, s, slc) == Complex(SumSq(im, v, n, s, slc, im.dims[3]), 0.0)
    ensures RealSum(Combined(im, im, v, n, s, slc), AllChannelsZero(im, v, n, s, slc, im.dims[3]))
  {
    assert ClampIndices(n, s, im.dims) == (n, s);
    SelfChannelSum(im, v, n, s, slc, im.dims[3]);
    SelfChannelSumSign(im, v, n, s, slc, im.dims[3]);
  }

  /** The combined result read with the 7 indices of the output array. */
  lemma CombinedAt(im: NDArray, coilMap: NDArray, res: NDArray, ro: nat, e1: nat, e2: nat, n: nat, s: nat, slc: nat)
    requires CombineInputs(im, coilMap)
    requires IsCombination(im, coilMap, res)
    requires InRange7(res.dims, ro, e1, e2, 0, n, s, slc)
    ensures ro + im.dims[0] * (e1 + im.dims[1] * e2) < SpatialSize(im.dims)
    ensures At(res, ro, e1, e2, 0, n, s, slc) == Combined(im, coilMap, ro + im.dims[0] * (e1 + im.dims[1] * e2), n, s, slc)
  {
    var v := ro + im.dims[0] * (e1 + im.dims[1] * e2);
    AtIsSpatialAt(res, ro, e1, e2, 0, n, s, slc);
    assert SpatialSize(res.dims) == SpatialSize(im.dims);
    assert SpatialAt(res, v, 0, n, s, slc) == Combined(im, coilMap, v, n, s, slc);
  }
}
