/** The dense complex array of the reconstruction pipeline (Gadgetron's
    hoNDArray of std::complex<float>): a list of axis extents and a flat
    buffer in column-major order, axis 0 varying fastest. Sample values are
    complex numbers over `real`; single-precision rounding is not modelled. */
module Arrays {
  import opened Arith

  datatype Complex = Complex(re: real, im: real)

  const Zero: Complex := Complex(0.0, 0.0)

  function Add(a: Complex, b: Complex): Complex {
    Complex(a.re + b.re, a.im + b.im)
  }

  function Mul(a: Complex, b: Complex): Complex {
    Complex(a.re * b.re - a.im * b.im, a.re * b.im + a.im * b.re)
  }

  function Conj(a: Complex): Complex {
    Complex(a.re, -a.im)
  }

  /** `std::abs(z) > 0`. */
  predicate IsNonzero(z: Complex) {
    z.re != 0.0 || z.im != 0.0
  }

  /** A value times its own conjugate is its squared magnitude. */
  lemma MulConjSelf(z: Complex)
    ensures Mul(z, Conj(z)) == Complex(z.re * z.re + z.im * z.im, 0.0)
  {
  }

  lemma SquareFacts(x: real)
    ensures x * x >= 0.0
    ensures x != 0.0 ==> x * x > 0.0
    ensures x == 0.0 ==> x * x == 0.0
  {
    if x < 0.0 {
      assert x * x == (-x) * (-x);
    }
  }

  lemma NonnegativeSum(a: real, b: real)
    requires a >= 0.0 && b >= 0.0
    ensures a + b >= 0.0
    ensures a > 0.0 || b > 0.0 ==> a + b > 0.0
    ensures a == 0.0 && b == 0.0 ==> a + b == 0.0
  {
  }

  /** The squared magnitude is positive exactly for the nonzero values. */
  lemma NormFacts(z: Complex)
    ensures z.re * z.re + z.im * z.im >= 0.0
    ensures IsNonzero(z) ==> z.re * z.re + z.im * z.im > 0.0
    ensures !IsNonzero(z) ==> z.re * z.re + z.im * z.im == 0.0
  {
    SquareFacts(z.re);
    SquareFacts(z.im);
    NonnegativeSum(z.re * z.re, z.im * z.im);
  }

  lemma GrowBy(sum: Complex, q: real, pos: bool)
    requires sum.im == 0.0 && q >= 0.0 && (pos ==> q > 0.0) && (!pos ==> q == 0.0)
    ensures Add(sum, Complex(q, 0.0)).im == 0.0
    ensures Add(sum, Complex(q, 0.0)).re >= sum.re
    ensures pos ==> Add(sum, Complex(q, 0.0)).re > sum.re
    ensures !pos ==> Add(sum, Complex(q, 0.0)).re == sum.re
  {
  }

  /** Adding a value times its conjugate to a real sum keeps it real and
      increases it exactly when the value is nonzero. */
  lemma AddSquaredMagnitude(sum: Complex, z: Complex)
    requires sum.im == 0.0
    ensures Add(sum, Mul(z, Conj(z))).im == 0.0
    ensures Add(sum, Mul(z, Conj(z))).re >= sum.re
    ensures IsNonzero(z) ==> Add(sum, Mul(z, Conj(z))).re > sum.re
    ensures !IsNonzero(z) ==> Add(sum, Mul(z, Conj(z))).re == sum.re
  {
    var q := z.re * z.re + z.im * z.im;
    MulConjSelf(z);
    assert Add(sum, Mul(z, Conj(z))) == Add(sum, Complex(q, 0.0));
    NormFacts(z);
    GrowBy(sum, q, IsNonzero(z));
  }

  /** Number of elements of an array with the given extents. */
  function Product(dims: seq<nat>): nat {
    if dims == [] then 1 else dims[0] * Product(dims[1..])
  }

  lemma {:induction false} ProductAppend(a: seq<nat>, b: seq<nat>)
    ensures Product(a + b) == Product(a) * Product(b)
  {
    if a == [] {
      assert a + b == b;
    } else {
      assert (a + b)[1..] == a[1..] + b;
      ProductAppend(a[1..], b);
      Associate(a[0], Product(a[1..]), Product(b));
    }
  }

  lemma Product7(d: seq<nat>)
    requires |d| == 7
    ensures Product(d) == d[0] * (d[1] * (d[2] * (d[3] * (d[4] * (d[5] * d[6])))))
  {
    assert d[6..][1..] == [];
    assert Product(d[6..]) == d[6];
    assert d[5..][1..] == d[6..];
    assert Product(d[5..]) == d[5] * d[6];
    assert d[4..][1..] == d[5..];
    assert Product(d[4..]) == d[4] * (d[5] * d[6]);
    assert d[3..][1..] == d[4..];
    assert Product(d[3..]) == d[3] * (d[4] * (d[5] * d[6]));
    assert d[2..][1..] == d[3..];
    assert Product(d[2..]) == d[2] * (d[3] * (d[4] * (d[5] * d[6])));
    assert d[1..][1..] == d[2..];
    assert Product(d[1..]) == d[1] * (d[2] * (d[3] * (d[4] * (d[5] * d[6]))));
  }

  datatype NDArray = NDArray(dims: seq<nat>, data: seq<Complex>) {
    /** The flat buffer holds exactly one sample per index tuple. */
    predicate Valid() {
      |data| == Product(dims)
    }
  }

  /** Column-major offset of the element (ro, e1, e2, cha, n, s, slc) of a
      7-axis array, as hoNDArray's element access computes it. */
  function Offset7(d: seq<nat>, ro: nat, e1: nat, e2: nat, cha: nat, n: nat, s: nat, slc: nat): nat
    requires |d| == 7
  {
    ro + d[0] * (e1 + d[1] * (e2 + d[2] * (cha + d[3] * (n + d[4] * (s + d[5] * slc)))))
  }

  predicate InRange7(d: seq<nat>, ro: nat, e1: nat, e2: nat, cha: nat, n: nat, s: nat, slc: nat)
    requires |d| == 7
  {
    ro < d[0] && e1 < d[1] && e2 < d[2] && cha < d[3] && n < d[4] && s < d[5] && slc < d[6]
  }

  /** Every in-range index tuple addresses an element of the buffer. */
  lemma Offset7Bound(d: seq<nat>, ro: nat, e1: nat, e2: nat, cha: nat, n: nat, s: nat, slc: nat)
    requires |d| == 7 && InRange7(d, ro, e1, e2, cha, n, s, slc)
    ensures Offset7(d, ro, e1, e2, cha, n, s, slc) < Product(d)
  {
    SpatialIndexBound(d, ro, e1, e2);
    Offset7IsSpatialOffset(d, ro, e1, e2, cha, n, s, slc);
    SpatialOffsetBound(d, ro + d[0] * (e1 + d[1] * e2), cha, n, s, slc);
  }

  /** The element (ro, e1, e2, cha, n, s, slc) of a valid 7-axis array. */
  function At(a: NDArray, ro: nat, e1: nat, e2: nat, cha: nat, n: nat, s: nat, slc: nat): Complex
    requires a.Valid() && |a.dims| == 7 && InRange7(a.dims, ro, e1, e2, cha, n, s, slc)
  {
    Offset7Bound(a.dims, ro, e1, e2, cha, n, s, slc);
    a.data[Offset7(a.dims, ro, e1, e2, cha, n, s, slc)]
  }

  /** Number of voxels of one (ro, e1, e2) volume. */
  function SpatialSize(d: seq<nat>): nat
    requires |d| >= 3
  {
    d[0] * d[1] * d[2]
  }

  /** Offset of channel `cha` of spatial voxel `v` in the volume (n, s, slc),
      with the three spatial axes flattened to v = ro + RO*(e1 + E1*e2). */
  function SpatialOffset(d: seq<nat>, v: nat, cha: nat, n: nat, s: nat, slc: nat): nat
    requires |d| == 7
  {
    v + SpatialSize(d) * (cha + d[3] * (n + d[4] * (s + d[5] * slc)))
  }

  predicate InRangeSpatial(d: seq<nat>, v: nat, cha: nat, n: nat, s: nat, slc: nat)
    requires |d| == 7
  {
    v < SpatialSize(d) && cha < d[3] && n < d[4] && s < d[5] && slc < d[6]
  }

  /** Flattening the spatial axes does not move any element. */
  lemma Offset7IsSpatialOffset(d: seq<nat>, ro: nat, e1: nat, e2: nat, cha: nat, n: nat, s: nat, slc: nat)
    requires |d| == 7
    ensures Offset7(d, ro, e1, e2, cha, n, s, slc) == SpatialOffset(d, ro + d[0] * (e1 + d[1] * e2), cha, n, s, slc)
  {
    var x := cha + d[3] * (n + d[4] * (s + d[5] * slc));
    var y := d[2] * x;
    Distribute(d[1], e2, y);
    Associate(d[1], d[2], x);
    Distribute(d[0], e1 + d[1] * e2, (d[1] * d[2]) * x);
    Associate(d[0], d[1] * d[2], x);
    Associate(d[0], d[1], d[2]);
    assert Offset7(d, ro, e1, e2, cha, n, s, slc) == ro + d[0] * (e1 + d[1] * (e2 + y));
  }

  lemma SpatialIndexBound(d: seq<nat>, ro: nat, e1: nat, e2: nat)
    requires |d| == 7 && ro < d[0] && e1 < d[1] && e2 < d[2]
    ensures ro + d[0] * (e1 + d[1] * e2) < SpatialSize(d)
  {
    StepBound(e1, d[1], e2, d[2]);
    StepBound(ro, d[0], e1 + d[1] * e2, d[1] * d[2]);
  }

  lemma SpatialOffsetBound(d: seq<nat>, v: nat, cha: nat, n: nat, s: nat, slc: nat)
    requires |d| == 7 && InRangeSpatial(d, v, cha, n, s, slc)
    ensures SpatialOffset(d, v, cha, n, s, slc) < Product(d)
  {
    NestedBound(v, SpatialSize(d), cha, d[3], n, d[4], s, d[5], slc, d[6]);
    var r := d[3] * (d[4] * (d[5] * d[6]));
    Product7(d);
    Associate(d[0], d[1], d[2] * r);
    Associate(d[0] * d[1], d[2], r);
  }

  /** Channel `cha` of spatial voxel `v` in the volume (n, s, slc). */
  function SpatialAt(a: NDArray, v: nat, cha: nat, n: nat, s: nat, slc: nat): Complex
    requires a.Valid() && |a.dims| == 7 && InRangeSpatial(a.dims, v, cha, n, s, slc)
  {
    SpatialOffsetBound(a.dims, v, cha, n, s, slc);
    a.data[SpatialOffset(a.dims, v, cha, n, s, slc)]
  }

  /** The element (ro, e1, e2, cha, n, s, slc) is the element of spatial
      voxel ro + RO*(e1 + E1*e2). */
  lemma AtIsSpatialAt(a: NDArray, ro: nat, e1: nat, e2: nat, cha: nat, n: nat, s: nat, slc: nat)
    requires a.Valid() && |a.dims| == 7 && InRange7(a.dims, ro, e1, e2, cha, n, s, slc)
    ensures ro + a.dims[0] * (e1 + a.dims[1] * e2) < SpatialSize(a.dims)
    ensures At(a, ro, e1, e2, cha, n, s, slc) == SpatialAt(a, ro + a.dims[0] * (e1 + a.dims[1] * e2), cha, n, s, slc)
  {
    SpatialIndexBound(a.dims, ro, e1, e2);
    Offset7IsSpatialOffset(a.dims, ro, e1, e2, cha, n, s, slc);
  }
}
