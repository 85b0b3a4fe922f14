/** The 7-axis array exchange of the reconstruction gadget
    (`write_BART_Array` and `read_BART_Array` in BartReconGadget.h): a
    hoNDArray goes out as a BART file pair and comes back with its 16 BART
    axes folded onto Gadgetron's [RO, E1, E2, CHA, N, S, LOC]. */
module BartReconArray {
  import opened Wrappers
  import opened Arith
  import opened Text
  import opened Arrays
  import opened BartFileIO

  /** The Gadgetron shape of a BART shape: the first four extents kept, the
      product of the rest (accumulated in a `size_t`) on axis 4, then 1, 1. */
  function Collapsed(d: seq<nat>): (gt: seq<nat>)
    requires |d| >= 4
    ensures |gt| == 7 && gt[..4] == d[..4]
    ensures gt[4] == Product(d[4..]) % SizeTModulus && gt[5] == 1 && gt[6] == 1
  {
    d[..4] + [Product(d[4..]) % SizeTModulus, 1, 1]
  }

  lemma ProductOnes(n: nat)
    ensures Product(seq(n, _ => 1)) == 1
  {
    if n > 0 {
      assert seq(n, _ => 1)[1..] == seq(n - 1, _ => 1);
      ProductOnes(n - 1);
    }
  }

  lemma {:induction false} ProductPadOnes(d: seq<nat>, n: nat)
    ensures Product(d + seq(n, _ => 1)) == Product(d)
  {
    var ones := seq(n, _ => 1);
    if d == [] {
      assert d + ones == ones;
      ProductOnes(n);
    } else {
      assert (d + ones)[1..] == d[1..] + ones;
      ProductPadOnes(d[1..], n);
    }
  }

  /** Padding with 1s keeps the element count. */
  lemma PaddedProduct(d: seq<nat>)
    requires |d| < MaxDims
    ensures Product(Padded(d)) == Product(d)
  {
    assert Padded(d) == d + seq(MaxDims - |d|, _ => 1);
    ProductPadOnes(d, MaxDims - |d|);
  }

  lemma Product3(x: nat)
    ensures Product([x, 1, 1]) == x
  {
    assert [x, 1, 1][1..] == [1, 1];
    assert [1, 1][1..] == [1];
    assert [1][1..] == [];
  }

  /** The collapsed shape counts as many elements as the parsed extents,
      as long as that count fits a `size_t`. */
  lemma CollapsedProduct(d: seq<nat>)
    requires |d| >= 4 && Product(d) < SizeTModulus
    ensures Product(Collapsed(d)) == Product(d)
  {
    CollapsedProductSplit(d);
    FactorBelowModulus(Product(d[..4]), Product(d[4..]), SizeTModulus);
  }

  lemma CollapsedProductSplit(d: seq<nat>)
    requires |d| >= 4
    ensures Product(d) == Product(d[..4]) * Product(d[4..])
    ensures Product(Collapsed(d)) == Product(d[..4]) * (Product(d[4..]) % SizeTModulus)
  {
    assert d == d[..4] + d[4..];
    ProductAppend(d[..4], d[4..]);
    CollapsedTail(d[..4], Product(d[4..]) % SizeTModulus);
  }

  lemma CollapsedTail(h: seq<nat>, x: nat)
    ensures Product(h + [x, 1, 1]) == Product(h) * x
  {
    ProductAppend(h, [x, 1, 1]);
    Product3(x);
  }

  /** The loop of `read_BART_Array` that builds the Gadgetron shape. */
  method CollapseDims(dims: seq<nat>) returns (gt: seq<nat>)
    requires |dims| >= 4
    ensures gt == Collapsed(dims)
  {
    gt := [dims[0], dims[1], dims[2], dims[3]];
    var dimsLeft: nat := 1;
    var iter := 4;
    while iter < |dims|
      invariant 4 <= iter <= |dims|
      invariant dimsLeft == Product(dims[4..iter]) % SizeTModulus
    {
      assert dims[4..iter + 1] == dims[4..iter] + [dims[iter]];
      ProductAppend(dims[4..iter], [dims[iter]]);
      assert Product([dims[iter]]) == dims[iter] by {
        assert [dims[iter]][1..] == [];
      }
      MulMod(Product(dims[4..iter]), dims[iter], SizeTModulus);
      dimsLeft := (dimsLeft * dims[iter]) % SizeTModulus;
      iter := iter + 1;
    }
    assert dims[4..iter] == dims[4..];
    gt := gt + [dimsLeft, 1, 1];
  }

  /** What `read_BART_Array` returns once the header read gave `hdr`: the
      collapsed shape and the first `numel` samples of the `.cfl` file, or
      why there is no array. It succeeds exactly when the header gave at
      least four extents and the `.cfl` file opens and holds the samples the
      collapsed shape counts. */
  function ArrayFromHeader(hdr: Result<seq<nat>, ReadError>, cfl: Option<seq<real>>): (r: Result<NDArray, ReadError>)
    ensures r.Success? ==> r.value.Valid() && |r.value.dims| == 7
    ensures r.Success? <==> hdr.Success? && |hdr.value| >= 4 && cfl.Some? && |cfl.value| >= 2 * Product(Collapsed(hdr.value))
  {
    match hdr
    case Failure(e) => Failure(e)
    case Success(dims) =>
      if |dims| < 4 then Failure(TooFewExtents)
      else
        var gt := Collapsed(dims);
        if cfl.None? then Failure(MissingPayload)
        else if |cfl.value| < 2 * Product(gt) then Failure(ShortPayload)
        else Success(NDArray(gt, Deinterleaved(cfl.value[..2 * Product(gt)])))
  }

  /** `write_BART_Array`: the array's extents in axis order, padded to 16,
      then every sample in storage order. */
  method WriteBartArray(fs: FileStore, filename: string, a: NDArray)
    requires a.Valid() && |a.dims| < MaxDims
    modifies fs
    ensures fs.textFiles == old(fs.textFiles)[filename + ".hdr" := HeaderText(Padded(a.dims))]
    ensures fs.floatFiles == old(fs.floatFiles)[filename + ".cfl" := Interleave(a.data)]
  {
    var dims: seq<nat> := [];
    var i := 0;
    while i < |a.dims|
      invariant 0 <= i <= |a.dims| && dims == a.dims[..i]
    {
      dims := dims + [a.dims[i]];
      i := i + 1;
    }
    assert dims == a.dims;
    var text := FormatHeader(dims);
    fs.WriteText(filename + ".hdr", text);
    fs.WriteFloats(filename + ".cfl", Interleave(a.data));
  }

  /** `read_BART_Array`: the header is read as by `read_BART_hdr`, then
      the array is built from its extents and the `.cfl` file. */
  method ReadBartArray(fs: FileStore, filename: string) returns (r: Result<NDArray, ReadError>)
    ensures r == ArrayFromHeader(HdrFromFile(Lookup(fs.textFiles, filename + ".hdr")), Lookup(fs.floatFiles, filename + ".cfl"))
  {
    var dims := fs.ReadBartHdr(filename);
    r := LoadArray(fs, filename, dims);
  }

  /** The rest of `read_BART_Array`: the extents are collapsed, and the
      samples are read from the `.cfl` file unless it cannot be opened. */
  method LoadArray(fs: FileStore, filename: string, dims: Result<seq<nat>, ReadError>) returns (r: Result<NDArray, ReadError>)
    ensures r == ArrayFromHeader(dims, Lookup(fs.floatFiles, filename + ".cfl"))
  {
    if dims.Failure? {
      return Failure(dims.error);
    }
    if |dims.value| < 4 {
      return Failure(TooFewExtents);
    }
    var gt := CollapseDims(dims.value);
    var path := filename + ".cfl";
    if path !in fs.floatFiles {
      return Failure(MissingPayload);
    }
    assert Lookup(fs.floatFiles, path) == Some(fs.floatFiles[path]);
    var numel := Product(gt);
    var floats := fs.floatFiles[path];
    if |floats| < 2 * numel {
      return Failure(ShortPayload);
    }
    var data := Deinterleave(floats[..2 * numel]);
    r := Success(NDArray(gt, data));
  }

  /** The samples of the `.cfl` file written for `a` read back unchanged
      under the padded extents of `a`, which collapse to a shape counting
      the same elements. */
  lemma PayloadRoundTrip(a: NDArray)
    requires a.Valid() && |a.dims| < MaxDims
    requires Product(a.dims) < SizeTModulus
    ensures Product(Collapsed(Padded(a.dims))) == Product(a.dims)
    ensures ArrayFromHeader(Success(Padded(a.dims)), Some(Interleave(a.data)))
            == Success(NDArray(Collapsed(Padded(a.dims)), a.data))
  {
    var p := Padded(a.dims);
    PaddedProduct(a.dims);
    CollapsedProduct(p);
    var floats := Interleave(a.data);
    DeinterleaveInterleave(a.data);
    assert floats[..2 * Product(Collapsed(p))] == floats;
  }

  /** An array written by `write_BART_Array` reads back with the same
      samples in the same order and the collapsed shape of its padded
      extents, which counts the same elements. */
  lemma ArrayRoundTrip(a: NDArray)
    requires a.Valid() && |a.dims| < MaxDims
    requires forall i :: 0 <= i < |a.dims| ==> a.dims[i] <= IntMax
    requires Product(a.dims) < SizeTModulus
    ensures Product(Collapsed(Padded(a.dims))) == Product(a.dims)
    ensures ArrayFromHeader(HdrFromFile(Some(HeaderText(Padded(a.dims)))), Some(Interleave(a.data)))
            == Success(NDArray(Collapsed(Padded(a.dims)), a.data))
  {
    HeaderRoundTrip(a.dims);
    PayloadRoundTrip(a);
  }

  /** The shape [4,4,4,2,3,2,1] counts 768 elements and collapses to
      [4,4,4,2,6,1,1]. */
  lemma CollapseExampleShape(d: seq<nat>)
    requires d == [4, 4, 4, 2, 3, 2, 1]
    ensures Product(d) == 768
    ensures Collapsed(Padded(d)) == [4, 4, 4, 2, 6, 1, 1]
  {
    Product7(d);
    var p := Padded(d);
    assert p[4..] == [3, 2, 1] + seq(9, _ => 1);
    ProductPadOnes([3, 2, 1], 9);
    assert Product([3, 2, 1]) == 6 by {
      assert [3, 2, 1][1..] == [2, 1];
      assert [2, 1][1..] == [1];
      assert [1][1..] == [];
    }
  }

  /** A [4,4,4,2,3,2,1] array comes back as [4,4,4,2,6,1,1]: the N and S
      extents are folded into axis 4, and the flat samples are unchanged. */
  lemma CollapseExample(d: seq<nat>, data: seq<Complex>)
    requires d == [4, 4, 4, 2, 3, 2, 1] && |data| == 768
    ensures ArrayFromHeader(HdrFromFile(Some(HeaderText(Padded(d)))), Some(Interleave(data)))
            == Success(NDArray([4, 4, 4, 2, 6, 1, 1], data))
  {
    CollapseExampleShape(d);
    ArrayRoundTrip(NDArray(d, data));
  }

  /** Writing an array and reading it back through the same files. */
  method ExchangeArray(fs: FileStore, filename: string, a: NDArray) returns (r: Result<NDArray, ReadError>)
    requires a.Valid() && |a.dims| < MaxDims
    requires forall i :: 0 <= i < |a.dims| ==> a.dims[i] <= IntMax
    requires Product(a.dims) < SizeTModulus
    modifies fs
    ensures fs.textFiles == old(fs.textFiles)[filename + ".hdr" := HeaderText(Padded(a.dims))]
    ensures fs.floatFiles == old(fs.floatFiles)[filename + ".cfl" := Interleave(a.data)]
    ensures r == Success(NDArray(Collapsed(Padded(a.dims)), a.data))
    ensures Product(r.value.dims) == Product(a.dims)
  {
    WriteBartArray(fs, filename, a);
    r := ReadBartArray(fs, filename);
    assert Lookup(fs.textFiles, filename + ".hdr") == Some(HeaderText(Padded(a.dims)));
    assert Lookup(fs.floatFiles, filename + ".cfl") == Some(Interleave(a.data));
    ArrayRoundTrip(a);
  }
}
