/** `check_sampling_pattern` of the reconstruction gadget: decides from the
    acquired k-space lines whether the undersampling is of variable density.
    A line (e1, e2) counts as acquired for repetition n when the central
    readout sample of channel 0, set 0 and slice 0 is nonzero. */
module SamplingPattern {
  import opened Arith
  import opened Arrays

  /** The array has the 7 axes [RO, E1, E2, CHA, N, S, SLC], and when the
      loops probe any sample, the probed readout, channel and slice exist. */
  predicate Probed(a: NDArray) {
    a.Valid() && |a.dims| == 7
    && (a.dims[1] > 0 && a.dims[2] > 0 && a.dims[4] > 0 && a.dims[5] > 0 ==>
          a.dims[0] > 0 && a.dims[3] > 0 && a.dims[6] > 0)
  }

  /** `std::abs(out_data(RO / 2, e1, e2, 0, n)) > 0`. */
  predicate Acquired(a: NDArray, e1: nat, e2: nat, n: nat)
    requires Probed(a) && a.dims[5] > 0
    requires e1 < a.dims[1] && e2 < a.dims[2] && n < a.dims[4]
  {
    IsNonzero(At(a, a.dims[0] / 2, e1, e2, 0, n, 0, 0))
  }

  /** Some repetition below k acquired the line (e1, e2). */
  function AnyN(a: NDArray, e1: nat, e2: nat, k: nat): (r: bool)
    requires Probed(a) && a.dims[5] > 0
    requires e1 < a.dims[1] && e2 < a.dims[2] && k <= a.dims[4]
    ensures r <==> exists n :: 0 <= n < k && Acquired(a, e1, e2, n)
  {
    if k == 0 then false else AnyN(a, e1, e2, k - 1) || Acquired(a, e1, e2, k - 1)
  }

  /** The final entry of the mask at (e1, e2). */
  predicate MaskAt(a: NDArray, e1: nat, e2: nat)
    requires Probed(a) && e1 < a.dims[1] && e2 < a.dims[2]
  {
    a.dims[5] > 0 && AnyN(a, e1, e2, a.dims[4])
  }

  /** Acquired lines (e1 < k) in the column e2 of repetition n. */
  function HitsE1(a: NDArray, n: nat, e2: nat, k: nat): nat
    requires Probed(a) && a.dims[5] > 0
    requires n < a.dims[4] && e2 < a.dims[2] && k <= a.dims[1]
  {
    if k == 0 then 0 else HitsE1(a, n, e2, k - 1) + (if Acquired(a, k - 1, e2, n) then 1 else 0)
  }

  /** Acquired lines with e2 < k in repetition n. */
  function HitsE2(a: NDArray, n: nat, k: nat): nat
    requires Probed(a) && a.dims[5] > 0
    requires n < a.dims[4] && k <= a.dims[2]
  {
    if k == 0 then 0 else HitsE2(a, n, k - 1) + HitsE1(a, n, k - 1, a.dims[1])
  }

  /** Acquired (line, repetition) pairs with repetition below k. */
  function HitsN(a: NDArray, k: nat): nat
    requires Probed(a) && a.dims[5] > 0 && k <= a.dims[4]
  {
    if k == 0 then 0 else HitsN(a, k - 1) + HitsE2(a, k - 1, a.dims[2])
  }

  /** `num_readout_lines`: every acquired (line, repetition) pair counted
      once per set, since the set index takes no part in the probe. */
  function ReadoutLines(a: NDArray): nat
    requires Probed(a)
  {
    if a.dims[5] == 0 then 0 else a.dims[5] * HitsN(a, a.dims[4])
  }

  /** The mask entry (i, j) is set once the loops reached (s, n, e2, e1). */
  predicate SeenBefore(a: NDArray, s: nat, n: nat, e2: nat, e1: nat, i: nat, j: nat)
    requires Probed(a) && a.dims[5] > 0 && n <= a.dims[4]
    requires i < a.dims[1] && j < a.dims[2]
  {
    (s > 0 && AnyN(a, i, j, a.dims[4])) || AnyN(a, i, j, n)
    || (n < a.dims[4] && (j < e2 || (j == e2 && i < e1)) && Acquired(a, i, j, n))
  }

  /** The innermost loop over e1 for the column e2 of repetition n. */
  method ScanColumn(a: NDArray, mask: array2<int>, s: nat, n: nat, e2: nat) returns (hits: nat)
    requires Probed(a) && a.dims[5] > 0 && n < a.dims[4] && e2 < a.dims[2]
    requires mask.Length0 == a.dims[1] && mask.Length1 == a.dims[2]
    requires forall i, j :: 0 <= i < a.dims[1] && 0 <= j < a.dims[2] ==>
               mask[i, j] == if SeenBefore(a, s, n, e2, 0, i, j) then 1 else 0
    modifies mask
    ensures forall i, j :: 0 <= i < a.dims[1] && 0 <= j < a.dims[2] ==>
              mask[i, j] == if SeenBefore(a, s, n, e2 + 1, 0, i, j) then 1 else 0
    ensures hits == HitsE1(a, n, e2, a.dims[1])
  {
    hits := 0;
    var e1 := 0;
    while e1 < a.dims[1]
      invariant 0 <= e1 <= a.dims[1]
      invariant forall i, j :: 0 <= i < a.dims[1] && 0 <= j < a.dims[2] ==>
                  mask[i, j] == if SeenBefore(a, s, n, e2, e1, i, j) then 1 else 0
      invariant hits == HitsE1(a, n, e2, e1)
    {
      if IsNonzero(At(a, a.dims[0] / 2, e1, e2, 0, n, 0, 0)) {
        hits := hits + 1;
        mask[e1, e2] := 1;
      }
      e1 := e1 + 1;
    }
  }

  /** The loop over e2, with the loop over e1 inside, for repetition n. */
  method ScanPlane(a: NDArray, mask: array2<int>, s: nat, n: nat) returns (hits: nat)
    requires Probed(a) && a.dims[5] > 0 && n < a.dims[4]
    requires mask.Length0 == a.dims[1] && mask.Length1 == a.dims[2]
    requires forall i, j :: 0 <= i < a.dims[1] && 0 <= j < a.dims[2] ==>
               mask[i, j] == if SeenBefore(a, s, n, 0, 0, i, j) then 1 else 0
    modifies mask
    ensures forall i, j :: 0 <= i < a.dims[1] && 0 <= j < a.dims[2] ==>
              mask[i, j] == if SeenBefore(a, s, n + 1, 0, 0, i, j) then 1 else 0
    ensures hits == HitsE2(a, n, a.dims[2])
  {
    hits := 0;
    var e2 := 0;
    while e2 < a.dims[2]
      invariant 0 <= e2 <= a.dims[2]
      invariant forall i, j :: 0 <= i < a.dims[1] && 0 <= j < a.dims[2] ==>
                  mask[i, j] == if SeenBefore(a, s, n, e2, 0, i, j) then 1 else 0
      invariant hits == HitsE2(a, n, e2)
    {
      var h := ScanColumn(a, mask, s, n, e2);
      hits := hits + h;
      e2 := e2 + 1;
    }
  }

  /** The four nested loops over (s, n, e2, e1) that fill the E1 x E2 mask
      and count the acquired readout lines. */
  method BuildMask(a: NDArray) returns (mask: array2<int>, numReadoutLines: nat)
    requires Probed(a)
    ensures fresh(mask) && mask.Length0 == a.dims[1] && mask.Length1 == a.dims[2]
    ensures forall i, j :: 0 <= i < a.dims[1] && 0 <= j < a.dims[2] ==>
              mask[i, j] == if MaskAt(a, i, j) then 1 else 0
    ensures numReadoutLines == ReadoutLines(a)
  {
    var N, S := a.dims[4], a.dims[5];
    mask := new int[a.dims[1], a.dims[2]]((i, j) => 0);
    numReadoutLines := 0;
    var s := 0;
    while s < S
      invariant 0 <= s <= S
      invariant forall i, j :: 0 <= i < a.dims[1] && 0 <= j < a.dims[2] ==>
                  mask[i, j] == if S > 0 && SeenBefore(a, s, 0, 0, 0, i, j) then 1 else 0
      invariant S > 0 ==> numReadoutLines == s * HitsN(a, N)
      invariant S == 0 ==> numReadoutLines == 0
    {
      var n := 0;
      while n < N
        invariant 0 <= n <= N
        invariant forall i, j :: 0 <= i < a.dims[1] && 0 <= j < a.dims[2] ==>
                    mask[i, j] == if SeenBefore(a, s, n, 0, 0, i, j) then 1 else 0
        invariant numReadoutLines == s * HitsN(a, N) + HitsN(a, n)
      {
        var h := ScanPlane(a, mask, s, n);
        numReadoutLines := numReadoutLines + h;
        n := n + 1;
      }
      assert (s + 1) * HitsN(a, N) == s * HitsN(a, N) + HitsN(a, N);
      s := s + 1;
    }
  }

  /** The mask row e1 = E1/2, indexed by e2. */
  function CenterRow(a: NDArray): seq<bool>
    requires Probed(a) && a.dims[1] > 0
  {
    seq(a.dims[2], j requires 0 <= j < a.dims[2] => MaskAt(a, a.dims[1] / 2, j))
  }

  /** The mask column e2 = E2/2, indexed by e1. */
  function CenterCol(a: NDArray): seq<bool>
    requires Probed(a) && a.dims[2] > 0
  {
    seq(a.dims[1], i requires 0 <= i < a.dims[1] => MaskAt(a, i, a.dims[2] / 2))
  }

  /** `arma::find`: the indices of the set entries, in ascending order. */
  function Positions(row: seq<bool>): (p: seq<nat>)
    ensures |p| <= |row|
    ensures forall k :: 0 <= k < |p| ==> p[k] < |row| && row[p[k]]
  {
    if row == [] then []
    else Positions(row[..|row| - 1]) + (if row[|row| - 1] then [|row| - 1] else [])
  }

  /** The gaps between consecutive acquired positions. */
  function Deltas(p: seq<nat>): seq<int>
    requires |p| > 0
  {
    seq(|p| - 1, k requires 0 <= k < |p| - 1 => p[k + 1] as int - p[k] as int)
  }

  /** `arma::find(delta > 1.5 * acce)`: the indices of the deltas above 1.5
      acceleration factors, with the comparison `delta > 1.5 * acce` written
      exactly as `2 * delta > 3 * acce`. */
  function Above(d: seq<int>, acce: nat): set<nat> {
    set k: nat | k < |d| && 2 * d[k] > 3 * acce
  }

  /** `arma::find(delta > 1.5 * acce).n_elem`, counted delta by delta. */
  function CountAbove(d: seq<int>, acce: nat): (c: nat)
    ensures c <= |d|
    ensures c == |Above(d, acce)|
  {
    if d == [] then 0
    else
      AboveSnoc(d, acce);
      CountAbove(d[..|d| - 1], acce) + (if 2 * d[|d| - 1] > 3 * acce then 1 else 0)
  }

  /** One delta more adds its index to the found indices exactly when it is
      above the threshold. */
  lemma AboveSnoc(d: seq<int>, acce: nat)
    requires d != []
    ensures |d| - 1 !in Above(d[..|d| - 1], acce)
    ensures Above(d, acce) == Above(d[..|d| - 1], acce) + (if 2 * d[|d| - 1] > 3 * acce then {|d| - 1} else {})
  {
    var init := d[..|d| - 1];
    assert forall k :: 0 <= k < |init| ==> init[k] == d[k];
  }

  /** The armadillo code needs an acquired position in the centre row and
      the centre column whenever a readout line was found: with none,
      `n_elem - 1` wraps around. */
  predicate Classifiable(a: NDArray)
    requires Probed(a)
  {
    ReadoutLines(a) > 0 ==>
      a.dims[1] > 0 && a.dims[2] > 0 && |Positions(CenterRow(a))| > 0 && |Positions(CenterCol(a))| > 0
  }

  /** The verdict: some line was acquired, and more than 5 gaps of the
      centre row exceed 1.5 acceleration factors in E1, or more than 5 gaps
      of the centre column exceed 1.5 acceleration factors in E2. */
  predicate IsVariableDensity(a: NDArray, acceE1: nat, acceE2: nat)
    requires Probed(a) && Classifiable(a)
  {
    ReadoutLines(a) > 0
    && (CountAbove(Deltas(Positions(CenterRow(a))), acceE1) > 5
        || CountAbove(Deltas(Positions(CenterCol(a))), acceE2) > 5)
  }

  /** The loop that fills a delta vector of `n_elem - 1` entries. */
  method ConsecutiveGaps(p: seq<nat>) returns (d: seq<int>)
    requires |p| > 0
    ensures d == Deltas(p)
  {
    var delta := new int[|p| - 1](_ => 0);
    var k := 0;
    while k < |p| - 1
      invariant 0 <= k <= |p| - 1
      invariant forall m :: 0 <= m < k ==> delta[m] == p[m + 1] as int - p[m] as int
    {
      delta[k] := p[k + 1] as int - p[k] as int;
      k := k + 1;
    }
    d := delta[..];
  }

  /** `check_sampling_pattern`. */
  method CheckSamplingPattern(a: NDArray, acceE1: nat, acceE2: nat) returns (isVdPDS: bool)
    requires Probed(a) && Classifiable(a)
    ensures isVdPDS == IsVariableDensity(a, acceE1, acceE2)
  {
    var mask, numReadoutLines := BuildMask(a);
    isVdPDS := false;
    if numReadoutLines > 0 {
      var E1, E2 := a.dims[1], a.dims[2];
      var row := seq(E2, j requires 0 <= j < E2 reads mask => mask[E1 / 2, j] != 0);
      var col := seq(E1, i requires 0 <= i < E1 reads mask => mask[i, E2 / 2] != 0);
      assert row == CenterRow(a);
      assert col == CenterCol(a);
      var rowDelta := ConsecutiveGaps(Positions(row));
      var colDelta := ConsecutiveGaps(Positions(col));
      if CountAbove(rowDelta, acceE1) > 5 || CountAbove(colDelta, acceE2) > 5 {
        isVdPDS := true;
      }
    }
  }

  /** The acquired positions are strictly increasing. */
  lemma {:induction false} PositionsIncreasing(row: seq<bool>)
    ensures forall k, m :: 0 <= k < m < |Positions(row)| ==> Positions(row)[k] < Positions(row)[m]
  {
    if row != [] {
      PositionsIncreasing(row[..|row| - 1]);
    }
  }

  /** Every set entry is among the positions. */
  lemma {:induction false} PositionsComplete(row: seq<bool>, j: nat)
    requires j < |row| && row[j]
    ensures j in Positions(row)
  {
    var init := row[..|row| - 1];
    if j < |row| - 1 {
      assert init[j];
      PositionsComplete(init, j);
    }
  }

  /** Every gap is at least 1. */
  lemma GapsPositive(row: seq<bool>)
    requires |Positions(row)| > 0
    ensures forall k :: 0 <= k < |Deltas(Positions(row))| ==> Deltas(Positions(row))[k] >= 1
  {
    PositionsIncreasing(row);
  }

  /** No gap beyond the threshold means no count. */
  lemma {:induction false} CountAboveNone(d: seq<int>, acce: nat)
    requires forall k :: 0 <= k < |d| ==> 2 * d[k] <= 3 * acce
    ensures CountAbove(d, acce) == 0
  {
    if d != [] {
      CountAboveNone(d[..|d| - 1], acce);
    }
  }

  /** A row with every entry set has the positions 0, 1, ..., |row| - 1. */
  lemma {:induction false} PositionsOfFullRow(row: seq<bool>)
    requires forall j :: 0 <= j < |row| ==> row[j]
    ensures Positions(row) == seq(|row|, j requires 0 <= j < |row| => j)
  {
    if row != [] {
      PositionsOfFullRow(row[..|row| - 1]);
    }
  }

  /** Gaps that never exceed 1.5 acceleration factors in either centre
      line mean uniform sampling. */
  lemma SmallGapsUniform(a: NDArray, acceE1: nat, acceE2: nat)
    requires Probed(a) && Classifiable(a) && ReadoutLines(a) > 0
    requires forall k :: 0 <= k < |Deltas(Positions(CenterRow(a)))| ==> 2 * Deltas(Positions(CenterRow(a)))[k] <= 3 * acceE1
    requires forall k :: 0 <= k < |Deltas(Positions(CenterCol(a)))| ==> 2 * Deltas(Positions(CenterCol(a)))[k] <= 3 * acceE2
    ensures !IsVariableDensity(a, acceE1, acceE2)
  {
    CountAboveNone(Deltas(Positions(CenterRow(a))), acceE1);
    CountAboveNone(Deltas(Positions(CenterCol(a))), acceE2);
  }

  /** A fully acquired mask is uniform for every acceleration factor of at
      least 1. */
  lemma FullMaskUniform(a: NDArray, acceE1: nat, acceE2: nat)
    requires Probed(a) && a.dims[1] > 0 && a.dims[2] > 0
    requires forall i, j :: 0 <= i < a.dims[1] && 0 <= j < a.dims[2] ==> MaskAt(a, i, j)
    requires acceE1 >= 1 && acceE2 >= 1
    ensures Classifiable(a)
    ensures !IsVariableDensity(a, acceE1, acceE2)
  {
    PositionsOfFullRow(CenterRow(a));
    PositionsOfFullRow(CenterCol(a));
    if ReadoutLines(a) > 0 {
      SmallGapsUniform(a, acceE1, acceE2);
    }
  }

  /** A subset has at most as many elements as the whole. */
  lemma {:induction false} SubsetCard(small: set<nat>, big: set<nat>)
    requires small <= big
    ensures |small| <= |big|
    decreases |small|
  {
    if small != {} {
      var x :| x in small;
      SubsetCard(small - {x}, big - {x});
    }
  }

  /** More than five centre-row gaps above 1.5 acceleration factors in E1
      give the variable-density verdict. */
  lemma WideRowGapsVariableDensity(a: NDArray, acceE1: nat, acceE2: nat, wide: set<nat>)
    requires Probed(a) && Classifiable(a) && ReadoutLines(a) > 0
    requires |wide| > 5
    requires forall k :: k in wide ==>
      k < |Deltas(Positions(CenterRow(a)))| && 2 * Deltas(Positions(CenterRow(a)))[k] > 3 * acceE1
    ensures IsVariableDensity(a, acceE1, acceE2)
  {
    SubsetCard(wide, Above(Deltas(Positions(CenterRow(a))), acceE1));
  }

  /** More than five centre-column gaps above 1.5 acceleration factors in
      E2 give the variable-density verdict. */
  lemma WideColGapsVariableDensity(a: NDArray, acceE1: nat, acceE2: nat, wide: set<nat>)
    requires Probed(a) && Classifiable(a) && ReadoutLines(a) > 0
    requires |wide| > 5
    requires forall k :: k in wide ==>
      k < |Deltas(Positions(CenterCol(a)))| && 2 * Deltas(Positions(CenterCol(a)))[k] > 3 * acceE2
    ensures IsVariableDensity(a, acceE1, acceE2)
  {
    SubsetCard(wide, Above(Deltas(Positions(CenterCol(a))), acceE2));
  }

  lemma {:induction false} HitsE1Positive(a: NDArray, n: nat, e2: nat, k: nat)
    requires Probed(a) && a.dims[5] > 0
    requires n < a.dims[4] && e2 < a.dims[2] && k <= a.dims[1]
    ensures HitsE1(a, n, e2, k) > 0 <==> exists e1 :: 0 <= e1 < k && Acquired(a, e1, e2, n)
  {
    if k > 0 {
      HitsE1Positive(a, n, e2, k - 1);
    }
  }

  lemma {:induction false} HitsE2Positive(a: NDArray, n: nat, k: nat)
    requires Probed(a) && a.dims[5] > 0
    requires n < a.dims[4] && k <= a.dims[2]
    ensures HitsE2(a, n, k) > 0 <==>
      exists e1, e2 :: 0 <= e1 < a.dims[1] && 0 <= e2 < k && Acquired(a, e1, e2, n)
  {
    if k > 0 {
      HitsE2Positive(a, n, k - 1);
      HitsE1Positive(a, n, k - 1, a.dims[1]);
    }
  }

  lemma {:induction false} HitsNPositive(a: NDArray, k: nat)
    requires Probed(a) && a.dims[5] > 0 && k <= a.dims[4]
    ensures HitsN(a, k) > 0 <==>
      exists e1, e2, n :: 0 <= e1 < a.dims[1] && 0 <= e2 < a.dims[2] && 0 <= n < k && Acquired(a, e1, e2, n)
  {
    if k > 0 {
      HitsNPositive(a, k - 1);
      HitsE2Positive(a, k - 1, a.dims[2]);
    }
  }

  /** Readout lines were counted exactly when the mask has a set entry, so
      an empty mask always gives the uniform verdict. */
  lemma ReadoutLinesIffMask(a: NDArray)
    requires Probed(a)
    ensures ReadoutLines(a) > 0 <==> exists i, j :: 0 <= i < a.dims[1] && 0 <= j < a.dims[2] && MaskAt(a, i, j)
  {
    if a.dims[5] > 0 {
      var N, S := a.dims[4], a.dims[5];
      HitsNPositive(a, N);
      MulNonzero(S, HitsN(a, N));
      if ReadoutLines(a) > 0 {
        var e1, e2, n :| 0 <= e1 < a.dims[1] && 0 <= e2 < a.dims[2] && 0 <= n < N && Acquired(a, e1, e2, n);
        assert MaskAt(a, e1, e2);
      }
      if exists i, j :: 0 <= i < a.dims[1] && 0 <= j < a.dims[2] && MaskAt(a, i, j) {
        var i, j :| 0 <= i < a.dims[1] && 0 <= j < a.dims[2] && MaskAt(a, i, j);
        var n :| 0 <= n < N && Acquired(a, i, j, n);
        assert HitsN(a, N) > 0;
      }
    }
  }
}
