/** The interchange file pair of the BART toolbox as the free functions of
    Bart_fileio.h write and read it: `<name>.hdr`, a comment line and one
    line of 16 axis extents, and `<name>.cfl`, the samples as interleaved
    real and imaginary floats. */
module BartFileIO {
  import opened Wrappers
  import opened Text
  import opened Arrays

  /** BART arrays always have 16 axis slots. */
  const MaxDims: nat := 16

  const HeaderComment: string := "# Dimensions"

  /** std::stoi's `int` result is stored in a `size_t`, which wraps negative values. */
  const SizeTModulus: nat := 0x1_0000_0000_0000_0000

  /** Why reading an interchange file pair produced no array. */
  datatype ReadError =
    | MissingDimensionLine  // the header has fewer than two lines
    | InvalidExtent         // std::stoi threw on an item of the dimension line
    | TooFewExtents         // fewer than the four extents the 7-axis shape needs
    | MissingPayload        // the .cfl file cannot be opened
    | OddPayload            // a float count that does not split into pairs
    | ShortPayload          // the .cfl file holds fewer samples than the header counts

  /** The 16-slot vector: the given extents in order, then 1 in every
      unused slot. */
  function Padded(dims: seq<nat>): (v: seq<nat>)
    requires |dims| < MaxDims
    ensures |v| == MaxDims
    ensures v[..|dims|] == dims
    ensures forall i :: |dims| <= i < MaxDims ==> v[i] == 1
  {
    dims + seq(MaxDims - |dims|, _ => 1)
  }

  /** Every value in decimal followed by one space, as
      `std::ostream_iterator<size_t>(file, " ")` writes a vector. */
  function SpaceTerminated(v: seq<nat>): string {
    if v == [] then "" else NatToString(v[0]) + " " + SpaceTerminated(v[1..])
  }

  /** The whole text of a `.hdr` file holding the extents `v`. */
  function HeaderText(v: seq<nat>): string {
    HeaderComment + "\n" + SpaceTerminated(v)
  }

  lemma {:induction false} SpaceTerminatedAppend(v: seq<nat>, x: nat)
    ensures SpaceTerminated(v + [x]) == SpaceTerminated(v) + NatToString(x) + " "
  {
    if v != [] {
      assert (v + [x])[1..] == v[1..] + [x];
      SpaceTerminatedAppend(v[1..], x);
    }
  }

  /** The extents line holds digits and spaces only. */
  lemma {:induction false} SpaceTerminatedAvoids(v: seq<nat>, c: char)
    requires c != ' ' && !IsDigit(c)
    ensures c !in SpaceTerminated(v)
  {
    if v != [] {
      SpaceTerminatedAvoids(v[1..], c);
      assert forall i :: 0 <= i < |NatToString(v[0])| ==> IsDigit(NatToString(v[0])[i]);
    }
  }

  /** Splitting the extents line on ' ' gives one decimal item per value. */
  lemma {:induction false} SplitSpaceTerminated(v: seq<nat>)
    ensures GetlineSplit(SpaceTerminated(v), ' ') == seq(|v|, i requires 0 <= i < |v| => NatToString(v[i]))
  {
    if v != [] {
      var x := NatToString(v[0]);
      assert ' ' !in x by {
        assert forall i :: 0 <= i < |x| ==> IsDigit(x[i]);
      }
      assert SpaceTerminated(v) == x + [' '] + SpaceTerminated(v[1..]);
      GetlineSplitCons(x, ' ', SpaceTerminated(v[1..]));
      SplitSpaceTerminated(v[1..]);
    }
  }

  /** `write_BART_hdr` up to the file: a 16-slot vector of 1s receives the
      extents, then the comment line and the 16 values are written. */
  method FormatHeader(dims: seq<nat>) returns (text: string)
    requires |dims| < MaxDims
    ensures text == HeaderText(Padded(dims))
  {
    var v := PadExtents(dims);
    var line := WriteExtents(v);
    text := HeaderComment + "\n" + line;
  }

  /** The 16-slot vector of 1s whose leading slots receive the extents. */
  method PadExtents(dims: seq<nat>) returns (v: seq<nat>)
    requires |dims| < MaxDims
    ensures v == Padded(dims)
  {
    v := seq(MaxDims, _ => 1);
    var i := 0;
    while i < |dims|
      invariant 0 <= i <= |dims| && |v| == MaxDims
      invariant forall k :: 0 <= k < i ==> v[k] == dims[k]
      invariant forall k :: i <= k < MaxDims ==> v[k] == 1
    {
      v := v[i := dims[i]];
      i := i + 1;
    }
  }

  /** The values written one by one through `std::ostream_iterator`. */
  method WriteExtents(v: seq<nat>) returns (line: string)
    ensures line == SpaceTerminated(v)
  {
    line := "";
    var j := 0;
    while j < |v|
      invariant 0 <= j <= |v|
      invariant line == SpaceTerminated(v[..j])
    {
      SpaceTerminatedAppend(v[..j], v[j]);
      assert v[..j + 1] == v[..j] + [v[j]];
      line := line + NatToString(v[j]) + " ";
      j := j + 1;
    }
    assert v[..|v|] == v;
  }

  /** std::stoi's result stored into a `size_t`. */
  function ToSizeT(x: int): nat
    requires IntMin <= x
  {
    if x < 0 then x + SizeTModulus else x
  }

  /** `std::stoi(item, nullptr, 10)` pushed into the extents vector. */
  function ParseExtent(item: string): Option<nat> {
    match StoI(item)
    case None => None
    case Some(x) => Some(ToSizeT(x))
  }

  /** Every item of the dimension line converted, or the exception of the
      first item std::stoi rejects. */
  function ParseExtents(items: seq<string>): Result<seq<nat>, ReadError> {
    if forall i :: 0 <= i < |items| ==> ParseExtent(items[i]).Some? then
      Success(seq(|items|, i requires 0 <= i < |items| && ParseExtent(items[i]).Some? => ParseExtent(items[i]).value))
    else
      Failure(InvalidExtent)
  }

  /** The extents that `read_BART_hdr` takes from the text of a header: the
      second line, split on ' ', each item converted in base 10. */
  function ParseHeader(text: string): Result<seq<nat>, ReadError> {
    var lines := GetlineSplit(text, '\n');
    if |lines| < 2 then Failure(MissingDimensionLine)
    else ParseExtents(GetlineSplit(lines[1], ' '))
  }

  /** One item std::stoi rejects makes the whole line fail. */
  lemma ParseExtentsFailure(items: seq<string>, j: nat)
    requires j < |items| && ParseExtent(items[j]).None?
    ensures ParseExtents(items) == Failure(InvalidExtent)
  {
  }

  /** Items that all convert give the converted values, in order. */
  lemma ParseExtentsSuccess(items: seq<string>, dims: seq<nat>)
    requires |dims| == |items|
    requires forall j :: 0 <= j < |items| ==> ParseExtent(items[j]) == Some(dims[j])
    ensures ParseExtents(items) == Success(dims)
  {
    var r := ParseExtents(items);
    assert r.Success?;
    assert forall j :: 0 <= j < |dims| ==> r.value[j] == dims[j];
    assert r.value == dims;
  }

  /** A header that cannot be opened leaves the extents empty. */
  function HdrFromFile(hdr: Option<string>): Result<seq<nat>, ReadError> {
    if hdr.None? then Success([]) else ParseHeader(hdr.value)
  }

  /** A header for at least one extent has exactly two lines. */
  lemma HeaderLines(v: seq<nat>)
    requires v != []
    ensures GetlineSplit(HeaderText(v), '\n') == [HeaderComment, SpaceTerminated(v)]
  {
    var body := SpaceTerminated(v);
    assert HeaderText(v) == HeaderComment + ['\n'] + body;
    assert '\n' !in HeaderComment;
    GetlineSplitCons(HeaderComment, '\n', body);
    SpaceTerminatedAvoids(v, '\n');
    GetlineSplitSingle(body, '\n');
  }

  /** Decimal items of values that fit an `int` convert back to the values. */
  lemma ParseDecimalExtents(v: seq<nat>)
    requires forall i :: 0 <= i < |v| ==> v[i] <= IntMax
    ensures ParseExtents(seq(|v|, i requires 0 <= i < |v| => NatToString(v[i]))) == Success(v)
  {
    var items := seq(|v|, i requires 0 <= i < |v| => NatToString(v[i]));
    forall i | 0 <= i < |items|
      ensures ParseExtent(items[i]) == Some(v[i])
    {
      StoIOfNatToString(v[i]);
    }
    var r := ParseExtents(items);
    assert forall i :: 0 <= i < |v| ==> r.value[i] == v[i];
    assert r.value == v;
  }

  /** Parsing the header written for the extents `dims` gives back the 16
      padded extents, provided each fits std::stoi's `int`. */
  lemma HeaderRoundTrip(dims: seq<nat>)
    requires |dims| < MaxDims
    requires forall i :: 0 <= i < |dims| ==> dims[i] <= IntMax
    ensures ParseHeader(HeaderText(Padded(dims))) == Success(Padded(dims))
  {
    var v := Padded(dims);
    HeaderLines(v);
    SplitSpaceTerminated(v);
    assert forall i :: 0 <= i < |v| ==> v[i] <= IntMax by {
      forall i | 0 <= i < |v| ensures v[i] <= IntMax {
        if i < |dims| { assert v[i] == v[..|dims|][i]; }
      }
    }
    ParseDecimalExtents(v);
  }

  /** The samples of a float buffer, element k being (buffer[2k], buffer[2k+1]). */
  function Deinterleaved(buffer: seq<real>): seq<Complex>
    requires |buffer| % 2 == 0
  {
    seq(|buffer| / 2, k requires 0 <= k < |buffer| / 2 => Complex(buffer[2 * k], buffer[2 * k + 1]))
  }

  /** The `.cfl` layout of complex samples: real part, then imaginary part. */
  function Interleave(data: seq<Complex>): seq<real> {
    if data == [] then [] else [data[0].re, data[0].im] + Interleave(data[1..])
  }

  lemma {:induction false} InterleaveAt(data: seq<Complex>, k: nat)
    requires k < |data|
    ensures |Interleave(data)| == 2 * |data|
    ensures Interleave(data)[2 * k] == data[k].re && Interleave(data)[2 * k + 1] == data[k].im
  {
    if k > 0 {
      InterleaveAt(data[1..], k - 1);
    } else if |data| > 1 {
      InterleaveAt(data[1..], 0);
    }
  }

  lemma InterleaveLength(data: seq<Complex>)
    ensures |Interleave(data)| == 2 * |data|
  {
    if data != [] {
      InterleaveAt(data, 0);
    }
  }

  /** De-interleaving undoes interleaving. */
  lemma DeinterleaveInterleave(data: seq<Complex>)
    ensures |Interleave(data)| % 2 == 0
    ensures Deinterleaved(Interleave(data)) == data
  {
    InterleaveLength(data);
    forall k | 0 <= k < |data|
      ensures Deinterleaved(Interleave(data))[k] == data[k]
    {
      InterleaveAt(data, k);
    }
  }

  /** Interleaving undoes de-interleaving: no float of the buffer is lost
      or moved. */
  lemma InterleaveDeinterleave(buffer: seq<real>)
    requires |buffer| % 2 == 0
    ensures Interleave(Deinterleaved(buffer)) == buffer
  {
    var data := Deinterleaved(buffer);
    InterleaveLength(data);
    forall j | 0 <= j < |buffer|
      ensures Interleave(data)[j] == buffer[j]
    {
      InterleaveAt(data, j / 2);
    }
  }

  /** The loop of `read_BART_files` that turns the float buffer into complex
      samples two floats at a time. */
  method Deinterleave(buffer: seq<real>) returns (data: seq<Complex>)
    requires |buffer| % 2 == 0
    ensures |data| == |buffer| / 2
    ensures forall k :: 0 <= k < |data| ==> data[k] == Complex(buffer[2 * k], buffer[2 * k + 1])
    ensures data == Deinterleaved(buffer)
  {
    data := [];
    var count := 0;
    while count < |buffer|
      invariant 0 <= count <= |buffer| && count % 2 == 0
      invariant count == 2 * |data|
      invariant forall k :: 0 <= k < |data| ==> data[k] == Complex(buffer[2 * k], buffer[2 * k + 1])
    {
      data := data + [Complex(buffer[count], buffer[count + 1])];
      count := count + 2;
    }
  }

  /** What `read_BART_files` returns for the files found under a name. */
  function FilesFromStore(hdr: Option<string>, cfl: Option<seq<real>>): Result<(seq<nat>, seq<Complex>), ReadError> {
    match HdrFromFile(hdr)
    case Failure(e) => Failure(e)
    case Success(dims) =>
      if cfl.None? then Failure(MissingPayload)
      else if |cfl.value| % 2 != 0 then Failure(OddPayload)
      else Success((dims, Deinterleaved(cfl.value)))
  }

  /** Reading back a pair written by `write_BART_Files` gives the padded
      extents and the floats paired up in their written order. */
  lemma FilesRoundTrip(dims: seq<nat>, floats: seq<real>)
    requires |dims| < MaxDims
    requires forall i :: 0 <= i < |dims| ==> dims[i] <= IntMax
    requires |floats| % 2 == 0
    ensures FilesFromStore(Some(HeaderText(Padded(dims))), Some(floats)) == Success((Padded(dims), Deinterleaved(floats)))
  {
    HeaderRoundTrip(dims);
  }

  /** The loop of `read_BART_hdr` that pushes `std::stoi` of every item
      of the dimension line. */
  method ConvertItems(items: seq<string>) returns (r: Result<seq<nat>, ReadError>)
    ensures r == ParseExtents(items)
  {
    var dims: seq<nat> := [];
    var i := 0;
    while i < |items|
      invariant 0 <= i <= |items| && |dims| == i
      invariant forall j :: 0 <= j < i ==> ParseExtent(items[j]) == Some(dims[j])
    {
      var x := ParseExtent(items[i]);
      if x.None? {
        ParseExtentsFailure(items, i);
        return Failure(InvalidExtent);
      }
      dims := dims + [x.value];
      i := i + 1;
    }
    ParseExtentsSuccess(items, dims);
    r := Success(dims);
  }

  /** The files of the working directory: text files and float files by
      path. A file that was never written cannot be opened. */
  class FileStore {
    var textFiles: map<string, string>
    var floatFiles: map<string, seq<real>>

    constructor ()
      ensures textFiles == map[] && floatFiles == map[]
    {
      textFiles := map[];
      floatFiles := map[];
    }

    /** An std::ofstream opened on `path` replaces its content with `text`. */
    method WriteText(path: string, text: string)
      modifies this
      ensures textFiles == old(textFiles)[path := text]
      ensures floatFiles == old(floatFiles)
    {
      textFiles := textFiles[path := text];
    }

    /** A binary std::ofstream opened on `path` replaces its content with the floats. */
    method WriteFloats(path: string, floats: seq<real>)
      modifies this
      ensures floatFiles == old(floatFiles)[path := floats]
      ensures textFiles == old(textFiles)
    {
      floatFiles := floatFiles[path := floats];
    }

    /** `write_BART_hdr`: fewer than 16 extents, written padded to 16. */
    method WriteBartHdr(filename: string, dims: seq<nat>)
      requires |dims| < MaxDims
      modifies this
      ensures textFiles == old(textFiles)[filename + ".hdr" := HeaderText(Padded(dims))]
      ensures floatFiles == old(floatFiles)
    {
      var text := FormatHeader(dims);
      WriteText(filename + ".hdr", text);
    }

    /** `write_BART_Files`: the header, then the payload floats unchanged
        and in their order. */
    method WriteBartFiles(filename: string, dims: seq<nat>, data: seq<real>)
      requires |dims| < MaxDims
      modifies this
      ensures textFiles == old(textFiles)[filename + ".hdr" := HeaderText(Padded(dims))]
      ensures floatFiles == old(floatFiles)[filename + ".cfl" := data]
    {
      WriteBartHdr(filename, dims);
      WriteFloats(filename + ".cfl", data);
    }

    /** `read_BART_hdr`: every line of the header is collected, then the
        items of the second line are converted one by one. */
    method ReadBartHdr(filename: string) returns (r: Result<seq<nat>, ReadError>)
      ensures r == HdrFromFile(Lookup(textFiles, filename + ".hdr"))
    {
      var path := filename + ".hdr";
      if path !in textFiles {
        return Success([]);
      }
      assert Lookup(textFiles, path) == Some(textFiles[path]);
      var lines := GetlineSplit(textFiles[path], '\n');
      if |lines| < 2 {
        return Failure(MissingDimensionLine);
      }
      r := ConvertItems(GetlineSplit(lines[1], ' '));
    }

    /** `read_BART_files`: the extents, and the float buffer turned into
        complex samples. */
    method ReadBartFiles(filename: string) returns (r: Result<(seq<nat>, seq<Complex>), ReadError>)
      ensures r == FilesFromStore(Lookup(textFiles, filename + ".hdr"), Lookup(floatFiles, filename + ".cfl"))
    {
      var dims := ReadBartHdr(filename);
      if dims.Failure? {
        return Failure(dims.error);
      }
      var path := filename + ".cfl";
      if path !in floatFiles {
        return Failure(MissingPayload);
      }
      var buffer := floatFiles[path];
      if |buffer| % 2 != 0 {
        return Failure(OddPayload);
      }
      var data := Deinterleave(buffer);
      r := Success((dims.value, data));
    }
  }

  /** The output names collected by `getOutputFilename`: the function keeps a
      `static` vector that every call extends. */
  class OutputNames {
    var outputFile: seq<string>

    constructor ()
      ensures outputFile == []
    {
      outputFile := [];
    }

    /** Appends every space-separated token of the command line and returns
        the last name collected so far; with at least one token that is the
        line's own last token. */
    method GetOutputFilename(bartCommandLine: string) returns (name: string)
      requires outputFile + Tokens(bartCommandLine) != []
      modifies this
      ensures outputFile == old(outputFile) + Tokens(bartCommandLine)
      ensures name == outputFile[|outputFile| - 1]
      ensures Tokens(bartCommandLine) != [] ==> name == Tokens(bartCommandLine)[|Tokens(bartCommandLine)| - 1]
    {
      var tokens := Tokens(bartCommandLine);
      var i := 0;
      while i < |tokens|
        invariant 0 <= i <= |tokens|
        invariant outputFile == old(outputFile) + tokens[..i]
      {
        outputFile := outputFile + [tokens[i]];
        i := i + 1;
      }
      assert tokens[..|tokens|] == tokens;
      name := outputFile[|outputFile| - 1];
    }
  }
}
