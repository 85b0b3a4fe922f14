# BART interchange and reconstruction post-processing — a Dafny model

This project models the computational core of Gadgetron's BART reconstruction gadget.

- **Interchange codec.** Arrays are handed to the BART toolbox as a file pair. `<name>.hdr` holds the comment line `# Dimensions` and one line with 16 axis extents. `<name>.cfl` holds the complex samples as interleaved real and imaginary floats. The model covers:
  - writing the header, which pads fewer than 16 extents with 1s and prints each value in decimal followed by one space;
  - reading it back, which takes the second line, splits it on `' '` and parses each item with `std::stoi`;
  - de-interleaving the float payload;
  - folding the 16 BART axes onto Gadgetron's 7 axes `[d0, d1, d2, d3, d4·…·d15, 1, 1]`;
  - choosing the output name from a command line.
- **Script selection.** The gadget runs the whole command script. The last non-empty line of the script that contains `bart` only names the output: its last token is the name of the file pair that is read back.
- **Sampling-pattern classifier.** An E1×E2 occupancy mask is built from the central readout sample. From it the classifier decides whether the undersampling has variable density: more than 5 gaps larger than 1.5 acceleration factors, either in the centre row or in the centre column.
- **Complex coil combination.** Each `(n, s, slc)` volume of the multi-channel image is reduced to one channel as `Σ_cha im · conj(map)`. The coil-map indices `n` and `s` are clamped to the map's extents. The `N·S·SLC` volumes are written into a zeroed `[RO, E1, E2, 1, N, S, SLC]` result.

Modules:
- `Wrappers`: Option, Result, map lookup.
- `Arith`: nonlinear integer facts.
- `Text`: `std::getline`, boost's `char_separator` tokenizer, `std::string::find`, decimal output and `std::stoi`.
- `Arrays`: complex numbers, hoNDArray as extents plus flat column-major data, and offsets.
- `BartFileIO`: the free functions of `Bart_fileio.h`.
  - A `FileStore` class stands for the working directory and its files.
  - An `OutputNames` class holds the `static` vector of `getOutputFilename`.
- `BartReconArray`: `write_BART_Array` and `read_BART_Array`.
- `ReconScript`: the script selection loop.
- `SamplingPattern`: `check_sampling_pattern`.
- `CoilCombine`: `perform_complex_coil_combine`.

`getOutputFilename` exists twice in the source, as a free function (`Bart_fileio.h:133-141`) and as a member of the gadget (`BartReconGadget.h:209-217`). The two bodies are identical, so they are modelled once, and one row of the table covers both.

Three points of the code deserve a note:
- **Coil-map clamp.** The code compares `n` and `s` with axes 5 and 6 of the coil map, while they index axes 4 and 5 (see Findings). The combination in this model uses the corrected clamp `CoilCombine.ClampIndices`. The clamp as written, `CoilCombine.ClampAsWritten`, appears only in the counterexamples of the Findings row.
- **Payload size.** The code reads as many samples as the collapsed 7-axis shape counts, a product accumulated in `size_t`. That equals the product of all 16 extents unless the product wraps.
- **Short payload.** A short `.cfl` file leaves the trailing samples of the array unwritten. The model returns `ShortPayload` there instead (see Left out).

## Model

| member | source | states |
|---|---|---|
| Text.GetlineSplit | Bart_fileio.h:85-88 | the items `std::getline` extracts never contain the delimiter |
| Text.Tokens | Bart_fileio.h:136-139 | every token of boost's space separator is non-empty and has no space |
| Text.TokensEmptyIffBlank | Bart_fileio.h:136-139 | a line yields no token exactly when it is all spaces (runs of spaces give no empty token) |
| Text.LastTokenOfLine | Bart_fileio.h:136-140 | the last token is a maximal run of non-spaces followed only by spaces |
| Text.LastTokenSplit | Bart_fileio.h:136-140 | the witnesses of the above: the text before the last token is empty or ends in a space, and the text after it is blank |
| Text.NatToString | Bart_fileio.h:56 | `size_t` output is a non-empty string of digits without a leading zero |
| Text.DigitsValueOfNatToString | Bart_fileio.h:56 | the decimal output of n has the value n |
| Text.StoI | Bart_fileio.h:95 | a successful `std::stoi` result lies in the `int` range; anything else is the exception case |
| Text.StoIOfNatToString | Bart_fileio.h:95 | `std::stoi` reads back the decimal output of every value that fits an `int` |
| Text.StoIRejectsEmpty | Bart_fileio.h:94-95 | an empty item (two adjacent spaces) makes `std::stoi` throw |
| Text.ContainsAt | BartReconGadget.cpp:177 | `find("bart") != npos` whenever `bart` occurs at some index |
| Text.ContainsWitness | BartReconGadget.cpp:177 | conversely, `find("bart") != npos` only when `bart` occurs at some index |
| BartFileIO.Padded | Bart_fileio.h:46-50 | the padded vector has 16 slots: the extents as its prefix, then 1 in every other slot |
| BartFileIO.FormatHeader | Bart_fileio.h:46-56 | the loop that fills the 1-vector and prints it produces the comment line and the 16 padded values, each in decimal and followed by one space |
| BartFileIO.PadExtents | Bart_fileio.h:48-50 | copying the extents into a 16-slot vector of 1s gives the padded vector |
| BartFileIO.WriteExtents | Bart_fileio.h:56 | writing the values one by one through the `ostream_iterator` gives each in decimal followed by one space |
| BartFileIO.SplitSpaceTerminated | Bart_fileio.h:56 | splitting the printed extents line on `' '` gives exactly one decimal item per value, with no trailing empty item |
| BartFileIO.HeaderLines | Bart_fileio.h:55-56 | a written header consists of exactly two lines: the comment and the extents line |
| BartFileIO.ParseDecimalExtents | Bart_fileio.h:94-96 | converting decimal items of `int`-sized values gives the values back |
| BartFileIO.ConvertItems | Bart_fileio.h:94-96 | the `push_back(std::stoi(...))` loop gives the converted items in order, or InvalidExtent when `std::stoi` rejects any item |
| BartFileIO.HeaderRoundTrip | Bart_fileio.h:85-96 | parsing the second line of the header written for `dims` gives back the 16 padded extents |
| BartFileIO.Deinterleave | Bart_fileio.h:123-128 | for an even buffer the loop yields `|buffer|/2` samples, sample k being `(buffer[2k], buffer[2k+1])` |
| BartFileIO.DeinterleaveInterleave | Bart_fileio.h:123-128 | de-interleaving the `.cfl` layout of samples gives back the samples |
| BartFileIO.InterleaveDeinterleave | Bart_fileio.h:123-128 | de-interleaving loses and moves no float: interleaving its result gives back the buffer |
| BartFileIO.FilesRoundTrip | Bart_fileio.h:105-131 | reading a pair written by `write_BART_Files` gives the padded extents and the floats paired in written order |
| BartFileIO.FileStore.WriteBartHdr | Bart_fileio.h:44-58 | with fewer than 16 extents, `<name>.hdr` holds the header text of the padded extents and nothing else changes |
| BartFileIO.FileStore.WriteBartFiles | Bart_fileio.h:61-70 | writes the header, and writes the payload floats to `<name>.cfl` unchanged and in order |
| BartFileIO.FileStore.ReadBartHdr | Bart_fileio.h:72-101 | the loop result is the header's parsed extents. A missing file gives no extents, a header without a second line gives MissingDimensionLine, and an item `std::stoi` rejects gives InvalidExtent |
| BartFileIO.FileStore.ReadBartFiles | Bart_fileio.h:105-131 | returns the parsed extents and the de-interleaved payload. A header error is passed on, a missing `.cfl` gives MissingPayload and an odd float count gives OddPayload |
| BartFileIO.OutputNames.GetOutputFilename | Bart_fileio.h:133-141 | appends every token of the line to the persistent vector and returns its last element; for a line with a token, that is the line's last token (the member copy at `BartReconGadget.h:209-217` has the same body) |
| BartReconArray.Collapsed | BartReconGadget.h:183-193 | the Gadgetron shape has 7 entries: the first four extents, then the `size_t` product of the others, then 1, 1 |
| BartReconArray.CollapseDims | BartReconGadget.h:183-193 | the `dims_left` loop builds exactly the collapsed shape, the product wrapping modulo 2^64 |
| BartReconArray.PaddedProduct | BartReconGadget.h:127-129 | padding with 1s keeps the element count |
| BartReconArray.CollapsedProduct | BartReconGadget.h:188-193 | when the element count fits a `size_t`, the collapsed shape counts as many elements as the parsed extents |
| BartReconArray.ArrayFromHeader | BartReconGadget.h:180-206 | from the parsed header and the `.cfl` contents: a result is valid with 7 axes. It exists if and only if the header parsed, has at least 4 extents, the `.cfl` opens and the `.cfl` holds at least the collapsed element count |
| BartReconArray.WriteBartArray | BartReconGadget.h:117-147 | `<name>.hdr` holds the padded extents of the array in axis order, and `<name>.cfl` holds every sample in storage order |
| BartReconArray.ReadBartArray | BartReconGadget.h:150-207 | the method computes exactly `ArrayFromHeader` of the parsed `.hdr` file and the `.cfl` file it finds, returning no array when the `.cfl` cannot be opened |
| BartReconArray.LoadArray | BartReconGadget.h:180-206 | after the header is read, the collapse and the `.cfl` read give `ArrayFromHeader` of the parsed extents and the file's floats |
| BartReconArray.ProductPadOnes | BartReconGadget.h:127-129 | appending extents of 1 keeps the element count |
| BartReconArray.PayloadRoundTrip | BartReconGadget.h:180-204 | the padded extents and the interleaved samples of an array give back its samples under the collapsed shape, with the same element count |
| BartReconArray.ArrayRoundTrip | BartReconGadget.h:117-204 | an array written and read back has the same samples in the same order, the collapsed shape of its padded extents, and the same element count |
| BartReconArray.CollapseExampleShape | BartReconGadget.h:183-193 | the extents `[4,4,4,2,3,2,1]` count 768 elements and collapse to `[4,4,4,2,6,1,1]` |
| BartReconArray.CollapseExample | BartReconGadget.h:183-204 | a `[4,4,4,2,3,2,1]` array comes back as `[4,4,4,2,6,1,1]` with the same flat samples |
| BartReconArray.ExchangeArray | BartReconGadget.h:117-207 | afterwards `<name>.hdr` holds the padded header and `<name>.cfl` the interleaved samples, every other file is unchanged, and reading them back gives the collapsed array with the same data and element count |
| ReconScript.LastBartLineIsLast | BartReconGadget.cpp:175-180 | the selected command is empty exactly when no line is a non-empty `bart` line; otherwise it is such a line that no later such line follows |
| ReconScript.TrailingLinesIgnored | BartReconGadget.cpp:177-178 | lines that are empty or lack `bart` never change the selected command |
| ReconScript.LastBartCommand | BartReconGadget.cpp:172-180 | the loop over the script's lines leaves the last non-empty line that contains `bart` |
| SamplingPattern.AnyN | BartReconGadget.cpp:261-271 | a mask entry is set exactly when some repetition n has a nonzero sample at `(RO/2, e1, e2, 0, n)` |
| SamplingPattern.ScanColumn | BartReconGadget.cpp:265-272 | the e1 loop sets the mask entries of the acquired lines of column e2 and counts them |
| SamplingPattern.ScanPlane | BartReconGadget.cpp:263-273 | the e2 loop does so for every column of repetition n |
| SamplingPattern.BuildMask | BartReconGadget.cpp:255-275 | after the four loops, `mask[e1,e2]` is 1 iff some n acquired `(e1, e2)`, and the counter is S times the number of acquired (line, repetition) pairs |
| SamplingPattern.HitsNPositive | BartReconGadget.cpp:259-275 | the per-set count is positive exactly when some `(e1, e2, n)` was acquired |
| SamplingPattern.ReadoutLinesIffMask | BartReconGadget.cpp:258-279 | readout lines are counted exactly when the mask has a set entry |
| SamplingPattern.Positions | BartReconGadget.cpp:285-286 | `arma::find` yields indices within the row, each of a set entry |
| SamplingPattern.PositionsIncreasing | BartReconGadget.cpp:285-286 | the indices `arma::find` yields are strictly ascending |
| SamplingPattern.PositionsComplete | BartReconGadget.cpp:285-286 | every set entry is among them |
| SamplingPattern.ConsecutiveGaps | BartReconGadget.cpp:287-296 | the delta loop fills `n_elem - 1` consecutive differences of the positions |
| SamplingPattern.GapsPositive | BartReconGadget.cpp:285-296 | every delta is at least 1 |
| SamplingPattern.CountAbove | BartReconGadget.cpp:297-298 | `n_elem` of `arma::find(delta > 1.5·acce)`: the number of indices whose delta exceeds 1.5 acceleration factors, at most the number of deltas |
| SamplingPattern.AboveSnoc | BartReconGadget.cpp:297-298 | one delta more adds its own index to the found indices exactly when it exceeds the threshold |
| SamplingPattern.CountAboveNone | BartReconGadget.cpp:297-298 | with no delta above the threshold the count is 0 |
| SamplingPattern.CheckSamplingPattern | BartReconGadget.cpp:244-310 | the verdict is true iff lines were counted and more than 5 centre-row deltas exceed `1.5·acceFactorE1` or more than 5 centre-column deltas exceed `1.5·acceFactorE2` |
| SamplingPattern.WideRowGapsVariableDensity | BartReconGadget.cpp:297-303 | more than 5 centre-row deltas above `1.5·acceFactorE1` give the variable-density verdict |
| SamplingPattern.WideColGapsVariableDensity | BartReconGadget.cpp:297-303 | more than 5 centre-column deltas above `1.5·acceFactorE2` give the variable-density verdict |
| SamplingPattern.SmallGapsUniform | BartReconGadget.cpp:297-303 | gaps that never exceed 1.5 acceleration factors give the uniform verdict |
| SamplingPattern.PositionsOfFullRow | BartReconGadget.cpp:285-286 | a fully set row has the positions 0, 1, …, n−1 |
| SamplingPattern.FullMaskUniform | BartReconGadget.cpp:277-303 | a fully acquired mask is classifiable and uniform for acceleration factors of at least 1 |
| CoilCombine.OutputDims | BartReconGadget.cpp:324 | the result shape is `[RO, E1, E2, 1, N, S, SLC]` |
| CoilCombine.OutputSize | BartReconGadget.cpp:324 | the result holds `RO·E1·E2` samples for each of the `N·S·SLC` volumes |
| CoilCombine.DecomposeInRange | BartReconGadget.cpp:336-348 | every `ii < N·S·SLC` decomposes into `n < N, s < S, slc < SLC` with `ii = n + N·(s + S·slc)` |
| CoilCombine.DecomposeCompose | BartReconGadget.cpp:344-348 | every in-range `(n, s, slc)` is the decomposition of the flat index `n + N·(s + S·slc)`, so every volume is reached; with `DecomposeInRange`, which recomputes each task's own index from its decomposition, each volume is written by that one task only |
| CoilCombine.ClampAsWrittenMissesAxis | BartReconGadget.cpp:350-357 | the clamp as written can leave a coil-map index outside its axis and alias another slice's element |
| CoilCombine.ClampAsWrittenDropsEntry | BartReconGadget.cpp:350-357 | with one S entry, as in the gadget's own images, the clamp as written sends `n = 1` of a two-entry map to entry 0, where the corrected clamp keeps the in-range entry 1 |
| CoilCombine.ClampIndices | BartReconGadget.cpp:350-354 | the clamped indices lie within the map's N and S axes: kept when in range, otherwise the last entry |
| CoilCombine.ViewOffset | BartReconGadget.cpp:356-358 | a view starting at `(0,0,0,0,n,s,slc)` reaches channel c of voxel v at the array's own offset |
| CoilCombine.VoxelSum | BartReconGadget.cpp:360-361 | `multiplyConj` followed by `sum_over_dimension` yields the channel sum of image times conjugate map |
| CoilCombine.FlatIsCombined | BartReconGadget.cpp:358 | the flat result buffer holds, at the offset of `(v, 0, n, s, slc)`, the combined value of that voxel |
| CoilCombine.VolumeIsFlat | BartReconGadget.cpp:358 | the `combined` view of task ii is the stretch `[V·ii, V·ii + V)` of the result |
| CoilCombine.TaskStretch | BartReconGadget.cpp:344-358 | loop index `ii` decomposes into an in-range task whose output view starts at `V·ii`, with its `V` samples inside the result |
| CoilCombine.CombineTask | BartReconGadget.cpp:344-361 | one iteration writes the combined values of task `ii` into `[V·ii, V·ii + V)`, keeps the values already written below, and leaves everything after its stretch unchanged |
| CoilCombine.PerformComplexCoilCombine | BartReconGadget.cpp:312-369 | the result has shape `[RO, E1, E2, 1, N, S, SLC]`, and every voxel `(v, 0, n, s, slc)` holds `Σ_cha im · conj(map)` at the map indices of `ClampIndices` (the corrected clamp, see Findings) |
| CoilCombine.CombinedAt | BartReconGadget.cpp:356-361 | the same value, read with the seven indices `(ro, e1, e2, 0, n, s, slc)` |
| CoilCombine.SingleChannelUnitMap | BartReconGadget.cpp:360-361 | with one channel and a unit sensitivity the combined value is the image sample |
| CoilCombine.SelfChannelSum | BartReconGadget.cpp:360-361 | the channel sum of an image with itself is `Σ_cha |im_cha|²`, with imaginary part 0 |
| CoilCombine.SelfChannelSumSign | BartReconGadget.cpp:360-361 | that sum is zero when every channel so far is zero and positive otherwise |
| CoilCombine.SelfCombine | BartReconGadget.cpp:360-361 | combining an image with itself gives `Σ_cha |im_cha|²`: a real value, zero exactly when every channel of the voxel is zero and positive otherwise |

## Left out

- The inverse FFT (`ifft3c`/`ifft2c`) is a library call on floats. The reconstructed image `complex_im_recon_buf_` is an input of `PerformComplexCoilCombine`. The coil map is an input too, because its estimation is base-class code that is not part of this model.
- The OpenMP `parallel for` is modelled as a sequential loop over `ii`. Per-thread buffers are left out: the product of `multiplyConj` is summed at once instead of being stored in `complexImBuf`. `DecomposeCompose` shows that every volume is reached by some task, and `DecomposeInRange` that each task writes the volume of its own index, so each volume is written by one task only.
- Floats are `real`s. Rounding, NaN, byte layout and endianness are not modelled. The `.cfl` file is a sequence of floats, and the `.hdr` file is a string.
- Failures to open a file for writing only log an error, so they are not modelled: the writes always succeed. Logging and timers are left out.
- BartFileIO.FileStore.ReadBartFiles does not reproduce the buffer sizing of `read_BART_files`, which allocates the byte count as a float count. It models the de-interleave over the floats of the file.
- BartFileIO.FileStore.WriteBartFiles takes the payload as floats. When it is called with complex data, the source writes only `DATA.size()` floats, half of the data. Those bytes are not modelled.
- BartReconArray.ArrayFromHeader returns `ShortPayload` instead of an array whose trailing samples are unwritten, because those samples are unspecified memory.
- Undefined behaviour becomes an error value:
  - a header with fewer than two lines, for `tokens[1]`;
  - fewer than four extents, for `DIMS[3]`.
- BartFileIO.FileStore.ReadBartFiles returns `MissingPayload` when the `.cfl` file does not exist. The source reports the failed open and goes on: `tellg()` on the unopened stream gives -1, so the buffer asks for `SIZE_MAX` floats and the allocation throws. `MissingPayload` stands for that exception.
- BartFileIO.FileStore.ReadBartFiles returns `OddPayload` for an odd float count. In the source the buffer holds one float per byte of the file, so the last float of the file is paired with a zero-filled entry instead; since that sizing is not modelled, the model rejects such a payload.
- The wrap of the `size_t` product in `hoNDArray`'s element count is not modelled beyond `dims_left`. BartReconArray.CollapsedProduct and BartReconArray.ArrayRoundTrip require the element count to fit a `size_t`.
- `std::stoi`'s `int` result is stored in a `size_t`, so a negative extent wraps to `x + 2^64`.
  - BartFileIO.HeaderRoundTrip requires every extent to fit an `int`; larger values make `std::stoi` throw.
  - Only white space, a sign and decimal digits are recognised. Locale-specific behaviour is not modelled.
- BartFileIO.OutputNames.GetOutputFilename requires that the vector is non-empty after the call, because `back()` of an empty vector is undefined.
- SamplingPattern.CheckSamplingPattern requires:
  - that every probed sample exists (`Probed`);
  - that the centre row and centre column each hold an acquired line whenever a readout line was found (`Classifiable`). Otherwise `n_elem - 1` wraps around.
- The acceleration factors are plain parameters, because they come from the base class. They are modelled as natural numbers; the base class sets no such bound. The debug-only `effective_acce_factor` is not modelled.
- The coil-map views read `CHA` channels and the image's slice index from the map. CoilCombine.CombineInputs therefore requires the map to have at least as many channels and slices as the image, and at least one N and S entry.
- `CreateBartFileFolder`, `cleanup`, the subprocess calls and the gadget's configuration and message plumbing are left out: they depend on the clock, on a random generator or on the operating system. So is the GCC gadget.

## Findings

| source | as written | input that shows it | evidently intended | confidence | as-written member | corrected member |
|---|---|---|---|---|---|---|
| BartReconGadget.cpp:350-357 | `coilMapN` is clamped against `coil_map_.get_size(5)` and `coilMapS` against `get_size(6)`, but they index map axes 4 and 5 | a coil map `[1,1,1,1,1,1,3]`, an image with S = 2 and the task `(n, s, slc) = (0, 1, 0)`: `coilMapS` stays 1, outside the map's single S entry, and addresses the element of slice 1. Inside the gadget, where S = 1: a map `[1,1,1,1,2,1,1]` and `n = 1` give `coilMapN` 0 instead of the in-range 1 | clamp `n` against axis 4 (N′) and `s` against axis 5 (S′), reusing the last available map entry | not executed | CoilCombine.ClampAsWrittenMissesAxis and CoilCombine.ClampAsWrittenDropsEntry (with CoilCombine.ClampAsWritten) | CoilCombine.ClampIndices |
