# EAM potential files of matscipy, in Dafny

This project models the file input/output of `matscipy/eam/io.py`: the readers and writers
of tabulated embedded-atom-method (EAM) potentials in the two LAMMPS text formats, and the
mixer that merges several single- or multi-species potentials into one.

- `read_eam` / `write_eam`: the single-species "eam" (funcfl) file. It holds a comment line,
  the species line (atomic number, mass, lattice constant, crystal label), and the grid line
  (Nrho, drho, Nr, dr, cutoff). After those come Nrho values of the embedding function F,
  Nr values of the density f and Nr values of the pair function.
- `read_eam_alloy` / `write_eam_alloy`: the multi-species "eam/alloy" (setfl) file. It holds
  three comment lines, the species count and names, and the grid line. Then, per species,
  a header line followed by its F and f values. Last come the pair functions of the lower
  triangle, diagonal included, row by row.
- `mix_eam_alloy`: reads every file and concatenates their species. It picks the embedding
  grid of the first file with the smallest Nrho*drho, and the density/pair grid of the
  first file with the smallest cutoff. Every species' F, f and self pair function are
  resampled onto those grids and stored on the diagonal of the mixed tables. Finally,
  every pair i < j gets `sqrt(|rep_ii * rep_jj|)`.

A file is a sequence of pieces: ordinary characters, and floating-point literals kept as
one opaque piece each (`FileText`). `FileText`, `NumpyText` and `PyNum` state the
Python and numpy behaviour the code relies on:
- `readlines`, `strip`, `split`, `int()`, `float()`;
- slicing that never raises, indexing with negative indices, `int()` truncation;
- slice assignment with broadcasting, `linspace`;
- `numpy.fromfile(sep=' ')` with `readline()`, and `numpy.loadtxt`.

The readers are modelled twice:
- as a function stating what they return (`Funcfl.ReadEam`, `SetflRead.AlloyRead`);
- as methods that compute it the way the source does (`SetflRead.ReadEamAlloy`): the line
  stride to the species headers, the readline/fromfile stream, tables filled row by row,
  and a running pair counter.

The writers are methods that append to the output text and are proved equal to a layout
function. The mixer is a method (`EamMix.MixEamAlloy`) proved equal to a declarative
`EamMix.Mix`, both with the self pair lookup of line 239 corrected (see Findings). Round trips connect writers and readers: `Funcfl.WriteReadEam` and
`SetflRoundTrip.WriteReadEamAlloy`. The mixer's properties are in `EamMixProperties`.

## Model

| member | source | states |
|---|---|---|
| PyNum.SliceBound | matscipy/eam/io.py:157-158 | a slice bound is clamped into [0, n]; a bound inside the sequence is kept |
| PyNum.PySliceNonNegative | matscipy/eam/io.py:88-90 | a slice with 0 <= a <= b never raises: it has b - a elements, or what is left of the sequence after a, and element k is s[a + k] |
| PyNum.PyIndexWraps | matscipy/eam/io.py:142 | `eam[row]` succeeds exactly when -n <= row < n, and then reads position row mod n: an index wraps around at most once |
| PyNum.Trunc | matscipy/eam/io.py:141 | `int(x)` truncates toward zero: r <= x < r + 1 for x >= 0, r - 1 < x <= r for x < 0 |
| PyNum.BroadcastRepeats | matscipy/eam/io.py:157-158 | a slice assigned to a row of length n that succeeds puts src[k mod len(src)] at position k of the row |
| PyNum.Linspace | matscipy/eam/io.py:237-239 | `linspace(0, stop, num)` fails for a negative num; otherwise it has num points, starts at 0 and ends at stop |
| FileText.SplitJoin | matscipy/eam/io.py:131 | fields joined with a whitespace separator split back into the same fields |
| FileText.SplitTerminated | matscipy/eam/io.py:296-297 | names each written followed by a space split back into the names |
| FileText.SplitStrip | matscipy/eam/io.py:131 | stripping a line does not change its fields |
| FileText.RenderAppend | matscipy/eam/io.py:293-312 | writing two runs of lines one after the other gives the concatenation of their texts |
| FileText.LinesRender | matscipy/eam/io.py:127 | `readlines()` of a file written line by line, each line without a break, gives the lines written |
| FileText.DigitsRoundTrip | matscipy/eam/io.py:133-134 | the decimal digits of n are all digits and read back as n |
| FileText.FormatIntRoundTrip | matscipy/eam/io.py:295 | `int('%i' % n) == n` and `float('%i' % n) == n`, and the written integer is one whitespace-free field |
| NumpyText.ItemsAppend | matscipy/eam/io.py:149-154 | the stream of two runs of lines is the concatenation of their streams |
| NumpyText.NextLineSkipsTokens | matscipy/eam/io.py:152 | `readline()` skips the fields of the current line and its end |
| NumpyText.NextLineItems | matscipy/eam/io.py:152 | `readline()` at the start of a line moves to the stream of the next line |
| NumpyText.ReadNumbersStep | matscipy/eam/io.py:153 | fromfile reads a one-value line and continues with one fewer value to read |
| NumpyText.ReadValueItems | matscipy/eam/io.py:153-154 | fromfile over one-value lines reads exactly count values, or all with count < 0, and leaves the stream after them |
| NumpyText.Uncommented | matscipy/eam/io.py:87 | loadtxt keeps the part of a line before its first '#' |
| EamFormat.WriteValues | matscipy/eam/io.py:302-305 | writing `"%.16e \n"` per value appends exactly the one-value lines of the values |
| EamFormat.ParseGridLine | matscipy/eam/io.py:133-137 | the grid line is read exactly when it has at least five fields with fields 0 and 2 integers and 1, 3, 4 numbers; each grid value is the field at its index |
| EamFormat.ParseSpeciesLine | matscipy/eam/io.py:142-145 | a species line is read exactly when it has at least four fields whose first three are numbers; the crystal label is field 3 |
| EamFormat.GridLineRoundTrip | matscipy/eam/io.py:299 | the grid line written is one line and is read back as the same grid |
| EamFormat.SpeciesLineRoundTrip | matscipy/eam/io.py:290 | a species line written with a one-field label is one line and is read back as the same species |
| EamFormat.ReadValueLines | matscipy/eam/io.py:153-154 | fromfile over written value lines returns the values and stops at the next non-blank line |
| EamFormat.LoadValueLines | matscipy/eam/io.py:87 | loadtxt over one-value lines gives the values back in order |
| EamFormat.LoadRowsOfValues | matscipy/eam/io.py:87 | rows of one number each, all of width 1, load as those numbers |
| Funcfl.SliceTablesPartition | matscipy/eam/io.py:88-90 | F, f and rep are consecutive: together they are the first Nrho + 2*Nr values, or all of a shorter table, and they have exactly Nrho, Nr, Nr values when the table is long enough |
| Funcfl.ReadEamTables | matscipy/eam/io.py:87-90 | read_eam's three tables, run together, are the leading values of loadtxt of the lines after the third |
| Funcfl.ReadEamShortGridLine | matscipy/eam/io.py:80-84 | a grid line with fewer than five fields makes read_eam fail |
| Funcfl.WriteEam | matscipy/eam/io.py:350-367 | the text written is the title, the species line, the grid line, then F, f and rep one value per line |
| Funcfl.TitleStrip | matscipy/eam/io.py:354 | the stripped title line is the fixed text followed by the source without trailing whitespace |
| Funcfl.SliceConcat | matscipy/eam/io.py:88-90 | slicing F ++ f ++ rep by the grid's sizes gives F, f and rep back |
| Funcfl.EamLayoutLines | matscipy/eam/io.py:353-365 | the lines write_eam writes are read back by readlines as written; everything after line 3 is the value lines of F ++ f ++ rep |
| Funcfl.EamLayoutFlat | matscipy/eam/io.py:360-365 | the value lines of F, f and rep are those of the three run together |
| Funcfl.WriteReadEam | matscipy/eam/io.py:72-91 | what write_eam writes, read_eam reads back with the same species, grid and tables; the source comes back behind the title text, with trailing whitespace removed |
| Triangle.FlattenAppend | matscipy/eam/io.py:151-154 | flattening a concatenation is the concatenation of the flattenings |
| Triangle.FlattenUniform | matscipy/eam/io.py:157-158 | with blocks of m values each, block n sits at [n*m, n*m + m) of the flat sequence |
| Triangle.FlattenLength | matscipy/eam/io.py:148-155 | n blocks of m values flatten to n*m values |
| Triangle.TriClosed | matscipy/eam/io.py:159-166 | the number of lower-triangle pairs of n species, diagonal included, is n*(n+1)/2 |
| Triangle.TriMonotone | matscipy/eam/io.py:159-166 | the pair count grows with the species count |
| Triangle.PairKeysAt | matscipy/eam/io.py:159-166 | pair (i, j) with j <= i is at position i*(i+1)/2 + j of the file order |
| Triangle.PairKeysIn | matscipy/eam/io.py:306-312 | every position of the file order holds a lower-triangle pair, and its position is the one PairKeysAt gives |
| Triangle.PairIndexInjective | matscipy/eam/io.py:163-165 | two lower-triangle pairs read from the same offset are the same pair |
| Triangle.RepListIsDiagonal | matscipy/eam/io.py:220 | rep_list[i] = i*(i+1)/2 + i, the flat position of the diagonal pair (i, i) |
| SetflRead.ReadHeader | matscipy/eam/io.py:127-137 | a file of fewer than five lines is an IndexError; a header is only read from at least five lines |
| SetflRead.U32 | matscipy/eam/io.py:138 | a crystal label stored in the `<U32` array is its prefix of length min(len, 32): a short label unchanged, a long one exactly its first 32 characters |
| SetflRead.HeaderRow | matscipy/eam/io.py:139-142 | a header row that is read lies inside the file; a file of fewer than seven lines is an IndexError |
| SetflRead.HeaderRowStride | matscipy/eam/io.py:139-141 | when line 6 has one field, or every species block is empty, species i's header is line 5 + i*(Nrho+Nr+1) |
| SetflRead.StrideExact | matscipy/eam/io.py:141 | `int(5 + i*((Nr+Nrho)/l + 1))` is exactly 5 + i*(Nrho+Nr+1) for l = 1, or for Nrho+Nr = 0 |
| SetflRead.ReadSpecies | matscipy/eam/io.py:139-145 | the species read are, one by one, the species at each header row |
| SetflRead.ReadSpeciesStaysErr | matscipy/eam/io.py:139-145 | the first species that cannot be read ends the reader with its error |
| SetflRead.SpeciesDataStep | matscipy/eam/io.py:151-153 | one species block's values (readline, then fromfile) followed by the rest |
| SetflRead.AlloyReadShape | matscipy/eam/io.py:148-167 | a file that reads gives one F of Nrho and one f of Nr values per species, and pair functions of Nr values for exactly the lower triangle |
| SetflRead.TabulateShape | matscipy/eam/io.py:156-166 | the tables cut from the values have the shapes the grid declares |
| SetflRead.ReadSpeciesHeaders | matscipy/eam/io.py:139-145 | the header loop returns the species as ReadSpecies states, or its first error |
| SetflRead.SkipHeaderLines | matscipy/eam/io.py:149-150 | after five readline calls the stream starts at line 6 |
| SetflRead.ReadSpeciesBlocks | matscipy/eam/io.py:151-153 | the block loop collects every species block's values and leaves the stream after them |
| SetflRead.SpeciesDataNext | matscipy/eam/io.py:151-153 | each block read keeps the collected values a prefix of all the blocks' values |
| SetflRead.ReadDataStream | matscipy/eam/io.py:148-155 | data is the species blocks' values followed by everything left in the file |
| SetflRead.SliceRows | matscipy/eam/io.py:157-158 | species i's F and f are cut, or a ValueError when a slice cannot be assigned |
| SetflRead.FillRows | matscipy/eam/io.py:156-158 | the row loop succeeds exactly when every species' slices fit, and then fills F and f with them; otherwise ValueError |
| SetflRead.SlicePair | matscipy/eam/io.py:163-165 | with the counter at i*(i+1)/2 + j, the slice read is pair (i, j)'s |
| SetflRead.FillPairs | matscipy/eam/io.py:159-166 | the pair loop succeeds exactly when every lower-triangle slice fits, and then assigns exactly the lower triangle from offset K*(Nrho+Nr) + (i*(i+1)/2 + j)*Nr; otherwise ValueError |
| SetflRead.ReadEamAlloy | matscipy/eam/io.py:127-167 | the reader as written returns what AlloyRead states |
| SetflRead.ReadEamAlloyLines | matscipy/eam/io.py:129-167 | the reader on the file's lines, step by step, returns AlloyReadLines |
| SetflRead.TabulateData | matscipy/eam/io.py:156-166 | filling F, f and rep from data returns what Tabulate states |
| SetflWrite.PairRows | matscipy/eam/io.py:306-312 | n species' pair functions are written as n*(n+1)/2 rows |
| SetflWrite.WriteEamAlloy | matscipy/eam/io.py:285-314 | the writer succeeds exactly when every index it uses exists, and then writes the layout; otherwise IndexError |
| SetflWrite.WriteTitle | matscipy/eam/io.py:291-294 | the title is written as its three comment lines |
| SetflWrite.WriteCountLine | matscipy/eam/io.py:295-298 | the count line is the species count and every name followed by a space |
| SetflWrite.WriteSpeciesBlocks | matscipy/eam/io.py:300-305 | the species loop writes every species block, and fails with IndexError exactly when F or f has too few rows |
| SetflWrite.WriteBlock | matscipy/eam/io.py:301-305 | one species' header line, then its F and f values |
| SetflWrite.BlockRendered | matscipy/eam/io.py:301-305 | the text of one block is its header line and the value lines of F and f |
| SetflWrite.BlocksSnoc | matscipy/eam/io.py:300-305 | one more species adds its block at the end |
| SetflWrite.WritePairs | matscipy/eam/io.py:306-312 | the pair loop writes the lower triangle row by row with the diagonal last, and fails with IndexError exactly when some row has no diagonal entry |
| SetflWrite.WritePairRow | matscipy/eam/io.py:307-312 | row i writes rep[i][0..i], or IndexError when row i is shorter |
| SetflRoundTrip.CountLineFields | matscipy/eam/io.py:295-298 | the count line splits into the count and the names, and is one line |
| SetflRoundTrip.AlloyLayoutLines | matscipy/eam/io.py:293-314 | the lines the writer writes are read back by readlines as written |
| SetflRoundTrip.TitleStrips | matscipy/eam/io.py:291 | each comment line written strips to its text without trailing whitespace |
| SetflRoundTrip.TitleRead | matscipy/eam/io.py:129 | the three stripped comment lines join into the title, '#', the source without trailing whitespace, and '#' |
| SetflRoundTrip.HeaderRoundTrip | matscipy/eam/io.py:129-137 | the five header lines written are read back as the source, the names and the grid |
| SetflRoundTrip.BlocksUniform | matscipy/eam/io.py:300-305 | every species block written has Nrho + Nr + 1 lines |
| SetflRoundTrip.HeaderLineAt | matscipy/eam/io.py:139-141 | species i's header line is line 5 + i*(Nrho+Nr+1) |
| SetflRoundTrip.StrideLine | matscipy/eam/io.py:140 | line 6 of a written file has one field, or four when the blocks hold no values |
| SetflRoundTrip.SpeciesAtRoundTrip | matscipy/eam/io.py:139-145 | species i is read back from its header line as written, with a label of at most 32 characters |
| SetflRoundTrip.SpeciesPrefixRoundTrip | matscipy/eam/io.py:139-145 | the first n species are read back as written |
| SetflRoundTrip.ReadSpeciesAll | matscipy/eam/io.py:139-145 | when every header row up to n reads as the species stored there, the header loop returns exactly those species in order |
| SetflRoundTrip.SpeciesDataOfBlocks | matscipy/eam/io.py:151-153 | readline then fromfile over written blocks gives every block's values and leaves the stream after the last block |
| SetflRoundTrip.SpeciesBlocksHeaded | matscipy/eam/io.py:300-305 | the species blocks are header lines, each followed by F[i] ++ f[i] as one run of values |
| SetflRoundTrip.AlloyDataRoundTrip | matscipy/eam/io.py:148-155 | the data array of a written file is the species blocks' values followed by the pair values |
| SetflRoundTrip.PairRowsAt | matscipy/eam/io.py:306-312 | pair (i, j) is written as row i*(i+1)/2 + j of the pair section |
| SetflRoundTrip.PairRowsUniform | matscipy/eam/io.py:309-312 | every pair row written has Nr values |
| SetflRoundTrip.EmbeddingShift | matscipy/eam/io.py:157 | behind one more block, species i's F slice is species i-1's |
| SetflRoundTrip.DensityShift | matscipy/eam/io.py:158 | behind one more block, species i's f slice is species i-1's |
| SetflRoundTrip.FirstBlock | matscipy/eam/io.py:157-158 | species 0's F and f are the first Nrho and the next Nr values |
| SetflRoundTrip.BlockRoundTrip | matscipy/eam/io.py:157-158 | species i's F and f slices of written blocks are the two parts of block i |
| SetflRoundTrip.ChunkAt | matscipy/eam/io.py:163 | chunk t of equal chunks is the slice at t*m |
| SetflRoundTrip.ChunkSlot | matscipy/eam/io.py:165 | the same behind a prefix |
| SetflRoundTrip.PairSlotRoundTrip | matscipy/eam/io.py:159-166 | the pair slice for (i, j) of a written file is rep[i][j] |
| SetflRoundTrip.RowsRoundTrip | matscipy/eam/io.py:156-158 | F and f are read back from the written species blocks |
| SetflRoundTrip.RowsTile | matscipy/eam/io.py:151-158 | whatever the values, the species slices all fit, and F[i] ++ f[i] for i < K tile the first K*(Nrho+Nr) values in order |
| SetflRoundTrip.BlockInside | matscipy/eam/io.py:157-158 | block i of k blocks of b values lies inside the first k*b values |
| SetflRoundTrip.FlattenBlocks | matscipy/eam/io.py:151-155 | the k consecutive blocks of b values run together are the first k*b values |
| SetflRoundTrip.PairsRoundTrip | matscipy/eam/io.py:159-166 | the pair functions of the lower triangle are read back from the written pair section |
| SetflRoundTrip.BlockValuesLength | matscipy/eam/io.py:163 | the species values take K*(Nrho+Nr) places, the offset of the pair section |
| SetflRoundTrip.TabulateRoundTrip | matscipy/eam/io.py:156-166 | cutting the written values gives F, f and the lower-triangle pair table back |
| SetflRoundTrip.AlloyReadLinesOk | matscipy/eam/io.py:127-167 | with the header, species and data known, the reader returns the tables cut from data |
| SetflRoundTrip.LayoutSections | matscipy/eam/io.py:291-312 | the written file is five header lines, the species blocks, then the pair values |
| SetflRoundTrip.WriteReadEamAlloy | matscipy/eam/io.py:127-167 | what write_eam_alloy writes, read_eam_alloy reads back: the names, the grid, F, f and the lower-triangle pair functions exactly, each species with its label cut to 32 characters, and the source behind the title text |
| SetflRoundTrip.SpeciesHeadersRead | matscipy/eam/io.py:139-145 | all species are read back as written |
| SetflRoundTrip.TablesRead | matscipy/eam/io.py:156-166 | the written tables are read back |
| SetflRoundTrip.ReadPieces | matscipy/eam/io.py:127-155 | the header, the species and the data array of a written file |
| SetflRoundTrip.ReadSections | matscipy/eam/io.py:127-167 | header, species and data as written give the potential written |
| SetflRoundTrip.SingleSpeciesWithoutValues | matscipy/eam/io.py:140 | a written file with one species and Nrho = Nr = 0 is refused on reading with IndexError: line 6 does not exist |
| SetflRoundTrip.SixLines | matscipy/eam/io.py:293-312 | that file has exactly six lines |
| SetflRoundTrip.ShortFileFails | matscipy/eam/io.py:140 | a six-line file with one species makes the reader fail with IndexError |
| EamMix.ReadFile | matscipy/eam/io.py:230 | the second read of file j gives the same result as the first |
| EamMix.Gather | matscipy/eam/io.py:207-208 | when every file reads, the potentials are the results, in file order |
| EamMix.GatherStaysErr | matscipy/eam/io.py:207-208 | the first file that cannot be read ends the mixer with its error |
| EamMix.ReadsShaped | matscipy/eam/io.py:208 | every potential the reader returns has one F, f and self pair function per species |
| EamMix.GatherResamplable | matscipy/eam/io.py:207-208 | so does every potential the mixer goes on with |
| EamMix.ShapedResamplable | matscipy/eam/io.py:236-239 | a well-shaped potential has what the inner loop reads |
| EamMix.ConcatPrefix | matscipy/eam/io.py:231-235 | the names appended for the first m files are a prefix of those for the first n |
| EamMix.ConcatAt | matscipy/eam/io.py:231 | name i of file j lands at the count of the names before file j, plus i |
| EamMix.SpeciesAlign | matscipy/eam/io.py:231-235 | as many species as names are appended |
| EamMix.ArgMin | matscipy/eam/io.py:217-218 | argmin is a position of the minimum, and the first one |
| EamMix.ArgMinUnique | matscipy/eam/io.py:217-218 | a first position of the minimum is the argmin |
| EamMix.Resample | matscipy/eam/io.py:237-239 | a resampled table has Nr_ (or Nrho_) values |
| EamMix.SpeciesDiagonal | matscipy/eam/io.py:237-239 | a species resampled has F of the mixed Nrho and f and rep of the mixed Nr values |
| EamMix.FileDiagonals | matscipy/eam/io.py:236-240 | the first m species of a file, all resampled to the mixed grid |
| EamMix.FileDiagonalsStaysErr | matscipy/eam/io.py:236-240 | the first species that cannot be resampled ends the file |
| EamMix.FileDiagonalsNext | matscipy/eam/io.py:236-240 | each species resampled follows those before it, or its error is the file's |
| EamMix.DiagonalsStaysErr | matscipy/eam/io.py:229-240 | the first file that cannot be resampled ends the mixer |
| EamMix.DiagonalsLength | matscipy/eam/io.py:229-240 | one diagonal per species name |
| EamMix.FileDiagonalAt | matscipy/eam/io.py:236-240 | diagonal i of a file is species i resampled |
| EamMix.DiagonalsFit | matscipy/eam/io.py:237-239 | every diagonal has the mixed grid's sizes |
| EamMix.DiagonalsAt | matscipy/eam/io.py:229-240 | file j's diagonal i follows the diagonals of the files before it |
| EamMix.DiagonalOfSpecies | matscipy/eam/io.py:229-240 | diagonal n_at for species i of file j is that species resampled |
| EamMix.DiagTableSnoc | matscipy/eam/io.py:237-240 | storing one more species sets entry (n_at, n_at) |
| EamMix.DiagTableKeys | matscipy/eam/io.py:237-240 | the inner loop sets exactly the diagonal entries |
| EamMix.DiagTableAt | matscipy/eam/io.py:237-240 | entry (n, n) holds species n's table |
| EamMix.CrossValuesSymmetric | matscipy/eam/io.py:245 | `sqrt(abs(a*b))` is the same with a and b swapped |
| EamMix.StoreDiagonal | matscipy/eam/io.py:237-239 | the three assignments set (n, n) in each table and nothing else |
| EamMix.TablesSnoc | matscipy/eam/io.py:237-240 | storing the next species' diagonal extends the tables of those before it |
| EamMix.FindArgMin | matscipy/eam/io.py:217-218 | the argmin loop returns ArgMin |
| EamMix.ResampleSpecies | matscipy/eam/io.py:237-239 | the three resamplings of a species return SpeciesDiagonal |
| EamMix.ResampleFile | matscipy/eam/io.py:236-240 | the inner loop stores every species of a file, or ends with the first error |
| EamMix.FilledStep | matscipy/eam/io.py:243-245 | one step of the cross loop adds (i, j) when j > i, otherwise nothing |
| EamMix.FilledEnds | matscipy/eam/io.py:242-245 | before the cross loop only the diagonal is set; after it, exactly the upper triangle |
| EamMix.AgreesCross | matscipy/eam/io.py:245 | setting (i, j) to `sqrt(abs(rep_ii * rep_jj))` keeps every entry equal to its mixed value |
| EamMix.MixRow | matscipy/eam/io.py:243-245 | one row of the cross loop sets (i, j) for every j > i |
| EamMix.DiagonalAgrees | matscipy/eam/io.py:239 | after the second pass the pair table holds the diagonal |
| EamMix.AgreesComplete | matscipy/eam/io.py:242-245 | after the cross loop the pair table is MixedPairs |
| EamMix.MixCrossTerms | matscipy/eam/io.py:242-245 | the cross loop turns the diagonal pair table into MixedPairs |
| EamMix.ScanFile | matscipy/eam/io.py:209-216 | each file adds its source, its species count and its grid |
| EamMix.GatherSnoc | matscipy/eam/io.py:207-208 | one more file read extends the potentials, or its error ends the mixer |
| EamMix.FirstPass | matscipy/eam/io.py:207-216 | the first pass fails with the first read error, or collects the sources, the species count and every file's grid |
| EamMix.SecondPassFile | matscipy/eam/io.py:230-240 | one file of the second pass appends its species and stores its diagonals, or fails |
| EamMix.SecondPass | matscipy/eam/io.py:229-240 | the second pass gives all names, all species and the diagonal tables, or the first resampling error |
| EamMix.ChooseGrid | matscipy/eam/io.py:217-227 | the grid chosen is MixedGrid |
| EamMix.MixScanned | matscipy/eam/io.py:217-247 | the rest of the mixer returns MixPots |
| EamMix.MixEamAlloy | matscipy/eam/io.py:203-248 | the mixer, with the self pair lookup of line 239 corrected to `rep[i,i,:]` (see Findings), returns what Mix states |
| EamMixProperties.GatherAllOk | matscipy/eam/io.py:207-208 | when every file reads, the mixer goes on |
| EamMixProperties.GatherFirstError | matscipy/eam/io.py:207-208 | the first unreadable file's error is the mixer's |
| EamMixProperties.MixUnreadable | matscipy/eam/io.py:207-208 | the mixer fails with the error of the first file that cannot be read |
| EamMixProperties.MixNothing | matscipy/eam/io.py:217 | no files is a ValueError (argmin of an empty array) |
| EamMixProperties.MixedGridChoice | matscipy/eam/io.py:217-227 | Nrho and drho come from the first file of smallest Nrho*drho; Nr, dr and the cutoff from the first file of smallest cutoff |
| EamMixProperties.MixNamesPlaced | matscipy/eam/io.py:231-235 | species i of file j is listed at the count of species before file j, plus i |
| EamMixProperties.NamesAt | matscipy/eam/io.py:231-235 | the same for the concatenated names and species |
| EamMixProperties.MixTablesPlaced | matscipy/eam/io.py:236-240 | that species' F, f and self pair function, resampled, are entry (n, n) of F_, f_ and rep_ |
| EamMixProperties.DiagonalEntries | matscipy/eam/io.py:237-240 | entry (n, n) of the mixed tables is diagonal n |
| EamMixProperties.MixKeys | matscipy/eam/io.py:222-245 | F_ and f_ are set exactly on the diagonal, rep_ exactly on i <= j; there is one species per name |
| EamMixProperties.MixLengths | matscipy/eam/io.py:222 | every entry set has the mixed grid's length |
| EamMixProperties.TablesFit | matscipy/eam/io.py:222 | the same, for the tables built from the diagonals |
| EamMixProperties.MixCross | matscipy/eam/io.py:242-245 | for i < j, rep_[i,j] is `sqrt(abs(rep_[i,i]*rep_[j,j]))`, the same as with i and j swapped |
| EamMixProperties.ResampleSame | matscipy/eam/io.py:237-239 | resampling onto the table's own grid, with a spline that reproduces its data, gives the table back |
| EamMixProperties.SpeciesSame | matscipy/eam/io.py:237-239 | so does resampling a species |
| EamMixProperties.SingleFileMix | matscipy/eam/io.py:203-248 | mixing one file gives back its source, names, species, grid and every species' F, f and self pair function |
| EamMixProperties.SingleFileHeader | matscipy/eam/io.py:209-235 | mixing one file keeps its source, names, species and grid |
| EamMixProperties.SingleFileSpecies | matscipy/eam/io.py:236-240 | mixing one file keeps each species' tables |
| EamMixAsWritten.AsWrittenFailsOnAlloys | matscipy/eam/io.py:239 | with two or more species and Nr > 0, every species of the file fails |
| EamMixAsWritten.AsWrittenFirstSpecies | matscipy/eam/io.py:239 | species 0 of such a file fails with ValueError: the spline gets K*Nr values for Nr points |
| EamMixAsWritten.AsWrittenLastSpecies | matscipy/eam/io.py:239 | the last species fails with IndexError: rep_list[K-1] is past the end of rep |
| EamMixAsWritten.AsWrittenSingleSpecies | matscipy/eam/io.py:239 | with one species the code as written agrees with the corrected one |
| EamMixAsWritten.CorrectedMixesAlloys | matscipy/eam/io.py:239 | with a spline that always succeeds, the corrected inner loop resamples every species of every file |

## Findings

| source | as written | input that shows it | evidently intended | confidence | as-written member | corrected member |
|---|---|---|---|---|---|---|
| matscipy/eam/io.py:239 | `rep[rep_list[i],:]` indexes the K x K x Nr array that read_eam_alloy returns with a flat pair position `rep_list = [0,2,5,9,14]` | any eam/alloy file with K >= 2 species and Nr > 0: for species 0 the spline gets a K x Nr block for Nr abscissas (ValueError); for species K-1, rep_list[K-1] >= K (IndexError) | the self pair function `rep[i,i,:]`; rep_list holds the positions of (i, i) in the flat file order, which read_eam_alloy has already unpacked | not executed | EamMixAsWritten.SpeciesDiagonalAsWritten, shown by EamMixAsWritten.AsWrittenFailsOnAlloys | EamMix.SpeciesDiagonal, with EamMixProperties.MixTablesPlaced, EamMixAsWritten.CorrectedMixesAlloys and Triangle.RepListIsDiagonal |

## Left out

- File I/O: open, readlines, write and close become functions on the file's text (`FileText.Text`). A write failure is not modelled.
- Floating-point values are opaque pieces. Formatting with `%e`, `%f` or `%.16e` and parsing with `float()` are exact inverses here, so precision and rounding are not modelled.
- FileText.ParseFloat / NumpyText.ReadNumbers: a value field is either a number piece or an integer literal. `nan`, `inf` and `infinity`, in any case and with an optional sign, are refused, although `float()` (io.py:77-84, 135-137, 143-144), `np.loadtxt` (io.py:87) and `np.fromfile` (io.py:153-154) all accept them. So a funcfl table holding `nan` makes `Funcfl.ReadEam` return Err(ValueError) where read_eam returns the NaN, and `ReadNumbers` stops at an `inf` that fromfile reads. `np.fromfile` also reads the number at the start of a field such as `1.5,` and then stops at the `,`. `ReadNumbers` stops before that field, so the source's `data` has one more value than the model's. The round trips are not affected, because the writers only write finite numbers, one per field.
- SetflRoundTrip.WriteReadEamAlloy: the writer's `%e` grid fields and `%f` mass and lattice fields keep six digits, so a real file loses precision that this round trip does not show.
- Funcfl.WriteReadEam: the same for write_eam's `%f` species fields and `%.10e` cutoff.
- The spline (scipy's InterpolatedUnivariateSpline, construction and evaluation together) and `sqrt` are parameters of the mixer. Their numerics and failure conditions are not modelled; a failure is `ResampleError`.
- EamMix.MixEamAlloy: the mixer stores Nrho, Nr and the other grid sizes in float arrays (io.py:205) and then uses them as sizes: `np.empty((..., Nrho[min_prod]))` and `np.empty((..., Nr[min_cutoff]))` at io.py:222, and the point counts of `np.linspace` at io.py:237-239. numpy refuses a float size with a TypeError from version 1.12 on, and a float `num` in linspace from 1.18 on. So under any numpy from 1.12 onwards mix_eam_alloy raises TypeError at io.py:222 whenever every file reads. `EamMix.Mix` and `EamMix.MixEamAlloy` use the sizes as integers and return a mixed potential; they model the mixer under a numpy before 1.12.
- `np.empty` contents: the entries the code never assigns are left out of the maps (rep[i,j] for j > i in the reader; everything off the diagonal of F_ and f_, and rep_[i,j] for j < i, in the mixer).
- `idx_list` is computed by the mixer but never used, so it is not modelled.
- The mixer reads every file twice. The model reads it once: the second read is taken to give the same result (`EamMix.ReadFile`).
- There is no round trip from the mixer to write_eam_alloy. The mixer's F_ and f_ are K x K x N tables whose entries off the diagonal are unset, and it fills rep_ for j > i while the writer writes j < i.
- EamMixProperties.SingleFileMix: mixing one file gives back the diagonal only; its cross pairs come from the sqrt formula, not from the file.
- SetflRead.HeaderRowStride: the stride to the species header lines is proved exact only when line 6 has one field or the blocks are empty. For other field counts no closed form is stated, and HeaderRow evaluates the source's formula over exact reals (see the next line).
- read_eam does not refuse a table shorter than Nrho + 2*Nr: the code slices without a check and returns shorter tables, and so does the model (`Funcfl.SliceTablesPartition`).
- EamMix.MixEamAlloy: the method and `EamMix.Mix` take the self pair function as `rep[i,i,:]`. The code as written, `rep[rep_list[i],:]`, is `EamMixAsWritten.SpeciesDiagonalAsWritten`; it makes the mixer fail on every file with two or more species and Nr > 0 (Findings), which the corrected mixer does not.
- SetflRead.HeaderRow: the species header row `int(5+i*((Nr+Nrho)/l+1))` at io.py:141 is float arithmetic in the source, and the model evaluates it over exact reals (`SetflRead.StrideRow`). The two agree when l divides Nrho+Nr and the values stay below 2^53. That includes l = 1, which holds in every file write_eam_alloy writes with values in it (`SetflRoundTrip.StrideLine`, `SetflRead.StrideExact`). Otherwise the float quotient can fall just below an integer, and the source reads a row one lower than the model: with Nrho+Nr = 2, l = 3 and i = 15 the source computes int(29.999999999999996) = 29 where the model has 30. `SetflRead.AlloyRead` and `SetflRead.ReadEamAlloy` inherit this difference for such files.
- The text semantics are Python 3's: universal newlines, so `readlines()` also ends a line at '\r' and '\r\n' (`FileText.IsBreak`), and `str.split()`/`strip()` treat the Unicode whitespace characters as whitespace (`FileText.IsSpace`). `matscipy/eam/io.py` compiles only under Python 2, because the loop bodies at io.py:361, 363 and 365 are indented with a tab under space-indented `for` lines. Under Python 2 a line ends only at '\n', only ASCII whitespace separates fields, and `np.str` labels are byte strings. Those differences are not modelled.
- read_eam returns its header as `np.array([atnumber, atmass, crystallatt, crystal, Nrho, Nr, drho, dr, cutoff])` (io.py:85). Because the crystal label is a string, numpy turns all nine fields into strings, and write_eam converts them back with int() and float() (io.py:353, 359). The model returns a typed `Species` and `Grid` instead, so `Funcfl.WriteReadEam`'s "same species and grid" is stated after those conversions.
- write_eam_alloy opens the output file and writes the title, count and grid lines (io.py:291-299) before it indexes `F[i,:]`, `f[i,:]` and `rep[i,j,:]` (io.py:302-311). An IndexError there leaves a partly written file behind. `SetflWrite.WriteEamAlloy` returns Err(IndexError) and no text; the partial file is not modelled.
- `atnumber` is an int64 array (io.py:138, 142); the model keeps atomic numbers as unbounded integers, so the overflow of a huge atomic number is not modelled.
- numpy versions: the readers and writers are modelled for a numpy before 1.24, where `np.str` (io.py:138) still exists. The mixer is modelled for a numpy before 1.12 (the line on `EamMix.MixEamAlloy` above). There `np.array` of the ragged parameter tuple (io.py:247) builds an object array instead of raising ValueError. The failures of newer numpy versions are not modelled.
- The mixer's parameters array: atomic numbers, masses, lattice constants and crystal labels are kept together as `Species` records. The `np.append` type conversions (numbers to floats, labels to `<U32`-like strings) are not modelled.
