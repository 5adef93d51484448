/** `read_eam_alloy` of matscipy/eam/io.py: reading an "eam/alloy" (setfl) file.

    Layout: three comment lines, a line with the species count and names, the grid line,
    then per species a header line followed by Nrho values of F and Nr values of f, then
    the pair functions of the lower triangle (diagonal included), Nr values each.

    AlloyRead states declaratively what the reader computes; ReadEamAlloy computes it the
    way the source does (line stride for the species headers, a readline/fromfile stream
    for the values, preallocated tables filled row by row, a running pair counter). */
module SetflRead {

  import opened PyNum
  import opened FileText
  import opened NumpyText
  import opened EamFormat
  import opened Triangle

  /** What read_eam_alloy returns: the source, the species names and header fields, the
      grid, per species F and f, and the pair functions that were assigned, keyed by
      (i, j). The entries of the K x K x Nr array that are never assigned (j > i) hold
      whatever np.empty left there and are not part of the map. */
  datatype AlloyPotential = AlloyPotential(source: Text, names: seq<Text>, species: seq<Species>, grid: Grid,
                                           embedding: seq<seq<real>>, density: seq<seq<real>>,
                                           pair: map<(nat, nat), seq<real>>)

  datatype Header = Header(source: Text, names: seq<Text>, grid: Grid)

  /** `eam[3].strip().split()[1:]`: the names after the count field (the count itself is
      not used). */
  function Names(line: Text): seq<Text> {
    var ws := Split(Strip(line));
    if ws == [] then [] else ws[1..]
  }

  /** The first five lines: the source is the three stripped comment lines run together. */
  function ReadHeader(eam: seq<Text>): (r: Result<Header>)
    ensures r.Ok? ==> |eam| >= 5
    ensures |eam| < 5 ==> r == Err(IndexError)
  {
    if |eam| < 3 then Err(IndexError)
    else
      var source := Strip(eam[0]) + Strip(eam[1]) + Strip(eam[2]);
      if |eam| < 4 then Err(IndexError)
      else
        var names := Names(eam[3]);
        if |eam| < 5 then Err(IndexError)
        else
          var grid :- ParseGridLine(Split(eam[4]));
          Ok(Header(source, names, grid))
  }

  /** A label stored in numpy's '<U32' string array keeps its first 32 pieces. */
  function U32(t: Text): (r: Text)
    ensures |r| <= 32 && |r| <= |t| && r == t[..|r|]
    ensures |t| <= 32 ==> r == t
    ensures |t| > 32 ==> |r| == 32
  {
    if |t| <= 32 then t else t[..32]
  }

  /** The line holding species i's header: `row = int(5+i*((Nr+Nrho)/l+1))` where l is the
      number of fields on line 6, then `eam[row]`. */
  function HeaderRow(eam: seq<Text>, g: Grid, i: nat): (r: Result<nat>)
    ensures r.Ok? ==> r.value < |eam|
    ensures |eam| < 7 ==> r == Err(IndexError)
  {
    if |eam| < 7 then Err(IndexError)
    else
      var l := |Split(Strip(eam[6]))|;
      if l == 0 then Err(ZeroDivisionError)
      else
        match PyIndex(StrideRow(i, g.nr + g.nrho, l), |eam|)
        case None => Err(IndexError)
        case Some(k) => Ok(k)
  }

  /** `int(5+i*(b/l+1))`: the row computed from b = Nr+Nrho values per species spread over
      lines of l fields, evaluated over exact reals. The source divides in floats; it gets
      the same row when l divides b, and can get one row less otherwise. */
  function StrideRow(i: nat, b: int, l: int): int
    requires l != 0
  {
    Trunc(5.0 + (i as real) * ((b as real) / (l as real) + 1.0))
  }

  /** With one value per line (or no values at all), the stride is exact: species i's
      header is line 5 + i*(Nrho+Nr+1). */
  lemma HeaderRowStride(eam: seq<Text>, g: Grid, i: nat)
    requires |eam| >= 7
    requires g.nrho + g.nr >= 0
    requires |Split(Strip(eam[6]))| == 1 || (g.nrho + g.nr == 0 && |Split(Strip(eam[6]))| > 0)
    requires 5 + i * (g.nrho + g.nr + 1) < |eam|
    ensures HeaderRow(eam, g, i) == Ok(5 + i * (g.nrho + g.nr + 1))
  {
    StrideExact(i, g.nr + g.nrho, |Split(Strip(eam[6]))|);
    assert i * (g.nr + g.nrho + 1) == i * (g.nrho + g.nr + 1);
  }

  /** `int(5+i*(b/l+1))` is 5+i*(b+1) when l is 1 or b is 0. */
  lemma StrideExact(i: nat, b: nat, l: nat)
    requires l == 1 || (b == 0 && l > 0)
    ensures i * (b + 1) >= 0 && StrideRow(i, b, l) == 5 + i * (b + 1)
  {
    var n := 5 + i * (b + 1);
    assert (b as real) / (l as real) == b as real by {
      if l != 1 {
        assert b == 0;
      }
    }
    assert (i as real) * ((b as real) + 1.0) == (i * (b + 1)) as real;
    assert 5.0 + (i as real) * ((b as real) / (l as real) + 1.0) == n as real;
  }

  /** Species i's header fields; the label truncated as the '<U32' array stores it. */
  function SpeciesAt(eam: seq<Text>, g: Grid, i: nat): Result<Species> {
    var row :- HeaderRow(eam, g, i);
    var s :- ParseSpeciesLine(Split(eam[row]));
    Ok(s.(crystal := U32(s.crystal)))
  }

  /** The header fields of species 0 .. n-1, or the error of the first that fails. */
  function ReadSpecies(eam: seq<Text>, g: Grid, n: nat): (r: Result<seq<Species>>)
    ensures r.Ok? ==> |r.value| == n && forall i :: 0 <= i < n ==> SpeciesAt(eam, g, i) == Ok(r.value[i])
  {
    if n == 0 then Ok([])
    else
      var front :- ReadSpecies(eam, g, n - 1);
      var s :- SpeciesAt(eam, g, n - 1);
      Ok(front + [s])
  }

  lemma {:induction false} ReadSpeciesStaysErr(eam: seq<Text>, g: Grid, i: nat, n: nat)
    requires i <= n && ReadSpecies(eam, g, i).Err?
    ensures ReadSpecies(eam, g, n) == ReadSpecies(eam, g, i)
    decreases n
  {
    if i < n {
      ReadSpeciesStaysErr(eam, g, i, n - 1);
    }
  }

  // ---------------------------------------------------------------- the value stream

  /** After `readline()` five times: for each of n species, `readline()` (its header) and
      `numpy.fromfile(count=b, sep=' ')`; the values read and the rest of the stream. */
  function SpeciesData(s: seq<Item>, b: int, n: nat): (seq<real>, seq<Item>)
    decreases n
  {
    if n == 0 then ([], s)
    else
      var first := ReadNumbers(NextLine(s), b);
      var rest := SpeciesData(first.1, b, n - 1);
      (first.0 + rest.0, rest.1)
  }

  lemma SpeciesDataStep(s: seq<Item>, b: int, n: nat)
    requires n > 0
    ensures var first := ReadNumbers(NextLine(s), b);
      SpeciesData(s, b, n).0 == first.0 + SpeciesData(first.1, b, n - 1).0 &&
      SpeciesData(s, b, n).1 == SpeciesData(first.1, b, n - 1).1
  {
  }

  /** The values of one species block: `count=Nrho+Nr`. */
  function BlockSize(g: Grid): int {
    g.nrho + g.nr
  }

  /** Every value read: the species blocks, then `numpy.fromfile(count=-1)` to the end. */
  function AlloyData(eam: seq<Text>, k: nat, b: int): seq<real>
    requires |eam| >= 5
  {
    var blocks := SpeciesData(Items(eam[5..]), b, k);
    blocks.0 + ReadNumbers(blocks.1, -1).0
  }

  // ---------------------------------------------------------------- the tables

  /** `row[:] = data[off:off+n]` into a row of length n. */
  function Slot(data: seq<real>, off: int, n: nat): Result<seq<real>> {
    Broadcast(n, PySlice(data, off, off + n))
  }

  /** `F[i,:] = data[i*(Nrho+Nr):Nrho+i*(Nrho+Nr)]` */
  function EmbeddingSlot(data: seq<real>, g: Grid, i: nat): Result<seq<real>>
    requires g.nrho >= 0 && g.nr >= 0
  {
    Slot(data, i * (g.nrho + g.nr), g.nrho)
  }

  /** `f[i,:] = data[Nrho+i*(Nrho+Nr):Nrho+Nr+i*(Nrho+Nr)]` */
  function DensitySlot(data: seq<real>, g: Grid, i: nat): Result<seq<real>>
    requires g.nrho >= 0 && g.nr >= 0
  {
    Slot(data, g.nrho + i * (g.nrho + g.nr), g.nr)
  }

  /** rep[i,j,:] for j <= i, from the pair block that starts after the k species blocks. */
  function PairSlot(data: seq<real>, g: Grid, k: nat, p: (nat, nat)): Result<seq<real>>
    requires g.nrho >= 0 && g.nr >= 0
  {
    Slot(data, PairOffset(g, k, p), g.nr)
  }

  /** Where rep[p.0,p.1,:] starts: past the k species blocks and the Tri(p.0) + p.1 pair
      functions before it. */
  function PairOffset(g: Grid, k: nat, p: (nat, nat)): int
    requires g.nrho >= 0 && g.nr >= 0
  {
    k * (g.nrho + g.nr) + (Tri(p.0) + p.1) * g.nr
  }

  predicate RowsFit(data: seq<real>, g: Grid, k: nat)
    requires g.nrho >= 0 && g.nr >= 0
  {
    forall i: nat | i < k :: EmbeddingSlot(data, g, i).Ok? && DensitySlot(data, g, i).Ok?
  }

  predicate PairsFit(data: seq<real>, g: Grid, k: nat)
    requires g.nrho >= 0 && g.nr >= 0
  {
    forall p | p in LowerKeys(k) :: PairSlot(data, g, k, p).Ok?
  }

  function EmbeddingRows(data: seq<real>, g: Grid, k: nat): seq<seq<real>>
    requires g.nrho >= 0 && g.nr >= 0 && RowsFit(data, g, k)
  {
    seq(k, i requires 0 <= i < k => EmbeddingSlot(data, g, i).value)
  }

  function DensityRows(data: seq<real>, g: Grid, k: nat): seq<seq<real>>
    requires g.nrho >= 0 && g.nr >= 0 && RowsFit(data, g, k)
  {
    seq(k, i requires 0 <= i < k => DensitySlot(data, g, i).value)
  }

  function PairMap(data: seq<real>, g: Grid, k: nat): map<(nat, nat), seq<real>>
    requires g.nrho >= 0 && g.nr >= 0 && PairsFit(data, g, k)
  {
    map p | p in LowerKeys(k) :: PairSlot(data, g, k, p).value
  }

  /** read_eam_alloy on the file's lines. */
  function AlloyReadLines(eam: seq<Text>): Result<AlloyPotential> {
    match ReadHeader(eam)
    case Err(e) => Err(e)
    case Ok(h) =>
      match ReadSpecies(eam, h.grid, |h.names|)
      case Err(e) => Err(e)
      case Ok(species) =>
        // np.empty refuses a negative size
        if h.grid.nrho < 0 || h.grid.nr < 0 then Err(ValueError)
        else Tabulate(h, species, AlloyData(eam, |h.names|, BlockSize(h.grid)))
  }

  /** The tables cut out of the values read: every row and pair slot must fit. */
  function Tabulate(h: Header, species: seq<Species>, data: seq<real>): Result<AlloyPotential>
    requires h.grid.nrho >= 0 && h.grid.nr >= 0
  {
    var g := h.grid;
    var k := |h.names|;
    if !RowsFit(data, g, k) || !PairsFit(data, g, k) then Err(ValueError)
    else Ok(AlloyPotential(h.source, h.names, species, g,
                           EmbeddingRows(data, g, k), DensityRows(data, g, k), PairMap(data, g, k)))
  }

  /** `read_eam_alloy(eam_alloy_file)` on the file's text. */
  function AlloyRead(text: Text): Result<AlloyPotential> {
    AlloyReadLines(Lines(text))
  }

  /** The shape of what read_eam_alloy returns: K species, K rows of F with Nrho values
      and of f with Nr values, and a pair function of Nr values for exactly the pairs
      (i, j) with j <= i. */
  predicate WellShaped(p: AlloyPotential) {
    var k := |p.names|;
    p.grid.nrho >= 0 && p.grid.nr >= 0
    && |p.species| == k && |p.embedding| == k && |p.density| == k
    && (forall i :: 0 <= i < k ==> |p.embedding[i]| == p.grid.nrho && |p.density[i]| == p.grid.nr)
    && p.pair.Keys == LowerKeys(k)
    && (forall q :: q in p.pair ==> |p.pair[q]| == p.grid.nr)
  }

  lemma AlloyReadShape(text: Text)
    ensures AlloyRead(text).Ok? ==> WellShaped(AlloyRead(text).value)
  {
    var eam := Lines(text);
    if AlloyRead(text).Ok? {
      var h := ReadHeader(eam).value;
      var species := ReadSpecies(eam, h.grid, |h.names|).value;
      TabulateShape(h, species, AlloyData(eam, |h.names|, BlockSize(h.grid)));
    }
  }

  lemma TabulateShape(h: Header, species: seq<Species>, data: seq<real>)
    requires h.grid.nrho >= 0 && h.grid.nr >= 0 && |species| == |h.names|
    ensures Tabulate(h, species, data).Ok? ==> WellShaped(Tabulate(h, species, data).value)
  {
  }

  // ---------------------------------------------------------------- the reader

  /** Lines 139-145: the header fields of every species, found by the line stride. */
  method ReadSpeciesHeaders(eam: seq<Text>, g: Grid, k: nat) returns (r: Result<seq<Species>>)
    ensures r == ReadSpecies(eam, g, k)
  {
    var species: seq<Species> := [];
    for i := 0 to k
      invariant ReadSpecies(eam, g, i) == Ok(species)
    {
      var s := SpeciesAt(eam, g, i);
      if s.Err? {
        ReadSpeciesStaysErr(eam, g, i + 1, k);
        return Err(s.error);
      }
      species := species + [s.value];
    }
    r := Ok(species);
  }

  /** Line 150: `readline()` five times on the reopened file. */
  method SkipHeaderLines(eam: seq<Text>) returns (s: seq<Item>)
    requires |eam| >= 5
    ensures s == Items(eam[5..])
  {
    s := Items(eam);
    for n := 0 to 5
      invariant s == Items(eam[n..])
    {
      NextLineItems(eam[n], eam[n + 1..]);
      assert eam[n..] == [eam[n]] + eam[n + 1..];
      s := NextLine(s);
    }
  }

  /** Lines 151-153: per species, `readline()` (its header line) and
      `numpy.fromfile(count=b, sep=' ')`, the values appended to `data`. */
  method ReadSpeciesBlocks(s0: seq<Item>, b: int, k: nat) returns (data: seq<real>, s: seq<Item>)
    ensures data == SpeciesData(s0, b, k).0 && s == SpeciesData(s0, b, k).1
  {
    data := [];
    s := s0;
    EmptyPrefix(SpeciesData(s0, b, k).0);
    for i := 0 to k
      invariant SpeciesData(s0, b, k).0 == data + SpeciesData(s, b, k - i).0
      invariant SpeciesData(s0, b, k).1 == SpeciesData(s, b, k - i).1
    {
      SpeciesDataNext(SpeciesData(s0, b, k), data, s, b, k - i);
      s := NextLine(s);
      var block := ReadNumbers(s, b);
      data := data + block.0;
      s := block.1;
    }
    assert SpeciesData(s, b, 0) == ([], s);
    assert data + [] == data;
  }

  /** One more species block read keeps `data` a prefix of all the species values. */
  lemma SpeciesDataNext(whole: (seq<real>, seq<Item>), data: seq<real>, s: seq<Item>, b: int, n: nat)
    requires n > 0
    requires whole.0 == data + SpeciesData(s, b, n).0 && whole.1 == SpeciesData(s, b, n).1
    ensures var block := ReadNumbers(NextLine(s), b);
      whole.0 == (data + block.0) + SpeciesData(block.1, b, n - 1).0 &&
      whole.1 == SpeciesData(block.1, b, n - 1).1
  {
    SpeciesDataStep(s, b, n);
    var block := ReadNumbers(NextLine(s), b);
    var later := SpeciesData(block.1, b, n - 1).0;
    assert data + (block.0 + later) == (data + block.0) + later;
  }

  lemma EmptyPrefix<T>(x: seq<T>)
    ensures [] + x == x
  {
  }

  /** Lines 148-155: reopen the file, skip five lines, read the species blocks, then read
      everything that is left (`data[1:]` drops the value `np.empty(())` started with). */
  method ReadDataStream(eam: seq<Text>, k: nat, b: int) returns (data: seq<real>)
    requires |eam| >= 5
    ensures data == AlloyData(eam, k, b)
  {
    var s := SkipHeaderLines(eam);
    var blocks;
    blocks, s := ReadSpeciesBlocks(s, b, k);
    var tail := ReadNumbers(s, -1);
    data := blocks + tail.0;
  }

  /** Line 157 and 158 for species i: the slices of data that become F[i,:] and f[i,:]. */
  method SliceRows(data: seq<real>, g: Grid, i: nat) returns (r: Result<(seq<real>, seq<real>)>)
    requires g.nrho >= 0 && g.nr >= 0
    ensures r.Ok? <==> EmbeddingSlot(data, g, i).Ok? && DensitySlot(data, g, i).Ok?
    ensures r.Ok? ==> r.value == (EmbeddingSlot(data, g, i).value, DensitySlot(data, g, i).value)
    ensures r.Err? ==> r.error == ValueError
  {
    var b := g.nrho + g.nr;
    var embedding := Slot(data, i * b, g.nrho);
    if embedding.Err? {
      return Err(ValueError);
    }
    var density := Slot(data, g.nrho + i * b, g.nr);
    if density.Err? {
      return Err(ValueError);
    }
    r := Ok((embedding.value, density.value));
  }

  /** Lines 156-158: `F` and `f` preallocated with np.empty and filled row by row. */
  method FillRows(data: seq<real>, g: Grid, k: nat) returns (r: Result<(seq<seq<real>>, seq<seq<real>>)>)
    requires g.nrho >= 0 && g.nr >= 0
    ensures r.Ok? <==> RowsFit(data, g, k)
    ensures r.Ok? ==> r.value == (EmbeddingRows(data, g, k), DensityRows(data, g, k))
    ensures r.Err? ==> r.error == ValueError
  {
    var F := new seq<real>[k];
    var f := new seq<real>[k];
    for i := 0 to k
      invariant forall n: nat | n < i :: EmbeddingSlot(data, g, n) == Ok(F[n]) && DensitySlot(data, g, n) == Ok(f[n])
    {
      var rows := SliceRows(data, g, i);
      if rows.Err? {
        return Err(ValueError);
      }
      F[i], f[i] := rows.value.0, rows.value.1;
    }
    assert F[..] == EmbeddingRows(data, g, k);
    assert f[..] == DensityRows(data, g, k);
    r := Ok((F[..], f[..]));
  }

  /** The pairs assigned once row i has reached column j: all of rows 0..i-1, and (i, 0..j-1). */
  function DoneKeys(i: nat, j: nat): (r: set<(nat, nat)>)
    ensures forall a: nat, c: nat :: (a, c) in r <==> c <= a <= i && (a < i || c < j)
  {
    set a: nat, c: nat | a <= i && c <= a && (a < i || c < j) :: (a, c)
  }

  /** Line 162 or 165: the slice of data that becomes rep[p.0,p.1,:], at offset `interaction`
      (the number of pair functions before it) past the species blocks. */
  method SlicePair(data: seq<real>, g: Grid, k: nat, interaction: nat, ghost p: (nat, nat)) returns (r: Result<seq<real>>)
    requires g.nrho >= 0 && g.nr >= 0 && interaction == Tri(p.0) + p.1
    ensures r == PairSlot(data, g, k, p)
  {
    var base := k * (g.nrho + g.nr);
    r := Broadcast(g.nr, PySlice(data, base + interaction * g.nr, base + interaction * g.nr + g.nr));
  }

  /** Lines 159-166: rep[i,j,:] for j < i and then rep[i,i,:], the offset advanced by a
      running `interaction` counter. */
  method FillPairs(data: seq<real>, g: Grid, k: nat) returns (r: Result<map<(nat, nat), seq<real>>>)
    requires g.nrho >= 0 && g.nr >= 0
    ensures r.Ok? <==> PairsFit(data, g, k)
    ensures r.Ok? ==> r.value == PairMap(data, g, k)
    ensures r.Err? ==> r.error == ValueError
  {
    var rep: map<(nat, nat), seq<real>> := map[];
    var interaction := 0;
    for i := 0 to k
      invariant interaction == Tri(i)
      invariant rep.Keys == DoneKeys(i, 0)
      invariant forall p | p in rep :: PairSlot(data, g, k, p) == Ok(rep[p])
    {
      for j := 0 to k
        invariant interaction == Tri(i) + (if j < i then j else i)
        invariant rep.Keys == DoneKeys(i, if j < i then j else i)
        invariant forall p | p in rep :: PairSlot(data, g, k, p) == Ok(rep[p])
      {
        if j < i {
          var row := SlicePair(data, g, k, interaction, (i, j));
          if row.Err? {
            assert (i, j) in LowerKeys(k);
            return Err(ValueError);
          }
          rep := rep[(i, j) := row.value];
          interaction := interaction + 1;
        }
      }
      var row := SlicePair(data, g, k, interaction, (i, i));
      if row.Err? {
        assert (i, i) in LowerKeys(k);
        return Err(ValueError);
      }
      rep := rep[(i, i) := row.value];
      interaction := interaction + 1;
      assert DoneKeys(i, i) + {(i, i)} == DoneKeys(i + 1, 0);
    }
    assert DoneKeys(k, 0) == LowerKeys(k);
    r := Ok(rep);
  }

  /** `read_eam_alloy(eam_alloy_file)` as the source computes it. */
  method ReadEamAlloy(text: Text) returns (r: Result<AlloyPotential>)
    ensures r == AlloyRead(text)
  {
    r := ReadEamAlloyLines(Lines(text));
  }

  /** read_eam_alloy once `readlines()` has split the file into lines. */
  method ReadEamAlloyLines(eam: seq<Text>) returns (r: Result<AlloyPotential>)
    ensures r == AlloyReadLines(eam)
  {
    var header := ReadHeader(eam);
    if header.Err? {
      return Err(header.error);
    }
    var h := header.value;
    var k := |h.names|;
    var g := h.grid;
    var species := ReadSpeciesHeaders(eam, g, k);
    if species.Err? {
      return Err(species.error);
    }
    if g.nrho < 0 || g.nr < 0 {
      return Err(ValueError);
    }
    var data := ReadDataStream(eam, k, BlockSize(g));
    r := TabulateData(h, species.value, data);
  }

  /** Lines 156-166: the tables cut out of the values read. */
  method TabulateData(h: Header, species: seq<Species>, data: seq<real>) returns (r: Result<AlloyPotential>)
    requires h.grid.nrho >= 0 && h.grid.nr >= 0
    ensures r == Tabulate(h, species, data)
  {
    var g := h.grid;
    var k := |h.names|;
    var rows := FillRows(data, g, k);
    if rows.Err? {
      return Err(ValueError);
    }
    var pair := FillPairs(data, g, k);
    if pair.Err? {
      return Err(ValueError);
    }
    r := Ok(AlloyPotential(h.source, h.names, species, g, rows.value.0, rows.value.1, pair.value));
  }
}
