/** What mix_eam_alloy promises about its result: which file each grid comes from, where
    each species lands in the mixed tables, which entries are filled, how the mixed pair
    functions are formed, when it fails, and that mixing a single file gives that file back
    when the spline reproduces its data. */
module EamMixProperties {

  import opened PyNum
  import opened FileText
  import opened EamFormat
  import opened Triangle
  import opened SetflRead
  import opened EamMix

  // ---------------------------------------------------------------- failures

  lemma {:induction false} GatherAllOk(rs: seq<Result<AlloyPotential>>, n: nat)
    requires n <= |rs| && forall k :: 0 <= k < n ==> rs[k].Ok?
    ensures Gather(rs[..n]).Ok?
    decreases n
  {
    if n > 0 {
      GatherAllOk(rs, n - 1);
      assert rs[..n][..n - 1] == rs[..n - 1];
    }
  }

  /** The mixer fails as the first file that cannot be read fails. */
  lemma GatherFirstError(rs: seq<Result<AlloyPotential>>, j: nat)
    requires j < |rs| && rs[j].Err? && forall k :: 0 <= k < j ==> rs[k].Ok?
    ensures Gather(rs) == Err(rs[j].error)
  {
    GatherAllOk(rs, j);
    assert rs[..j + 1][..j] == rs[..j];
    GatherStaysErr(rs, j + 1);
  }

  lemma MixUnreadable(files: seq<Text>, j: nat, spline: Spline, sqrt: real -> real)
    requires j < |files| && AlloyRead(files[j]).Err?
    requires forall k :: 0 <= k < j ==> AlloyRead(files[k]).Ok?
    ensures Mix(files, spline, sqrt) == Err(AlloyRead(files[j]).error)
  {
    GatherFirstError(Reads(files), j);
  }

  /** An empty list of files fails at `cutoff.argmin()`. */
  lemma MixNothing(spline: Spline, sqrt: real -> real)
    ensures Mix([], spline, sqrt) == Err(ValueError)
  {
  }

  // ---------------------------------------------------------------- the grid

  /** The embedding grid is that of the first file with the smallest Nrho*drho, the
      density grid and cutoff those of the first file with the smallest cutoff. */
  lemma MixedGridChoice(pots: seq<AlloyPotential>)
    requires |pots| > 0
    ensures var g := MixedGrid(pots);
            exists a :: 0 <= a < |pots| && g.nrho == pots[a].grid.nrho && g.drho == pots[a].grid.drho
              && (forall k :: 0 <= k < |pots| ==> Spans(pots)[a] <= Spans(pots)[k])
              && (forall k :: 0 <= k < a ==> Spans(pots)[a] < Spans(pots)[k])
    ensures var g := MixedGrid(pots);
            exists b :: 0 <= b < |pots| && g.nr == pots[b].grid.nr && g.dr == pots[b].grid.dr && g.cutoff == pots[b].grid.cutoff
              && (forall k :: 0 <= k < |pots| ==> g.cutoff <= pots[k].grid.cutoff)
              && (forall k :: 0 <= k < b ==> g.cutoff < pots[k].grid.cutoff)
  {
    var a := ArgMin(Spans(pots));
    var b := ArgMin(Cutoffs(pots));
    assert Cutoffs(pots)[b] == pots[b].grid.cutoff;
  }

  // ---------------------------------------------------------------- the mixed tables

  /** Species i of file j is entry |species of files before j| + i of the mixed names and
      header fields. */
  lemma MixNamesPlaced(pots: seq<AlloyPotential>, spline: Spline, sqrt: real -> real, j: nat, i: nat)
    requires forall k :: 0 <= k < |pots| ==> Resamplable(pots[k])
    requires j < |pots| && i < |pots[j].names| && MixPots(pots, spline, sqrt).Ok?
    ensures var m := MixPots(pots, spline, sqrt).value;
            var n := |Concat(pots, NamesOf, j)| + i;
            n < |m.names| && n < |m.species| && m.names[n] == pots[j].names[i] && m.species[n] == pots[j].species[i]
  {
    var m := MixPots(pots, spline, sqrt).value;
    assert m.names == Concat(pots, NamesOf, |pots|) && m.species == Concat(pots, SpeciesOf, |pots|);
    NamesAt(pots, j, i);
  }

  /** The names and species of file j sit at the same place in the run-together lists. */
  lemma NamesAt(pots: seq<AlloyPotential>, j: nat, i: nat)
    requires forall k :: 0 <= k < |pots| ==> Resamplable(pots[k])
    requires j < |pots| && i < |pots[j].names| && i < |pots[j].species|
    ensures var n := |Concat(pots, NamesOf, j)| + i;
            n < |Concat(pots, NamesOf, |pots|)| && n < |Concat(pots, SpeciesOf, |pots|)| &&
            Concat(pots, NamesOf, |pots|)[n] == pots[j].names[i] &&
            Concat(pots, SpeciesOf, |pots|)[n] == pots[j].species[i]
  {
    ConcatAt(pots, NamesOf, j, i);
    SpeciesAlign(pots, j);
    ConcatAt(pots, SpeciesOf, j, i);
  }

  /** ... and its F, f and self pair function, resampled onto the mixed grid, are the
      diagonal entries of the mixed tables there. */
  lemma MixTablesPlaced(pots: seq<AlloyPotential>, spline: Spline, sqrt: real -> real, j: nat, i: nat, m: Mixed, n: nat)
    requires forall k :: 0 <= k < |pots| ==> Resamplable(pots[k])
    requires j < |pots| && i < |pots[j].names| && MixPots(pots, spline, sqrt) == Ok(m)
    requires n == |Concat(pots, NamesOf, j)| + i
    ensures (n, n) in m.embedding && (n, n) in m.density && (n, n) in m.pair
    ensures SpeciesDiagonal(pots[j], i, m.grid, spline) == Ok(Diagonal(m.embedding[(n, n)], m.density[(n, n)], m.pair[(n, n)]))
  {
    var g := MixedGrid(pots);
    var diags := Diagonals(pots, g, spline, |pots|).value;
    DiagonalsFit(pots, g, spline, |pots|);
    assert m.grid == g && m.embedding == DiagTable(diags, EmbeddingOf) && m.density == DiagTable(diags, DensityOf);
    assert m.pair == MixedPairs(diags, g, sqrt);
    DiagonalOfSpecies(pots, g, spline, j, i);
    DiagonalEntries(diags, g, sqrt, n);
  }

  /** Entry (n, n) of the three tables holds the parts of diagonal n. */
  lemma DiagonalEntries(diags: seq<Diagonal>, g: Grid, sqrt: real -> real, n: nat)
    requires forall k :: 0 <= k < |diags| ==> Fits(diags[k], g)
    requires n < |diags|
    ensures (n, n) in DiagTable(diags, EmbeddingOf) && (n, n) in DiagTable(diags, DensityOf)
            && (n, n) in MixedPairs(diags, g, sqrt)
            && diags[n] == Diagonal(DiagTable(diags, EmbeddingOf)[(n, n)], DiagTable(diags, DensityOf)[(n, n)],
                                    MixedPairs(diags, g, sqrt)[(n, n)])
  {
    DiagTableAt(diags, EmbeddingOf, n);
    DiagTableAt(diags, DensityOf, n);
    assert (n, n) in UpperKeys(|diags|);
  }

  /** The filled entries: the diagonal of F_ and f_, the upper triangle of rep_, one of each
      per species. */
  lemma MixKeys(pots: seq<AlloyPotential>, spline: Spline, sqrt: real -> real)
    requires forall k :: 0 <= k < |pots| ==> Resamplable(pots[k])
    requires MixPots(pots, spline, sqrt).Ok?
    ensures var m := MixPots(pots, spline, sqrt).value;
            |m.species| == |m.names|
            && m.embedding.Keys == DiagKeys(|m.names|) && m.density.Keys == DiagKeys(|m.names|)
            && m.pair.Keys == UpperKeys(|m.names|)
  {
    var g := MixedGrid(pots);
    var diags := Diagonals(pots, g, spline, |pots|).value;
    SpeciesAlign(pots, |pots|);
    DiagonalsLength(pots, g, spline, |pots|);
    DiagTableKeys(diags, EmbeddingOf);
    DiagTableKeys(diags, DensityOf);
  }

  /** Every filled entry is tabulated on the mixed grid: Nrho_ values of F_, Nr_ of f_ and
      rep_. */
  lemma MixLengths(pots: seq<AlloyPotential>, spline: Spline, sqrt: real -> real)
    requires forall k :: 0 <= k < |pots| ==> Resamplable(pots[k])
    requires MixPots(pots, spline, sqrt).Ok?
    ensures var m := MixPots(pots, spline, sqrt).value;
            (forall q :: q in m.embedding ==> |m.embedding[q]| == m.grid.nrho)
            && (forall q :: q in m.density ==> |m.density[q]| == m.grid.nr)
            && (forall q :: q in m.pair ==> |m.pair[q]| == m.grid.nr)
  {
    var g := MixedGrid(pots);
    var diags := Diagonals(pots, g, spline, |pots|).value;
    var m := MixPots(pots, spline, sqrt).value;
    DiagonalsFit(pots, g, spline, |pots|);
    assert m.grid == g && m.embedding == DiagTable(diags, EmbeddingOf) && m.density == DiagTable(diags, DensityOf);
    assert m.pair == MixedPairs(diags, g, sqrt);
    TablesFit(diags, g, sqrt);
  }

  /** Tables built from diagonals that fit a grid hold entries of the grid's lengths. */
  lemma TablesFit(diags: seq<Diagonal>, g: Grid, sqrt: real -> real)
    requires forall k :: 0 <= k < |diags| ==> Fits(diags[k], g)
    ensures forall q :: q in DiagTable(diags, EmbeddingOf) ==> |DiagTable(diags, EmbeddingOf)[q]| == g.nrho
    ensures forall q :: q in DiagTable(diags, DensityOf) ==> |DiagTable(diags, DensityOf)[q]| == g.nr
    ensures forall q :: q in MixedPairs(diags, g, sqrt) ==> |MixedPairs(diags, g, sqrt)[q]| == g.nr
  {
    DiagTableKeys(diags, EmbeddingOf);
    DiagTableKeys(diags, DensityOf);
    forall k | 0 <= k < |diags|
      ensures |DiagTable(diags, EmbeddingOf)[(k, k)]| == g.nrho && |DiagTable(diags, DensityOf)[(k, k)]| == g.nr
    {
      DiagTableAt(diags, EmbeddingOf, k);
      DiagTableAt(diags, DensityOf, k);
    }
  }

  /** The pair function of two different species is sqrt(|rep_ii * rep_jj|), whichever
      way round the two are taken. */
  lemma MixCross(pots: seq<AlloyPotential>, spline: Spline, sqrt: real -> real, i: nat, j: nat)
    requires forall k :: 0 <= k < |pots| ==> Resamplable(pots[k])
    requires MixPots(pots, spline, sqrt).Ok?
    requires i < j < |MixPots(pots, spline, sqrt).value.names|
    ensures var m := MixPots(pots, spline, sqrt).value;
            (i, i) in m.pair && (j, j) in m.pair && (i, j) in m.pair && |m.pair[(i, i)]| == |m.pair[(j, j)]|
            && m.pair[(i, j)] == CrossValues(sqrt, m.pair[(i, i)], m.pair[(j, j)])
            && m.pair[(i, j)] == CrossValues(sqrt, m.pair[(j, j)], m.pair[(i, i)])
  {
    var g := MixedGrid(pots);
    var diags := Diagonals(pots, g, spline, |pots|).value;
    DiagonalsLength(pots, g, spline, |pots|);
    DiagonalsFit(pots, g, spline, |pots|);
    CrossValuesSymmetric(sqrt, diags[i].pair, diags[j].pair);
  }

  // ---------------------------------------------------------------- a single file

  /** The spline goes through its own knots: evaluated at x, the spline through (x, y)
      gives y whenever it can be built at all. */
  ghost predicate Reproduces(spline: Spline) {
    forall x: seq<real>, y: seq<real> :: |x| == |y| && spline(x, y, x).Ok? ==> spline(x, y, x) == Ok(y)
  }

  /** Resampling a table onto its own grid gives it back. */
  lemma ResampleSame(spline: Spline, n: int, d: real, y: seq<real>)
    requires Reproduces(spline) && |y| == n
    ensures Resample(spline, n, d, y, n, d).Ok? ==> Resample(spline, n, d, y, n, d) == Ok(y)
  {
  }

  lemma SpeciesSame(p: AlloyPotential, i: nat, spline: Spline)
    requires Reproduces(spline) && WellShaped(p) && Resamplable(p) && i < |p.names|
    ensures SpeciesDiagonal(p, i, p.grid, spline).Ok?
            ==> SpeciesDiagonal(p, i, p.grid, spline) == Ok(Diagonal(p.embedding[i], p.density[i], p.pair[(i, i)]))
  {
    ResampleSame(spline, p.grid.nrho, p.grid.drho, p.embedding[i]);
    ResampleSame(spline, p.grid.nr, p.grid.dr, p.density[i]);
    ResampleSame(spline, p.grid.nr, p.grid.dr, p.pair[(i, i)]);
  }

  /** Mixing one file, with a spline that reproduces its data, gives that file back: its
      source, species and grid, and its F, f and self pair functions on the diagonal. */
  lemma SingleFileMix(p: AlloyPotential, spline: Spline, sqrt: real -> real)
    requires Reproduces(spline) && WellShaped(p) && Resamplable(p)
    ensures MixPots([p], spline, sqrt).Ok? ==>
            var m := MixPots([p], spline, sqrt).value;
            m.sources == p.source && m.names == p.names && m.species == p.species && m.grid == p.grid
            && forall i :: 0 <= i < |p.names| ==>
                 (i, i) in m.embedding && (i, i) in m.density && (i, i) in m.pair
                 && m.embedding[(i, i)] == p.embedding[i] && m.density[(i, i)] == p.density[i]
                 && m.pair[(i, i)] == p.pair[(i, i)]
  {
    if MixPots([p], spline, sqrt).Ok? {
      SingleFileHeader(p, spline, sqrt);
      forall i | 0 <= i < |p.names|
        ensures var m := MixPots([p], spline, sqrt).value;
                (i, i) in m.embedding && (i, i) in m.density && (i, i) in m.pair
                && m.embedding[(i, i)] == p.embedding[i] && m.density[(i, i)] == p.density[i]
                && m.pair[(i, i)] == p.pair[(i, i)]
      {
        SingleFileSpecies(p, spline, sqrt, i);
      }
    }
  }

  lemma SingleFileHeader(p: AlloyPotential, spline: Spline, sqrt: real -> real)
    requires Resamplable(p) && MixPots([p], spline, sqrt).Ok?
    ensures var m := MixPots([p], spline, sqrt).value;
            m.sources == p.source && m.names == p.names && m.species == p.species && m.grid == p.grid
  {
    var pots := [p];
    var m := MixPots(pots, spline, sqrt).value;
    assert ArgMin(Spans(pots)) == 0 && ArgMin(Cutoffs(pots)) == 0;
    assert m.grid == p.grid;
    assert m.sources == Concat(pots, SourceOf, 1) == p.source;
    assert m.names == Concat(pots, NamesOf, 1) == p.names;
    assert m.species == Concat(pots, SpeciesOf, 1) == p.species;
  }

  lemma SingleFileSpecies(p: AlloyPotential, spline: Spline, sqrt: real -> real, i: nat)
    requires Reproduces(spline) && WellShaped(p) && Resamplable(p)
    requires i < |p.names| && MixPots([p], spline, sqrt).Ok?
    ensures var m := MixPots([p], spline, sqrt).value;
            (i, i) in m.embedding && (i, i) in m.density && (i, i) in m.pair
            && m.embedding[(i, i)] == p.embedding[i] && m.density[(i, i)] == p.density[i]
            && m.pair[(i, i)] == p.pair[(i, i)]
  {
    SingleFileHeader(p, spline, sqrt);
    MixTablesPlaced([p], spline, sqrt, 0, i, MixPots([p], spline, sqrt).value, i);
    SpeciesSame(p, i, spline);
  }
}
