/** The self pair function as mix_eam_alloy of matscipy/eam/io.py fetches it:
    `rep[rep_list[i],:]` with `rep_list = [0,2,5,9,14]`.

    rep_list holds the positions of the diagonal pairs (i, i) in the flat order in which an
    eam/alloy file lists its pair functions. read_eam_alloy, however, hands back rep as a
    K x K x Nr array, so `rep[rep_list[i],:]` selects the whole K x Nr block of row
    rep_list[i], not one pair function. scipy refuses it (x has Nr points, y has K*Nr
    values) unless K == 1, and rep_list[i] is past the end of the array for the last species
    of every file with two or more. SpeciesDiagonal in EamMix takes rep[i,i,:] instead; the
    lemmas here show where the two part ways and where they agree. */
module EamMixAsWritten {

  import opened PyNum
  import opened EamFormat
  import opened Triangle
  import opened SetflRead
  import opened EamMix

  const RepList: seq<nat> := [0, 2, 5, 9, 14]

  /** `InterpolatedUnivariateSpline(linspace(0,Nr*dr,Nr), rep[rep_list[i],:])(linspace(0,Nr_*dr_,Nr_))`
      stored into rep_[n_at,n_at,:], in the source's order of evaluation: x, the two
      subscripts and the length check of the spline's constructor, after which the block is
      resampled like any other table. A block that passes the check is either rep[0,0,:]
      itself (K == 1) or empty (Nr == 0). */
  function RepAsWritten(p: AlloyPotential, i: nat, g: Grid, spline: Spline): Result<seq<real>>
    requires Resamplable(p) && i < |p.names|
  {
    var k := |p.names|;
    var x :- Linspace((p.grid.nr as real) * p.grid.dr, p.grid.nr);
    if i >= |RepList| || RepList[i] >= k then Err(IndexError)
    else if k * p.grid.nr != p.grid.nr then Err(ValueError)
    else
      var block := if k == 1 then p.pair[(0, 0)] else [];
      Resample(spline, p.grid.nr, p.grid.dr, block, g.nr, g.dr)
  }

  /** The three assignments of the inner loop for species i, as written. */
  function SpeciesDiagonalAsWritten(p: AlloyPotential, i: nat, g: Grid, spline: Spline): Result<Diagonal>
    requires Resamplable(p) && i < |p.names|
  {
    var e :- Resample(spline, p.grid.nrho, p.grid.drho, p.embedding[i], g.nrho, g.drho);
    var d :- Resample(spline, p.grid.nr, p.grid.dr, p.density[i], g.nr, g.dr);
    var q :- RepAsWritten(p, i, g, spline);
    Ok(Diagonal(e, d, q))
  }

  /** A file with two or more species and a non-empty pair table can never be mixed as
      written: every one of its species ends with an exception. */
  lemma AsWrittenFailsOnAlloys(p: AlloyPotential, i: nat, g: Grid, spline: Spline)
    requires Resamplable(p) && 2 <= |p.names| && i < |p.names| && p.grid.nr > 0
    ensures SpeciesDiagonalAsWritten(p, i, g, spline).Err?
  {
    var k := |p.names|;
    assert k * p.grid.nr >= 2 * p.grid.nr;
  }

  /** Species 0 passes the subscripts and is refused by the spline's length check... */
  lemma AsWrittenFirstSpecies(p: AlloyPotential, g: Grid, spline: Spline)
    requires Resamplable(p) && 2 <= |p.names| && p.grid.nr > 0
    requires Resample(spline, p.grid.nrho, p.grid.drho, p.embedding[0], g.nrho, g.drho).Ok?
    requires Resample(spline, p.grid.nr, p.grid.dr, p.density[0], g.nr, g.dr).Ok?
    ensures SpeciesDiagonalAsWritten(p, 0, g, spline) == Err(ValueError)
  {
    var k := |p.names|;
    assert k * p.grid.nr >= 2 * p.grid.nr;
  }

  /** ... and the last species is past the end of rep_list or of rep. */
  lemma AsWrittenLastSpecies(p: AlloyPotential, g: Grid, spline: Spline)
    requires Resamplable(p) && 2 <= |p.names| && p.grid.nr >= 0
    requires Resample(spline, p.grid.nrho, p.grid.drho, p.embedding[|p.names| - 1], g.nrho, g.drho).Ok?
    requires Resample(spline, p.grid.nr, p.grid.dr, p.density[|p.names| - 1], g.nr, g.dr).Ok?
    ensures SpeciesDiagonalAsWritten(p, |p.names| - 1, g, spline) == Err(IndexError)
  {
    var i := |p.names| - 1;
    if i < |RepList| {
      RepListIsDiagonal(i);
      TriMonotone(1, i);
    }
  }

  /** With a single species the block is rep[0,0,:], and the two agree. */
  lemma AsWrittenSingleSpecies(p: AlloyPotential, g: Grid, spline: Spline)
    requires Resamplable(p) && |p.names| == 1
    ensures SpeciesDiagonalAsWritten(p, 0, g, spline) == SpeciesDiagonal(p, 0, g, spline)
  {
    assert RepAsWritten(p, 0, g, spline) == Resample(spline, p.grid.nr, p.grid.dr, p.pair[(0, 0)], g.nr, g.dr);
  }

  /** A spline that can always be built and evaluated, giving one value per new point. */
  ghost predicate Total(spline: Spline) {
    forall x: seq<real>, y: seq<real>, xnew: seq<real> ::
      spline(x, y, xnew).Ok? && |spline(x, y, xnew).value| == |xnew|
  }

  /** Taking rep[i,i,:] instead, every species of every file resamples as long as the
      spline does and the grids have no negative counts. */
  lemma CorrectedMixesAlloys(p: AlloyPotential, i: nat, g: Grid, spline: Spline)
    requires Resamplable(p) && i < |p.names| && Total(spline)
    requires p.grid.nrho >= 0 && p.grid.nr >= 0 && g.nrho >= 0 && g.nr >= 0
    ensures SpeciesDiagonal(p, i, g, spline).Ok?
  {
  }
}
