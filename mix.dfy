/** `mix_eam_alloy` of matscipy/eam/io.py: several eam/alloy potentials merged into one.

    The grid of the embedding functions (Nrho, drho) is taken from the first file with the
    smallest Nrho*drho, the grid of the density and pair functions (Nr, dr, cutoff) from
    the first file with the smallest cutoff. The species of all files are listed in file
    order; each one's F, f and self pair function are resampled onto the chosen grid and
    stored on the diagonal (n, n) of the mixed tables; the pair function of two different
    species i < j is the elementwise sqrt(|rep_ii * rep_jj|).

    Mix states declaratively what the mixer computes; MixEamAlloy computes it step by step
    in the source's two passes. Both read each species' self pair function as rep[i,i,:],
    where line 239 of the source reads rep[rep_list[i],:]; EamMixAsWritten models that
    lookup as written. The spline (scipy's InterpolatedUnivariateSpline) and sqrt are parameters. */
module EamMix {

  import opened PyNum
  import opened FileText
  import opened EamFormat
  import opened Triangle
  import opened SetflRead

  /** `InterpolatedUnivariateSpline(x, y)(xnew)`: the spline through the points (x, y)
      evaluated at xnew, or the exception raised while building or evaluating it. */
  type Spline = (seq<real>, seq<real>, seq<real>) -> Result<seq<real>>

  /** The three resampled tables of one species. */
  datatype Diagonal = Diagonal(embedding: seq<real>, density: seq<real>, pair: seq<real>)

  /** What mix_eam_alloy returns: the sources run together, the species of all files, the
      chosen grid, and the entries of F_, f_ and rep_ that are assigned, keyed by (i, j)
      (the rest of each nb_at x nb_at table holds whatever np.empty left there). */
  datatype Mixed = Mixed(sources: Text, names: seq<Text>, species: seq<Species>, grid: Grid,
                         embedding: map<(nat, nat), seq<real>>, density: map<(nat, nat), seq<real>>,
                         pair: map<(nat, nat), seq<real>>)

  // ---------------------------------------------------------------- reading the files

  /** read_eam_alloy of every file. */
  function Reads(files: seq<Text>): seq<Result<AlloyPotential>> {
    seq(|files|, j requires 0 <= j < |files| => AlloyRead(files[j]))
  }

  /** rs holds what read_eam_alloy gives for each file. */
  predicate ReadsAre(files: seq<Text>, rs: seq<Result<AlloyPotential>>) {
    |rs| == |files| && forall j {:trigger AlloyRead(files[j])} :: 0 <= j < |files| ==> rs[j] == AlloyRead(files[j])
  }

  /** `read_eam_alloy(files[j])`. */
  method ReadFile(files: seq<Text>, ghost rs: seq<Result<AlloyPotential>>, j: nat) returns (read: Result<AlloyPotential>)
    requires ReadsAre(files, rs) && j < |files|
    ensures read == rs[j]
  {
    read := ReadEamAlloy(files[j]);
  }

  /** Every potential read, or the first failure: the first failure ends the mixer. */
  function Gather(rs: seq<Result<AlloyPotential>>): (r: Result<seq<AlloyPotential>>)
    ensures r.Ok? ==> |r.value| == |rs| && forall j :: 0 <= j < |rs| ==> rs[j] == Ok(r.value[j])
  {
    if rs == [] then Ok([])
    else
      var front :- Gather(rs[..|rs| - 1]);
      var p :- rs[|rs| - 1];
      Ok(front + [p])
  }

  lemma {:induction false} GatherStaysErr(rs: seq<Result<AlloyPotential>>, n: nat)
    requires n <= |rs| && Gather(rs[..n]).Err?
    ensures Gather(rs) == Gather(rs[..n])
    decreases |rs| - n
  {
    if n < |rs| {
      assert rs[..n + 1][..n] == rs[..n];
      GatherStaysErr(rs, n + 1);
    } else {
      assert rs[..n] == rs;
    }
  }

  /** Every potential read is one the mixer can resample. */
  predicate AllResamplable(rs: seq<Result<AlloyPotential>>) {
    forall j :: 0 <= j < |rs| && rs[j].Ok? ==> Resamplable(rs[j].value)
  }

  /** What read_eam_alloy returns is of a shape the mixer can resample. */
  lemma ReadsShaped(files: seq<Text>)
    ensures AllResamplable(Reads(files))
  {
    forall j | 0 <= j < |files| && Reads(files)[j].Ok?
      ensures Resamplable(Reads(files)[j].value)
    {
      AlloyReadShape(files[j]);
      ShapedResamplable(AlloyRead(files[j]).value);
    }
  }

  lemma GatherResamplable(rs: seq<Result<AlloyPotential>>)
    requires AllResamplable(rs)
    ensures Gather(rs).Ok? ==> forall j :: 0 <= j < |Gather(rs).value| ==> Resamplable(Gather(rs).value[j])
  {
  }

  lemma ShapedResamplable(p: AlloyPotential)
    requires WellShaped(p)
    ensures Resamplable(p)
  {
    forall i | 0 <= i < |p.names|
      ensures (i, i) in p.pair
    {
      assert (i, i) in LowerKeys(|p.names|);
    }
  }

  function NamesOf(p: AlloyPotential): seq<Text> { p.names }
  function SpeciesOf(p: AlloyPotential): seq<Species> { p.species }
  function SourceOf(p: AlloyPotential): Text { p.source }

  /** One part of each of the first n potentials, run together in file order. */
  function Concat<T>(pots: seq<AlloyPotential>, part: AlloyPotential -> seq<T>, n: nat): seq<T>
    requires n <= |pots|
  {
    if n == 0 then [] else Concat(pots, part, n - 1) + part(pots[n - 1])
  }

  lemma {:induction false} ConcatPrefix<T>(pots: seq<AlloyPotential>, part: AlloyPotential -> seq<T>, m: nat, n: nat)
    requires m <= n <= |pots|
    ensures |Concat(pots, part, m)| <= |Concat(pots, part, n)|
    ensures Concat(pots, part, n)[..|Concat(pots, part, m)|] == Concat(pots, part, m)
    decreases n
  {
    if m < n {
      ConcatPrefix(pots, part, m, n - 1);
    }
  }

  /** Entry i of file j sits at the file's offset plus i. */
  lemma ConcatAt<T>(pots: seq<AlloyPotential>, part: AlloyPotential -> seq<T>, j: nat, i: nat)
    requires j < |pots| && i < |part(pots[j])|
    ensures |Concat(pots, part, j)| + i < |Concat(pots, part, |pots|)|
    ensures Concat(pots, part, |pots|)[|Concat(pots, part, j)| + i] == part(pots[j])[i]
  {
    ConcatPrefix(pots, part, j + 1, |pots|);
  }

  /** Species and names line up: every file lists as many of each. */
  lemma {:induction false} SpeciesAlign(pots: seq<AlloyPotential>, n: nat)
    requires n <= |pots| && forall j :: 0 <= j < |pots| ==> Resamplable(pots[j])
    ensures |Concat(pots, SpeciesOf, n)| == |Concat(pots, NamesOf, n)|
    decreases n
  {
    if n > 0 {
      SpeciesAlign(pots, n - 1);
    }
  }

  // ---------------------------------------------------------------- the grid

  /** numpy's argmin: the first index of a smallest element. */
  function ArgMin(xs: seq<real>): (r: nat)
    requires |xs| > 0
    ensures r < |xs|
    ensures forall k :: 0 <= k < |xs| ==> xs[r] <= xs[k]
    ensures forall k :: 0 <= k < r ==> xs[r] < xs[k]
  {
    if |xs| == 1 then 0
    else
      var m := ArgMin(xs[..|xs| - 1]);
      if xs[|xs| - 1] < xs[m] then |xs| - 1 else m
  }

  /** No other index is both a smallest element and before every other smallest one. */
  lemma ArgMinUnique(xs: seq<real>, m: nat)
    requires m < |xs|
    requires forall k :: 0 <= k < |xs| ==> xs[m] <= xs[k]
    requires forall k :: 0 <= k < m ==> xs[m] < xs[k]
    ensures m == ArgMin(xs)
  {
  }

  /** `Nrho*drho` of every file. */
  function Spans(pots: seq<AlloyPotential>): (r: seq<real>)
    // the ensures below is a proof aid for callers, not a claim about the source
    ensures |r| == |pots|
    ensures forall j :: 0 <= j < |pots| ==> r[j] == (pots[j].grid.nrho as real) * pots[j].grid.drho
  {
    seq(|pots|, j requires 0 <= j < |pots| => (pots[j].grid.nrho as real) * pots[j].grid.drho)
  }

  function Cutoffs(pots: seq<AlloyPotential>): (r: seq<real>)
    // the ensures below is a proof aid for callers, not a claim about the source
    ensures |r| == |pots|
    ensures forall j :: 0 <= j < |pots| ==> r[j] == pots[j].grid.cutoff
  {
    seq(|pots|, j requires 0 <= j < |pots| => pots[j].grid.cutoff)
  }

  /** Nrho_ and drho_ from `(Nrho*drho).argmin()`, Nr_, dr_ and the cutoff from
      `cutoff.argmin()`. */
  function MixedGrid(pots: seq<AlloyPotential>): Grid
    requires |pots| > 0
  {
    var a := pots[ArgMin(Spans(pots))].grid;
    var b := pots[ArgMin(Cutoffs(pots))].grid;
    Grid(a.nrho, a.drho, b.nr, b.dr, b.cutoff)
  }

  // ---------------------------------------------------------------- the diagonal

  /** Tabulated values y on n points spaced d resampled onto n_ points spaced d_, and
      stored into a row of length n_. */
  function Resample(spline: Spline, n: int, d: real, y: seq<real>, n_: int, d_: real): (r: Result<seq<real>>)
    ensures r.Ok? ==> n_ >= 0 && |r.value| == n_
  {
    var x :- Linspace((n as real) * d, n);
    var xnew :- Linspace((n_ as real) * d_, n_);
    var v :- spline(x, y, xnew);
    Broadcast(n_, v)
  }

  /** What the mixer reads of a potential: F, f and rep[i,i] of each species. */
  predicate Resamplable(p: AlloyPotential) {
    |p.species| == |p.names| && |p.embedding| == |p.names| && |p.density| == |p.names|
    && forall i :: 0 <= i < |p.names| ==> (i, i) in p.pair
  }

  /** Species i of a file, resampled: F from the embedding grid, f and the self pair
      function rep[i,i] from the density grid. */
  function SpeciesDiagonal(p: AlloyPotential, i: nat, g: Grid, spline: Spline): (r: Result<Diagonal>)
    requires Resamplable(p) && i < |p.names|
    ensures r.Ok? ==> Fits(r.value, g)
  {
    var e :- Resample(spline, p.grid.nrho, p.grid.drho, p.embedding[i], g.nrho, g.drho);
    var d :- Resample(spline, p.grid.nr, p.grid.dr, p.density[i], g.nr, g.dr);
    var q :- Resample(spline, p.grid.nr, p.grid.dr, p.pair[(i, i)], g.nr, g.dr);
    Ok(Diagonal(e, d, q))
  }

  predicate Fits(d: Diagonal, g: Grid) {
    |d.embedding| == g.nrho && |d.density| == g.nr && |d.pair| == g.nr
  }

  /** The first m species of one file, resampled in order. */
  function FileDiagonals(p: AlloyPotential, g: Grid, spline: Spline, m: nat): (r: Result<seq<Diagonal>>)
    requires Resamplable(p) && m <= |p.names|
    ensures r.Ok? ==> |r.value| == m
    ensures r.Ok? ==> forall k :: 0 <= k < m ==> Fits(r.value[k], g)
  {
    if m == 0 then Ok([])
    else
      var front :- FileDiagonals(p, g, spline, m - 1);
      var d :- SpeciesDiagonal(p, m - 1, g, spline);
      Ok(front + [d])
  }

  /** The species of the first n files, resampled in order. */
  function Diagonals(pots: seq<AlloyPotential>, g: Grid, spline: Spline, n: nat): (r: Result<seq<Diagonal>>)
    requires n <= |pots| && forall j :: 0 <= j < |pots| ==> Resamplable(pots[j])
  {
    if n == 0 then Ok([])
    else
      var front :- Diagonals(pots, g, spline, n - 1);
      var last :- FileDiagonals(pots[n - 1], g, spline, |pots[n - 1].names|);
      Ok(front + last)
  }

  lemma {:induction false} FileDiagonalsStaysErr(p: AlloyPotential, g: Grid, spline: Spline, i: nat, m: nat)
    requires Resamplable(p) && i <= m <= |p.names| && FileDiagonals(p, g, spline, i).Err?
    ensures FileDiagonals(p, g, spline, m) == FileDiagonals(p, g, spline, i)
    decreases m
  {
    if i < m {
      FileDiagonalsStaysErr(p, g, spline, i, m - 1);
    }
  }

  /** Species i resampled: its diagonal follows those before it, or its error is the file's. */
  lemma FileDiagonalsNext(p: AlloyPotential, g: Grid, spline: Spline, i: nat, done: seq<Diagonal>)
    requires Resamplable(p) && i < |p.names| && FileDiagonals(p, g, spline, i) == Ok(done)
    ensures SpeciesDiagonal(p, i, g, spline).Err? ==>
      FileDiagonals(p, g, spline, |p.names|) == Err(SpeciesDiagonal(p, i, g, spline).error)
    ensures SpeciesDiagonal(p, i, g, spline).Ok? ==>
      FileDiagonals(p, g, spline, i + 1) == Ok(done + [SpeciesDiagonal(p, i, g, spline).value])
  {
    if SpeciesDiagonal(p, i, g, spline).Err? {
      FileDiagonalsStaysErr(p, g, spline, i + 1, |p.names|);
    }
  }

  lemma {:induction false} DiagonalsStaysErr(pots: seq<AlloyPotential>, g: Grid, spline: Spline, j: nat, n: nat)
    requires j <= n <= |pots| && forall k :: 0 <= k < |pots| ==> Resamplable(pots[k])
    requires Diagonals(pots, g, spline, j).Err?
    ensures Diagonals(pots, g, spline, n) == Diagonals(pots, g, spline, j)
    decreases n
  {
    if j < n {
      DiagonalsStaysErr(pots, g, spline, j, n - 1);
    }
  }

  lemma {:induction false} DiagonalsLength(pots: seq<AlloyPotential>, g: Grid, spline: Spline, n: nat)
    requires n <= |pots| && forall k :: 0 <= k < |pots| ==> Resamplable(pots[k])
    requires Diagonals(pots, g, spline, n).Ok?
    ensures |Diagonals(pots, g, spline, n).value| == |Concat(pots, NamesOf, n)|
    decreases n
  {
    if n > 0 {
      DiagonalsLength(pots, g, spline, n - 1);
    }
  }

  /** The file's species come out in order: entry i is species i resampled. */
  lemma {:induction false} FileDiagonalAt(p: AlloyPotential, g: Grid, spline: Spline, m: nat, i: nat)
    requires Resamplable(p) && i < m <= |p.names|
    requires FileDiagonals(p, g, spline, m).Ok?
    ensures SpeciesDiagonal(p, i, g, spline) == Ok(FileDiagonals(p, g, spline, m).value[i])
    decreases m
  {
    if i < m - 1 {
      FileDiagonalAt(p, g, spline, m - 1, i);
    }
  }

  lemma {:induction false} DiagonalsFit(pots: seq<AlloyPotential>, g: Grid, spline: Spline, n: nat)
    requires n <= |pots| && forall k :: 0 <= k < |pots| ==> Resamplable(pots[k])
    requires Diagonals(pots, g, spline, n).Ok?
    ensures forall k :: 0 <= k < |Diagonals(pots, g, spline, n).value| ==> Fits(Diagonals(pots, g, spline, n).value[k], g)
    decreases n
  {
    if n > 0 {
      DiagonalsFit(pots, g, spline, n - 1);
    }
  }

  /** Entry i of file j's diagonals sits in the first n files' diagonals right after
      those of the files before j. */
  lemma {:induction false} DiagonalsAt(pots: seq<AlloyPotential>, g: Grid, spline: Spline, n: nat, j: nat, i: nat)
    requires forall k :: 0 <= k < |pots| ==> Resamplable(pots[k])
    requires j < n <= |pots| && i < |pots[j].names|
    requires Diagonals(pots, g, spline, n).Ok?
    ensures Diagonals(pots, g, spline, j).Ok?
    ensures FileDiagonals(pots[j], g, spline, |pots[j].names|).Ok?
    ensures |Diagonals(pots, g, spline, j).value| + i < |Diagonals(pots, g, spline, n).value|
    ensures Diagonals(pots, g, spline, n).value[|Diagonals(pots, g, spline, j).value| + i]
         == FileDiagonals(pots[j], g, spline, |pots[j].names|).value[i]
    decreases n
  {
    var front := Diagonals(pots, g, spline, n - 1).value;
    var last := FileDiagonals(pots[n - 1], g, spline, |pots[n - 1].names|).value;
    assert Diagonals(pots, g, spline, n).value == front + last;
    if j < n - 1 {
      DiagonalsAt(pots, g, spline, n - 1, j, i);
      var x := |Diagonals(pots, g, spline, j).value| + i;
      assert (front + last)[x] == front[x];
    } else {
      assert (front + last)[|front| + i] == last[i];
    }
  }

  /** Species i of file j is resampled into the diagonal entry at the file's offset plus i:
      the entries of the mixed tables are the species of the files one after the other. */
  lemma DiagonalOfSpecies(pots: seq<AlloyPotential>, g: Grid, spline: Spline, j: nat, i: nat)
    requires forall k :: 0 <= k < |pots| ==> Resamplable(pots[k])
    requires j < |pots| && i < |pots[j].names|
    requires Diagonals(pots, g, spline, |pots|).Ok?
    ensures |Concat(pots, NamesOf, j)| + i < |Diagonals(pots, g, spline, |pots|).value|
    ensures SpeciesDiagonal(pots[j], i, g, spline)
         == Ok(Diagonals(pots, g, spline, |pots|).value[|Concat(pots, NamesOf, j)| + i])
  {
    DiagonalsAt(pots, g, spline, |pots|, j, i);
    DiagonalsLength(pots, g, spline, j);
    FileDiagonalAt(pots[j], g, spline, |pots[j].names|, i);
  }

  // ---------------------------------------------------------------- the mixed tables

  /** The diagonal entries (i, i) of an n x n table. */
  function DiagKeys(n: nat): (r: set<(nat, nat)>)
    ensures forall q: (nat, nat) :: q in r <==> q.0 == q.1 < n
  {
    set i: nat | i < n :: (i, i)
  }

  /** The entries (i, j) with i <= j of an n x n table. */
  function UpperKeys(n: nat): (r: set<(nat, nat)>)
    ensures forall q: (nat, nat) :: q in r <==> q.0 <= q.1 < n
  {
    set i: nat, j: nat | i <= j < n :: (i, j)
  }

  function EmbeddingOf(d: Diagonal): seq<real> { d.embedding }
  function DensityOf(d: Diagonal): seq<real> { d.density }
  function PairOf(d: Diagonal): seq<real> { d.pair }

  /** A table whose entry (n, n) is one part of species n's diagonal, filled in order. */
  function DiagTable(diags: seq<Diagonal>, part: Diagonal -> seq<real>): map<(nat, nat), seq<real>> {
    if diags == [] then map[]
    else
      var n := |diags| - 1;
      DiagTable(diags[..n], part)[(n, n) := part(diags[n])]
  }

  lemma DiagTableSnoc(diags: seq<Diagonal>, d: Diagonal, part: Diagonal -> seq<real>)
    ensures DiagTable(diags + [d], part) == DiagTable(diags, part)[(|diags|, |diags|) := part(d)]
  {
    assert (diags + [d])[..|diags|] == diags;
  }

  /** The filled entries are the diagonal ones. */
  lemma {:induction false} DiagTableKeys(diags: seq<Diagonal>, part: Diagonal -> seq<real>)
    ensures DiagTable(diags, part).Keys == DiagKeys(|diags|)
    decreases |diags|
  {
    if diags != [] {
      DiagTableKeys(diags[..|diags| - 1], part);
    }
  }

  /** Entry (i, i) is species i's. */
  lemma {:induction false} DiagTableAt(diags: seq<Diagonal>, part: Diagonal -> seq<real>, i: nat)
    requires i < |diags|
    ensures (i, i) in DiagTable(diags, part) && DiagTable(diags, part)[(i, i)] == part(diags[i])
    decreases |diags|
  {
    if i < |diags| - 1 {
      DiagTableAt(diags[..|diags| - 1], part, i);
    }
  }

  function Abs(x: real): real {
    if x < 0.0 then -x else x
  }

  /** `np.sqrt(np.abs(a*b))`, elementwise. */
  function CrossValues(sqrt: real -> real, a: seq<real>, b: seq<real>): (r: seq<real>)
    requires |a| == |b|
    ensures |r| == |a|
  {
    seq(|a|, k requires 0 <= k < |a| => sqrt(Abs(a[k] * b[k])))
  }

  /** The mixed pair function does not depend on the order of the two species. */
  lemma CrossValuesSymmetric(sqrt: real -> real, a: seq<real>, b: seq<real>)
    requires |a| == |b|
    ensures CrossValues(sqrt, a, b) == CrossValues(sqrt, b, a)
  {
    forall k | 0 <= k < |a|
      ensures a[k] * b[k] == b[k] * a[k]
    {
    }
  }

  /** rep_ after the mixing loop: the resampled self pair functions on the diagonal, the
      mixed ones above it. */
  function MixedPairs(diags: seq<Diagonal>, g: Grid, sqrt: real -> real): (r: map<(nat, nat), seq<real>>)
    requires forall k :: 0 <= k < |diags| ==> Fits(diags[k], g)
    // the ensures below is a proof aid for callers, not a claim about the source
    ensures r.Keys == UpperKeys(|diags|)
  {
    map q | q in UpperKeys(|diags|) :: PairEntry(diags, g, sqrt, q.0, q.1)
  }

  /** rep_[i,j,:] for i <= j. */
  function PairEntry(diags: seq<Diagonal>, g: Grid, sqrt: real -> real, i: nat, j: nat): seq<real>
    requires i <= j < |diags| && Fits(diags[i], g) && Fits(diags[j], g)
  {
    if i == j then diags[i].pair else CrossValues(sqrt, diags[i].pair, diags[j].pair)
  }

  /** mix_eam_alloy once every file has been read into pots. An empty list fails at
      argmin. */
  function MixPots(pots: seq<AlloyPotential>, spline: Spline, sqrt: real -> real): Result<Mixed>
    requires forall k :: 0 <= k < |pots| ==> Resamplable(pots[k])
  {
    if pots == [] then Err(ValueError)
    else
      var g := MixedGrid(pots);
      var diags :- Diagonals(pots, g, spline, |pots|);
      DiagonalsFit(pots, g, spline, |pots|);
      Ok(Mixed(Concat(pots, SourceOf, |pots|), Concat(pots, NamesOf, |pots|), Concat(pots, SpeciesOf, |pots|), g,
               DiagTable(diags, EmbeddingOf), DiagTable(diags, DensityOf), MixedPairs(diags, g, sqrt)))
  }

  /** mix_eam_alloy on what read_eam_alloy gives for each file: the first file that cannot
      be read ends it. */
  function MixOf(rs: seq<Result<AlloyPotential>>, spline: Spline, sqrt: real -> real): Result<Mixed>
    requires AllResamplable(rs)
  {
    var pots :- Gather(rs);
    GatherResamplable(rs);
    MixPots(pots, spline, sqrt)
  }

  /** mix_eam_alloy of a list of files. */
  function Mix(files: seq<Text>, spline: Spline, sqrt: real -> real): Result<Mixed> {
    ReadsShaped(files);
    MixOf(Reads(files), spline, sqrt)
  }

  lemma {:induction false} ConcatSnoc<T>(pots: seq<AlloyPotential>, x: AlloyPotential, part: AlloyPotential -> seq<T>, n: nat)
    requires n <= |pots|
    ensures Concat(pots + [x], part, n) == Concat(pots, part, n)
    decreases n
  {
    if n > 0 {
      ConcatSnoc(pots, x, part, n - 1);
      assert (pots + [x])[n - 1] == pots[n - 1];
    }
  }

  // ---------------------------------------------------------------- the mixer, step by step

  /** The three mixed tables while they are being filled. */
  datatype Tables = Tables(embedding: map<(nat, nat), seq<real>>, density: map<(nat, nat), seq<real>>,
                           pair: map<(nat, nat), seq<real>>)

  function TablesOf(diags: seq<Diagonal>): Tables {
    Tables(DiagTable(diags, EmbeddingOf), DiagTable(diags, DensityOf), DiagTable(diags, PairOf))
  }

  /** `F_[n,n,:]`, `f_[n,n,:]` and `rep_[n,n,:]` set to the tables of one species. */
  function StoreDiagonal(t: Tables, n: nat, d: Diagonal): (r: Tables)
    ensures r.embedding.Keys == t.embedding.Keys + {(n, n)} && r.embedding[(n, n)] == d.embedding
    ensures r.density.Keys == t.density.Keys + {(n, n)} && r.density[(n, n)] == d.density
    ensures r.pair.Keys == t.pair.Keys + {(n, n)} && r.pair[(n, n)] == d.pair
    ensures forall q :: q in t.embedding && q != (n, n) ==> r.embedding[q] == t.embedding[q]
    ensures forall q :: q in t.density && q != (n, n) ==> r.density[q] == t.density[q]
    ensures forall q :: q in t.pair && q != (n, n) ==> r.pair[q] == t.pair[q]
  {
    var k := (n, n);
    Tables(t.embedding[k := d.embedding], t.density[k := d.density], t.pair[k := d.pair])
  }

  lemma TablesSnoc(diags: seq<Diagonal>, d: Diagonal)
    ensures TablesOf(diags + [d]) == StoreDiagonal(TablesOf(diags), |diags|, d)
  {
    DiagTableSnoc(diags, d, EmbeddingOf);
    DiagTableSnoc(diags, d, DensityOf);
    DiagTableSnoc(diags, d, PairOf);
  }

  /** `xs.argmin()`. */
  method FindArgMin(xs: seq<real>) returns (r: nat)
    requires |xs| > 0
    ensures r == ArgMin(xs)
  {
    r := 0;
    for k := 1 to |xs|
      invariant r < k
      invariant forall i :: 0 <= i < k ==> xs[r] <= xs[i]
      invariant forall i :: 0 <= i < r ==> xs[r] < xs[i]
    {
      if xs[k] < xs[r] {
        r := k;
      }
    }
    ArgMinUnique(xs, r);
  }

  /** The three resamplings of species i of a file: F on the embedding grid, f and the
      self pair function on the density grid. */
  method ResampleSpecies(p: AlloyPotential, i: nat, g: Grid, spline: Spline) returns (r: Result<Diagonal>)
    requires Resamplable(p) && i < |p.names|
    ensures r == SpeciesDiagonal(p, i, g, spline)
  {
    var e := Resample(spline, p.grid.nrho, p.grid.drho, p.embedding[i], g.nrho, g.drho);
    if e.Err? {
      return Err(e.error);
    }
    var d := Resample(spline, p.grid.nr, p.grid.dr, p.density[i], g.nr, g.dr);
    if d.Err? {
      return Err(d.error);
    }
    var q := Resample(spline, p.grid.nr, p.grid.dr, p.pair[(i, i)], g.nr, g.dr);
    if q.Err? {
      return Err(q.error);
    }
    r := Ok(Diagonal(e.value, d.value, q.value));
  }

  /** The species of one file resampled and stored at (n_at, n_at), n_at counting on from
      the species of the files before it; the first failure ends the mixer. */
  method ResampleFile(p: AlloyPotential, g: Grid, spline: Spline, ghost diags: seq<Diagonal>, t0: Tables, nAt0: nat)
    returns (r: Result<Tables>)
    requires Resamplable(p) && t0 == TablesOf(diags) && nAt0 == |diags|
    ensures FileDiagonals(p, g, spline, |p.names|).Err? ==> r == Err(FileDiagonals(p, g, spline, |p.names|).error)
    ensures FileDiagonals(p, g, spline, |p.names|).Ok? ==> r == Ok(TablesOf(diags + FileDiagonals(p, g, spline, |p.names|).value))
  {
    var t := t0;
    var nAt := nAt0;
    ghost var done: seq<Diagonal> := [];
    ghost var all := diags;
    for i := 0 to |p.names|
      invariant FileDiagonals(p, g, spline, i) == Ok(done)
      invariant all == diags + done && nAt == |all| && t == TablesOf(all)
    {
      var sd := ResampleSpecies(p, i, g, spline);
      FileDiagonalsNext(p, g, spline, i, done);
      if sd.Err? {
        return Err(sd.error);
      }
      TablesSnoc(all, sd.value);
      t := StoreDiagonal(t, nAt, sd.value);
      done := done + [sd.value];
      all := all + [sd.value];
      nAt := nAt + 1;
    }
    r := Ok(t);
  }

  /** The entries of rep_ set once the mixing loop has done rows i' < i and, in row i, the
      columns j' < j. */
  ghost function Filled(n: nat, i: nat, j: nat): (r: set<(nat, nat)>)
    ensures forall q: (nat, nat) :: q in r <==> q.0 <= q.1 < n && (q.0 == q.1 || q.0 < i || (q.0 == i && q.1 < j))
  {
    set a: nat, b: nat | a <= b < n && (a == b || a < i || (a == i && b < j)) :: (a, b)
  }

  lemma FilledStep(n: nat, i: nat, j: nat)
    ensures j > i && j < n ==> Filled(n, i, j + 1) == Filled(n, i, j) + {(i, j)}
    ensures !(j > i && j < n) ==> Filled(n, i, j + 1) == Filled(n, i, j)
  {
  }

  lemma FilledEnds(n: nat, i: nat)
    ensures Filled(n, 0, 0) == DiagKeys(n)
    ensures Filled(n, i, n) == Filled(n, i + 1, 0)
    ensures Filled(n, n, 0) == UpperKeys(n)
  {
  }

  /** Every entry of rep_ set so far holds what the mixed pair table holds there. */
  predicate Agrees(pair: map<(nat, nat), seq<real>>, diags: seq<Diagonal>, g: Grid, sqrt: real -> real) {
    (forall k :: 0 <= k < |diags| ==> Fits(diags[k], g))
    && forall q :: q in pair ==> q.0 <= q.1 < |diags| && pair[q] == PairEntry(diags, g, sqrt, q.0, q.1)
  }

  lemma AgreesCross(pair: map<(nat, nat), seq<real>>, diags: seq<Diagonal>, g: Grid, sqrt: real -> real, i: nat, j: nat)
    requires Agrees(pair, diags, g, sqrt) && (i, i) in pair && (j, j) in pair && i < j
    ensures |pair[(i, i)]| == |pair[(j, j)]|
    ensures Agrees(pair[(i, j) := CrossValues(sqrt, pair[(i, i)], pair[(j, j)])], diags, g, sqrt)
  {
  }

  /** One row of the mixing loop: rep_[i,j,:] for the columns j > i. */
  method MixRow(pair0: map<(nat, nat), seq<real>>, nbAt: nat, i: nat, sqrt: real -> real,
                ghost diags: seq<Diagonal>, ghost g: Grid)
    returns (pair: map<(nat, nat), seq<real>>)
    requires Agrees(pair0, diags, g, sqrt) && pair0.Keys == Filled(nbAt, i, 0) && i < nbAt == |diags|
    ensures Agrees(pair, diags, g, sqrt) && pair.Keys == Filled(nbAt, i + 1, 0)
  {
    pair := pair0;
    for j := 0 to nbAt
      invariant pair.Keys == Filled(nbAt, i, j) && Agrees(pair, diags, g, sqrt)
    {
      FilledStep(nbAt, i, j);
      if j > i {
        AgreesCross(pair, diags, g, sqrt, i, j);
        pair := pair[(i, j) := CrossValues(sqrt, pair[(i, i)], pair[(j, j)])];
      }
    }
    FilledEnds(nbAt, i);
  }

  /** Before the mixing loop rep_ holds the self pair functions on the diagonal. */
  lemma DiagonalAgrees(diags: seq<Diagonal>, g: Grid, sqrt: real -> real)
    requires forall k :: 0 <= k < |diags| ==> Fits(diags[k], g)
    ensures Agrees(DiagTable(diags, PairOf), diags, g, sqrt)
    ensures DiagTable(diags, PairOf).Keys == Filled(|diags|, 0, 0)
  {
    DiagTableKeys(diags, PairOf);
    FilledEnds(|diags|, 0);
    forall k | 0 <= k < |diags|
      ensures DiagTable(diags, PairOf)[(k, k)] == diags[k].pair
    {
      DiagTableAt(diags, PairOf, k);
    }
  }

  /** After it, every entry of the upper triangle is set as the mixed pair table says. */
  lemma AgreesComplete(pair: map<(nat, nat), seq<real>>, diags: seq<Diagonal>, g: Grid, sqrt: real -> real)
    requires Agrees(pair, diags, g, sqrt) && pair.Keys == Filled(|diags|, |diags|, 0)
    ensures pair == MixedPairs(diags, g, sqrt)
  {
    FilledEnds(|diags|, |diags|);
  }

  /** Lines 242-245: rep_[i,j,:] = sqrt(|rep_[i,i,:] * rep_[j,j,:]|) for every j > i. */
  method MixCrossTerms(pair0: map<(nat, nat), seq<real>>, nbAt: nat, sqrt: real -> real,
                       ghost diags: seq<Diagonal>, ghost g: Grid)
    returns (pair: map<(nat, nat), seq<real>>)
    requires pair0 == DiagTable(diags, PairOf) && nbAt == |diags|
    requires forall k :: 0 <= k < |diags| ==> Fits(diags[k], g)
    ensures pair == MixedPairs(diags, g, sqrt)
  {
    DiagonalAgrees(diags, g, sqrt);
    pair := pair0;
    for i := 0 to nbAt
      invariant pair.Keys == Filled(nbAt, i, 0) && Agrees(pair, diags, g, sqrt)
    {
      pair := MixRow(pair, nbAt, i, sqrt, diags, g);
    }
    AgreesComplete(pair, diags, g, sqrt);
  }

  /** What the first pass collects: the sources run together, the species count nb_at,
      and the arrays Nrho, drho, Nr, dr and cutoff, one entry per file. */
  datatype Scan = Scan(sources: Text, nbAt: nat, nrho: seq<int>, drho: seq<real>, nr: seq<int>, dr: seq<real>, cutoff: seq<real>)

  /** Entry k of the five arrays. */
  function GridAt(s: Scan, k: nat): Grid
    requires k < |s.nrho| && k < |s.drho| && k < |s.nr| && k < |s.dr| && k < |s.cutoff|
  {
    Grid(s.nrho[k], s.drho[k], s.nr[k], s.dr[k], s.cutoff[k])
  }

  /** The scan holds the grids of pots in file order. */
  predicate ScansGrids(s: Scan, pots: seq<AlloyPotential>) {
    |s.nrho| == |s.drho| == |s.nr| == |s.dr| == |s.cutoff| == |pots|
    && forall k :: 0 <= k < |pots| ==> GridAt(s, k) == pots[k].grid
  }

  /** The first pass's bookkeeping for the potentials read so far. */
  predicate Scanned(scan: Scan, pots: seq<AlloyPotential>) {
    ScansGrids(scan, pots) && scan.sources == Concat(pots, SourceOf, |pots|)
    && scan.nbAt == |Concat(pots, NamesOf, |pots|)|
  }

  /** Lines 209-216 for one file: its source appended, its species counted, its header
      fields stored at the file's index. */
  method ScanFile(scan: Scan, p: AlloyPotential, ghost pots: seq<AlloyPotential>) returns (next: Scan)
    requires Scanned(scan, pots)
    ensures Scanned(next, pots + [p])
  {
    ConcatSnoc(pots, p, SourceOf, |pots|);
    ConcatSnoc(pots, p, NamesOf, |pots|);
    next := Scan(scan.sources + p.source, scan.nbAt + |p.names|, scan.nrho + [p.grid.nrho], scan.drho + [p.grid.drho],
                 scan.nr + [p.grid.nr], scan.dr + [p.grid.dr], scan.cutoff + [p.grid.cutoff]);
    assert GridAt(next, |pots|) == p.grid;
  }

  /** Reading one more file: a failure is the failure of them all, a success one more
      potential. */
  lemma GatherSnoc(rs: seq<Result<AlloyPotential>>, j: nat, pots: seq<AlloyPotential>)
    requires j < |rs| && Gather(rs[..j]) == Ok(pots)
    ensures rs[j].Err? ==> Gather(rs) == Err(rs[j].error)
    ensures rs[j].Ok? ==> Gather(rs[..j + 1]) == Ok(pots + [rs[j].value])
  {
    assert rs[..j + 1][..j] == rs[..j] && rs[..j + 1][j] == rs[j];
    if rs[j].Err? {
      GatherStaysErr(rs, j + 1);
    }
  }

  /** Lines 207-216, the first pass over the files; a file that cannot be read ends the
      mixer. */
  method FirstPass(files: seq<Text>, ghost rs: seq<Result<AlloyPotential>>) returns (r: Result<Scan>)
    requires ReadsAre(files, rs)
    ensures Gather(rs).Err? ==> r == Err(Gather(rs).error)
    ensures Gather(rs).Ok? ==> r.Ok? && Scanned(r.value, Gather(rs).value)
  {
    var n := |files|;
    var scan := Scan([], 0, [], [], [], [], []);
    ghost var pots: seq<AlloyPotential> := [];
    for j := 0 to n
      invariant |pots| == j && Gather(rs[..j]) == Ok(pots) && Scanned(scan, pots)
    {
      var read := ReadFile(files, rs, j);
      GatherSnoc(rs, j, pots);
      if read.Err? {
        return Err(read.error);
      }
      scan := ScanFile(scan, read.value, pots);
      pots := pots + [read.value];
    }
    assert rs[..n] == rs;
    r := Ok(scan);
  }

  /** What the second pass has built once the first j files are done. */
  ghost predicate Passed(pots: seq<AlloyPotential>, g: Grid, spline: Spline, j: nat,
                         names: seq<Text>, species: seq<Species>, t: Tables, nAt: nat)
    requires j <= |pots| && forall k :: 0 <= k < |pots| ==> Resamplable(pots[k])
  {
    names == Concat(pots, NamesOf, j) && species == Concat(pots, SpeciesOf, j)
    && Diagonals(pots, g, spline, j).Ok? && nAt == |Diagonals(pots, g, spline, j).value|
    && t == TablesOf(Diagonals(pots, g, spline, j).value)
  }

  /** Lines 230-240 for file j: its names and header fields appended, its species
      resampled. */
  method SecondPassFile(p: AlloyPotential, g: Grid, spline: Spline, ghost pots: seq<AlloyPotential>, ghost j: nat,
                        names: seq<Text>, species: seq<Species>, t: Tables, nAt: nat)
    returns (r: Result<(seq<Text>, seq<Species>, Tables, nat)>)
    requires j < |pots| && p == pots[j] && forall k :: 0 <= k < |pots| ==> Resamplable(pots[k])
    requires Passed(pots, g, spline, j, names, species, t, nAt)
    ensures Diagonals(pots, g, spline, j + 1).Err? ==> r == Err(Diagonals(pots, g, spline, j + 1).error)
    ensures Diagonals(pots, g, spline, j + 1).Ok? ==>
              r.Ok? && Passed(pots, g, spline, j + 1, r.value.0, r.value.1, r.value.2, r.value.3)
  {
    ghost var diags := Diagonals(pots, g, spline, j).value;
    var filled := ResampleFile(p, g, spline, diags, t, nAt);
    if filled.Err? {
      return Err(filled.error);
    }
    r := Ok((names + p.names, species + p.species, filled.value, nAt + |p.names|));
  }

  /** Lines 228-240, the second pass: each file read again, its names and header fields
      appended, and each of its species resampled onto the grid g. */
  method SecondPass(files: seq<Text>, ghost rs: seq<Result<AlloyPotential>>, ghost pots: seq<AlloyPotential>,
                    g: Grid, spline: Spline)
    returns (r: Result<(seq<Text>, seq<Species>, Tables)>)
    requires ReadsAre(files, rs) && |pots| == |rs| && forall k :: 0 <= k < |rs| ==> rs[k] == Ok(pots[k])
    requires forall k :: 0 <= k < |pots| ==> Resamplable(pots[k])
    ensures Diagonals(pots, g, spline, |pots|).Err? ==> r == Err(Diagonals(pots, g, spline, |pots|).error)
    ensures Diagonals(pots, g, spline, |pots|).Ok? ==>
              r == Ok((Concat(pots, NamesOf, |pots|), Concat(pots, SpeciesOf, |pots|), TablesOf(Diagonals(pots, g, spline, |pots|).value)))
  {
    var names: seq<Text> := [];
    var species: seq<Species> := [];
    var t := Tables(map[], map[], map[]);
    var nAt := 0;
    for j := 0 to |files|
      invariant Passed(pots, g, spline, j, names, species, t, nAt)
    {
      var read := ReadFile(files, rs, j);
      var step := SecondPassFile(read.value, g, spline, pots, j, names, species, t, nAt);
      if step.Err? {
        DiagonalsStaysErr(pots, g, spline, j + 1, |pots|);
        return Err(step.error);
      }
      names, species, t, nAt := step.value.0, step.value.1, step.value.2, step.value.3;
    }
    r := Ok((names, species, t));
  }

  /** Lines 217-227: `cutoff.argmin()` and `(Nrho*drho).argmin()` pick the grid. */
  method ChooseGrid(scan: Scan, ghost pots: seq<AlloyPotential>) returns (g: Grid)
    requires ScansGrids(scan, pots) && |pots| > 0
    ensures g == MixedGrid(pots)
  {
    assert scan.cutoff == Cutoffs(pots) by {
      forall k | 0 <= k < |pots|
        ensures scan.cutoff[k] == pots[k].grid.cutoff
      {
        assert GridAt(scan, k) == pots[k].grid;
      }
    }
    var minCutoff := FindArgMin(scan.cutoff);
    var spans := seq(|scan.nrho|, k requires 0 <= k < |scan.nrho| => (scan.nrho[k] as real) * scan.drho[k]);
    assert spans == Spans(pots) by {
      forall k | 0 <= k < |pots|
        ensures spans[k] == (pots[k].grid.nrho as real) * pots[k].grid.drho
      {
        assert GridAt(scan, k) == pots[k].grid;
      }
    }
    var minProd := FindArgMin(spans);
    g := Grid(scan.nrho[minProd], scan.drho[minProd], scan.nr[minCutoff], scan.dr[minCutoff], scan.cutoff[minCutoff]);
    assert GridAt(scan, minProd) == pots[minProd].grid && GridAt(scan, minCutoff) == pots[minCutoff].grid;
  }

  /** What follows the first pass: the grid chosen by argmin, the second pass, then the
      cross terms. */
  method MixScanned(files: seq<Text>, ghost rs: seq<Result<AlloyPotential>>, ghost pots: seq<AlloyPotential>,
                    scan: Scan, spline: Spline, sqrt: real -> real)
    returns (r: Result<Mixed>)
    requires ReadsAre(files, rs) && |pots| == |rs| && forall k :: 0 <= k < |rs| ==> rs[k] == Ok(pots[k])
    requires forall k :: 0 <= k < |pots| ==> Resamplable(pots[k])
    requires Scanned(scan, pots)
    ensures r == MixPots(pots, spline, sqrt)
  {
    var n := |files|;
    if n == 0 {
      return Err(ValueError);
    }
    var g := ChooseGrid(scan, pots);
    var second := SecondPass(files, rs, pots, g, spline);
    if second.Err? {
      return Err(second.error);
    }
    var (names, species, t) := second.value;
    ghost var diags := Diagonals(pots, g, spline, n).value;
    DiagonalsLength(pots, g, spline, n);
    DiagonalsFit(pots, g, spline, n);
    var pair := MixCrossTerms(t.pair, scan.nbAt, sqrt, diags, g);
    r := Ok(Mixed(scan.sources, names, species, g, t.embedding, t.density, pair));
  }

  /** `mix_eam_alloy(files)` in the source's two passes, with the self pair function read
      as rep[i,i,:]. */
  method MixEamAlloy(files: seq<Text>, spline: Spline, sqrt: real -> real) returns (r: Result<Mixed>)
    ensures r == Mix(files, spline, sqrt)
  {
    ReadsShaped(files);
    ghost var rs := Reads(files);
    var first := FirstPass(files, rs);
    if first.Err? {
      return Err(first.error);
    }
    GatherResamplable(rs);
    r := MixScanned(files, rs, Gather(rs).value, first.value, spline, sqrt);
  }
}
