/** The single-species "eam" (funcfl) file: `read_eam` and `write_eam` of matscipy/eam/io.py.

    Layout: a comment line, the species line, the grid line, then Nrho values of the
    embedding function F, Nr values of the density f and Nr values of the pair function,
    read as one flat table. */
module Funcfl {

  import opened PyNum
  import opened FileText
  import opened NumpyText
  import opened EamFormat

  /** What read_eam returns: the stripped first line, the species, the grid, and F, f, rep. */
  datatype EamPotential = EamPotential(source: Text, species: Species, grid: Grid,
                                       embedding: seq<real>, density: seq<real>, pair: seq<real>)

  /** `F = data[0:Nrho]; f = data[Nrho:Nrho+Nr]; rep = data[Nrho+Nr:2*Nr+Nrho]` */
  function SliceTables(data: seq<real>, g: Grid): (seq<real>, seq<real>, seq<real>) {
    (PySlice(data, 0, g.nrho), PySlice(data, g.nrho, g.nrho + g.nr), PySlice(data, g.nrho + g.nr, 2 * g.nr + g.nrho))
  }

  /** `read_eam(eam_file)` on the file's text. A missing header line is an IndexError, a
      header field that is missing or not a number an IndexError or ValueError; the table is
      numpy.loadtxt of everything after the third line, sliced without any length check. */
  function ReadEam(text: Text): Result<EamPotential> {
    ReadEamLines(Lines(text))
  }

  /** read_eam on the file's lines. */
  function ReadEamLines(eam: seq<Text>): Result<EamPotential> {
    if |eam| < 1 then Err(IndexError)
    else
      var source := Strip(eam[0]);
      if |eam| < 2 then Err(IndexError)
      else
        var species :- ParseSpeciesLine(Split(eam[1]));
        if |eam| < 3 then Err(IndexError)
        else
          var grid :- ParseGridLine(Split(eam[2]));
          var data :- LoadTxt(eam[3..]);
          var tables := SliceTables(data, grid);
          Ok(EamPotential(source, species, grid, tables.0, tables.1, tables.2))
  }

  /** The three slices are consecutive: together they are the first Nrho + 2*Nr values of
      the table, or all of it when it is shorter (no error is raised for a short table). */
  lemma SliceTablesPartition(data: seq<real>, g: Grid)
    requires g.nrho >= 0 && g.nr >= 0
    ensures var t := SliceTables(data, g);
      t.0 + t.1 + t.2 == PySlice(data, 0, g.nrho + 2 * g.nr)
    ensures var t := SliceTables(data, g);
      |data| >= g.nrho + 2 * g.nr ==> |t.0| == g.nrho && |t.1| == g.nr && |t.2| == g.nr
  {
    var n := |data|;
    var a := SliceBound(g.nrho, n);
    var b := SliceBound(g.nrho + g.nr, n);
    var c := SliceBound(g.nrho + 2 * g.nr, n);
    assert data[0..a] + data[a..b] + data[b..c] == data[0..c];
  }

  /** read_eam's tables are the leading values of the numpy.loadtxt table, in file order. */
  lemma ReadEamTables(eam: seq<Text>)
    requires ReadEamLines(eam).Ok?
    requires ReadEamLines(eam).value.grid.nrho >= 0 && ReadEamLines(eam).value.grid.nr >= 0
    ensures var p := ReadEamLines(eam).value;
      |eam| >= 3 && LoadTxt(eam[3..]).Ok? &&
      p.embedding + p.density + p.pair == PySlice(LoadTxt(eam[3..]).value, 0, p.grid.nrho + 2 * p.grid.nr)
  {
    var p := ReadEamLines(eam).value;
    SliceTablesPartition(LoadTxt(eam[3..]).value, p.grid);
  }

  /** A grid line with fewer than five fields is refused. */
  lemma ReadEamShortGridLine(eam: seq<Text>)
    requires |eam| >= 3 && |Split(eam[2])| < 5
    ensures ReadEamLines(eam).Err?
  {
  }

  // ---------------------------------------------------------------- writing

  /** The title line's fixed part: `"# EAM potential from : # %s \n" % source` minus the last space, the source and the trailing space. */
  const EamTitle: Text := Chars("# EAM potential from : #")

  /** The lines write_eam writes: title, species line (fields separated by a space), grid
      line, then F, f and rep one value per line. */
  function EamLayout(source: Text, s: Species, g: Grid, F: seq<real>, f: seq<real>, rep: seq<real>): seq<Text> {
    [EamTitle + [Space] + source + [Space], SpeciesLine(s, Space), GridLine(g)]
      + ValueLines(F) + ValueLines(f) + ValueLines(rep)
  }

  /** `write_eam(source, parameters, F, f, rep, out_file)`: the text written to out_file. */
  method WriteEam(source: Text, s: Species, g: Grid, F: seq<real>, f: seq<real>, rep: seq<real>)
    returns (out: Text)
    ensures out == Render(EamLayout(source, s, g, F, f, rep))
  {
    var title := EamTitle + [Space] + source + [Space];
    out := title + [NewLine];
    out := out + SpeciesLine(s, Space) + [NewLine];
    out := out + GridLine(g) + [NewLine];
    ghost var head := [title, SpeciesLine(s, Space), GridLine(g)];
    assert out == Render(head) by {
      assert Render(head[2..]) == GridLine(g) + [NewLine] + Render([]);
      assert Render(head[1..]) == SpeciesLine(s, Space) + [NewLine] + Render(head[2..]);
    }
    out := WriteValues(out, F);
    out := WriteValues(out, f);
    out := WriteValues(out, rep);
    RenderAppend(head, ValueLines(F));
    RenderAppend(head + ValueLines(F), ValueLines(f));
    RenderAppend(head + ValueLines(F) + ValueLines(f), ValueLines(rep));
  }

  lemma EamTitleSingleLine()
    ensures SingleLine(EamTitle) && !IsSpace(EamTitle[|EamTitle| - 1]) && !IsSpace(EamTitle[0])
  {
    var s := "# EAM potential from : #";
    forall k | 0 <= k < |s|
      ensures s[k] != '\n' && s[k] != '\r'
    {
    }
  }

  /** Strip() of the title line: the fixed text, then the source behind its leading space
      with trailing whitespace removed. */
  lemma TitleStrip(source: Text)
    ensures Strip(EamTitle + [Space] + source + [Space]) == EamTitle + RStrip([Space] + source)
  {
    var title := EamTitle + [Space] + source + [Space];
    EamTitleSingleLine();
    assert title[0] == EamTitle[0];
    StripFromNonSpace(title);
    assert title == EamTitle + (([Space] + source) + [Space]);
    RStripAfterNonSpace(EamTitle, ([Space] + source) + [Space]);
    RStripSpaceEnd([Space] + source, Space);
  }

  /** Slicing F ++ f ++ rep by the grid's sizes gives F, f and rep. */
  lemma SliceConcat(g: Grid, F: seq<real>, f: seq<real>, rep: seq<real>)
    requires g.nrho == |F| && g.nr == |f| && g.nr == |rep|
    ensures SliceTables(F + f + rep, g) == (F, f, rep)
  {
    var xs := F + f + rep;
    assert xs[0..|F|] == F;
    assert xs[|F|..|F| + |f|] == f;
    assert xs[|F| + |f|..|xs|] == rep;
  }

  lemma {:induction false} EamLayoutLines(source: Text, s: Species, g: Grid, F: seq<real>, f: seq<real>, rep: seq<real>)
    requires SingleLine(source)
    requires Word(s.crystal) && SingleLine(s.crystal)
    ensures var ls := EamLayout(source, s, g, F, f, rep);
      Lines(Render(ls)) == ls && |ls| >= 3 && ls[3..] == ValueLines(F + f + rep)
  {
    var ls := EamLayout(source, s, g, F, f, rep);
    EamLayoutFlat(source, s, g, F, f, rep);
    EamHeadSingleLines(source, s, g);
    ValueLinesSingleLine(F + f + rep);
    LinesRender(ls);
  }

  /** The value lines of F, f and rep are those of the three run together. */
  lemma EamLayoutFlat(source: Text, s: Species, g: Grid, F: seq<real>, f: seq<real>, rep: seq<real>)
    ensures EamLayout(source, s, g, F, f, rep)
         == [EamTitle + [Space] + source + [Space], SpeciesLine(s, Space), GridLine(g)] + ValueLines(F + f + rep)
  {
    ValueLinesAppend(F, f);
    ValueLinesAppend(F + f, rep);
  }

  /** The first three lines written: the title, the species line and the grid line. */
  lemma EamLayoutHead(source: Text, s: Species, g: Grid, F: seq<real>, f: seq<real>, rep: seq<real>)
    ensures var ls := EamLayout(source, s, g, F, f, rep);
      |ls| >= 3 && ls[0] == EamTitle + [Space] + source + [Space]
      && ls[1] == SpeciesLine(s, Space) && ls[2] == GridLine(g)
  {
    EamLayoutFlat(source, s, g, F, f, rep);
  }

  lemma EamHeadSingleLines(source: Text, s: Species, g: Grid)
    requires SingleLine(source)
    requires Word(s.crystal) && SingleLine(s.crystal)
    ensures SingleLine(EamTitle + [Space] + source + [Space]) && SingleLine(SpeciesLine(s, Space)) && SingleLine(GridLine(g))
  {
    EamTitleSingleLine();
    SpeciesLineRoundTrip(s, Space);
    GridLineRoundTrip(g);
  }

  /** What write_eam writes, read_eam reads back: the species, the grid and the three
      tables exactly; the source comes back behind the title's fixed text with its
      trailing whitespace stripped. */
  lemma {:induction false} WriteReadEam(source: Text, s: Species, g: Grid, F: seq<real>, f: seq<real>, rep: seq<real>)
    requires SingleLine(source)
    requires Word(s.crystal) && SingleLine(s.crystal)
    requires g.nrho == |F| && g.nr == |f| && g.nr == |rep|
    ensures ReadEam(Render(EamLayout(source, s, g, F, f, rep)))
         == Ok(EamPotential(EamTitle + RStrip([Space] + source), s, g, F, f, rep))
  {
    var ls := EamLayout(source, s, g, F, f, rep);
    EamLayoutLines(source, s, g, F, f, rep);
    TitleStrip(source);
    SpeciesLineRoundTrip(s, Space);
    GridLineRoundTrip(g);
    LoadValueLines(F + f + rep);
    SliceConcat(g, F, f, rep);
    EamLayoutHead(source, s, g, F, f, rep);
    ReadEamParts(ls, EamTitle + RStrip([Space] + source), s, g, F + f + rep);
  }

  /** read_eam on lines whose header fields and table are known. */
  lemma ReadEamParts(eam: seq<Text>, source: Text, s: Species, g: Grid, data: seq<real>)
    requires |eam| >= 3 && Strip(eam[0]) == source
    requires ParseSpeciesLine(Split(eam[1])) == Ok(s) && ParseGridLine(Split(eam[2])) == Ok(g)
    requires LoadTxt(eam[3..]) == Ok(data)
    ensures var t := SliceTables(data, g);
      ReadEamLines(eam) == Ok(EamPotential(source, s, g, t.0, t.1, t.2))
  {
  }
}
