/** What the "eam" (funcfl) and "eam/alloy" (setfl) files of matscipy/eam/io.py have in
    common: the grid line, the per-species header line, the one-value-per-line tables,
    and how the readers take these apart again. */
module EamFormat {

  import opened PyNum
  import opened FileText
  import opened NumpyText

  /** A species' header fields: atomic number, atomic mass, equilibrium lattice constant
      and crystal-structure label. */
  datatype Species = Species(number: int, mass: real, lattice: real, crystal: Text)

  /** The tabulation: Nrho samples of the embedding function F at spacing drho, Nr samples
      of the density f and of the pair function at spacing dr, and the cutoff radius. */
  datatype Grid = Grid(nrho: int, drho: real, nr: int, dr: real, cutoff: real)

  const Tab := Ch('\t')
  const Space := Ch(' ')

  // ---------------------------------------------------------------- writing

  /** `'%i\t%e\t%i\t%e\t%e' % (Nrho, drho, Nr, dr, cutoff)` */
  function GridLine(g: Grid): Text {
    Join([FormatInt(g.nrho), [Val(g.drho)], FormatInt(g.nr), [Val(g.dr)], [Val(g.cutoff)]], Tab)
  }

  /** `'%i<sep>%f<sep>%f<sep>%s' % (number, mass, lattice, crystal)` */
  function SpeciesLine(s: Species, sep: Piece): Text {
    Join([FormatInt(s.number), [Val(s.mass)], [Val(s.lattice)], s.crystal], sep)
  }

  /** `"%.16e \n" % x`: one tabulated value on a line of its own. */
  function ValueLine(x: real): Text {
    [Val(x), Space]
  }

  function ValueLines(xs: seq<real>): (ls: seq<Text>)
    ensures |ls| == |xs| && forall k :: 0 <= k < |xs| ==> ls[k] == ValueLine(xs[k])
  {
    seq(|xs|, k requires 0 <= k < |xs| => ValueLine(xs[k]))
  }

  const NewLine := Ch('\n')

  /** `for x in xs: potfile.write("%.16e \n" % x)`, appending to what is already written. */
  method WriteValues(out: Text, xs: seq<real>) returns (r: Text)
    ensures r == out + Render(ValueLines(xs))
  {
    r := out;
    for k := 0 to |xs|
      invariant r == out + Render(ValueLines(xs[..k]))
    {
      var line := [ValueLine(xs[k])];
      ValueLinesAppend(xs[..k], [xs[k]]);
      assert xs[..k] + [xs[k]] == xs[..k + 1];
      assert ValueLines([xs[k]]) == line;
      RenderAppend(ValueLines(xs[..k]), line);
      assert Render(line) == ValueLine(xs[k]) + [NewLine] + Render([]);
      r := r + (ValueLine(xs[k]) + [NewLine]);
    }
    assert xs[..|xs|] == xs;
  }

  // ---------------------------------------------------------------- reading

  /** `int(ws[i])` */
  function IntField(ws: seq<Text>, i: nat): Result<int> {
    if i >= |ws| then Err(IndexError)
    else match ParseInt(ws[i])
      case None => Err(ValueError)
      case Some(n) => Ok(n)
  }

  /** `float(ws[i])` */
  function FloatField(ws: seq<Text>, i: nat): Result<real> {
    if i >= |ws| then Err(IndexError)
    else match ParseFloat(ws[i])
      case None => Err(ValueError)
      case Some(x) => Ok(x)
  }

  /** The grid line's fields, read in the order both readers read them: Nrho (field 0),
      Nr (field 2), drho (field 1), dr (field 3), cutoff (field 4). */
  function ParseGridLine(ws: seq<Text>): (r: Result<Grid>)
    ensures r.Ok? <==> |ws| >= 5 && ParseInt(ws[0]).Some? && ParseInt(ws[2]).Some?
                       && ParseFloat(ws[1]).Some? && ParseFloat(ws[3]).Some? && ParseFloat(ws[4]).Some?
    ensures r.Ok? ==> ParseInt(ws[0]) == Some(r.value.nrho) && ParseFloat(ws[1]) == Some(r.value.drho)
                      && ParseInt(ws[2]) == Some(r.value.nr) && ParseFloat(ws[3]) == Some(r.value.dr)
                      && ParseFloat(ws[4]) == Some(r.value.cutoff)
  {
    var nrho :- IntField(ws, 0);
    var nr :- IntField(ws, 2);
    var drho :- FloatField(ws, 1);
    var dr :- FloatField(ws, 3);
    var cutoff :- FloatField(ws, 4);
    Ok(Grid(nrho, drho, nr, dr, cutoff))
  }

  /** A species header line's fields: number, mass, lattice constant, then the label. */
  function ParseSpeciesLine(ws: seq<Text>): (r: Result<Species>)
    ensures r.Ok? <==> |ws| >= 4 && ParseInt(ws[0]).Some? && ParseFloat(ws[1]).Some?
                       && ParseFloat(ws[2]).Some?
    ensures r.Ok? ==> ParseInt(ws[0]) == Some(r.value.number) && ParseFloat(ws[1]) == Some(r.value.mass)
                      && ParseFloat(ws[2]) == Some(r.value.lattice) && ws[3] == r.value.crystal
  {
    var number :- IntField(ws, 0);
    var mass :- FloatField(ws, 1);
    var lattice :- FloatField(ws, 2);
    if |ws| < 4 then Err(IndexError) else Ok(Species(number, mass, lattice, ws[3]))
  }

  // ---------------------------------------------------------------- round trips

  lemma ValueIsWord(x: real)
    ensures Word([Val(x)]) && SingleLine([Val(x)])
  {
  }

  /** The grid line is read back field by field as the same five values. */
  lemma GridLineRoundTrip(g: Grid)
    ensures ParseGridLine(Split(GridLine(g))) == Ok(g)
    ensures SingleLine(GridLine(g))
  {
    FormatIntRoundTrip(g.nrho);
    FormatIntRoundTrip(g.nr);
    var ws := [FormatInt(g.nrho), [Val(g.drho)], FormatInt(g.nr), [Val(g.dr)], [Val(g.cutoff)]];
    SplitJoin(ws, Tab);
    JoinSingleLine(ws, Tab);
  }

  /** A species header line is read back as the same species, provided its label is one
      field. */
  lemma SpeciesLineRoundTrip(s: Species, sep: Piece)
    requires Word(s.crystal) && SingleLine(s.crystal)
    requires IsSpace(sep) && !IsBreak(sep)
    ensures ParseSpeciesLine(Split(SpeciesLine(s, sep))) == Ok(s)
    ensures SingleLine(SpeciesLine(s, sep))
    ensures Split(SpeciesLine(s, sep)) != []
  {
    FormatIntRoundTrip(s.number);
    var ws := [FormatInt(s.number), [Val(s.mass)], [Val(s.lattice)], s.crystal];
    SplitJoin(ws, sep);
    JoinSingleLine(ws, sep);
  }

  lemma {:induction false} JoinSingleLine(ws: seq<Text>, sep: Piece)
    requires forall k :: 0 <= k < |ws| ==> SingleLine(ws[k])
    requires !IsBreak(sep)
    ensures SingleLine(Join(ws, sep))
    decreases |ws|
  {
    if |ws| > 1 {
      JoinSingleLine(ws[1..], sep);
    }
  }

  lemma ValueLinesAppend(a: seq<real>, b: seq<real>)
    ensures ValueLines(a + b) == ValueLines(a) + ValueLines(b)
  {
  }

  lemma ValueLinesSingleLine(xs: seq<real>)
    ensures forall k :: 0 <= k < |ValueLines(xs)| ==> SingleLine(ValueLines(xs)[k])
  {
  }

  lemma ValueLineFields(x: real)
    ensures Split(ValueLine(x)) == [[Val(x)]]
    ensures Uncommented(ValueLine(x)) == ValueLine(x)
  {
    SplitWord([Val(x)], [Space]);
    SplitSpaces([Space]);
    assert [Val(x)] + [Space] == ValueLine(x);
    assert Uncommented([Space]) == [Space];
  }

  lemma ItemsOfValueLine(x: real, tail: seq<Text>)
    ensures Items([ValueLine(x)] + tail) == [Tok([Val(x)]), Eol] + Items(tail)
  {
    ValueLineFields(x);
    assert ([ValueLine(x)] + tail)[1..] == tail;
  }

  lemma {:induction false} ItemsOfValueLines(xs: seq<real>, rest: seq<Text>)
    ensures Items(ValueLines(xs) + rest) == ValueItems(xs) + Items(rest)
    decreases |xs|
  {
    if xs == [] {
      assert ValueLines(xs) + rest == rest;
    } else {
      var tail := ValueLines(xs[1..]) + rest;
      assert ValueLines(xs) + rest == [ValueLine(xs[0])] + tail;
      ItemsOfValueLine(xs[0], tail);
      ItemsOfValueLines(xs[1..], rest);
    }
  }

  /** `numpy.fromfile` over one-value-per-line text reads back exactly the values written,
      and leaves the stream at the next line, provided that line is not blank (or there is
      none). With a negative count it reads to the end of the file. */
  lemma ReadValueLines(xs: seq<real>, rest: seq<Text>, count: int)
    requires count == |xs| || (count < 0 && rest == [])
    requires rest == [] || Split(rest[0]) != []
    ensures ReadNumbers(Items(ValueLines(xs) + rest), count) == (xs, Items(rest))
  {
    ItemsOfValueLines(xs, rest);
    SkipEolItems(rest);
    ReadValueItems(xs, Items(rest), count);
  }

  /** numpy.loadtxt over one-value-per-line text gives back the values written. */
  lemma {:induction false} LoadValueLines(xs: seq<real>)
    ensures xs != [] ==> Rows(ValueLines(xs)) == seq(|xs|, k requires 0 <= k < |xs| => [[Val(xs[k])]])
    ensures LoadTxt(ValueLines(xs)) == Ok(xs)
    decreases |xs|
  {
    if xs != [] {
      LoadValueLines(xs[1..]);
      assert ValueLines(xs)[1..] == ValueLines(xs[1..]);
      ValueLineFields(xs[0]);
      var rows := Rows(ValueLines(xs));
      assert rows == [[[Val(xs[0])]]] + Rows(ValueLines(xs[1..]));
      LoadRowsOfValues(xs);
    }
  }

  lemma {:induction false} LoadRowsOfValues(xs: seq<real>)
    ensures LoadRows(seq(|xs|, k requires 0 <= k < |xs| => [[Val(xs[k])]]), 1) == Ok(xs)
    decreases |xs|
  {
    var rows := seq(|xs|, k requires 0 <= k < |xs| => [[Val(xs[k])]]);
    if xs != [] {
      assert rows[1..] == seq(|xs[1..]|, k requires 0 <= k < |xs[1..]| => [[Val(xs[1..][k])]]);
      LoadRowsOfValues(xs[1..]);
      assert rows[0] == [[Val(xs[0])]];
      assert ParseFloat(rows[0][0]) == Some(xs[0]);
      assert ParseFields(rows[0][1..]) == Some([]);
      assert [xs[0]] + [] == [xs[0]];
      assert ParseFields(rows[0]) == Some([xs[0]]);
      assert [xs[0]] + xs[1..] == xs;
    }
  }
}
