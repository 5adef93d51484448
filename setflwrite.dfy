/** `write_eam_alloy` of matscipy/eam/io.py: writing an "eam/alloy" (setfl) file.

    The writer formats every species' header line first, then writes the three comment
    lines, the species count and names, the grid line, per species its header line and
    its F and f values, and the pair functions of the lower triangle of `rep`, row by row
    with the diagonal last. */
module SetflWrite {

  import opened PyNum
  import opened FileText
  import opened EamFormat
  import opened Triangle

  /** The first comment line's text. */
  const AlloyTitle: Text := Chars("# Mixed EAM alloy potential from :")

  const Hash := Ch('#')

  /** `"# Mixed EAM alloy potential from :\n#%s \n#\n" % source` as three lines. */
  function TitleLines(source: Text): seq<Text> {
    [AlloyTitle, [Hash] + source + [Space], [Hash]]
  }

  /** `'%i ' % len(atoms)`, then `at + ' '` for every name. */
  function CountLine(names: seq<Text>): Text {
    FormatInt(|names|) + [Space] + Terminated(names, Space)
  }

  /** One species: its header line (tab separated), then F[i] and f[i], one value a line. */
  function SpeciesBlock(s: Species, embedding: seq<real>, density: seq<real>): seq<Text> {
    [SpeciesLine(s, Tab)] + ValueLines(embedding) + ValueLines(density)
  }

  /** rep[i,i,:] exists for the first n rows: the only pair index that can fail. */
  predicate RowsHaveDiagonal(rep: seq<seq<seq<real>>>, n: nat) {
    n <= |rep| && forall i :: 0 <= i < n ==> i < |rep[i]|
  }

  /** Every index the writer uses exists: atnumber[i] .. crystal[i], F[i] and f[i] for
      each name, and rep[i,j] for j <= i < len(rep). */
  predicate Indexable(names: seq<Text>, species: seq<Species>, F: seq<seq<real>>, f: seq<seq<real>>,
                      rep: seq<seq<seq<real>>>) {
    |species| >= |names| && |F| >= |names| && |f| >= |names| && RowsHaveDiagonal(rep, |rep|)
  }

  function SpeciesBlocks(n: nat, species: seq<Species>, F: seq<seq<real>>, f: seq<seq<real>>): (r: seq<seq<Text>>)
    requires n <= |species| && n <= |F| && n <= |f|
    // the ensures below is a proof aid for callers, not a claim about the source
    ensures |r| == n && forall i :: 0 <= i < n ==> r[i] == SpeciesBlock(species[i], F[i], f[i])
  {
    seq(n, i requires 0 <= i < n => SpeciesBlock(species[i], F[i], f[i]))
  }

  /** The pair functions of rows 0 .. n-1 in the order they are written: rep[i,0,:], ...,
      rep[i,i,:] for each row i. */
  function PairRows(rep: seq<seq<seq<real>>>, n: nat): (r: seq<seq<real>>)
    requires RowsHaveDiagonal(rep, n)
    ensures |r| == Tri(n)
  {
    if n == 0 then [] else PairRows(rep, n - 1) + rep[n - 1][..n]
  }

  /** The lines of the file write_eam_alloy writes. */
  function AlloyLayout(source: Text, names: seq<Text>, species: seq<Species>, g: Grid,
                       F: seq<seq<real>>, f: seq<seq<real>>, rep: seq<seq<seq<real>>>): seq<Text>
    requires Indexable(names, species, F, f, rep)
  {
    TitleLines(source) + [CountLine(names), GridLine(g)]
      + Flatten(SpeciesBlocks(|names|, species, F, f))
      + ValueLines(Flatten(PairRows(rep, |rep|)))
  }

  // ---------------------------------------------------------------- the writer

  /** `write_eam_alloy(source, parameters, F, f, rep, out_file)`: the text written, or the
      IndexError raised by the first index that does not exist. */
  method WriteEamAlloy(source: Text, names: seq<Text>, species: seq<Species>, g: Grid,
                       F: seq<seq<real>>, f: seq<seq<real>>, rep: seq<seq<seq<real>>>)
    returns (r: Result<Text>)
    ensures r.Ok? <==> Indexable(names, species, F, f, rep)
    ensures r.Ok? ==> r.value == Render(AlloyLayout(source, names, species, g, F, f, rep))
    ensures r.Err? ==> r.error == IndexError
  {
    var atlines := [];
    for i := 0 to |names|
      invariant i <= |species|
      invariant atlines == seq(i, k requires 0 <= k < i => SpeciesLine(species[k], Tab))
    {
      if i >= |species| {
        return Err(IndexError);
      }
      atlines := atlines + [SpeciesLine(species[i], Tab)];
    }
    var out := WriteTitle(source);
    out := WriteCountLine(out, names);
    out := out + GridLine(g) + [NewLine];
    ghost var head := TitleLines(source) + [CountLine(names), GridLine(g)];
    assert out == Render(head) by {
      RenderAppend(TitleLines(source), [CountLine(names), GridLine(g)]);
      assert Render([GridLine(g)]) == GridLine(g) + [NewLine] + Render([]);
    }
    var blocks := WriteSpeciesBlocks(out, atlines, names, species, F, f);
    if blocks.Err? {
      return blocks;
    }
    out := blocks.value;
    ghost var body := head + Flatten(SpeciesBlocks(|names|, species, F, f));
    RenderAppend(head, Flatten(SpeciesBlocks(|names|, species, F, f)));
    var pairs := WritePairs(out, rep);
    if pairs.Err? {
      return pairs;
    }
    RenderAppend(body, ValueLines(Flatten(PairRows(rep, |rep|))));
    r := pairs;
  }

  /** The three comment lines. */
  method WriteTitle(source: Text) returns (out: Text)
    ensures out == Render(TitleLines(source))
  {
    out := AlloyTitle + [NewLine] + [Hash] + source + [Space, NewLine] + [Hash, NewLine];
    ghost var ls := TitleLines(source);
    assert Render(ls[2..]) == [Hash] + [NewLine] + Render([]);
    assert Render(ls[1..]) == ls[1] + [NewLine] + Render(ls[2..]);
  }

  /** The count and the names, each written followed by a space, then the line end. */
  method WriteCountLine(out0: Text, names: seq<Text>) returns (out: Text)
    ensures out == out0 + Render([CountLine(names)])
  {
    out := out0 + FormatInt(|names|) + [Space];
    for k := 0 to |names|
      invariant out == out0 + FormatInt(|names|) + [Space] + Terminated(names[..k], Space)
    {
      assert names[..k + 1][..k] == names[..k];
      out := out + names[k] + [Space];
    }
    assert names[..|names|] == names;
    out := out + [NewLine];
  }

  /** Per species: its header line, then F[i,:] and f[i,:] one value a line. */
  method WriteSpeciesBlocks(out0: Text, atlines: seq<Text>, names: seq<Text>, species: seq<Species>,
                            F: seq<seq<real>>, f: seq<seq<real>>)
    returns (r: Result<Text>)
    requires |species| >= |names| && |atlines| == |names|
    requires forall i :: 0 <= i < |names| ==> atlines[i] == SpeciesLine(species[i], Tab)
    ensures r.Ok? <==> |F| >= |names| && |f| >= |names|
    ensures r.Ok? ==> r.value == out0 + Render(Flatten(SpeciesBlocks(|names|, species, F, f)))
    ensures r.Err? ==> r.error == IndexError
  {
    var out := out0;
    for i := 0 to |names|
      invariant i <= |F| && i <= |f|
      invariant out == out0 + Render(Flatten(SpeciesBlocks(i, species, F, f)))
    {
      if i >= |F| || i >= |f| {
        return Err(IndexError);
      }
      ghost var done := Flatten(SpeciesBlocks(i, species, F, f));
      ghost var block := SpeciesBlock(species[i], F[i], f[i]);
      out := WriteBlock(out, atlines[i], species[i], F[i], f[i]);
      BlocksSnoc(i, species, F, f);
      RenderAppend(done, block);
    }
    r := Ok(out);
  }

  /** One species' header line and its F and f values. */
  method WriteBlock(out0: Text, atline: Text, s: Species, embedding: seq<real>, density: seq<real>)
    returns (out: Text)
    requires atline == SpeciesLine(s, Tab)
    ensures out == out0 + Render(SpeciesBlock(s, embedding, density))
  {
    out := out0 + atline + [NewLine];
    out := WriteValues(out, embedding);
    out := WriteValues(out, density);
    BlockRendered(s, embedding, density);
  }

  lemma BlockRendered(s: Species, embedding: seq<real>, density: seq<real>)
    ensures Render(SpeciesBlock(s, embedding, density))
         == SpeciesLine(s, Tab) + [NewLine] + Render(ValueLines(embedding)) + Render(ValueLines(density))
  {
    var b := SpeciesBlock(s, embedding, density);
    assert b == [SpeciesLine(s, Tab)] + (ValueLines(embedding) + ValueLines(density));
    RenderAppend([SpeciesLine(s, Tab)], ValueLines(embedding) + ValueLines(density));
    RenderAppend(ValueLines(embedding), ValueLines(density));
    assert Render([SpeciesLine(s, Tab)]) == SpeciesLine(s, Tab) + [NewLine] + Render([]);
  }

  lemma BlocksSnoc(i: nat, species: seq<Species>, F: seq<seq<real>>, f: seq<seq<real>>)
    requires i < |species| && i < |F| && i < |f|
    ensures Flatten(SpeciesBlocks(i + 1, species, F, f))
         == Flatten(SpeciesBlocks(i, species, F, f)) + SpeciesBlock(species[i], F[i], f[i])
  {
    var block := SpeciesBlock(species[i], F[i], f[i]);
    assert SpeciesBlocks(i + 1, species, F, f) == SpeciesBlocks(i, species, F, f) + [block];
    FlattenAppend(SpeciesBlocks(i, species, F, f), [block]);
    assert Flatten([block]) == block + Flatten([]);
  }

  /** `for i in range(len(rep)): ...`: row after row of the lower triangle, every value
      on a line of its own. */
  method WritePairs(out0: Text, rep: seq<seq<seq<real>>>) returns (r: Result<Text>)
    ensures r.Ok? <==> RowsHaveDiagonal(rep, |rep|)
    ensures r.Ok? ==> r.value == out0 + Render(ValueLines(Flatten(PairRows(rep, |rep|))))
    ensures r.Err? ==> r.error == IndexError
  {
    var out := out0;
    for i := 0 to |rep|
      invariant RowsHaveDiagonal(rep, i)
      invariant out == out0 + Render(ValueLines(Flatten(PairRows(rep, i))))
    {
      ghost var done := Flatten(PairRows(rep, i));
      var row := WritePairRow(out, rep[i], i, |rep|);
      if row.Err? {
        return row;
      }
      out := row.value;
      ValuesSnoc(out0, done, Flatten(rep[i][..i + 1]));
      FlattenAppend(PairRows(rep, i), rep[i][..i + 1]);
    }
    r := Ok(out);
  }

  /** Row i of the pair loop: `for j in range(n): if j < i: ...rep[i,j,:]`, then
      rep[i,i,:]. */
  method WritePairRow(out0: Text, row: seq<seq<real>>, i: nat, n: nat) returns (r: Result<Text>)
    requires i < n
    ensures r.Ok? <==> i < |row|
    ensures r.Ok? ==> r.value == out0 + Render(ValueLines(Flatten(row[..i + 1])))
    ensures r.Err? ==> r.error == IndexError
  {
    var out := out0;
    for j := 0 to n
      invariant (if j < i then j else i) <= |row|
      invariant out == out0 + Render(ValueLines(Flatten(row[..if j < i then j else i])))
    {
      if j < i {
        if j >= |row| {
          return Err(IndexError);
        }
        ghost var done := Flatten(row[..j]);
        out := WriteValues(out, row[j]);
        ValuesSnoc(out0, done, row[j]);
        RowPrefixSnoc(row, j);
      }
    }
    if i >= |row| {
      return Err(IndexError);
    }
    ghost var done := Flatten(row[..i]);
    out := WriteValues(out, row[i]);
    ValuesSnoc(out0, done, row[i]);
    RowPrefixSnoc(row, i);
    r := Ok(out);
  }

  lemma ValuesSnoc(out0: Text, vals: seq<real>, xs: seq<real>)
    ensures out0 + Render(ValueLines(vals)) + Render(ValueLines(xs)) == out0 + Render(ValueLines(vals + xs))
  {
    ValueLinesAppend(vals, xs);
    RenderAppend(ValueLines(vals), ValueLines(xs));
  }

  lemma RowPrefixSnoc(row: seq<seq<real>>, j: nat)
    requires j < |row|
    ensures Flatten(row[..j + 1]) == Flatten(row[..j]) + row[j]
  {
    assert row[..j + 1] == row[..j] + [row[j]];
    FlattenAppend(row[..j], [row[j]]);
    assert Flatten([row[j]]) == row[j] + Flatten([]);
  }
}
