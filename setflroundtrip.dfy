/** What write_eam_alloy writes, read_eam_alloy reads back.

    The reader finds species i's header line by the stride `5 + i*((Nr+Nrho)/l + 1)`,
    where l is the number of fields on line 6. For a file written by write_eam_alloy the
    stride is exact (l is 1 when a species block holds any value, and the header line of
    species 1 has 4 fields otherwise), except for a single species without values: that
    file has only six lines and line 6 does not exist. */
module SetflRoundTrip {

  import opened PyNum
  import opened FileText
  import opened NumpyText
  import opened EamFormat
  import opened Triangle
  import opened SetflRead
  import opened SetflWrite

  /** What write_eam_alloy needs for its file to be read back as written: one field per
      name and crystal label, no line break in the source, one species per name, every
      table of the grid's length, and the sizes not negative. */
  predicate Writable(source: Text, names: seq<Text>, species: seq<Species>, g: Grid,
                     F: seq<seq<real>>, f: seq<seq<real>>, rep: seq<seq<seq<real>>>) {
    var k := |names|;
    SingleLine(source)
    && (forall i :: 0 <= i < k ==> Word(names[i]) && SingleLine(names[i]))
    && |species| == k && |F| == k && |f| == k && |rep| == k
    && (forall i :: 0 <= i < k ==> Word(species[i].crystal) && SingleLine(species[i].crystal))
    && TablesShaped(k, g, F, f, rep)
  }

  /** Tables of the shape the writer lays out for k species on grid g. */
  predicate TablesShaped(k: nat, g: Grid, F: seq<seq<real>>, f: seq<seq<real>>, rep: seq<seq<seq<real>>>) {
    RowsShaped(k, g, F, f) && PairsShaped(k, g, rep)
  }

  /** K rows of F with Nrho values and of f with Nr values. */
  predicate RowsShaped(k: nat, g: Grid, F: seq<seq<real>>, f: seq<seq<real>>) {
    g.nrho >= 0 && g.nr >= 0
    && |F| == k && |f| == k
    && (forall i :: 0 <= i < k ==> |F[i]| == g.nrho && |f[i]| == g.nr)
  }

  /** A pair function of Nr values for every pair (i, j) with j <= i < k. */
  predicate PairsShaped(k: nat, g: Grid, rep: seq<seq<seq<real>>>) {
    g.nrho >= 0 && g.nr >= 0 && |rep| == k
    && (forall i :: 0 <= i < k ==> i < |rep[i]| && forall j :: 0 <= j <= i ==> |rep[i][j]| == g.nr)
  }

  /** The source as read back: the three stripped comment lines run together. */
  function SourceRead(source: Text): Text {
    AlloyTitle + [Hash] + RStrip(source) + [Hash]
  }

  /** The species as the '<U32' crystal array stores them. */
  function Stored(species: seq<Species>): (r: seq<Species>)
    ensures |r| == |species|
  {
    seq(|species|, i requires 0 <= i < |species| => species[i].(crystal := U32(species[i].crystal)))
  }

  /** The pair functions of the lower triangle, keyed by (i, j) with j <= i. */
  function PairTable(rep: seq<seq<seq<real>>>): map<(nat, nat), seq<real>>
    requires RowsHaveDiagonal(rep, |rep|)
  {
    map p | p in LowerKeys(|rep|) :: rep[p.0][p.1]
  }

  // ---------------------------------------------------------------- the lines

  predicate AllSingleLine(ls: seq<Text>) {
    forall k :: 0 <= k < |ls| ==> SingleLine(ls[k])
  }

  lemma AlloyTitleFacts()
    ensures SingleLine(AlloyTitle) && |AlloyTitle| > 0
    ensures !IsSpace(AlloyTitle[0]) && !IsSpace(AlloyTitle[|AlloyTitle| - 1])
  {
    var s := "# Mixed EAM alloy potential from :";
    forall k | 0 <= k < |s|
      ensures s[k] != '\n' && s[k] != '\r'
    {
    }
  }

  lemma {:induction false} TerminatedSingleLine(ws: seq<Text>, sep: Piece)
    requires AllSingleLine(ws) && !IsBreak(sep)
    ensures SingleLine(Terminated(ws, sep))
    decreases |ws|
  {
    if ws != [] {
      TerminatedSingleLine(ws[..|ws| - 1], sep);
    }
  }

  /** The count line splits into the count and the names. */
  lemma CountLineFields(names: seq<Text>)
    requires forall i :: 0 <= i < |names| ==> Word(names[i]) && SingleLine(names[i])
    ensures Split(CountLine(names)) == [FormatInt(|names|)] + names
    ensures SingleLine(CountLine(names))
  {
    FormatIntRoundTrip(|names|);
    var t := Terminated(names, Space);
    assert CountLine(names) == FormatInt(|names|) + ([Space] + t);
    SplitWord(FormatInt(|names|), [Space] + t);
    assert ([Space] + t)[1..] == t;
    SplitTerminated(names, Space);
    TerminatedSingleLine(names, Space);
  }

  lemma {:induction false} AllSingleLineFlatten(xss: seq<seq<Text>>)
    requires forall i :: 0 <= i < |xss| ==> AllSingleLine(xss[i])
    ensures AllSingleLine(Flatten(xss))
    decreases |xss|
  {
    if xss != [] {
      AllSingleLineFlatten(xss[1..]);
    }
  }

  lemma SpeciesBlocksSingleLine(w: seq<Text>, species: seq<Species>, g: Grid,
                                F: seq<seq<real>>, f: seq<seq<real>>)
    requires |species| == |w| && |F| == |w| && |f| == |w|
    requires forall i :: 0 <= i < |w| ==> Word(species[i].crystal) && SingleLine(species[i].crystal)
    ensures AllSingleLine(Flatten(SpeciesBlocks(|w|, species, F, f)))
  {
    var blocks := SpeciesBlocks(|w|, species, F, f);
    forall i | 0 <= i < |blocks|
      ensures AllSingleLine(blocks[i])
    {
      SpeciesLineRoundTrip(species[i], Tab);
      ValueLinesSingleLine(F[i]);
      ValueLinesSingleLine(f[i]);
    }
    AllSingleLineFlatten(blocks);
  }

  /** Reading the written text back into lines gives the lines written. */
  lemma AlloyLayoutLines(source: Text, names: seq<Text>, species: seq<Species>, g: Grid,
                         F: seq<seq<real>>, f: seq<seq<real>>, rep: seq<seq<seq<real>>>)
    requires Writable(source, names, species, g, F, f, rep)
    ensures Indexable(names, species, F, f, rep)
    ensures var ls := AlloyLayout(source, names, species, g, F, f, rep);
      Lines(Render(ls)) == ls
  {
    var ls := AlloyLayout(source, names, species, g, F, f, rep);
    var head := TitleLines(source) + [CountLine(names), GridLine(g)];
    var blocks := Flatten(SpeciesBlocks(|names|, species, F, f));
    var pairs := ValueLines(Flatten(PairRows(rep, |rep|)));
    AlloyHeadSingleLine(source, names, g);
    SpeciesBlocksSingleLine(names, species, g, F, f);
    ValueLinesSingleLine(Flatten(PairRows(rep, |rep|)));
    AllSingleLineAppend(head, blocks, pairs);
    LinesRender(ls);
  }

  lemma AlloyHeadSingleLine(source: Text, names: seq<Text>, g: Grid)
    requires SingleLine(source)
    requires forall i :: 0 <= i < |names| ==> Word(names[i]) && SingleLine(names[i])
    ensures AllSingleLine(TitleLines(source) + [CountLine(names), GridLine(g)])
  {
    AlloyTitleFacts();
    CountLineFields(names);
    GridLineRoundTrip(g);
    var head := [AlloyTitle, [Hash] + source + [Space], [Hash], CountLine(names), GridLine(g)];
    assert TitleLines(source) + [CountLine(names), GridLine(g)] == head;
    assert SingleLine(head[1]) && SingleLine(head[2]);
  }

  lemma AllSingleLineAppend(a: seq<Text>, b: seq<Text>, c: seq<Text>)
    requires AllSingleLine(a) && AllSingleLine(b) && AllSingleLine(c)
    ensures AllSingleLine(a + b + c)
  {
  }

  // ---------------------------------------------------------------- the header

  /** str.strip() of the title lines. */
  lemma TitleStrips(source: Text)
    ensures Strip(AlloyTitle) == AlloyTitle
    ensures Strip([Hash] + source + [Space]) == [Hash] + RStrip(source)
    ensures Strip([Hash]) == [Hash]
  {
    AlloyTitleFacts();
    StripFromNonSpace(AlloyTitle);
    RStripAfterNonSpace(AlloyTitle, []);
    assert AlloyTitle + [] == AlloyTitle;
    var t := [Hash] + source + [Space];
    assert t[0] == Hash;
    StripFromNonSpace(t);
    RStripSpaceEnd([Hash] + source, Space);
    RStripAfterNonSpace([Hash], source);
    StripFromNonSpace([Hash]);
    RStripAfterNonSpace([Hash], []);
    assert [Hash] + [] == [Hash];
  }

  lemma TitleRead(l0: Text, l1: Text, l2: Text, source: Text)
    requires [l0, l1, l2] == TitleLines(source)
    ensures Strip(l0) + Strip(l1) + Strip(l2) == SourceRead(source)
  {
    TitleStrips(source);
    assert l0 == AlloyTitle && l1 == [Hash] + source + [Space] && l2 == [Hash];
  }

  /** The first five lines are read back as the source, the names and the grid. */
  lemma HeaderRoundTrip(ls: seq<Text>, source: Text, names: seq<Text>, g: Grid)
    requires forall i :: 0 <= i < |names| ==> Word(names[i]) && SingleLine(names[i])
    requires |ls| >= 5 && ls[..5] == TitleLines(source) + [CountLine(names), GridLine(g)]
    ensures ReadHeader(ls) == Ok(Header(SourceRead(source), names, g))
  {
    assert ls[0] == AlloyTitle && ls[1] == [Hash] + source + [Space] && ls[2] == [Hash];
    assert ls[3] == CountLine(names) && ls[4] == GridLine(g);
    TitleRead(ls[0], ls[1], ls[2], source);
    CountLineFields(names);
    SplitStrip(CountLine(names));
    assert Names(ls[3]) == names;
    GridLineRoundTrip(g);
    assert ParseGridLine(Split(ls[4])) == Ok(g);
  }

  // ---------------------------------------------------------------- the species headers

  /** A species block is its header line and then its F and f values as one run. */
  lemma BlockShape(s: Species, embedding: seq<real>, density: seq<real>)
    ensures SpeciesBlock(s, embedding, density) == [SpeciesLine(s, Tab)] + ValueLines(embedding + density)
    ensures |SpeciesBlock(s, embedding, density)| == 1 + |embedding| + |density|
  {
    ValueLinesAppend(embedding, density);
  }

  /** Line t of block i, when all blocks have m lines. */
  lemma BlockAt(blocks: seq<seq<Text>>, m: nat, i: nat, t: nat)
    requires forall k :: 0 <= k < |blocks| ==> |blocks[k]| == m
    requires i < |blocks| && t < m
    ensures i * m + t < |Flatten(blocks)| && Flatten(blocks)[i * m + t] == blocks[i][t]
  {
    FlattenUniform(blocks, m, i);
    assert Flatten(blocks)[i * m..i * m + m][t] == blocks[i][t];
  }

  /** The species blocks of a writable file all have Nrho + Nr + 1 lines. */
  lemma BlocksUniform(k: nat, species: seq<Species>, g: Grid, F: seq<seq<real>>, f: seq<seq<real>>)
    requires |species| == k && |F| == k && |f| == k
    requires forall i :: 0 <= i < k ==> |F[i]| == g.nrho && |f[i]| == g.nr
    ensures forall i :: 0 <= i < k ==> |SpeciesBlocks(k, species, F, f)[i]| == g.nrho + g.nr + 1
  {
    forall i | 0 <= i < k
      ensures |SpeciesBlocks(k, species, F, f)[i]| == g.nrho + g.nr + 1
    {
      BlockShape(species[i], F[i], f[i]);
    }
  }

  /** The lines after the header of a file with k species. */
  predicate SpeciesSection(ls: seq<Text>, k: nat, species: seq<Species>, g: Grid,
                           F: seq<seq<real>>, f: seq<seq<real>>) {
    |species| == k && |F| == k && |f| == k && g.nrho >= 0 && g.nr >= 0
    && (forall i :: 0 <= i < k ==> |F[i]| == g.nrho && |f[i]| == g.nr)
    && (forall i :: 0 <= i < k ==> Word(species[i].crystal) && SingleLine(species[i].crystal))
    && |ls| >= 5 + |Flatten(SpeciesBlocks(k, species, F, f))|
    && ls[5..5 + |Flatten(SpeciesBlocks(k, species, F, f))|] == Flatten(SpeciesBlocks(k, species, F, f))
  }

  /** Species i's header line sits at line 5 + i*(Nrho+Nr+1). */
  lemma HeaderLineAt(ls: seq<Text>, k: nat, species: seq<Species>, g: Grid,
                     F: seq<seq<real>>, f: seq<seq<real>>, i: nat)
    requires SpeciesSection(ls, k, species, g, F, f)
    requires i < k
    ensures 5 + i * (g.nrho + g.nr + 1) < |ls|
    ensures ls[5 + i * (g.nrho + g.nr + 1)] == SpeciesLine(species[i], Tab)
  {
    var blocks := SpeciesBlocks(k, species, F, f);
    var m := g.nrho + g.nr + 1;
    BlocksUniform(k, species, g, F, f);
    BlockAt(blocks, m, i, 0);
    BlockShape(species[i], F[i], f[i]);
    SectionLine(ls, Flatten(blocks), i * m);
  }

  /** Line 5 + p of the file is line p of the species section. */
  lemma SectionLine(ls: seq<Text>, section: seq<Text>, p: nat)
    requires |ls| >= 5 + |section| && ls[5..5 + |section|] == section && p < |section|
    ensures 5 + p < |ls| && ls[5 + p] == section[p]
  {
    assert ls[5..5 + |section|][p] == section[p];
  }

  /** Line 6, whose field count l sets the stride: one value when the blocks hold values,
      otherwise species 1's header line. */
  lemma StrideLine(ls: seq<Text>, k: nat, species: seq<Species>, g: Grid,
                   F: seq<seq<real>>, f: seq<seq<real>>)
    requires SpeciesSection(ls, k, species, g, F, f)
    requires k >= 2 || (k == 1 && g.nrho + g.nr > 0)
    ensures |ls| >= 7
    ensures |Split(Strip(ls[6]))| == 1 || (g.nrho + g.nr == 0 && |Split(Strip(ls[6]))| > 0)
  {
    var blocks := SpeciesBlocks(k, species, F, f);
    var m := g.nrho + g.nr + 1;
    BlocksUniform(k, species, g, F, f);
    if g.nrho + g.nr > 0 {
      BlockAt(blocks, m, 0, 1);
      BlockShape(species[0], F[0], f[0]);
      var xs := F[0] + f[0];
      assert ls[6] == Flatten(blocks)[1];
      assert blocks[0][1] == ValueLine(xs[0]);
      ValueLineFields(xs[0]);
    } else {
      BlockAt(blocks, m, 1, 0);
      BlockShape(species[1], F[1], f[1]);
      assert ls[6] == Flatten(blocks)[1];
      SpeciesLineRoundTrip(species[1], Tab);
    }
    SplitStrip(ls[6]);
  }

  /** Each species' header line is read back as that species, label as stored. */
  lemma SpeciesAtRoundTrip(ls: seq<Text>, k: nat, species: seq<Species>, g: Grid,
                           F: seq<seq<real>>, f: seq<seq<real>>, i: nat)
    requires SpeciesSection(ls, k, species, g, F, f)
    requires k >= 2 || (k == 1 && g.nrho + g.nr > 0)
    requires i < k
    ensures SpeciesAt(ls, g, i) == Ok(Stored(species)[i])
  {
    StrideLine(ls, k, species, g, F, f);
    HeaderLineAt(ls, k, species, g, F, f, i);
    HeaderRowStride(ls, g, i);
    SpeciesLineRoundTrip(species[i], Tab);
  }

  lemma SpeciesPrefixRoundTrip(ls: seq<Text>, k: nat, species: seq<Species>, g: Grid,
                                F: seq<seq<real>>, f: seq<seq<real>>, n: nat)
    requires SpeciesSection(ls, k, species, g, F, f)
    requires k != 1 || g.nrho + g.nr > 0
    requires n <= k
    ensures ReadSpecies(ls, g, n) == Ok(Stored(species)[..n])
  {
    var stored := Stored(species);
    forall i | 0 <= i < n
      ensures SpeciesAt(ls, g, i) == Ok(stored[i])
    {
      SpeciesAtRoundTrip(ls, k, species, g, F, f, i);
    }
    ReadSpeciesAll(ls, g, stored, n);
  }

  /** When every header row up to n reads as the species stored there, the header loop
      returns those species. */
  lemma {:induction false} ReadSpeciesAll(ls: seq<Text>, g: Grid, stored: seq<Species>, n: nat)
    requires n <= |stored|
    requires forall i :: 0 <= i < n ==> SpeciesAt(ls, g, i) == Ok(stored[i])
    ensures ReadSpecies(ls, g, n) == Ok(stored[..n])
    decreases n
  {
    if n > 0 {
      ReadSpeciesAll(ls, g, stored, n - 1);
      PrefixSnoc(stored, n);
    }
  }

  // ---------------------------------------------------------------- the values

  /** Blocks of a header line followed by values, one a line. */
  function HeadedBlocks(hdrs: seq<Text>, vals: seq<seq<real>>): (r: seq<seq<Text>>)
    requires |hdrs| == |vals|
    ensures |r| == |hdrs| && forall i :: 0 <= i < |hdrs| ==> r[i] == [hdrs[i]] + ValueLines(vals[i])
  {
    seq(|hdrs|, i requires 0 <= i < |hdrs| => [hdrs[i]] + ValueLines(vals[i]))
  }

  /** Reading block after block (`readline()`, then `fromfile(count=b)`) gives back every
      block's values and leaves the stream after the last block. */
  lemma {:induction false} SpeciesDataOfBlocks(hdrs: seq<Text>, vals: seq<seq<real>>, rest: seq<Text>, b: int)
    requires |hdrs| == |vals|
    requires forall i :: 0 <= i < |hdrs| ==> Split(hdrs[i]) != [] && |vals[i]| == b
    requires rest == [] || Split(rest[0]) != []
    ensures SpeciesData(Items(Flatten(HeadedBlocks(hdrs, vals)) + rest), b, |hdrs|) == (Flatten(vals), Items(rest))
    decreases |hdrs|
  {
    var blocks := HeadedBlocks(hdrs, vals);
    if hdrs == [] {
      assert Flatten(blocks) + rest == rest;
    } else {
      var later := HeadedBlocks(hdrs[1..], vals[1..]);
      assert blocks[1..] == later;
      var tail := Flatten(later) + rest;
      assert Flatten(blocks) + rest == [hdrs[0]] + (ValueLines(vals[0]) + tail);
      NextLineItems(hdrs[0], ValueLines(vals[0]) + tail);
      if |hdrs| > 1 {
        assert later[0] == [hdrs[1]] + ValueLines(vals[1]);
        assert tail[0] == hdrs[1];
      } else {
        assert tail == rest;
      }
      ReadValueLines(vals[0], tail, b);
      SpeciesDataOfBlocks(hdrs[1..], vals[1..], rest, b);
      SpeciesDataStep(Items(Flatten(blocks) + rest), b, |hdrs|);
    }
  }

  /** The species blocks as header lines each followed by F[i] and f[i] as one run. */
  lemma SpeciesBlocksHeaded(k: nat, species: seq<Species>, F: seq<seq<real>>, f: seq<seq<real>>)
    requires |species| == k && |F| == k && |f| == k
    ensures var hdrs := seq(k, i requires 0 <= i < k => SpeciesLine(species[i], Tab));
            SpeciesBlocks(k, species, F, f) == HeadedBlocks(hdrs, BlockValues(k, F, f))
  {
    var hdrs := seq(k, i requires 0 <= i < k => SpeciesLine(species[i], Tab));
    var vals := BlockValues(k, F, f);
    forall i | 0 <= i < k
      ensures SpeciesBlocks(k, species, F, f)[i] == HeadedBlocks(hdrs, vals)[i]
    {
      BlockShape(species[i], F[i], f[i]);
    }
  }

  /** Every value the reader's stream yields: each species' F then f, then the pairs. */
  lemma AlloyDataRoundTrip(ls: seq<Text>, k: nat, species: seq<Species>, g: Grid,
                           F: seq<seq<real>>, f: seq<seq<real>>, pv: seq<real>)
    requires |species| == k && |F| == k && |f| == k
    requires forall i :: 0 <= i < k ==> |F[i]| == g.nrho && |f[i]| == g.nr
    requires forall i :: 0 <= i < k ==> Word(species[i].crystal) && SingleLine(species[i].crystal)
    requires |ls| >= 5 && ls[5..] == Flatten(SpeciesBlocks(k, species, F, f)) + ValueLines(pv)
    ensures AlloyData(ls, k, BlockSize(g)) == Flatten(BlockValues(k, F, f)) + pv
  {
    var hdrs := seq(k, i requires 0 <= i < k => SpeciesLine(species[i], Tab));
    var vals := BlockValues(k, F, f);
    SpeciesBlocksHeaded(k, species, F, f);
    forall i | 0 <= i < k
      ensures Split(hdrs[i]) != []
    {
      SpeciesLineRoundTrip(species[i], Tab);
    }
    var rest := ValueLines(pv);
    if pv != [] {
      ValueLineFields(pv[0]);
    }
    SpeciesDataOfBlocks(hdrs, vals, rest, BlockSize(g));
    ReadValueLines(pv, [], -1);
    assert rest + [] == rest;
  }

  // ---------------------------------------------------------------- the tables

  /** Pair (i, j) is written as chunk Tri(i) + j of the pair order. */
  lemma {:induction false} PairRowsAt(rep: seq<seq<seq<real>>>, n: nat, i: nat, j: nat)
    requires RowsHaveDiagonal(rep, n)
    requires j <= i < n
    ensures Tri(i) + j < Tri(n) && PairRows(rep, n)[Tri(i) + j] == rep[i][j]
    decreases n
  {
    if i < n - 1 {
      PairRowsAt(rep, n - 1, i, j);
    } else {
      assert PairRows(rep, n)[Tri(i) + j] == rep[n - 1][..n][j];
    }
  }

  /** When every pair function has m values, every chunk of the pair order has m values. */
  lemma {:induction false} PairRowsUniform(rep: seq<seq<seq<real>>>, n: nat, m: nat)
    requires RowsHaveDiagonal(rep, n)
    requires forall i :: 0 <= i < n ==> forall j :: 0 <= j <= i ==> |rep[i][j]| == m
    ensures forall t :: 0 <= t < |PairRows(rep, n)| ==> |PairRows(rep, n)[t]| == m
    decreases n
  {
    if n > 0 {
      PairRowsUniform(rep, n - 1, m);
      var front := PairRows(rep, n - 1);
      var row := rep[n - 1][..n];
      assert PairRows(rep, n) == front + row;
      forall t | 0 <= t < |front + row|
        ensures |(front + row)[t]| == m
      {
        if t >= |front| {
          assert (front + row)[t] == rep[n - 1][t - |front|];
        }
      }
    }
  }

  /** Dropping a prefix of the data moves every slot back by its length. */
  lemma SlotShift(a: seq<real>, rest: seq<real>, x: int, off: int, n: nat)
    requires off >= 0 && x == |a| + off
    ensures Slot(a + rest, x, n) == Slot(rest, off, n)
  {
    var lo := SliceBound(off, |rest|);
    var hi := SliceBound(off + n, |rest|);
    assert PySlice(a + rest, x, x + n) == PySlice(rest, off, off + n) by {
      if lo <= hi {
        assert (a + rest)[|a| + lo..|a| + hi] == rest[lo..hi];
      }
    }
  }

  lemma StrideStep(i: nat, b: nat)
    requires i > 0
    ensures i * b == b + (i - 1) * b && (i - 1) * b >= 0
  {
  }

  /** Species i's F slot behind one more block is species i-1's slot without it. */
  lemma EmbeddingShift(a: seq<real>, rest: seq<real>, g: Grid, i: nat)
    requires g.nrho >= 0 && g.nr >= 0 && |a| == g.nrho + g.nr && i > 0
    ensures EmbeddingSlot(a + rest, g, i) == EmbeddingSlot(rest, g, i - 1)
  {
    StrideStep(i, g.nrho + g.nr);
    SlotShift(a, rest, i * (g.nrho + g.nr), (i - 1) * (g.nrho + g.nr), g.nrho);
  }

  /** The same for the f slot. */
  lemma DensityShift(a: seq<real>, rest: seq<real>, g: Grid, i: nat)
    requires g.nrho >= 0 && g.nr >= 0 && |a| == g.nrho + g.nr && i > 0
    ensures DensitySlot(a + rest, g, i) == DensitySlot(rest, g, i - 1)
  {
    StrideStep(i, g.nrho + g.nr);
    SlotShift(a, rest, g.nrho + i * (g.nrho + g.nr), g.nrho + (i - 1) * (g.nrho + g.nr), g.nr);
  }

  /** The first block of the data: F[0,:] then f[0,:]. */
  lemma FirstBlock(v: seq<real>, rest: seq<real>, g: Grid)
    requires g.nrho >= 0 && g.nr >= 0 && |v| == g.nrho + g.nr
    ensures EmbeddingSlot(v + rest, g, 0) == Ok(v[..g.nrho])
    ensures DensitySlot(v + rest, g, 0) == Ok(v[g.nrho..])
  {
    assert (v + rest)[0..g.nrho] == v[..g.nrho];
    assert (v + rest)[g.nrho..g.nrho + g.nr] == v[g.nrho..];
  }

  /** F[i,:] and f[i,:] are the two parts of species i's block. */
  lemma {:induction false} BlockRoundTrip(vals: seq<seq<real>>, pv: seq<real>, g: Grid, i: nat)
    requires g.nrho >= 0 && g.nr >= 0
    requires i < |vals|
    requires forall t :: 0 <= t < |vals| ==> |vals[t]| == g.nrho + g.nr
    ensures EmbeddingSlot(Flatten(vals) + pv, g, i) == Ok(vals[i][..g.nrho])
    ensures DensitySlot(Flatten(vals) + pv, g, i) == Ok(vals[i][g.nrho..])
    decreases i
  {
    var rest := Flatten(vals[1..]) + pv;
    assert Flatten(vals) + pv == vals[0] + rest;
    if i == 0 {
      FirstBlock(vals[0], rest, g);
    } else {
      BlockRoundTrip(vals[1..], pv, g, i - 1);
      EmbeddingShift(vals[0], rest, g, i);
      DensityShift(vals[0], rest, g, i);
      assert vals[1..][i - 1] == vals[i];
    }
  }

  /** Chunk t of equal chunks of m values sits at t*m of their concatenation. */
  lemma {:induction false} ChunkAt(chunks: seq<seq<real>>, m: nat, t: nat)
    requires forall x :: 0 <= x < |chunks| ==> |chunks[x]| == m
    requires t < |chunks|
    ensures t * m >= 0 && Slot(Flatten(chunks), t * m, m) == Ok(chunks[t])
    decreases t
  {
    var rest := Flatten(chunks[1..]);
    assert Flatten(chunks) == chunks[0] + rest;
    if t == 0 {
      assert (chunks[0] + rest)[0..m] == chunks[0];
    } else {
      ChunkAt(chunks[1..], m, t - 1);
      StrideStep(t, m);
      SlotShift(chunks[0], rest, t * m, (t - 1) * m, m);
      assert chunks[1..][t - 1] == chunks[t];
    }
  }

  /** Chunk t of equal chunks of m values, behind a prefix. */
  lemma ChunkSlot(a: seq<real>, chunks: seq<seq<real>>, m: nat, t: nat, off: int)
    requires forall x :: 0 <= x < |chunks| ==> |chunks[x]| == m
    requires t < |chunks| && off == |a| + t * m
    ensures Slot(a + Flatten(chunks), off, m) == Ok(chunks[t])
  {
    ChunkAt(chunks, m, t);
    SlotShift(a, Flatten(chunks), |a| + t * m, t * m, m);
  }

  /** rep[i,j,:] is cut out of the pair section at the written position. */
  lemma PairSlotRoundTrip(a: seq<real>, rep: seq<seq<seq<real>>>, g: Grid, k: nat, i: nat, j: nat)
    requires g.nrho >= 0 && g.nr >= 0
    requires |a| == k * (g.nrho + g.nr)
    requires RowsHaveDiagonal(rep, k) && j <= i < k
    requires forall x :: 0 <= x < k ==> forall y :: 0 <= y <= x ==> |rep[x][y]| == g.nr
    ensures PairSlot(a + Flatten(PairRows(rep, k)), g, k, (i, j)) == Ok(rep[i][j])
  {
    var chunks := PairRows(rep, k);
    PairRowsAt(rep, k, i, j);
    PairRowsUniform(rep, k, g.nr);
    ChunkSlot(a, chunks, g.nr, Tri(i) + j, PairOffset(g, k, (i, j)));
  }

  /** The per-species values as the stream yields them: F[i] then f[i]. */
  function BlockValues(k: nat, F: seq<seq<real>>, f: seq<seq<real>>): (r: seq<seq<real>>)
    requires |F| == k && |f| == k
    ensures |r| == k && forall i :: 0 <= i < k ==> r[i] == F[i] + f[i]
  {
    seq(k, i requires 0 <= i < k => F[i] + f[i])
  }

  /** F and f are read back from the species blocks. */
  lemma RowsRoundTrip(k: nat, g: Grid, F: seq<seq<real>>, f: seq<seq<real>>, pv: seq<real>)
    requires RowsShaped(k, g, F, f)
    ensures RowsFit(Flatten(BlockValues(k, F, f)) + pv, g, k)
    ensures EmbeddingRows(Flatten(BlockValues(k, F, f)) + pv, g, k) == F
    ensures DensityRows(Flatten(BlockValues(k, F, f)) + pv, g, k) == f
  {
    var vals := BlockValues(k, F, f);
    var data := Flatten(vals) + pv;
    forall i | 0 <= i < k
      ensures EmbeddingSlot(data, g, i) == Ok(F[i]) && DensitySlot(data, g, i) == Ok(f[i])
    {
      BlockRoundTrip(vals, pv, g, i);
      assert vals[i][..g.nrho] == F[i];
      assert vals[i][g.nrho..] == f[i];
    }
  }

  /** Species i's F and f slots are the two parts of the i-th run of Nrho + Nr values. */
  lemma BlockSlots(data: seq<real>, g: Grid, i: nat, off: nat)
    requires g.nrho >= 0 && g.nr >= 0
    requires off == i * (g.nrho + g.nr) && off + g.nrho + g.nr <= |data|
    ensures EmbeddingSlot(data, g, i) == Ok(data[off..off + g.nrho])
    ensures DensitySlot(data, g, i) == Ok(data[off + g.nrho..off + g.nrho + g.nr])
  {
  }

  /** Whatever the values read, the species blocks F[i] ++ f[i] for i = 0 .. k-1 are
      disjoint and tile the first k*(Nrho+Nr) of them. */
  lemma RowsTile(data: seq<real>, g: Grid, k: nat)
    requires g.nrho >= 0 && g.nr >= 0
    requires k * (g.nrho + g.nr) <= |data|
    ensures RowsFit(data, g, k)
    ensures Flatten(BlockValues(k, EmbeddingRows(data, g, k), DensityRows(data, g, k)))
         == data[..k * (g.nrho + g.nr)]
  {
    var b := g.nrho + g.nr;
    forall i: nat | i < k
      ensures EmbeddingSlot(data, g, i).Ok? && DensitySlot(data, g, i).Ok?
    {
      BlockInside(i, k, b);
      BlockSlots(data, g, i, i * b);
    }
    assert RowsFit(data, g, k);
    var blocks := BlockValues(k, EmbeddingRows(data, g, k), DensityRows(data, g, k));
    forall i | 0 <= i < k
      ensures blocks[i] == Blocks(data, b, k)[i]
    {
      BlockInside(i, k, b);
      BlockSlots(data, g, i, i * b);
      assert data[i * b..i * b + g.nrho] + data[i * b + g.nrho..i * b + b] == data[i * b..i * b + b];
    }
    assert blocks == Blocks(data, b, k);
    FlattenBlocks(data, b, k);
  }

  /** Block i of k blocks of b values lies inside the first k*b values. */
  lemma {:induction false} BlockInside(i: nat, k: nat, b: nat)
    requires i < k
    ensures 0 <= i * b && i * b + b <= k * b
    decreases k
  {
    StrideStep(k, b);
    if i < k - 1 {
      BlockInside(i, k - 1, b);
    }
  }

  /** The k consecutive blocks of b values at the head of data. */
  function Blocks(data: seq<real>, b: nat, k: nat): (r: seq<seq<real>>)
    requires k * b <= |data|
    ensures |r| == k
  {
    seq(k, i requires 0 <= i < k => BlockInside(i, k, b); data[i * b..i * b + b])
  }

  lemma {:induction false} FlattenBlocks(data: seq<real>, b: nat, k: nat)
    requires k * b <= |data|
    ensures Flatten(Blocks(data, b, k)) == data[..k * b]
    decreases k
  {
    if k == 0 {
      assert Blocks(data, b, 0) == [];
    } else {
      StrideStep(k, b);
      var off := (k - 1) * b;
      FlattenBlocks(data, b, k - 1);
      BlockInside(k - 1, k, b);
      assert Blocks(data, b, k) == Blocks(data, b, k - 1) + [data[off..off + b]];
      FlattenAppend(Blocks(data, b, k - 1), [data[off..off + b]]);
      assert Flatten([data[off..off + b]]) == data[off..off + b] + Flatten([]);
      assert data[..off] + data[off..off + b] == data[..off + b];
    }
  }

  /** The pair functions of the lower triangle are read back from the pair section. */
  lemma PairsRoundTrip(k: nat, g: Grid, a: seq<real>, rep: seq<seq<seq<real>>>)
    requires PairsShaped(k, g, rep) && |a| == k * (g.nrho + g.nr)
    ensures PairsFit(a + Flatten(PairRows(rep, k)), g, k)
    ensures PairMap(a + Flatten(PairRows(rep, k)), g, k) == PairTable(rep)
  {
    var data := a + Flatten(PairRows(rep, k));
    forall p | p in LowerKeys(k)
      ensures PairSlot(data, g, k, p) == Ok(rep[p.0][p.1])
    {
      PairSlotRoundTrip(a, rep, g, k, p.0, p.1);
    }
  }

  /** The species blocks hold k*(Nrho+Nr) values in all. */
  lemma BlockValuesLength(k: nat, g: Grid, F: seq<seq<real>>, f: seq<seq<real>>)
    requires RowsShaped(k, g, F, f)
    ensures |Flatten(BlockValues(k, F, f))| == k * (g.nrho + g.nr)
  {
    FlattenLength(BlockValues(k, F, f), g.nrho + g.nr);
  }

  /** The tables cut out of the values of a written file are the tables written. */
  lemma TabulateRoundTrip(h: Header, sp: seq<Species>, F: seq<seq<real>>, f: seq<seq<real>>,
                          rep: seq<seq<seq<real>>>)
    requires TablesShaped(|h.names|, h.grid, F, f, rep)
    ensures Tabulate(h, sp, Flatten(BlockValues(|h.names|, F, f)) + Flatten(PairRows(rep, |rep|)))
         == Ok(AlloyPotential(h.source, h.names, sp, h.grid, F, f, PairTable(rep)))
  {
    var k := |h.names|;
    var g := h.grid;
    var vals := BlockValues(k, F, f);
    RowsRoundTrip(k, g, F, f, Flatten(PairRows(rep, k)));
    BlockValuesLength(k, g, F, f);
    PairsRoundTrip(k, g, Flatten(vals), rep);
  }

  // ---------------------------------------------------------------- the round trip

  /** read_eam_alloy on lines whose header, species headers and data stream are known. */
  lemma AlloyReadLinesOk(ls: seq<Text>, h: Header, sp: seq<Species>, data: seq<real>)
    requires ReadHeader(ls) == Ok(h)
    requires ReadSpecies(ls, h.grid, |h.names|) == Ok(sp)
    requires h.grid.nrho >= 0 && h.grid.nr >= 0
    requires AlloyData(ls, |h.names|, BlockSize(h.grid)) == data
    ensures AlloyReadLines(ls) == Tabulate(h, sp, data)
  {
  }

  /** The written file, cut into its header, its species blocks and its pair values. */
  lemma LayoutSections(source: Text, names: seq<Text>, species: seq<Species>, g: Grid,
                       F: seq<seq<real>>, f: seq<seq<real>>, rep: seq<seq<seq<real>>>)
    requires Writable(source, names, species, g, F, f, rep)
    ensures var ls := AlloyLayout(source, names, species, g, F, f, rep);
            |ls| >= 5 && ls[..5] == TitleLines(source) + [CountLine(names), GridLine(g)]
            && SpeciesSection(ls, |names|, species, g, F, f)
            && ls[5..] == Flatten(SpeciesBlocks(|names|, species, F, f))
                          + ValueLines(Flatten(PairRows(rep, |rep|)))
  {
    var ls := AlloyLayout(source, names, species, g, F, f, rep);
    var head := TitleLines(source) + [CountLine(names), GridLine(g)];
    var blocks := Flatten(SpeciesBlocks(|names|, species, F, f));
    var pv := Flatten(PairRows(rep, |rep|));
    assert ls == head + blocks + ValueLines(pv);
    assert ls[..5] == head;
    assert ls[5..] == blocks + ValueLines(pv);
    assert ls[5..5 + |blocks|] == blocks;
  }

  /** What write_eam_alloy writes, read_eam_alloy reads back: the names, the grid, F, f
      and every pair function of the lower triangle exactly; each crystal label as the
      '<U32' array stores it; the source behind the title's fixed text with its trailing
      whitespace stripped. A single species needs at least one tabulated value (see
      SingleSpeciesWithoutValues). */
  lemma WriteReadEamAlloy(source: Text, names: seq<Text>, species: seq<Species>, g: Grid,
                          F: seq<seq<real>>, f: seq<seq<real>>, rep: seq<seq<seq<real>>>)
    requires Writable(source, names, species, g, F, f, rep)
    requires |names| != 1 || g.nrho + g.nr > 0
    ensures Indexable(names, species, F, f, rep)
    ensures AlloyRead(Render(AlloyLayout(source, names, species, g, F, f, rep)))
         == Ok(AlloyPotential(SourceRead(source), names, Stored(species), g, F, f, PairTable(rep)))
  {
    var ls := AlloyLayout(source, names, species, g, F, f, rep);
    AlloyLayoutLines(source, names, species, g, F, f, rep);
    LayoutSections(source, names, species, g, F, f, rep);
    ReadPieces(ls, source, names, species, g, F, f, rep);
    ReadSections(ls, source, names, species, g, F, f, rep);
  }

  /** The species headers of the written file read back as the '<U32' array stores them. */
  lemma SpeciesHeadersRead(ls: seq<Text>, names: seq<Text>, species: seq<Species>, g: Grid,
                           F: seq<seq<real>>, f: seq<seq<real>>)
    requires |names| != 1 || g.nrho + g.nr > 0
    requires SpeciesSection(ls, |names|, species, g, F, f)
    ensures ReadSpecies(ls, g, |names|) == Ok(Stored(species))
  {
    var k := |names|;
    SpeciesPrefixRoundTrip(ls, k, species, g, F, f, k);
    assert Stored(species)[..k] == Stored(species);
  }

  /** The written tables come back from the parsed header and the number stream. */
  lemma TablesRead(source: Text, names: seq<Text>, species: seq<Species>, g: Grid,
                   F: seq<seq<real>>, f: seq<seq<real>>, rep: seq<seq<seq<real>>>)
    requires Writable(source, names, species, g, F, f, rep)
    ensures Tabulate(Header(SourceRead(source), names, g), Stored(species),
                     Flatten(BlockValues(|names|, F, f)) + Flatten(PairRows(rep, |rep|)))
         == Ok(AlloyPotential(SourceRead(source), names, Stored(species), g, F, f, PairTable(rep)))
  {
    TabulateRoundTrip(Header(SourceRead(source), names, g), Stored(species), F, f, rep);
  }

  /** The header, the species headers and the number stream of lines cut as the writer
      lays them out. */
  lemma ReadPieces(ls: seq<Text>, source: Text, names: seq<Text>, species: seq<Species>, g: Grid,
                   F: seq<seq<real>>, f: seq<seq<real>>, rep: seq<seq<seq<real>>>)
    requires Writable(source, names, species, g, F, f, rep)
    requires |names| != 1 || g.nrho + g.nr > 0
    requires |ls| >= 5 && ls[..5] == TitleLines(source) + [CountLine(names), GridLine(g)]
    requires SpeciesSection(ls, |names|, species, g, F, f)
    requires ls[5..] == Flatten(SpeciesBlocks(|names|, species, F, f))
                        + ValueLines(Flatten(PairRows(rep, |rep|)))
    ensures ReadHeader(ls) == Ok(Header(SourceRead(source), names, g))
    ensures ReadSpecies(ls, g, |names|) == Ok(Stored(species))
    ensures AlloyData(ls, |names|, BlockSize(g)) == Flatten(BlockValues(|names|, F, f)) + Flatten(PairRows(rep, |rep|))
  {
    HeaderRoundTrip(ls, source, names, g);
    SpeciesHeadersRead(ls, names, species, g, F, f);
    AlloyDataRoundTrip(ls, |names|, species, g, F, f, Flatten(PairRows(rep, |rep|)));
  }

  /** The reader on lines whose pieces are those the writer wrote. */
  lemma ReadSections(ls: seq<Text>, source: Text, names: seq<Text>, species: seq<Species>, g: Grid,
                     F: seq<seq<real>>, f: seq<seq<real>>, rep: seq<seq<seq<real>>>)
    requires Writable(source, names, species, g, F, f, rep)
    requires ReadHeader(ls) == Ok(Header(SourceRead(source), names, g))
    requires ReadSpecies(ls, g, |names|) == Ok(Stored(species))
    requires AlloyData(ls, |names|, BlockSize(g)) == Flatten(BlockValues(|names|, F, f)) + Flatten(PairRows(rep, |rep|))
    ensures AlloyReadLines(ls)
         == Ok(AlloyPotential(SourceRead(source), names, Stored(species), g, F, f, PairTable(rep)))
  {
    var h := Header(SourceRead(source), names, g);
    AlloyReadLinesOk(ls, h, Stored(species), Flatten(BlockValues(|names|, F, f)) + Flatten(PairRows(rep, |rep|)));
    TablesRead(source, names, species, g, F, f, rep);
  }

  /** A single species with empty tables is written as six lines, and the reader, which
      counts the fields of line 6 to find the species' header line, stops with IndexError. */
  lemma SingleSpeciesWithoutValues(source: Text, names: seq<Text>, species: seq<Species>, g: Grid,
                                   F: seq<seq<real>>, f: seq<seq<real>>, rep: seq<seq<seq<real>>>)
    requires Writable(source, names, species, g, F, f, rep)
    requires |names| == 1 && g.nrho == 0 && g.nr == 0
    ensures AlloyRead(Render(AlloyLayout(source, names, species, g, F, f, rep))) == Err(IndexError)
  {
    var ls := AlloyLayout(source, names, species, g, F, f, rep);
    AlloyLayoutLines(source, names, species, g, F, f, rep);
    SixLines(source, names, species, g, F, f, rep);
    HeaderRoundTrip(ls, source, names, g);
    ShortFileFails(ls, Header(SourceRead(source), names, g));
  }

  lemma SixLines(source: Text, names: seq<Text>, species: seq<Species>, g: Grid,
                 F: seq<seq<real>>, f: seq<seq<real>>, rep: seq<seq<seq<real>>>)
    requires Writable(source, names, species, g, F, f, rep)
    requires |names| == 1 && g.nrho == 0 && g.nr == 0
    ensures var ls := AlloyLayout(source, names, species, g, F, f, rep);
            |ls| == 6 && ls[..5] == TitleLines(source) + [CountLine(names), GridLine(g)]
  {
    LayoutSections(source, names, species, g, F, f, rep);
    var blocks := SpeciesBlocks(1, species, F, f);
    assert blocks[0] == [SpeciesLine(species[0], Tab)] + ValueLines(F[0]) + ValueLines(f[0]);
    assert Flatten(blocks) == blocks[0] + Flatten(blocks[1..]);
    assert PairRows(rep, 1) == PairRows(rep, 0) + rep[0][..1];
    assert Flatten(PairRows(rep, 1)) == rep[0][0] + Flatten([]);
  }

  /** A six-line file with one species: line 6 does not exist. */
  lemma ShortFileFails(ls: seq<Text>, h: Header)
    requires |ls| == 6 && ReadHeader(ls) == Ok(h) && |h.names| == 1
    ensures AlloyReadLines(ls) == Err(IndexError)
  {
    assert ReadSpecies(ls, h.grid, 0) == Ok([]);
    assert HeaderRow(ls, h.grid, 0) == Err(IndexError);
  }
}
