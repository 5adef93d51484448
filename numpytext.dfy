/** How numpy reads numbers out of a text file: the stream that `numpy.fromfile(f, sep=' ')`
    scans after `f.readline()` calls, and the table that `numpy.loadtxt` builds. */
module NumpyText {

  import opened PyNum
  import opened FileText

  /** The file from some line on, as a stream: the fields of each line, then its end. */
  datatype Item = Tok(t: Text) | Eol

  function TokItems(ws: seq<Text>): (r: seq<Item>)
    ensures |r| == |ws| && forall k :: 0 <= k < |ws| ==> r[k] == Tok(ws[k])
  {
    seq(|ws|, k requires 0 <= k < |ws| => Tok(ws[k]))
  }

  function Items(ls: seq<Text>): seq<Item> {
    if ls == [] then [] else TokItems(Split(ls[0])) + [Eol] + Items(ls[1..])
  }

  /** Whitespace (here: line ends) skipped before and after each number. */
  function SkipEol(s: seq<Item>): (r: seq<Item>)
    ensures |r| <= |s| && r == s[|s| - |r|..]
    ensures r == [] || r[0].Tok?
  {
    if s != [] && s[0].Eol? then SkipEol(s[1..]) else s
  }

  /** `f.readline()`: the rest of the current line is consumed, with its end. */
  function NextLine(s: seq<Item>): (r: seq<Item>)
    ensures |r| <= |s|
  {
    if s == [] then [] else if s[0].Eol? then s[1..] else NextLine(s[1..])
  }

  /** `numpy.fromfile(f, count=count, sep=' ')`: up to `count` numbers (all of them when
      count is negative), stopping early at the end of the file or before a field that
      `ParseFloat` does not read as a whole; whitespace after each number read is consumed.
      Returns the numbers and the rest of the stream. fromfile would also read the number
      at the start of such a field, and `nan`/`inf`; this model does neither. */
  function ReadNumbers(s: seq<Item>, count: int): (seq<real>, seq<Item>)
    decreases |s|
  {
    if count == 0 then ([], s)
    else
      var s1 := SkipEol(s);
      if s1 == [] then ([], [])
      else match ParseFloat(s1[0].t)
        case None => ([], s1)
        case Some(x) =>
          var next := ReadNumbers(SkipEol(s1[1..]), count - 1);
          ([x] + next.0, next.1)
  }

  lemma {:induction false} ItemsAppend(a: seq<Text>, b: seq<Text>)
    ensures Items(a + b) == Items(a) + Items(b)
    decreases |a|
  {
    if a == [] {
      assert a + b == b;
    } else {
      assert (a + b)[1..] == a[1..] + b;
      ItemsAppend(a[1..], b);
    }
  }

  lemma {:induction false} NextLineSkipsTokens(ts: seq<Item>, rest: seq<Item>)
    requires forall k :: 0 <= k < |ts| ==> ts[k].Tok?
    ensures NextLine(ts + [Eol] + rest) == rest
    decreases |ts|
  {
    if ts != [] {
      assert (ts + [Eol] + rest)[1..] == ts[1..] + [Eol] + rest;
      NextLineSkipsTokens(ts[1..], rest);
    }
  }

  /** `readline()` at the start of a line skips exactly that line. */
  lemma NextLineItems(l: Text, ls: seq<Text>)
    ensures NextLine(Items([l] + ls)) == Items(ls)
  {
    assert ([l] + ls)[1..] == ls;
    NextLineSkipsTokens(TokItems(Split(l)), Items(ls));
  }

  /** The stream of lines whose first line has a field starts with that field. */
  lemma SkipEolItems(ls: seq<Text>)
    requires ls == [] || Split(ls[0]) != []
    ensures SkipEol(Items(ls)) == Items(ls)
  {
  }

  /** The stream that one-value-per-line text turns into: each value, then a line end. */
  function ValueItems(xs: seq<real>): seq<Item> {
    if xs == [] then [] else [Tok([Val(xs[0])]), Eol] + ValueItems(xs[1..])
  }

  /** fromfile reads a one-value line and moves on to the next line. */
  lemma ReadNumbersStep(x: real, u: seq<Item>, count: int)
    requires count != 0
    requires SkipEol(u) == u
    ensures ReadNumbers([Tok([Val(x)]), Eol] + u, count).0 == [x] + ReadNumbers(u, count - 1).0
    ensures ReadNumbers([Tok([Val(x)]), Eol] + u, count).1 == ReadNumbers(u, count - 1).1
  {
    var s := [Tok([Val(x)]), Eol] + u;
    assert s[0] == Tok([Val(x)]);
    assert SkipEol(s) == s;
    assert ParseFloat([Val(x)]) == Some(x);
    assert s[1..] == [Eol] + u;
    assert SkipEol(s[1..]) == u by {
      assert ([Eol] + u)[1..] == u;
    }
  }

  lemma {:induction false} ReadValueItems(xs: seq<real>, t: seq<Item>, count: int)
    requires count == |xs| || (count < 0 && t == [])
    requires SkipEol(t) == t
    ensures ReadNumbers(ValueItems(xs) + t, count).0 == xs
    ensures ReadNumbers(ValueItems(xs) + t, count).1 == t
    decreases |xs|
  {
    if xs == [] {
      assert ValueItems(xs) + t == t;
    } else {
      var u := ValueItems(xs[1..]) + t;
      assert ValueItems(xs) + t == [Tok([Val(xs[0])]), Eol] + u;
      ValueItemsStart(xs[1..], t);
      ReadNumbersStep(xs[0], u, count);
      ReadValueItems(xs[1..], t, count - 1);
      assert [xs[0]] + xs[1..] == xs;
    }
  }

  lemma ValueItemsStart(xs: seq<real>, t: seq<Item>)
    requires SkipEol(t) == t
    ensures SkipEol(ValueItems(xs) + t) == ValueItems(xs) + t
  {
    if xs == [] {
      assert ValueItems(xs) + t == t;
    } else {
      assert (ValueItems(xs) + t)[0] == Tok([Val(xs[0])]);
    }
  }

  // ---------------------------------------------------------------- loadtxt

  /** A line up to (not including) its first '#': numpy.loadtxt's comment handling. */
  function Uncommented(l: Text): (r: Text)
    ensures |r| <= |l| && r == l[..|r|]
    ensures forall k :: 0 <= k < |r| ==> r[k] != Ch('#')
    ensures |r| < |l| ==> l[|r|] == Ch('#')
  {
    if l == [] || l[0] == Ch('#') then [] else [l[0]] + Uncommented(l[1..])
  }

  /** The rows numpy.loadtxt sees: the fields of each line, blank lines left out. */
  function Rows(ls: seq<Text>): seq<seq<Text>> {
    if ls == [] then []
    else
      var fields := Split(Uncommented(ls[0]));
      (if fields == [] then [] else [fields]) + Rows(ls[1..])
  }

  /** `float()` of every field, or None when one of them is not a number. */
  function ParseFields(ws: seq<Text>): Option<seq<real>> {
    if ws == [] then Some([])
    else match ParseFloat(ws[0])
      case None => None
      case Some(x) =>
        match ParseFields(ws[1..])
        case None => None
        case Some(xs) => Some([x] + xs)
  }

  function LoadRows(rows: seq<seq<Text>>, width: nat): Result<seq<real>> {
    if rows == [] then Ok([])
    else if |rows[0]| != width then Err(ValueError)
    else match ParseFields(rows[0])
      case None => Err(ValueError)
      case Some(xs) =>
        var rest :- LoadRows(rows[1..], width);
        Ok(xs + rest)
  }

  /** `numpy.loadtxt(lines, dtype="float").flatten()`: every row must have as many numbers
      as the first one; no rows at all gives an empty table. */
  function LoadTxt(ls: seq<Text>): Result<seq<real>> {
    var rows := Rows(ls);
    if rows == [] then Ok([]) else LoadRows(rows, |rows[0]|)
  }
}
