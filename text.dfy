/** The text of an EAM potential file as the readers and writers of matscipy/eam/io.py see it.

    A file is a sequence of pieces: ordinary characters, and floating-point literals.
    A floating-point literal (what `%e`, `%f` or `%.16e` writes, and what `float()` or
    numpy reads back) is kept as ONE opaque piece carrying its value, so that formatting
    and parsing a float are inverse by construction and no digit precision is modelled.
    Integers (`%i`, `int()`) are ordinary decimal digit characters. */
module FileText {

  import opened PyNum

  datatype Piece = Ch(c: char) | Val(x: real)

  type Text = seq<Piece>

  /** The characters Python's str.split() and str.strip() treat as whitespace. */
  predicate IsSpace(p: Piece) {
    p.Ch? && p.c in {' ', '\t', '\n', '\r', '\U{B}', '\U{C}', '\U{1C}', '\U{1D}', '\U{1E}', '\U{1F}',
                     '\U{85}', '\U{A0}', '\U{1680}', '\U{2000}', '\U{2001}', '\U{2002}', '\U{2003}',
                     '\U{2004}', '\U{2005}', '\U{2006}', '\U{2007}', '\U{2008}', '\U{2009}', '\U{200A}',
                     '\U{2028}', '\U{2029}', '\U{202F}', '\U{205F}', '\U{3000}'}
  }

  /** The characters at which a file opened in text mode ends a line (universal newlines). */
  predicate IsBreak(p: Piece) {
    p == Ch('\n') || p == Ch('\r')
  }

  /** A non-empty run of non-whitespace pieces: what str.split() returns as one field. */
  predicate Word(w: Text) {
    |w| > 0 && forall k :: 0 <= k < |w| ==> !IsSpace(w[k])
  }

  /** Text that holds no line break, so that it stays on one line of a file. */
  predicate SingleLine(t: Text) {
    forall k :: 0 <= k < |t| ==> !IsBreak(t[k])
  }

  /** The pieces of a string literal. */
  function Chars(s: string): (t: Text)
    ensures |t| == |s| && forall k :: 0 <= k < |s| ==> t[k] == Ch(s[k])
  {
    seq(|s|, k requires 0 <= k < |s| => Ch(s[k]))
  }

  // ---------------------------------------------------------------- strip / split

  /** str.lstrip() */
  function LStrip(t: Text): Text {
    if t != [] && IsSpace(t[0]) then LStrip(t[1..]) else t
  }

  /** str.rstrip() */
  function RStrip(t: Text): Text {
    if t != [] && IsSpace(t[|t| - 1]) then RStrip(t[..|t| - 1]) else t
  }

  /** str.strip() */
  function Strip(t: Text): Text {
    RStrip(LStrip(t))
  }

  /** Length of the leading run of non-whitespace pieces. */
  function WordLen(t: Text): (n: nat)
    ensures n <= |t|
    ensures forall k :: 0 <= k < n ==> !IsSpace(t[k])
    ensures n < |t| ==> IsSpace(t[n])
  {
    if t == [] || IsSpace(t[0]) then 0 else 1 + WordLen(t[1..])
  }

  /** str.split() without arguments: the maximal runs of non-whitespace pieces. */
  function Split(t: Text): (ws: seq<Text>)
    decreases |t|
  {
    if t == [] then []
    else if IsSpace(t[0]) then Split(t[1..])
    else
      var n := WordLen(t);
      [t[..n]] + Split(t[n..])
  }

  /** `sep.join(ws)` */
  function Join(ws: seq<Text>, sep: Piece): Text {
    if |ws| <= 1 then (if ws == [] then [] else ws[0])
    else ws[0] + [sep] + Join(ws[1..], sep)
  }

  /** Each word followed by `sep`, as a loop of `write(w + sep)` calls produces it. */
  function Terminated(ws: seq<Text>, sep: Piece): Text {
    if ws == [] then [] else Terminated(ws[..|ws| - 1], sep) + ws[|ws| - 1] + [sep]
  }

  lemma {:induction false} WordLenOfWord(w: Text, b: Text)
    requires forall k :: 0 <= k < |w| ==> !IsSpace(w[k])
    requires b == [] || IsSpace(b[0])
    ensures WordLen(w + b) == |w|
    decreases |w|
  {
    if w != [] {
      assert (w + b)[1..] == w[1..] + b;
      WordLenOfWord(w[1..], b);
    } else {
      assert w + b == b;
    }
  }

  /** Splitting text that ends in whitespace never glues its last field to what follows. */
  lemma {:induction false} SplitAppend(a: Text, b: Text)
    requires a == [] || IsSpace(a[|a| - 1])
    ensures Split(a + b) == Split(a) + Split(b)
    decreases |a|
  {
    if a == [] {
      assert a + b == b;
    } else if IsSpace(a[0]) {
      assert (a + b)[1..] == a[1..] + b;
      SplitAppend(a[1..], b);
    } else {
      var n := WordLen(a);
      assert n < |a|;
      WordLenOfWord(a[..n], a[n..] + b);
      assert a[..n] + (a[n..] + b) == a + b;
      assert (a + b)[..n] == a[..n];
      assert (a + b)[n..] == a[n..] + b;
      SplitAppend(a[n..], b);
    }
  }

  /** A word followed by whitespace or by nothing is one field. */
  lemma {:induction false} SplitWord(w: Text, b: Text)
    requires Word(w)
    requires b == [] || IsSpace(b[0])
    ensures Split(w + b) == [w] + Split(b)
  {
    WordLenOfWord(w, b);
    assert (w + b)[..|w|] == w;
    assert (w + b)[|w|..] == b;
  }

  lemma {:induction false} SplitSpaces(t: Text)
    requires forall k :: 0 <= k < |t| ==> IsSpace(t[k])
    ensures Split(t) == []
    decreases |t|
  {
    if t != [] {
      SplitSpaces(t[1..]);
    }
  }

  /** Joining words with a whitespace separator and splitting again gives the words back. */
  lemma {:induction false} SplitJoin(ws: seq<Text>, sep: Piece)
    requires forall k :: 0 <= k < |ws| ==> Word(ws[k])
    requires IsSpace(sep)
    ensures Split(Join(ws, sep)) == ws
    decreases |ws|
  {
    if |ws| == 1 {
      SplitWord(ws[0], []);
      assert ws[0] + [] == ws[0];
    } else if |ws| > 1 {
      var rest := Join(ws[1..], sep);
      assert Join(ws, sep) == (ws[0] + [sep]) + rest;
      SplitAppend(ws[0] + [sep], rest);
      SplitWord(ws[0], [sep]);
      SplitSpaces([sep]);
      assert Split([sep]) == [];
      SplitJoin(ws[1..], sep);
    }
  }

  /** Words each followed by a whitespace separator split back into the words. */
  lemma {:induction false} SplitTerminated(ws: seq<Text>, sep: Piece)
    requires forall k :: 0 <= k < |ws| ==> Word(ws[k])
    requires IsSpace(sep)
    ensures Split(Terminated(ws, sep)) == ws
    decreases |ws|
  {
    if ws != [] {
      var front := ws[..|ws| - 1];
      var w := ws[|ws| - 1];
      SplitTerminated(front, sep);
      var a := Terminated(front, sep);
      assert Terminated(ws, sep) == a + (w + [sep]);
      SplitAppend(a, w + [sep]);
      SplitWord(w, [sep]);
      SplitSpaces([sep]);
      assert front + [w] == ws;
    }
  }

  /** A trailing whitespace piece is removed by str.rstrip(). */
  lemma {:induction false} RStripSpaceEnd(t: Text, p: Piece)
    requires IsSpace(p)
    ensures RStrip(t + [p]) == RStrip(t)
  {
    assert (t + [p])[..|t + [p]| - 1] == t;
  }

  lemma {:induction false} StripFromNonSpace(t: Text)
    requires t != [] && !IsSpace(t[0])
    ensures Strip(t) == RStrip(t)
    ensures RStrip(t) != [] && RStrip(t)[0] == t[0]
    decreases |t|
  {
    if |t| > 1 && IsSpace(t[|t| - 1]) {
      StripFromNonSpace(t[..|t| - 1]);
    }
  }

  /** A whitespace piece at the end of a text adds no field. */
  lemma {:induction false} SplitSpaceEnd(a: Text, p: Piece)
    requires IsSpace(p)
    ensures Split(a + [p]) == Split(a)
    decreases |a|
  {
    if a == [] {
      assert Split([p][1..]) == [];
    } else if IsSpace(a[0]) {
      assert (a + [p])[1..] == a[1..] + [p];
      SplitSpaceEnd(a[1..], p);
    } else {
      var n := WordLen(a);
      if n < |a| {
        WordLenOfWord(a[..n], a[n..] + [p]);
        WordLenOfWord(a[..n], a[n..]);
        assert a[..n] + (a[n..] + [p]) == a + [p];
        assert a[..n] + a[n..] == a;
        assert (a + [p])[..n] == a[..n];
        assert (a + [p])[n..] == a[n..] + [p];
        SplitSpaceEnd(a[n..], p);
      } else {
        WordLenOfWord(a, [p]);
        assert (a + [p])[..n] == a;
        assert (a + [p])[n..] == [p];
        assert Split([p][1..]) == [];
        assert a[..n] == a && a[n..] == [];
      }
    }
  }

  /** Stripping a line first does not change its fields. */
  lemma {:induction false} SplitStrip(t: Text)
    ensures Split(Strip(t)) == Split(t)
  {
    SplitRStrip(LStrip(t));
    SplitLStrip(t);
  }

  lemma {:induction false} SplitLStrip(t: Text)
    ensures Split(LStrip(t)) == Split(t)
    decreases |t|
  {
    if t != [] && IsSpace(t[0]) {
      SplitLStrip(t[1..]);
    }
  }

  lemma {:induction false} SplitRStrip(t: Text)
    ensures Split(RStrip(t)) == Split(t)
    decreases |t|
  {
    if t != [] && IsSpace(t[|t| - 1]) {
      var front := t[..|t| - 1];
      SplitRStrip(front);
      SplitSpaceEnd(front, t[|t| - 1]);
      assert front + [t[|t| - 1]] == t;
    }
  }

  /** str.rstrip() never removes anything before a non-whitespace piece. */
  lemma {:induction false} RStripAfterNonSpace(a: Text, b: Text)
    requires a != [] && !IsSpace(a[|a| - 1])
    ensures RStrip(a + b) == a + RStrip(b)
    decreases |b|
  {
    if b == [] {
      assert a + b == a;
    } else if IsSpace(b[|b| - 1]) {
      assert (a + b)[..|a + b| - 1] == a + b[..|b| - 1];
      RStripAfterNonSpace(a, b[..|b| - 1]);
    } else {
      assert (a + b)[|a + b| - 1] == b[|b| - 1];
    }
  }

  // ---------------------------------------------------------------- lines

  /** Length of the first line, up to (not including) its line break. */
  function LineLen(t: Text): (n: nat)
    ensures n <= |t|
    ensures forall k :: 0 <= k < n ==> !IsBreak(t[k])
    ensures n < |t| ==> IsBreak(t[n])
  {
    if t == [] || IsBreak(t[0]) then 0 else 1 + LineLen(t[1..])
  }

  /** file.readlines() in text mode, with the line breaks dropped:
      a line ends at "\n", "\r" or "\r\n"; a last line without a break still counts. */
  function Lines(t: Text): seq<Text>
    decreases |t|
  {
    if t == [] then []
    else
      var n := LineLen(t);
      if n == |t| then [t]
      else
        var skip := if t[n] == Ch('\r') && n + 1 < |t| && t[n + 1] == Ch('\n') then 2 else 1;
        [t[..n]] + Lines(t[n + skip..])
  }

  /** The text of a file whose lines are written each followed by "\n". */
  function Render(ls: seq<Text>): Text {
    if ls == [] then [] else ls[0] + [Ch('\n')] + Render(ls[1..])
  }

  lemma {:induction false} RenderAppend(a: seq<Text>, b: seq<Text>)
    ensures Render(a + b) == Render(a) + Render(b)
    decreases |a|
  {
    if a == [] {
      assert a + b == b;
    } else {
      assert (a + b)[1..] == a[1..] + b;
      RenderAppend(a[1..], b);
    }
  }

  lemma {:induction false} LineLenOfLine(l: Text, b: Text)
    requires SingleLine(l)
    requires b != [] && IsBreak(b[0])
    ensures LineLen(l + b) == |l|
    decreases |l|
  {
    if l != [] {
      assert (l + b)[1..] == l[1..] + b;
      LineLenOfLine(l[1..], b);
    } else {
      assert l + b == b;
    }
  }

  /** Reading back the lines of a rendered file gives the lines that were written. */
  lemma {:induction false} LinesRender(ls: seq<Text>)
    requires forall k :: 0 <= k < |ls| ==> SingleLine(ls[k])
    ensures Lines(Render(ls)) == ls
    decreases |ls|
  {
    if ls != [] {
      var l := ls[0];
      var rest := Render(ls[1..]);
      var t := Render(ls);
      assert t == l + ([Ch('\n')] + rest);
      LineLenOfLine(l, [Ch('\n')] + rest);
      assert t[..|l|] == l;
      assert t[|l| + 1..] == rest;
      LinesRender(ls[1..]);
    }
  }

  // ---------------------------------------------------------------- numbers

  predicate IsDigit(p: Piece) {
    p.Ch? && '0' <= p.c <= '9'
  }

  predicate IsDigits(t: Text) {
    |t| > 0 && forall k :: 0 <= k < |t| ==> IsDigit(t[k])
  }

  function DigitPiece(d: nat): (p: Piece)
    requires d < 10
    ensures IsDigit(p)
  {
    Ch((48 + d) as char)
  }

  function DigitValue(p: Piece): nat
    requires IsDigit(p)
  {
    p.c as int - 48
  }

  /** Decimal digits of a natural number, without leading zeros. */
  function Digits(n: nat): Text {
    if n < 10 then [DigitPiece(n)] else Digits(n / 10) + [DigitPiece(n % 10)]
  }

  function DigitsValue(t: Text): nat
    requires forall k :: 0 <= k < |t| ==> IsDigit(t[k])
  {
    if t == [] then 0 else DigitsValue(t[..|t| - 1]) * 10 + DigitValue(t[|t| - 1])
  }

  /** `'%i' % n` */
  function FormatInt(n: int): Text {
    if n < 0 then [Ch('-')] + Digits(-n) else Digits(n)
  }

  /** `int(t)` on a field: an optional sign and decimal digits; anything else raises. */
  function ParseInt(t: Text): Option<int> {
    if |t| > 0 && (t[0] == Ch('-') || t[0] == Ch('+')) && IsDigits(t[1..]) then
      Some(if t[0] == Ch('-') then 0 - DigitsValue(t[1..]) else DigitsValue(t[1..]) as int)
    else if IsDigits(t) then Some(DigitsValue(t))
    else None
  }

  /** `float(t)` on a field: a floating-point literal, or an integer literal. `nan` and
      `inf`, which `float()` also accepts, have no value here and are refused. */
  function ParseFloat(t: Text): Option<real> {
    if |t| == 1 && t[0].Val? then Some(t[0].x)
    else match ParseInt(t)
      case Some(n) => Some(n as real)
      case None => None
  }

  lemma {:induction false} DigitsRoundTrip(n: nat)
    ensures IsDigits(Digits(n))
    ensures DigitsValue(Digits(n)) == n
    decreases n
  {
    if n >= 10 {
      DigitsRoundTrip(n / 10);
      var d := Digits(n);
      assert d[..|d| - 1] == Digits(n / 10);
    }
  }

  /** Writing an integer with `%i` and reading it with `int()` gives it back, and the
      written form is a single whitespace-free field. */
  lemma {:induction false} FormatIntRoundTrip(n: int)
    ensures ParseInt(FormatInt(n)) == Some(n)
    ensures ParseFloat(FormatInt(n)) == Some(n as real)
    ensures Word(FormatInt(n)) && SingleLine(FormatInt(n))
  {
    if n < 0 {
      DigitsRoundTrip(-n);
      assert FormatInt(n)[1..] == Digits(-n);
    } else {
      DigitsRoundTrip(n);
    }
  }
}
