/** Flat layouts: concatenating equal-sized blocks, and the order in which an eam/alloy
    file stores the pair functions (the lower triangle of the species-by-species table,
    diagonal included, row by row). */
module Triangle {

  /** The blocks of xss one after the other. */
  function Flatten<T>(xss: seq<seq<T>>): seq<T> {
    if xss == [] then [] else xss[0] + Flatten(xss[1..])
  }

  lemma {:induction false} FlattenAppend<T>(a: seq<seq<T>>, b: seq<seq<T>>)
    ensures Flatten(a + b) == Flatten(a) + Flatten(b)
    decreases |a|
  {
    if a == [] {
      assert a + b == b;
    } else {
      assert (a + b)[1..] == a[1..] + b;
      FlattenAppend(a[1..], b);
    }
  }

  /** Blocks of m elements each: block n sits at [n*m, n*m + m) of the flat sequence. */
  lemma {:induction false} FlattenUniform<T>(xss: seq<seq<T>>, m: nat, n: nat)
    requires forall k :: 0 <= k < |xss| ==> |xss[k]| == m
    requires n < |xss|
    ensures |Flatten(xss)| == |xss| * m
    ensures 0 <= n * m && n * m + m <= |Flatten(xss)| && Flatten(xss)[n * m..n * m + m] == xss[n]
    decreases n
  {
    FlattenLength(xss, m);
    if n > 0 {
      FlattenUniform(xss[1..], m, n - 1);
      assert n * m == m + (n - 1) * m;
      var rest := Flatten(xss[1..]);
      assert Flatten(xss) == xss[0] + rest;
      assert Flatten(xss)[n * m..n * m + m] == rest[(n - 1) * m..(n - 1) * m + m];
    } else {
      assert Flatten(xss) == xss[0] + Flatten(xss[1..]);
    }
  }

  lemma {:induction false} FlattenLength<T>(xss: seq<seq<T>>, m: nat)
    requires forall k :: 0 <= k < |xss| ==> |xss[k]| == m
    ensures |Flatten(xss)| == |xss| * m
    decreases |xss|
  {
    if xss != [] {
      FlattenLength(xss[1..], m);
      assert |xss| * m == m + (|xss| - 1) * m;
    }
  }

  // ---------------------------------------------------------------- pair order

  /** The number of pairs (i, j) with j <= i < n: n*(n+1)/2. */
  function Tri(n: nat): nat {
    if n == 0 then 0 else Tri(n - 1) + n
  }

  lemma {:induction false} TriClosed(n: nat)
    ensures Tri(n) == n * (n + 1) / 2
    decreases n
  {
    if n > 0 {
      TriClosed(n - 1);
      assert n * (n + 1) == (n - 1) * n + 2 * n;
    }
  }

  lemma {:induction false} TriMonotone(a: nat, b: nat)
    requires a <= b
    ensures Tri(a) <= Tri(b)
    decreases b
  {
    if a < b {
      TriMonotone(a, b - 1);
    }
  }

  /** (i, 0), (i, 1), ..., (i, m - 1) */
  function RowKeys(i: nat, m: nat): (r: seq<(nat, nat)>)
    ensures |r| == m && forall j :: 0 <= j < m ==> r[j] == (i, j)
  {
    seq(m, j requires 0 <= j < m => (i, j))
  }

  /** The pairs of an n-species table in file order: row i holds (i, 0), ..., (i, i). */
  function PairKeys(n: nat): (r: seq<(nat, nat)>)
    ensures |r| == Tri(n)
  {
    if n == 0 then [] else PairKeys(n - 1) + RowKeys(n - 1, n)
  }

  /** The pairs (i, j) with j <= i < n. */
  function LowerKeys(n: nat): (r: set<(nat, nat)>)
    ensures forall i: nat, j: nat :: (i, j) in r <==> j <= i < n
  {
    set i: nat, j: nat | j <= i < n :: (i, j)
  }

  /** Pair (i, j) is stored at position Tri(i) + j = i*(i+1)/2 + j of the pair order. */
  lemma {:induction false} PairKeysAt(n: nat, i: nat, j: nat)
    requires j <= i < n
    ensures Tri(i) + j < Tri(n) && PairKeys(n)[Tri(i) + j] == (i, j)
    decreases n
  {
    if i < n - 1 {
      PairKeysAt(n - 1, i, j);
    } else {
      assert PairKeys(n)[Tri(i) + j] == RowKeys(n - 1, n)[j];
    }
  }

  /** Every position of the pair order holds a lower-triangle pair, and it is the position
      that PairKeysAt gives for that pair: the order lists each pair exactly once. */
  lemma {:induction false} PairKeysIn(n: nat, k: nat)
    requires k < Tri(n)
    ensures PairKeys(n)[k] in LowerKeys(n)
    ensures k == Tri(PairKeys(n)[k].0) + PairKeys(n)[k].1
    decreases n
  {
    if k < Tri(n - 1) {
      PairKeysIn(n - 1, k);
    } else {
      assert PairKeys(n)[k] == RowKeys(n - 1, n)[k - Tri(n - 1)];
    }
  }

  /** Two lower-triangle pairs at the same position are the same pair. */
  lemma PairIndexInjective(n: nat, i: nat, j: nat, i': nat, j': nat)
    requires j <= i < n && j' <= i' < n
    requires Tri(i) + j == Tri(i') + j'
    ensures i == i' && j == j'
  {
    PairKeysAt(n, i, j);
    PairKeysAt(n, i', j');
  }

  /** `rep_list = [0,2,5,9,14]` in mix_eam_alloy: entry i is Tri(i) + i, the position of the
      diagonal pair (i, i) in the pair order. */
  lemma RepListIsDiagonal(i: nat)
    requires i < 5
    ensures [0, 2, 5, 9, 14][i] == Tri(i) + i && PairKeys(i + 1)[Tri(i) + i] == (i, i)
  {
    PairKeysAt(i + 1, i, i);
  }
}
