/** The Python and numpy semantics that the EAM readers and the mixer rely on:
    the exceptions they raise, slicing, indexing, int() of a float, slice assignment
    with broadcasting, and numpy.linspace. */
module PyNum {

  /** The exception a call ends with. ResampleError stands for whatever the spline
      library raises when it cannot build or evaluate a spline. */
  datatype PyError = IndexError | ValueError | ZeroDivisionError | ResampleError

  datatype Result<T> = Ok(value: T) | Err(error: PyError) {
    predicate IsFailure() {
      Err?
    }

    function PropagateFailure<U>(): Result<U>
      requires Err?
    {
      Err(error)
    }

    function Extract(): T
      requires Ok?
    {
      value
    }
  }

  /** Python's clamping of one slice bound against a sequence of length n
      (a negative bound counts from the end). */
  function SliceBound(i: int, n: nat): (b: nat)
    ensures b <= n
    ensures 0 <= i <= n ==> b == i
    ensures i > n ==> b == n
  {
    if i < 0 then (if n + i < 0 then 0 else n + i) else if i > n then n else i
  }

  /** `s[a:b]`: never raises; bounds past the end are clamped, an empty range gives []. */
  function PySlice<T>(s: seq<T>, a: int, b: int): seq<T> {
    var lo := SliceBound(a, |s|);
    var hi := SliceBound(b, |s|);
    if lo <= hi then s[lo..hi] else []
  }

  /** A slice with non-negative bounds is the part of [a, b) that lies inside s. */
  lemma PySliceNonNegative<T>(s: seq<T>, a: int, b: int)
    requires 0 <= a <= b
    ensures |PySlice(s, a, b)| == (if b <= |s| then b - a else if a <= |s| then |s| - a else 0)
    ensures forall k :: 0 <= k < |PySlice(s, a, b)| ==> PySlice(s, a, b)[k] == s[a + k]
  {
  }

  /** A prefix one longer is the shorter prefix and the next element. */
  lemma PrefixSnoc<T>(s: seq<T>, n: nat)
    requires 0 < n <= |s|
    ensures s[..n - 1] + [s[n - 1]] == s[..n]
  {
  }

  /** `s[i]` for a list of length n: the position read, or None for IndexError. */
  function PyIndex(i: int, n: nat): (r: Option<nat>)
    // the ensures below is a proof aid for callers, not a claim about the source
    ensures r.Some? <==> 0 - n <= i < n
    ensures r.Some? ==> r.value < n && (r.value == i || r.value == n + i)
  {
    if 0 <= i < n then Some(i) else if 0 - n <= i < 0 then Some(n + i) else None
  }

  datatype Option<T> = None | Some(value: T)

  /** `int(x)` for a float x: truncation toward zero. */
  function Trunc(x: real): (r: int)
    ensures x >= 0.0 ==> r as real <= x < r as real + 1.0
    ensures x < 0.0 ==> r as real - 1.0 < x <= r as real
  {
    if x >= 0.0 then x.Floor else -((-x).Floor)
  }

  /** `target[...] = src` for a one-dimensional target of length n: numpy copies src when
      the lengths agree, repeats a single value, and otherwise raises ValueError. */
  function Broadcast(n: nat, src: seq<real>): (r: Result<seq<real>>)
    // the ensures below is a proof aid for callers, not a claim about the source
    ensures r.Ok? <==> |src| == n || |src| == 1
    ensures r.Ok? ==> |r.value| == n
    ensures r.Ok? && |src| == n ==> r.value == src
    ensures r.Ok? ==> forall k :: 0 <= k < n ==> r.value[k] == (if |src| == n then src[k] else src[0])
  {
    if |src| == n then Ok(src)
    else if |src| == 1 then Ok(seq(n, _ => src[0]))
    else Err(ValueError)
  }

  /** Python's index wraps around once: `s[i]` reads position i mod n, for exactly the
      indices -n <= i < n. */
  lemma PyIndexWraps(i: int, n: nat)
    ensures PyIndex(i, n).Some? <==> 0 - n <= i < n
    ensures PyIndex(i, n).Some? ==> PyIndex(i, n).value == i % n
  {
    if 0 - n <= i < 0 {
      assert (i + n) % n == i % n;
    }
  }

  /** Broadcasting repeats the source along the row: position k of the row gets
      src[k mod |src|]. */
  lemma BroadcastRepeats(n: nat, src: seq<real>)
    ensures Broadcast(n, src).Ok? ==> forall k :: 0 <= k < n ==> Broadcast(n, src).value[k] == src[k % |src|]
  {
    if Broadcast(n, src).Ok? {
      forall k | 0 <= k < n
        ensures Broadcast(n, src).value[k] == src[k % |src|]
      {
        if |src| == 1 {
          assert k % 1 == 0;
        }
      }
    }
  }

  /** `numpy.linspace(0, stop, num)`: num evenly spaced points from 0 to stop inclusive. */
  function Linspace(stop: real, num: int): (r: Result<seq<real>>)
    ensures r.Ok? <==> num >= 0
    ensures r.Ok? ==> |r.value| == num
    ensures r.Ok? && num > 0 ==> r.value[0] == 0.0
    ensures r.Ok? && num > 1 ==> r.value[num - 1] == stop
  {
    if num < 0 then Err(ValueError)
    else if num == 1 then Ok([0.0])
    else Ok(seq(num, k => stop * (k as real) / ((num - 1) as real)))
  }
}
