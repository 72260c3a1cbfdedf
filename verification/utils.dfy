/**
 `diff_position(a, b)`: the index of the first byte at which two buffers
 diverge, the length of the shorter one when one is a proper prefix of the
 other, or `-1` when they are identical.
 */
module Utils {
  import opened Bytes

  /** The "no divergence" result. */
  const Identical: int := -1

  /** Reference definition: `r` is the first divergence of `a` and `b`.
      Either the buffers are equal and `r` is the sentinel, or every index
      below `r` holds equal bytes in both and `r` is where they first differ —
      a differing byte inside the common length, or the end of the shorter
      buffer when the lengths differ. */
  predicate IsFirstDivergence(a: seq<byte>, b: seq<byte>, r: int) {
    if r == Identical then a == b
    else
      && 0 <= r <= Min(|a|, |b|)
      && a[..r] == b[..r]
      && ((r < Min(|a|, |b|) && a[r] != b[r]) || (r == Min(|a|, |b|) && |a| != |b|))
  }

  /** Outcome of the `for` loop of `diff_position`: it returned early at a
      mismatch, or it ran through every index of `a`. */
  datatype Scan = Mismatch(at: nat) | Exhausted

  /** The loop `for (i = from; i < a.byteLength; i++) if (a[i] !== b[i]) return i;`
      with `b[i]` read as JavaScript does, so an index past the end of `b`
      counts as a mismatch. */
  function ScanFrom(a: seq<byte>, b: seq<byte>, from: nat): (s: Scan)
    requires from <= |a|
    ensures s.Mismatch? ==> from <= s.at < |a| && Index(a, s.at) != Index(b, s.at)
    ensures s.Mismatch? ==> forall j :: from <= j < s.at ==> Index(a, j) == Index(b, j)
    ensures s.Exhausted? ==> forall j :: from <= j < |a| ==> Index(a, j) == Index(b, j)
    decreases |a| - from
  {
    if from == |a| then Exhausted
    else if Index(a, from) != Index(b, from) then Mismatch(from)
    else ScanFrom(a, b, from + 1)
  }

  /** The length comparisons after the loop: which buffer ran out first, or
      the sentinel when the lengths match. */
  function Fallback(a: seq<byte>, b: seq<byte>): (r: int)
    ensures r == Identical <==> |a| == |b|
    ensures r != Identical ==> r == Min(|a|, |b|)
  {
    if |a| > |b| then |b|
    else if |a| < |b| then |a|
    else Identical
  }

  /** `diff_position` as written: the loop from index 0, then the fallback. */
  function DiffPosition(a: seq<byte>, b: seq<byte>): (r: int)
    ensures IsFirstDivergence(a, b, r)
    ensures r == Identical <==> a == b
    ensures Identical <= r <= Min(|a|, |b|)
  {
    match ScanFrom(a, b, 0)
    case Mismatch(i) =>
      assert a[..i] == b[..i] by { PrefixFromAgreement(a, b, i); }
      i
    case Exhausted =>
      ExhaustedMeansPrefix(a, b);
      PrefixFromAgreement(a, b, |a|);
      Fallback(a, b)
  }

  /** Agreement of the JavaScript reads below `n` means the two buffers share
      a prefix of length `n`. */
  lemma PrefixFromAgreement(a: seq<byte>, b: seq<byte>, n: nat)
    requires n <= |a|
    requires forall j :: 0 <= j < n ==> Index(a, j) == Index(b, j)
    ensures n <= |b|
    ensures a[..n] == b[..n]
  {
    if n > 0 {
      assert Index(a, n - 1) == Index(b, n - 1);
    }
    forall j | 0 <= j < n
      ensures a[j] == b[j]
    {
      assert Index(a, j) == Index(b, j);
    }
  }

  /** A loop that runs through all of `a` found `a` to be a prefix of `b`. */
  lemma ExhaustedMeansPrefix(a: seq<byte>, b: seq<byte>)
    ensures ScanFrom(a, b, 0).Exhausted? <==> |a| <= |b| && a == b[..|a|]
  {
    if ScanFrom(a, b, 0).Exhausted? {
      PrefixFromAgreement(a, b, |a|);
    } else {
      var i := ScanFrom(a, b, 0).at;
      if |a| <= |b| {
        assert b[..|a|][i] == b[i];
      }
    }
  }

  /** At most one index is the first divergence of a pair of buffers, so the
      reference definition determines `diff_position` completely. */
  lemma FirstDivergenceUnique(a: seq<byte>, b: seq<byte>, r1: int, r2: int)
    requires IsFirstDivergence(a, b, r1)
    requires IsFirstDivergence(a, b, r2)
    ensures r1 == r2
  {
    if r1 != Identical && r2 != Identical {
      var hi := if r1 < r2 then r2 else r1;
      forall k | 0 <= k < hi
        ensures a[k] == b[k]
      {
        assert a[..hi][k] == b[..hi][k];
      }
    }
  }

  /** The `diff_position` function body, step by step: the `for` loop of
      utils.ts lines 2-6 and the length checks of lines 8-16. `a` is only read
      below its length; `b` is read through JavaScript's total indexing. */
  method ComputeDiffPosition(a: seq<byte>, b: seq<byte>) returns (r: int)
    ensures IsFirstDivergence(a, b, r)
    ensures r == DiffPosition(a, b)
  {
    var i := 0;
    while i < |a|
      invariant 0 <= i <= |a|
      invariant i <= |b|
      invariant a[..i] == b[..i]
    {
      if Byte(a[i]) != Index(b, i) {
        r := i;
        FirstDivergenceUnique(a, b, r, DiffPosition(a, b));
        return;
      }
      assert a[..i + 1] == a[..i] + [a[i]];
      assert b[..i + 1] == b[..i] + [b[i]];
      i := i + 1;
    }
    assert a == b[..|a|] by { assert a == a[..i]; }
    if |a| > |b| {
      r := |b|;
    } else if |a| < |b| {
      r := |a|;
    } else {
      r := Identical;
    }
    FirstDivergenceUnique(a, b, r, DiffPosition(a, b));
  }
}
