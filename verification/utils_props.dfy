/**
 Properties of `diff_position` that relate several calls, or a call to the
 reference definition of a first divergence.
 */
module UtilsProps {
  import opened Bytes
  import opened Utils

  /** `diff_position` returns `r` exactly when `r` is the first divergence:
      the reference definition and the code agree on every input. */
  lemma DiffPositionIsFirstDivergence(a: seq<byte>, b: seq<byte>, r: int)
    ensures DiffPosition(a, b) == r <==> IsFirstDivergence(a, b, r)
  {
    if IsFirstDivergence(a, b, r) {
      FirstDivergenceUnique(a, b, r, DiffPosition(a, b));
    }
  }

  /** The first divergence does not depend on the order of the arguments. */
  lemma FirstDivergenceSymmetric(a: seq<byte>, b: seq<byte>, r: int)
    requires IsFirstDivergence(a, b, r)
    ensures IsFirstDivergence(b, a, r)
  {
    assert Min(|a|, |b|) == Min(|b|, |a|);
  }

  /** Swapping the buffers never changes the result, even when their lengths
      differ: the length branch at lines 8-10 is never the one that answers. */
  lemma DiffPositionSymmetric(a: seq<byte>, b: seq<byte>)
    ensures DiffPosition(a, b) == DiffPosition(b, a)
  {
    FirstDivergenceSymmetric(a, b, DiffPosition(a, b));
    FirstDivergenceUnique(b, a, DiffPosition(a, b), DiffPosition(b, a));
  }

  /** The loop runs through all of `a` only when `a` is no longer than `b`,
      so the `a.byteLength > b.byteLength` check after it never succeeds. */
  lemma LongerBranchUnreachable(a: seq<byte>, b: seq<byte>)
    ensures ScanFrom(a, b, 0).Exhausted? ==> |a| <= |b|
  {
    ExhaustedMeansPrefix(a, b);
  }

  /** When `a` extends `b`, the loop itself returns `b.byteLength`: the read
      `b[b.byteLength]` is `undefined`, which differs from every byte. */
  lemma LongerPrefixStopsInLoop(a: seq<byte>, b: seq<byte>)
    requires |a| > |b| && b == a[..|b|]
    ensures ScanFrom(a, b, 0) == Mismatch(|b|)
    ensures DiffPosition(a, b) == |b|
  {
    assert a[..|b|] == b[..|b|];
    FirstDivergenceUnique(a, b, |b|, DiffPosition(a, b));
    ExhaustedMeansPrefix(a, b);
  }

  /** When `b` extends `a`, the loop runs out and the `a.byteLength <
      b.byteLength` check returns `a.byteLength`. */
  lemma ShorterPrefixReturnsLength(a: seq<byte>, b: seq<byte>)
    requires |a| < |b| && a == b[..|a|]
    ensures ScanFrom(a, b, 0).Exhausted?
    ensures DiffPosition(a, b) == |a|
  {
    ExhaustedMeansPrefix(a, b);
  }

  /** A byte mismatch inside the common length, with equal bytes before it,
      is what both argument orders report. */
  lemma MismatchInCommonLength(a: seq<byte>, b: seq<byte>, i: nat)
    requires i < |a| && i < |b|
    requires a[..i] == b[..i] && a[i] != b[i]
    ensures DiffPosition(a, b) == i
    ensures DiffPosition(b, a) == i
  {
    DiffPositionIsFirstDivergence(a, b, i);
    DiffPositionSymmetric(a, b);
  }

  /** The scenarios of utils.test.ts, and the empty-buffer cases. */
  lemma DiffPositionScenarios()
    ensures DiffPosition([1, 2, 3, 4, 5], [1, 2, 3, 4, 5]) == -1
    ensures DiffPosition([0, 2, 3, 4, 5], [1, 2, 3, 4, 5]) == 0
    ensures DiffPosition([1, 2, 0, 4, 5], [1, 2, 3, 4, 5]) == 2
    ensures DiffPosition([1, 2, 3, 4, 0], [1, 2, 3, 4, 5]) == 4
    ensures DiffPosition([1, 2, 3, 4, 5, 6], [1, 2, 3, 4, 5]) == 5
    ensures DiffPosition([1, 2, 3, 4], [1, 2, 3, 4, 5]) == 4
    ensures DiffPosition([], []) == -1
    ensures DiffPosition([], [9]) == 0
  {
    var full: seq<byte> := [1, 2, 3, 4, 5];
    MismatchInCommonLength([0, 2, 3, 4, 5], full, 0);
    MismatchInCommonLength([1, 2, 0, 4, 5], full, 2);
    MismatchInCommonLength([1, 2, 3, 4, 0], full, 4);
    LongerPrefixStopsInLoop([1, 2, 3, 4, 5, 6], full);
    ShorterPrefixReturnsLength([1, 2, 3, 4], full);
    ShorterPrefixReturnsLength([], [9]);
  }
}
