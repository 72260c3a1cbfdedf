# diff_position, modelled in Dafny

The repository is a test suite for the Yjs CRDT library. It has one piece of
logic of its own: `diff_position(a, b)` in `utils.ts`. The function takes two
`Uint8Array` buffers, typically two serialized document states. It returns the
index of the first byte where they differ. If one buffer is a proper prefix of
the other, it returns the length of the shorter one. If the two are identical,
it returns `-1`.

The model has three files:

- `bytes.dfy` (module `Bytes`): a `Uint8Array` is a `seq<byte>`, where `byte`
  is a newtype over `0..255`. `Index` models JavaScript's bracket read. That
  read is total. Out of range it gives `undefined`, modelled as the `Undefined`
  slot, and `undefined !== x` holds for every byte `x`.
- `utils.dfy` (module `Utils`): the reference definition
  `IsFirstDivergence`. The functional model `DiffPosition` is the scan
  `ScanFrom` (the `for` loop, lines 2-6) followed by `Fallback` (the length
  checks, lines 8-16). `ComputeDiffPosition` is an imperative method whose
  `while` loop follows the `for` loop step by step. Its loop invariants prove
  that it returns the first divergence and agrees with `DiffPosition`.
- `utils_props.dfy` (module `UtilsProps`): the properties that relate calls to
  each other or to the reference definition. These are symmetry, the dead
  branch, the two prefix cases and the scenarios from `utils.test.ts`.

The result is an `int`. A JavaScript `number` holds every length and index of a
real buffer exactly, so no wrap-around or rounding is modelled.

A note on the branch at `utils.ts:8-10`: a description of the algorithm can
make it look reachable, with `len(b)` returned after a full scan whenever `a`
is longer. Read that way, swapping the arguments might change the result. The
code behaves differently. When `a` extends `b`, the read `b[b.byteLength]` is
`undefined`, so the loop itself returns `b.byteLength`. The branch is never
taken, and the result does not depend on argument order. The model follows the
code: `LongerBranchUnreachable` and `DiffPositionSymmetric` prove both facts.

## Model

| member | source | states |
|---|---|---|
| Bytes.Index | utils.ts:3 | reading `s[i]` gives a byte exactly when `0 <= i < length`, and then it gives `s[i]`; otherwise it gives `undefined` |
| Bytes.IndexAgree | utils.ts:3 | two reads at the same index are equal exactly when both are past their buffer's end, or both are in range and hold the same byte; `undefined` never equals a byte |
| Utils.ScanFrom | utils.ts:2-6 | if the loop returns `i`, every earlier index read equal in both buffers and index `i` did not; if it finishes, every index of `a` read equal |
| Utils.Fallback | utils.ts:8-16 | after the loop: the sentinel exactly when the lengths are equal, otherwise the shorter length |
| Utils.DiffPosition | utils.ts:1-17 | the result is the first divergence of `a` and `b`; it is `-1` exactly when `a == b`; it lies in `-1 .. min(|a|, |b|)` |
| Utils.PrefixFromAgreement | utils.ts:2-6 | if every index below `n` read equal, then `b` has at least `n` bytes and `a[..n] == b[..n]` |
| Utils.ExhaustedMeansPrefix | utils.ts:2-6 | the loop runs through all of `a` exactly when `a` is a prefix of `b` |
| Utils.FirstDivergenceUnique | utils.ts:1-17 | a pair of buffers has at most one first divergence, so the reference definition fixes the result |
| Utils.ComputeDiffPosition | utils.ts:1-17 | the imperative scan reads `a` only below its length and terminates on every input, including empty buffers; it returns the first divergence, the same value as `DiffPosition` |
| UtilsProps.DiffPositionIsFirstDivergence | utils.ts:1-17 | `diff_position(a, b) == r` if and only if `r` is the first divergence of `a` and `b` |
| UtilsProps.FirstDivergenceSymmetric | utils.ts:3-4 | the first divergence of `a` and `b` is also the first divergence of `b` and `a` |
| UtilsProps.DiffPositionSymmetric | utils.ts:1-17 | `diff_position(a, b) == diff_position(b, a)` for all buffers |
| UtilsProps.LongerBranchUnreachable | utils.ts:2-10 | if the loop runs through all of `a`, then `a` is no longer than `b`, so the `a.byteLength > b.byteLength` branch is dead |
| UtilsProps.LongerPrefixStopsInLoop | utils.ts:2-10 | if `a` strictly extends `b`, the loop itself returns `b.byteLength`, and that is the result |
| UtilsProps.ShorterPrefixReturnsLength | utils.ts:12-14 | if `b` strictly extends `a`, the loop finishes and the result is `a.byteLength` |
| UtilsProps.MismatchInCommonLength | utils.ts:3-4 | a differing byte inside the common length, with equal bytes before it, is the result in both argument orders |
| UtilsProps.DiffPositionScenarios | utils.test.ts:5-34 | the six tested scenarios give -1, 0, 2, 4, 5 and 4; two empty buffers give -1; an empty and a one-byte buffer give 0 |

## Left out

- tests.test.ts: its tests exercise the Yjs library (`Y.Doc`, `encodeStateAsUpdate`, `encodeStateVector`, `applyUpdate`, map events). Yjs is not part of this model. Its two calls of `diff_position` (lines 313 and 318) depend on how Yjs encodes documents.
- The `compare` function of the `uint8arrays` package (tests.test.ts:242-259): an external library, not logic of this repository.
- Vitest spies, matchers and vitest.config.ts: test-runner machinery with no behaviour to model.
- `Uint8Array` object identity and JavaScript `number` arithmetic (tests.test.ts:235-240): buffers are values (`seq<byte>`) and the result is an unbounded `int`.
- Running time and extra space: the method uses one counter, but the model does not state complexity bounds.
