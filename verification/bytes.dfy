/**
 A `Uint8Array` as seen by `diff_position`: an immutable sequence of 8-bit
 unsigned values, read with JavaScript's bracket indexing. Reading an index
 outside `0 .. byteLength-1` does not fail; it yields `undefined`, which is
 modelled here as the `Undefined` slot.
 */
module Bytes {

  /** One element of a `Uint8Array`. */
  newtype byte = x: int | 0 <= x < 256

  /** The value of the expression `s[i]`: a byte, or `undefined` out of range. */
  datatype Slot = Byte(value: byte) | Undefined

  function Min(x: int, y: int): (m: int)
    ensures m <= x && m <= y
    ensures m == x || m == y
  {
    if x <= y then x else y
  }

  /** JavaScript's `s[i]` on a typed array: total, never out of bounds. */
  function Index(s: seq<byte>, i: int): (r: Slot)
    ensures r.Byte? <==> 0 <= i < |s|
    ensures r.Byte? ==> r.value == s[i]
  {
    if 0 <= i < |s| then Byte(s[i]) else Undefined
  }

  /** Two slots read at the same index agree exactly when both buffers hold the
      same byte there; a missing byte never equals a present one. */
  lemma IndexAgree(a: seq<byte>, b: seq<byte>, i: int)
    requires 0 <= i
    ensures Index(a, i) == Index(b, i) <==>
              (i >= |a| && i >= |b|) || (i < |a| && i < |b| && a[i] == b[i])
  {
  }
}
