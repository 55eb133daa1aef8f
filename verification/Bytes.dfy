/** Bytes and C strings, shared by the byte-level modules. */
module Bytes {

  type byte = b: int | 0 <= b < 256

  type bytes = seq<byte>

  /** The bytes before the terminator of a C string. */
  type cstring = s: bytes | 0 !in s witness []

  /** The i-th byte of a C string: its terminator is the first NUL after the text. */
  function At(t: bytes, i: int): byte {
    if 0 <= i < |t| then t[i] else 0
  }

  function Drop(t: bytes, n: nat): (r: bytes)
    ensures |r| == if n <= |t| then |t| - n else 0
    ensures n <= |t| ==> t == t[..n] + r
    ensures forall k: int {:trigger At(r, k)} :: k >= 0 ==> At(r, k) == At(t, n + k)
  {
    if n <= |t| then t[n..] else []
  }

  lemma Regroup(a: bytes, b: bytes, c: bytes, d: bytes)
    ensures a + b + c + d == a + (b + (c + d))
  {
  }

  lemma AbsentFromParts(x: byte, a: bytes, b: bytes)
    requires x !in a + b
    ensures x !in a && x !in b
  {
    assert forall k :: 0 <= k < |a| ==> (a + b)[k] == a[k];
    assert forall k :: 0 <= k < |b| ==> (a + b)[|a| + k] == b[k];
  }

  lemma AbsentFromSum(x: byte, a: bytes, b: bytes)
    requires x !in a && x !in b
    ensures x !in a + b
  {
  }
}
