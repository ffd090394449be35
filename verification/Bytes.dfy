/** Byte strings, and the few operations of Python's `bytes` that several modules use. */
module Bytes {
  type Byte = x: int | 0 <= x < 256

  type Data = seq<Byte>

  const NEWLINE: Byte := 10

  // The first `n` bytes, or all of them.
  function Take(d: Data, n: nat): Data {
    if n < |d| then d[..n] else d
  }

  function Concat(parts: seq<Data>): Data {
    if parts == [] then [] else Concat(parts[..|parts| - 1]) + parts[|parts| - 1]
  }

  lemma TakeOfAppend(a: Data, b: Data, n: nat)
    ensures Take(a + b, n) == if |a| < n then a + Take(b, n - |a|) else Take(a, n)
  {
  }
}
