/** Bytes, and the big-endian 16-bit numbers in them. */
module Octets {
  import opened Options

  type byte = b: int | 0 <= b < 256
  type bytes = seq<byte>

  function U16(data: bytes, at: nat): Option<nat> {
    if at + 2 > |data| then None else Some(data[at] as nat * 256 + data[at + 1])
  }

  /** A number in two bytes, the high one first. */
  function B2(n: nat): (b: bytes)
    requires n < 0x1_0000
    ensures |b| == 2 && b[0] as nat * 256 + b[1] == n
  {
    if n < 256 then [0, n] else var below := B2(n - 256); [below[0] + 1, below[1]]
  }
}
