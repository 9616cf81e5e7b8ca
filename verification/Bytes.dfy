/** Bytes and byte-string surgery shared by the control plane and the datapath. */
module Bytes {

  type byte = x: int | 0 <= x < 256

  /** The string `s` with the bytes from `off` on replaced by `b`. */
  function Overwrite(s: seq<byte>, off: nat, b: seq<byte>): (r: seq<byte>)
    requires off + |b| <= |s|
    ensures |r| == |s|
  {
    s[..off] + b + s[off + |b|..]
  }

  /** The `len` bytes at `at`. */
  function Field(s: seq<byte>, at: nat, len: nat): seq<byte>
    requires at + len <= |s|
  {
    s[at..at + len]
  }

  /** Big-endian (network order) 16-bit value, truncated as `htons` of an `int` is. */
  function Be16(x: nat): (r: seq<byte>)
    ensures |r| == 2
  {
    [(x / 256) % 256, x % 256]
  }
}
