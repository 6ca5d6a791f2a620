/** Bytes, little-endian machine integers and NUL-terminated strings, as the C++ sources lay them out. */
module Bytes {
  type byte = x: int | 0 <= x < 256

  function Zeros(n: nat): (z: seq<byte>)
    ensures |z| == n && forall k :: 0 <= k < n ==> z[k] == 0
  {
    seq(n, _ => 0)
  }

  function FromLe16(b: seq<byte>): (x: nat)
    requires |b| == 2
    ensures x < 0x1_0000
  {
    (b[0] as int) + 256 * (b[1] as int)
  }

  /** A `uint16_t` in host (little-endian) order. */
  function Le16(x: nat): (b: seq<byte>)
    requires x < 0x1_0000
    ensures |b| == 2 && FromLe16(b) == x
  {
    [x % 256, x / 256]
  }

  function FromLe32(b: seq<byte>): (x: nat)
    requires |b| == 4
    ensures x < 0x1_0000_0000
  {
    FromLe16(b[..2]) + 0x1_0000 * FromLe16(b[2..])
  }

  /** A `uint32_t` in host (little-endian) order. */
  function Le32(x: nat): (b: seq<byte>)
    requires x < 0x1_0000_0000
    ensures |b| == 4 && FromLe32(b) == x
  {
    Le16(x % 0x1_0000) + Le16(x / 0x1_0000)
  }

  /** The C string that starts `b`: everything before the first NUL byte. */
  function CString(b: seq<byte>): (s: seq<byte>)
    ensures |s| <= |b| && s == b[..|s|] && 0 !in s
    ensures |s| < |b| ==> b[|s|] == 0
  {
    if b == [] || b[0] == 0 then [] else [b[0]] + CString(b[1..])
  }

  /** A NUL-free string followed by a NUL, or by the end of the bytes, reads back as itself. */
  lemma {:induction false} CStringOf(s: seq<byte>, tail: seq<byte>)
    requires 0 !in s
    requires tail == [] || tail[0] == 0
    ensures CString(s + tail) == s
  {
    if s == [] {
      assert s + tail == tail;
    } else {
      assert (s + tail)[1..] == s[1..] + tail;
      CStringOf(s[1..], tail);
    }
  }
}
