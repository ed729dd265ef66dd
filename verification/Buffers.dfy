/** Byte buffers that are allocated once and filled at an offset, as the checkpoint,
    receipt and payment encoders do. */
module Buffers {
  import opened Bytes

  /** copy(buf[off:], src); PutUint64 and PutUint32 are this on the little-endian bytes. */
  method Put(buf: array<byte>, off: nat, src: bytes)
    requires off + |src| <= buf.Length
    modifies buf
    ensures buf[..off + |src|] == old(buf[..off]) + src
    ensures buf[off + |src|..] == old(buf[off + |src|..])
  {
    forall k | 0 <= k < |src| {
      buf[off + k] := src[k];
    }
  }

  /** A 32-bit length and then the bytes it counts. */
  method PutPrefixed(buf: array<byte>, off: nat, src: bytes)
    requires off + 4 + |src| <= buf.Length
    modifies buf
    ensures buf[..off + 4 + |src|] == old(buf[..off]) + Prefixed(src)
    ensures buf[off + 4 + |src|..] == old(buf[off + 4 + |src|..])
  {
    hide U32;
    Put(buf, off, U32(|src| % TWO_TO_THE_32));
    assert buf[off + 4..][|src|..] == buf[off + 4 + |src|..];
    Put(buf, off + 4, src);
  }
}
