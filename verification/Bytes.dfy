/** Byte strings, fixed-width integers and the little-endian layout that every
    wire and checkpoint format of the repository uses. */
module Bytes {

  type byte = x: int | 0 <= x < 256
  type bytes = seq<byte>

  const TWO_TO_THE_31: int := 0x8000_0000
  const TWO_TO_THE_32: int := 0x1_0000_0000
  const TWO_TO_THE_63: int := 0x8000_0000_0000_0000
  const TWO_TO_THE_64: int := 0x1_0000_0000_0000_0000
  const MAX_INT64: int := 0x7FFF_FFFF_FFFF_FFFF

  type uint32 = x: int | 0 <= x < 0x1_0000_0000
  type uint64 = x: int | 0 <= x < 0x1_0000_0000_0000_0000
  type int64 = x: int | -0x8000_0000_0000_0000 <= x < 0x8000_0000_0000_0000

  datatype Option<+T> = None | Some(value: T)

  datatype Result<+T> = Ok(value: T) | Err(error: string)

  /** The conversion uint64(i): two's complement. */
  function ToUnsigned(i: int64): uint64 {
    if i < 0 then i + TWO_TO_THE_64 else i
  }

  /** The conversion int64(u): two's complement. */
  function ToSigned(u: uint64): int64 {
    if u >= TWO_TO_THE_63 then u - TWO_TO_THE_64 else u
  }

  /** One more in uint64 arithmetic, with the machine's wrap-around. */
  function Inc64(u: uint64): uint64 {
    (u + 1) % TWO_TO_THE_64
  }

  function Pow256(n: nat): (p: nat)
    ensures p > 0
  {
    if n == 0 then 1 else 256 * Pow256(n - 1)
  }

  /** The low n bytes of v, least significant first. */
  function LE(v: nat, n: nat): (b: bytes)
    ensures |b| == n
  {
    if n == 0 then [] else [v % 256] + LE(v / 256, n - 1)
  }

  function FromLE(b: bytes): (v: nat)
    ensures v < Pow256(|b|)
  {
    if b == [] then 0 else b[0] + 256 * FromLE(b[1..])
  }

  const WIDTH32: nat := 4
  const WIDTH64: nat := 8

  function U32(v: uint32): (b: bytes)
    ensures |b| == 4
  {
    LE(v, WIDTH32)
  }

  function U64(v: uint64): (b: bytes)
    ensures |b| == 8
  {
    LE(v, WIDTH64)
  }

  function I64(v: int64): (b: bytes)
    ensures |b| == 8
  {
    U64(ToUnsigned(v))
  }

  /** A byte string behind its 32-bit length; the length wraps as uint32(len(v)) does. */
  function Prefixed(v: bytes): bytes { U32(|v| % TWO_TO_THE_32) + v }

  lemma Pow256Values()
    ensures Pow256(4) == TWO_TO_THE_32
    ensures Pow256(8) == TWO_TO_THE_64
  {
    assert Pow256(2) == 65536;
    assert Pow256(4) == 65536 * Pow256(2);
    assert Pow256(6) == 65536 * Pow256(4);
    assert Pow256(8) == 65536 * Pow256(6);
  }

  lemma {:induction false} FromLEOfLE(v: nat, n: nat)
    requires v < Pow256(n)
    ensures FromLE(LE(v, n)) == v
  {
    if n > 0 {
      assert LE(v, n)[1..] == LE(v / 256, n - 1);
      FromLEOfLE(v / 256, n - 1);
    }
  }

  lemma LowByte(low: byte, rest: nat)
    ensures (low + 256 * rest) % 256 == low && (low + 256 * rest) / 256 == rest
  {
  }

  lemma LEStep(low: byte, rest: nat, n: nat)
    requires n > 0
    ensures LE(low + 256 * rest, n) == [low] + LE(rest, n - 1)
  {
    LowByte(low, rest);
  }

  lemma {:induction false} LEOfFromLE(b: bytes)
    ensures LE(FromLE(b), |b|) == b
  {
    if b != [] {
      hide LE;
      var rest := FromLE(b[1..]);
      LEOfFromLE(b[1..]);
      LEStep(b[0], rest, |b|);
      assert b == [b[0]] + b[1..];
    }
  }

  lemma U32RoundTrip(v: uint32)
    ensures FromLE(U32(v)) == v
  {
    Pow256Values();
    FromLEOfLE(v, WIDTH32);
  }

  lemma U64RoundTrip(v: uint64)
    ensures FromLE(U64(v)) == v
  {
    Pow256Values();
    FromLEOfLE(v, WIDTH64);
  }

  lemma I64RoundTrip(v: int64)
    ensures FromLE(I64(v)) == ToUnsigned(v)
    ensures ToSigned(ToUnsigned(v)) == v
  {
    U64RoundTrip(ToUnsigned(v));
  }

  lemma FromLERange(b: bytes)
    ensures |b| == 4 ==> FromLE(b) < TWO_TO_THE_32
    ensures |b| == 8 ==> FromLE(b) < TWO_TO_THE_64
  {
    Pow256Values();
  }

  /** The bytes themselves: least significant first. */
  lemma U32Layout(v: uint32)
    ensures U32(v) == [v % 256, v / 256 % 256, v / 65536 % 256, v / 16777216]
  {
    assert v / 256 / 256 == v / 65536 && v / 65536 / 256 == v / 16777216;
    var w := v / 16777216;
    assert LE(w, 1) == [w];
    assert LE(v / 65536, 2) == [v / 65536 % 256] + LE(w, 1);
    assert LE(v / 256, 3) == [v / 256 % 256] + LE(v / 65536, 2);
    assert LE(v, 4) == [v % 256] + LE(v / 256, 3);
  }

  /** A 64-bit value is its low half and then its high half. */
  lemma U64Layout(v: uint64)
    ensures U64(v) == U32(v % TWO_TO_THE_32) + U32(v / TWO_TO_THE_32)
  {
    hide FromLE, U32;
    var low, high := v % TWO_TO_THE_32, v / TWO_TO_THE_32;
    Pow256Values();
    U32RoundTrip(low);
    U32RoundTrip(high);
    FromLEConcat(U32(low), U32(high));
    LEOfFromLE(U32(low) + U32(high));
  }

  lemma {:induction false} FromLEConcat(a: bytes, b: bytes)
    ensures FromLE(a + b) == FromLE(a) + Pow256(|a|) * FromLE(b)
  {
    if a == [] {
      assert a + b == b;
    } else {
      FromLEConcat(a[1..], b);
      assert (a + b)[1..] == a[1..] + b;
      Regroup(a[0], FromLE(a[1..]), Pow256(|a| - 1), FromLE(b));
    }
  }

  lemma Regroup(low: nat, rest: nat, p: nat, high: nat)
    ensures low + 256 * (rest + p * high) == low + 256 * rest + 256 * p * high
  {
  }

  /** Both conversions keep the value modulo 2^64. */
  lemma ConversionsAgree(i: int64, u: uint64)
    ensures ToUnsigned(i) == i % TWO_TO_THE_64
    ensures ToSigned(u) % TWO_TO_THE_64 == u
  {
  }

  function Uint32At(b: bytes): (v: uint32)
    requires |b| == 4
    ensures v == FromLE(b)
  {
    FromLERange(b);
    FromLE(b)
  }

  function Uint64At(b: bytes): (v: uint64)
    requires |b| == 8
    ensures v == FromLE(b)
  {
    FromLERange(b);
    FromLE(b)
  }

  // Appending field by field, against the same fields nested behind each other.

  lemma Regrouped(a: bytes, b: bytes, c: bytes, d: bytes, e: bytes)
    ensures a + b + c + d + e == a + (b + (c + (d + e)))
  {
  }

  lemma Behind(front: bytes, a: bytes, b: bytes, c: bytes, d: bytes, e: bytes)
    ensures front + a + b + c + d + e == front + (a + b + c + d + e)
  {
  }

  function Zeros(n: nat): (b: bytes)
    ensures |b| == n
  {
    seq(n, _ => 0)
  }
}
