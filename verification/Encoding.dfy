/** The SDK's state serialization (sdk/igor/encoding.go): an Encoder that appends,
    and a Decoder that advances a position and remembers its first short read. */
module Encoding {
  import opened Bytes

  /** What a Decoder still has to read, and whether a read has already failed. */
  datatype Reader = Reader(rest: bytes, failed: bool) {

    function Fail(): Reader { this.(failed := true) }

    /** Exactly n raw bytes, or a sticky failure that consumes nothing. */
    function Take(n: nat): (bytes, Reader) {
      if failed || n > |rest| then ([], Fail())
      else (rest[..n], Reader(rest[n..], false))
    }

    function ReadUint64(): (uint64, Reader) {
      var (b, r) := Take(8);
      if r.failed then (0, r) else (Uint64At(b), r)
    }

    function ReadInt64(): (int64, Reader) {
      var (v, r) := ReadUint64();
      (ToSigned(v), r)
    }

    function ReadUint32(): (uint32, Reader) {
      var (b, r) := Take(4);
      if r.failed then (0, r) else (Uint32At(b), r)
    }

    function ReadBytes(): (bytes, Reader) {
      var (n, r) := ReadUint32();
      if r.failed then ([], r) else r.Take(n)
    }

    function ReadBool(): (bool, Reader) {
      var (b, r) := Take(1);
      if r.failed then (false, r) else (b[0] != 0, r)
    }
  }

  function BoolByte(v: bool): bytes { if v then [1] else [0] }

  // Each write, followed by anything, is undone by the read of the same kind.

  lemma TakeWritten(x: bytes, tail: bytes)
    ensures Reader(x + tail, false).Take(|x|) == (x, Reader(tail, false))
  {
    assert (x + tail)[..|x|] == x;
    assert (x + tail)[|x|..] == tail;
  }

  lemma Uint64Written(v: uint64, tail: bytes)
    ensures Reader(U64(v) + tail, false).ReadUint64() == (v, Reader(tail, false))
  {
    TakeWritten(U64(v), tail);
    U64RoundTrip(v);
  }

  lemma Int64Written(v: int64, tail: bytes)
    ensures Reader(I64(v) + tail, false).ReadInt64() == (v, Reader(tail, false))
  {
    Uint64Written(ToUnsigned(v), tail);
  }

  lemma Uint32Written(v: uint32, tail: bytes)
    ensures Reader(U32(v) + tail, false).ReadUint32() == (v, Reader(tail, false))
  {
    TakeWritten(U32(v), tail);
    U32RoundTrip(v);
  }

  lemma BytesWritten(v: bytes, tail: bytes)
    requires |v| < TWO_TO_THE_32
    ensures Reader(Prefixed(v) + tail, false).ReadBytes() == (v, Reader(tail, false))
  {
    hide U32, Reader.ReadUint32;
    assert Prefixed(v) + tail == U32(|v|) + (v + tail);
    Uint32Written(|v|, v + tail);
    TakeWritten(v, tail);
  }

  lemma BoolWritten(v: bool, tail: bytes)
    ensures Reader(BoolByte(v) + tail, false).ReadBool() == (v, Reader(tail, false))
  {
    TakeWritten(BoolByte(v), tail);
  }

  /** A read fails if an earlier one did or its bytes are not there; a failed read of a fixed size
      consumes nothing, and a byte string that is too short leaves its length consumed. */
  lemma ReadsSay(r: Reader)
    ensures
      var (v, s) := r.ReadUint64();
      && (s.failed <==> r.failed || |r.rest| < 8)
      && (if s.failed then v == 0 && s.rest == r.rest else s.rest == r.rest[8..] && U64(v) == r.rest[..8])
    ensures
      var (v, s) := r.ReadUint32();
      && (s.failed <==> r.failed || |r.rest| < 4)
      && (if s.failed then v == 0 && s.rest == r.rest else s.rest == r.rest[4..] && U32(v) == r.rest[..4])
    ensures
      var (v, s) := r.ReadBool();
      && (s.failed <==> r.failed || |r.rest| < 1)
      && (if s.failed then !v && s.rest == r.rest else s.rest == r.rest[1..] && (v <==> r.rest[0] != 0))
    ensures
      var (v, s) := r.ReadBytes();
      && (r.failed || |r.rest| < 4 ==> s.failed && v == [] && s.rest == r.rest)
      && (!r.failed && |r.rest| >= 4 ==>
            && (s.failed <==> Uint32At(r.rest[..4]) > |r.rest| - 4)
            && (if s.failed then v == [] && s.rest == r.rest[4..]
                else r.rest == r.rest[..4] + v + s.rest && |v| == Uint32At(r.rest[..4])))
  {
    hide FromLE, LE;
    if !r.failed && |r.rest| >= 8 {
      LEOfFromLE(r.rest[..8]);
    }
    if !r.failed && |r.rest| >= 4 {
      LEOfFromLE(r.rest[..4]);
    }
  }

  class Encoder {
    var buf: bytes

    constructor ()
      ensures buf == []
    {
      buf := [];
    }

    method Uint64(v: uint64)
      modifies this
      ensures buf == old(buf) + U64(v)
    {
      buf := buf + U64(v);
    }

    method Int64(v: int64)
      modifies this
      ensures buf == old(buf) + I64(v)
    {
      Uint64(ToUnsigned(v));
    }

    method Uint32(v: uint32)
      modifies this
      ensures buf == old(buf) + U32(v)
    {
      buf := buf + U32(v);
    }

    method Bytes(v: bytes)
      modifies this
      ensures buf == old(buf) + Prefixed(v)
    {
      Uint32(|v| % TWO_TO_THE_32);
      buf := buf + v;
    }

    method Bool(v: bool)
      modifies this
      ensures buf == old(buf) + BoolByte(v)
    {
      if v {
        buf := buf + [1];
      } else {
        buf := buf + [0];
      }
    }

    method Raw(b: bytes)
      modifies this
      ensures buf == old(buf) + b
    {
      buf := buf + b;
    }
  }

  class Decoder {
    const data: bytes
    var pos: nat
    var err: bool

    ghost predicate Valid()
      reads this
    {
      pos <= |data|
    }

    ghost function View(): Reader
      requires Valid()
      reads this
    {
      Reader(data[pos..], err)
    }

    constructor (data: bytes)
      ensures Valid() && View() == Reader(data, false)
      ensures this.data == data
    {
      this.data := data;
      pos, err := 0, false;
    }

    method Uint64() returns (v: uint64)
      requires Valid()
      modifies this
      ensures Valid() && (v, View()) == old(View()).ReadUint64()
    {
      if err || pos + 8 > |data| {
        err := true;
        return 0;
      }
      v := Uint64At(data[pos..pos + 8]);
      assert data[pos..][..8] == data[pos..pos + 8];
      pos := pos + 8;
    }

    method Int64() returns (v: int64)
      requires Valid()
      modifies this
      ensures Valid() && (v, View()) == old(View()).ReadInt64()
    {
      var u := Uint64();
      v := ToSigned(u);
    }

    method Uint32() returns (v: uint32)
      requires Valid()
      modifies this
      ensures Valid() && (v, View()) == old(View()).ReadUint32()
    {
      if err || pos + 4 > |data| {
        err := true;
        return 0;
      }
      v := Uint32At(data[pos..pos + 4]);
      assert data[pos..][..4] == data[pos..pos + 4];
      pos := pos + 4;
    }

    method Bytes() returns (v: bytes)
      requires Valid()
      modifies this
      ensures Valid() && (v, View()) == old(View()).ReadBytes()
    {
      var n := Uint32();
      if err {
        return [];
      }
      if pos + n > |data| {
        err := true;
        return [];
      }
      v := data[pos..pos + n];
      assert data[pos..][..n] == v;
      pos := pos + n;
    }

    method Bool() returns (v: bool)
      requires Valid()
      modifies this
      ensures Valid() && (v, View()) == old(View()).ReadBool()
    {
      if err || pos >= |data| {
        err := true;
        return false;
      }
      v := data[pos] != 0;
      pos := pos + 1;
    }

    method FixedBytes(n: nat) returns (v: bytes)
      requires Valid()
      modifies this
      ensures Valid() && (v, View()) == old(View()).Take(n)
    {
      if err || pos + n > |data| {
        err := true;
        return [];
      }
      v := data[pos..pos + n];
      assert data[pos..][..n] == v;
      pos := pos + n;
    }
  }
}
