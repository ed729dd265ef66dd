/** Payment receipts (pkg/receipt/receipt.go): the signed byte string, the nested
    length-prefixed list, and their parsers. */
module Receipts {
  import opened Bytes
  import opened Encoding

  datatype Receipt = Receipt(
    agentID: bytes, nodeID: bytes, epochStart: uint64, epochEnd: uint64,
    cost: int64, budgetAfter: int64, timestamp: int64, signature: bytes)

  function SignData(r: Receipt): bytes {
    Prefixed(r.agentID) + (Prefixed(r.nodeID) + Numbers(r, []))
  }

  function Numbers(r: Receipt, tail: bytes): bytes {
    U64(r.epochStart) + (U64(r.epochEnd) + (I64(r.cost) + (I64(r.budgetAfter) + (I64(r.timestamp) + tail))))
  }

  function ReceiptBytes(r: Receipt): bytes { SignData(r) + Prefixed(r.signature) }

  function ReadNumbers(r: Receipt, s: Reader): (Receipt, Reader) {
    var (start, s1) := s.ReadUint64();
    var (end, s2) := s1.ReadUint64();
    var (cost, s3) := s2.ReadInt64();
    var (after, s4) := s3.ReadInt64();
    var (stamp, s5) := s4.ReadInt64();
    (r.(epochStart := start, epochEnd := end, cost := cost, budgetAfter := after, timestamp := stamp), s5)
  }

  function ReadSigned(s: Reader): (Receipt, Reader) {
    var (agentID, s1) := s.ReadBytes();
    var (nodeID, s2) := s1.ReadBytes();
    ReadNumbers(Receipt(agentID, nodeID, 0, 0, 0, 0, 0, []), s2)
  }

  /** A receipt at the front of the data; what follows the signature is ignored. */
  function ParsedReceipt(data: bytes): Option<Receipt> {
    var (r, s1) := ReadSigned(Reader(data, false));
    var (signature, s2) := s1.ReadBytes();
    if s2.failed then None else Some(r.(signature := signature))
  }

  function ListBytes(rs: seq<Receipt>): bytes {
    if rs == [] then [] else Prefixed(ReceiptBytes(rs[0])) + ListBytes(rs[1..])
  }

  function ReceiptsBytes(rs: seq<Receipt>): bytes {
    U32(|rs| % TWO_TO_THE_32) + ListBytes(rs)
  }

  function ParsedList(s: Reader, count: nat): Option<seq<Receipt>>
    decreases count
  {
    if count == 0 then Some([])
    else
      var (data, next) := s.ReadBytes();
      if next.failed then None
      else
        match ParsedReceipt(data)
        case None => None
        case Some(r) =>
          match ParsedList(next, count - 1)
          case None => None
          case Some(rest) => Some([r] + rest)
  }

  function ParsedReceipts(data: bytes): Option<seq<Receipt>> {
    var (count, s) := Reader(data, false).ReadUint32();
    if s.failed then None else ParsedList(s, count)
  }

  /** The signed fields by position. */
  lemma SignDataSays(r: Receipt)
    ensures
      var d, a, n := SignData(r), |r.agentID|, |r.nodeID|;
      && |d| == 48 + a + n
      && d[..4] == U32(a % TWO_TO_THE_32) && d[4..4 + a] == r.agentID
      && d[4 + a..8 + a] == U32(n % TWO_TO_THE_32) && d[8 + a..8 + a + n] == r.nodeID
      && d[8 + a + n..] == Numbers(r, [])
      && NumbersAt(d[8 + a + n..], r)
  {
    hide U32, Numbers, NumbersAt;
    NumbersSay(r);
  }

  ghost predicate NumbersAt(d: bytes, r: Receipt) {
    && |d| == 40 && d[..8] == U64(r.epochStart) && d[8..16] == U64(r.epochEnd)
    && d[16..24] == I64(r.cost) && d[24..32] == I64(r.budgetAfter) && d[32..40] == I64(r.timestamp)
  }

  lemma NumbersSay(r: Receipt)
    ensures |Numbers(r, [])| == 40 && NumbersAt(Numbers(r, []), r)
  {
    hide U64, I64;
  }

  /** A receipt is its signed bytes and then its signature behind the signature's length; a list is its
      length and then each receipt behind its own. */
  lemma ListSays(rs: seq<Receipt>, r: Receipt)
    ensures
      var b, d := ReceiptBytes(r), SignData(r);
      && |b| == |d| + 4 + |r.signature| && b[..|d|] == d
      && b[|d|..|d| + 4] == U32(|r.signature| % TWO_TO_THE_32) && b[|d| + 4..] == r.signature
    ensures ReceiptsBytes(rs)[..4] == U32(|rs| % TWO_TO_THE_32)
    ensures
      ReceiptsBytes(rs + [r])[4..]
      == ReceiptsBytes(rs)[4..] + (U32(|ReceiptBytes(r)| % TWO_TO_THE_32) + ReceiptBytes(r))
  {
    hide U32, SignData, ReceiptBytes, ListBytes;
    AppendedList(rs, r);
    ReceiptParts(r);
  }

  lemma ReceiptParts(r: Receipt)
    ensures
      var b, d := ReceiptBytes(r), SignData(r);
      && |b| == |d| + 4 + |r.signature| && b[..|d|] == d
      && b[|d|..|d| + 4] == U32(|r.signature| % TWO_TO_THE_32) && b[|d| + 4..] == r.signature
  {
    hide U32, SignData;
  }

  lemma {:induction false} AppendedList(rs: seq<Receipt>, r: Receipt)
    ensures ListBytes(rs + [r]) == ListBytes(rs) + Prefixed(ReceiptBytes(r))
  {
    hide U32, ReceiptBytes;
    if rs == [] {
      assert [] + [r] == [r];
      assert ListBytes([r][1..]) == [];
    } else {
      AppendedList(rs[1..], r);
      assert (rs + [r])[1..] == rs[1..] + [r];
    }
  }

  // ----- Round trips -----

  ghost predicate Fits(r: Receipt) {
    && |r.agentID| < TWO_TO_THE_32 && |r.nodeID| < TWO_TO_THE_32 && |r.signature| < TWO_TO_THE_32
    && |ReceiptBytes(r)| < TWO_TO_THE_32
  }

  ghost predicate AllFit(rs: seq<Receipt>) {
    |rs| < TWO_TO_THE_32 && forall k :: 0 <= k < |rs| ==> Fits(rs[k])
  }

  lemma NumbersWritten(r: Receipt, base: Receipt, tail: bytes)
    ensures
      ReadNumbers(base, Reader(Numbers(r, tail), false))
      == (r.(agentID := base.agentID, nodeID := base.nodeID, signature := base.signature), Reader(tail, false))
  {
    hide U64, I64;
    var t4 := I64(r.timestamp) + tail;
    var t3 := I64(r.budgetAfter) + t4;
    var t2 := I64(r.cost) + t3;
    var t1 := U64(r.epochEnd) + t2;
    Uint64Written(r.epochStart, t1);
    Uint64Written(r.epochEnd, t2);
    Int64Written(r.cost, t3);
    Int64Written(r.budgetAfter, t4);
    Int64Written(r.timestamp, tail);
  }

  lemma NumbersThenTail(r: Receipt, tail: bytes)
    ensures Numbers(r, []) + tail == Numbers(r, tail)
  {
    hide U64, I64;
  }

  lemma SignedWritten(r: Receipt, tail: bytes)
    requires |r.agentID| < TWO_TO_THE_32 && |r.nodeID| < TWO_TO_THE_32
    ensures ReadSigned(Reader(SignData(r) + tail, false)) == (r.(signature := []), Reader(tail, false))
  {
    hide Numbers, ReadNumbers, Prefixed;
    NumbersThenTail(r, tail);
    assert SignData(r) + tail == Prefixed(r.agentID) + (Prefixed(r.nodeID) + Numbers(r, tail));
    BytesWritten(r.agentID, Prefixed(r.nodeID) + Numbers(r, tail));
    BytesWritten(r.nodeID, Numbers(r, tail));
    NumbersWritten(r, Receipt(r.agentID, r.nodeID, 0, 0, 0, 0, 0, []), tail);
  }

  /** Two receipts with the same signed bytes agree on every signed field. */
  lemma SignDataInjective(r: Receipt, s: Receipt)
    requires |r.agentID| < TWO_TO_THE_32 && |r.nodeID| < TWO_TO_THE_32
    requires |s.agentID| < TWO_TO_THE_32 && |s.nodeID| < TWO_TO_THE_32
    requires SignData(r) == SignData(s)
    ensures r.(signature := []) == s.(signature := [])
  {
    hide SignData, ReadSigned;
    SignedWritten(r, []);
    SignedWritten(s, []);
  }

  lemma ParseReceiptBytes(r: Receipt)
    requires Fits(r)
    ensures ParsedReceipt(ReceiptBytes(r)) == Some(r)
  {
    hide SignData, ReadSigned, Prefixed;
    SignedWritten(r, Prefixed(r.signature));
    assert Prefixed(r.signature) == Prefixed(r.signature) + [];
    BytesWritten(r.signature, []);
  }

  lemma {:induction false} ParseListBytes(rs: seq<Receipt>)
    requires AllFit(rs)
    ensures ParsedList(Reader(ListBytes(rs), false), |rs|) == Some(rs)
  {
    hide ListBytes, ParsedList, Fits, AllFit;
    if rs == [] {
      NoneLeft(Reader(ListBytes(rs), false));
    } else {
      RestFits(rs);
      ParseListBytes(rs[1..]);
      assert rs == [rs[0]] + rs[1..];
      ParseListStep(rs[0], rs[1..]);
    }
  }

  lemma RestFits(rs: seq<Receipt>)
    requires AllFit(rs) && rs != []
    ensures Fits(rs[0]) && AllFit(rs[1..])
  {
    hide Fits;
  }

  lemma ParseListStep(r: Receipt, rest: seq<Receipt>)
    requires Fits(r) && ParsedList(Reader(ListBytes(rest), false), |rest|) == Some(rest)
    ensures ParsedList(Reader(ListBytes([r] + rest), false), 1 + |rest|) == Some([r] + rest)
  {
    hide ReceiptBytes, ParsedReceipt, Prefixed, Reader.ReadBytes;
    assert ([r] + rest)[1..] == rest;
    BytesWritten(ReceiptBytes(r), ListBytes(rest));
    ParseReceiptBytes(r);
  }

  /** The stored receipt list is read back unchanged. */
  lemma ParseReceiptsBytes(rs: seq<Receipt>)
    requires AllFit(rs)
    ensures ParsedReceipts(ReceiptsBytes(rs)) == Some(rs)
  {
    hide ListBytes, ParsedList, U32, Reader.ReadUint32, Fits;
    Uint32Written(|rs|, ListBytes(rs));
    ParseListBytes(rs);
  }

  // ----- The methods -----

  method MarshalSignData(r: Receipt) returns (buf: bytes)
    ensures buf == SignData(r)
  {
    hide U64, I64, U32;
    buf := U32(|r.agentID| % TWO_TO_THE_32);
    buf := buf + r.agentID;
    buf := buf + U32(|r.nodeID| % TWO_TO_THE_32);
    buf := buf + r.nodeID;
    buf := buf + U64(r.epochStart);
    buf := buf + U64(r.epochEnd);
    buf := buf + I64(r.cost);
    buf := buf + I64(r.budgetAfter);
    buf := buf + I64(r.timestamp);
  }

  method MarshalBinary(r: Receipt) returns (buf: bytes)
    ensures buf == ReceiptBytes(r)
  {
    hide SignData;
    buf := MarshalSignData(r);
    buf := buf + U32(|r.signature| % TWO_TO_THE_32);
    buf := buf + r.signature;
  }

  method MarshalReceipts(rs: seq<Receipt>) returns (buf: bytes)
    ensures buf == ReceiptsBytes(rs)
  {
    hide ReceiptBytes;
    buf := U32(|rs| % TWO_TO_THE_32);
    ghost var all := buf + ListBytes(rs);
    assert rs[0..] == rs;
    for i := 0 to |rs|
      invariant buf + ListBytes(rs[i..]) == all
    {
      ListStep(buf, rs, i);
      var rb := MarshalBinary(rs[i]);
      buf := buf + U32(|rb| % TWO_TO_THE_32);
      buf := buf + rb;
    }
  }

  lemma ListStep(before: bytes, rs: seq<Receipt>, i: nat)
    requires i < |rs|
    ensures before + ListBytes(rs[i..]) == (before + Prefixed(ReceiptBytes(rs[i]))) + ListBytes(rs[i + 1..])
  {
    hide ReceiptBytes, Prefixed;
    assert rs[i..][1..] == rs[i + 1..];
  }

  method UnmarshalBinary(data: bytes) returns (r: Option<Receipt>)
    ensures r == ParsedReceipt(data)
  {
    hide ReadNumbers;
    var d := new Decoder(data);
    var agentID := d.Bytes();
    var nodeID := d.Bytes();
    var v := UnmarshalNumbers(d, Receipt(agentID, nodeID, 0, 0, 0, 0, 0, []));
    var signature := d.Bytes();
    r := if d.err then None else Some(v.(signature := signature));
  }

  method UnmarshalNumbers(d: Decoder, base: Receipt) returns (r: Receipt)
    requires d.Valid()
    modifies d
    ensures d.Valid() && (r, d.View()) == ReadNumbers(base, old(d.View()))
  {
    var start := d.Uint64();
    var end := d.Uint64();
    var cost := d.Int64();
    var after := d.Int64();
    var stamp := d.Int64();
    r := base.(epochStart := start, epochEnd := end, cost := cost, budgetAfter := after, timestamp := stamp);
  }

  method UnmarshalReceipts(data: bytes) returns (rs: Option<seq<Receipt>>)
    ensures rs == ParsedReceipts(data)
  {
    hide ParsedReceipt;
    var d := new Decoder(data);
    var count := d.Uint32();
    if d.err {
      return None;
    }
    rs := UnmarshalList(d, count);
  }

  method UnmarshalList(d: Decoder, count: nat) returns (rs: Option<seq<Receipt>>)
    requires d.Valid()
    modifies d
    ensures rs == ParsedList(old(d.View()), count)
  {
    hide ParsedReceipt, ParsedList, Prepended, Reader.ReadBytes;
    var list: seq<Receipt> := [];
    ghost var all := ParsedList(d.View(), count);
    var i := 0;
    PrependEnds([], all);
    while i < count
      invariant i <= count && d.Valid()
      invariant all == Prepended(list, ParsedList(d.View(), count - i))
    {
      ParsedStep(d.View(), count - i);
      PrependEnds(list, None);
      var data := d.Bytes();
      if d.err {
        return None;
      }
      var r := UnmarshalBinary(data);
      if r.None? {
        return None;
      }
      PrependStep(list, r.value, ParsedList(d.View(), count - i - 1));
      list := list + [r.value];
      i := i + 1;
    }
    NoneLeft(d.View());
    PrependEnds(list, Some([]));
    rs := Some(list);
  }

  lemma ParsedStep(s: Reader, count: nat)
    requires count > 0
    ensures
      var (data, next) := s.ReadBytes();
      ParsedList(s, count)
      == if next.failed || ParsedReceipt(data).None? then None
         else Prepended([ParsedReceipt(data).value], ParsedList(next, count - 1))
  {
    hide ParsedReceipt, Reader.ReadBytes;
  }

  lemma NoneLeft(s: Reader)
    ensures ParsedList(s, 0) == Some([])
  {
  }

  lemma PrependEnds(list: seq<Receipt>, all: Option<seq<Receipt>>)
    ensures Prepended([], all) == all && Prepended(list, None) == None && Prepended(list, Some([])) == Some(list)
  {
    assert all.Some? ==> [] + all.value == all.value;
    assert list + [] == list;
  }

  function Prepended(list: seq<Receipt>, rest: Option<seq<Receipt>>): Option<seq<Receipt>> {
    if rest.None? then None else Some(list + rest.value)
  }

  lemma PrependStep(list: seq<Receipt>, r: Receipt, rest: Option<seq<Receipt>>)
    ensures Prepended(list, Prepended([r], rest)) == Prepended(list + [r], rest)
  {
    if rest.Some? {
      assert list + ([r] + rest.value) == list + [r] + rest.value;
    }
  }
}
