/** The wallet_pay hostcall (internal/hostcall/payment.go): ordered checks, one deduction,
    and the receipt that is both written to the agent and recorded for replay. */
module Payments {
  import opened Bytes
  import opened Buffers
  import opened Encoding

  const MAX_RECIPIENT_BYTES: nat := 256
  const MAX_MEMO_BYTES: nat := 512

  const INSUFFICIENT_BUDGET: int := -1
  const INPUT_TOO_LONG: int := -2
  const RECIPIENT_BLOCKED: int := -3
  const AMOUNT_EXCEEDED: int := -4
  const BUFFER_TOO_SMALL: int := -5
  const PROCESSING: int := -6

  /** The x402 options of the manifest; a cap of zero and an empty list mean no limit. */
  datatype Policy = Policy(maxPayment: int64, allowed: seq<bytes>)

  /** The agent's key pair, or the zero key and zero signature without one. */
  datatype Signer = Signer(publicKey: bytes, sign: bytes -> bytes) {
    ghost predicate Valid() {
      |publicKey| == 32 && forall data :: |sign(data)| == 64
    }
  }

  /** A call as the host sees it. The two byte strings are what WASM memory holds at the given
      pointers, none if out of bounds; `writable` says whether the receipt buffer is in bounds. */
  datatype Request = Request(
    amount: int64, recipientLen: uint32, recipient: Option<bytes>, memoLen: uint32, memo: Option<bytes>,
    receiptCap: uint32, writable: bool) {

    ghost predicate Valid() {
      && (recipient.Some? ==> |recipient.value| == recipientLen)
      && (memo.Some? ==> |memo.value| == memoLen)
    }

    function Memo(): bytes {
      if memoLen > 0 && memo.Some? then memo.value else []
    }
  }

  datatype Response = Response(code: int, charged: nat, written: Option<bytes>, observed: Option<bytes>)

  function Refused(code: int): Response { Response(code, 0, None, None) }

  function ReceiptData(amount: int64, timestamp: int64, recipient: bytes, memo: bytes, publicKey: bytes): bytes {
    I64(amount) + (I64(timestamp) + (Prefixed(recipient) + (Prefixed(memo) + publicKey)))
  }

  function Receipt(req: Request, s: Signer, timestamp: int64): (r: bytes)
    requires req.recipient.Some?
  {
    var data := ReceiptData(req.amount, timestamp, req.recipient.value, req.Memo(), s.publicKey);
    data + s.sign(data)
  }

  /** The size of the receipt, known before anything is charged. */
  function ReceiptSize(req: Request): nat {
    8 + 8 + 4 + (if req.recipient.Some? then |req.recipient.value| else 0) + 4 + |req.Memo()| + 32 + 64
  }

  function Pay(budget: int, p: Policy, s: Signer, req: Request, timestamp: int64): Response {
    if req.recipientLen > MAX_RECIPIENT_BYTES || req.memoLen > MAX_MEMO_BYTES then Refused(INPUT_TOO_LONG)
    else if req.recipient.None? then Refused(PROCESSING)
    else if req.memoLen > 0 && req.memo.None? then Refused(PROCESSING)
    else if req.amount <= 0 then Refused(PROCESSING)
    else if p.maxPayment > 0 && req.amount > p.maxPayment then Refused(AMOUNT_EXCEEDED)
    else if p.allowed != [] && req.recipient.value !in p.allowed then Refused(RECIPIENT_BLOCKED)
    else
      var size := ReceiptSize(req);
      if 4 + size > req.receiptCap then
        Response(BUFFER_TOO_SMALL, 0,
                 if req.receiptCap >= 4 && req.writable then Some(U32(size % TWO_TO_THE_32)) else None, None)
      else if budget < req.amount then Refused(INSUFFICIENT_BUDGET)
      else if !req.writable then Response(PROCESSING, req.amount, None, None)
      else
        var receipt := Receipt(req, s, timestamp);
        Response(4 + size, req.amount, Some(U32(size % TWO_TO_THE_32) + receipt), Some(I64(req.amount) + receipt))
  }

  /** Everything the call checks before it touches the budget. */
  ghost predicate Payable(budget: int, p: Policy, req: Request) {
    && req.recipientLen <= MAX_RECIPIENT_BYTES && req.memoLen <= MAX_MEMO_BYTES
    && req.recipient.Some? && (req.memoLen > 0 ==> req.memo.Some?)
    && 0 < req.amount <= budget
    && (p.maxPayment > 0 ==> req.amount <= p.maxPayment)
    && (p.allowed != [] ==> req.recipient.value in p.allowed)
    && 4 + ReceiptSize(req) <= req.receiptCap
  }

  /** The budget is charged exactly when every check passes, once, and never below zero.
      The one call that charges without succeeding is a receipt buffer out of bounds. */
  lemma ChargedOnceIff(budget: int, p: Policy, s: Signer, req: Request, timestamp: int64)
    requires req.Valid() && s.Valid()
    ensures
      var r := Pay(budget, p, s, req, timestamp);
      && (r.charged == if Payable(budget, p, req) then req.amount else 0)
      && (r.charged > 0 ==> budget - r.charged >= 0)
      && (r.code >= 0 <==> Payable(budget, p, req) && req.writable)
      && (r.observed.Some? <==> r.code >= 0)
  {
  }

  /** Which check answers: each code exactly when its own check is the first to fail, and otherwise the
      number of bytes written. */
  lemma CodesSay(budget: int, p: Policy, s: Signer, req: Request, timestamp: int64)
    requires req.Valid() && s.Valid()
    ensures
      var r := Pay(budget, p, s, req, timestamp);
      var size := 120 + (if req.recipient.Some? then |req.recipient.value| else 0)
                  + (if req.memoLen > 0 && req.memo.Some? then |req.memo.value| else 0);
      var short := req.recipientLen <= 256 && req.memoLen <= 512;
      var readable := req.recipient.Some? && (req.memoLen > 0 ==> req.memo.Some?) && req.amount > 0;
      var capped := p.maxPayment <= 0 || req.amount <= p.maxPayment;
      var listed := p.allowed == [] || (req.recipient.Some? && req.recipient.value in p.allowed);
      var roomy := 4 + size <= req.receiptCap;
      && (r.code == -2 <==> !short)
      && (r.code == -4 <==> short && readable && !capped)
      && (r.code == -3 <==> short && readable && capped && !listed)
      && (r.code == -5 <==> short && readable && capped && listed && !roomy)
      && (r.code == -1 <==> short && readable && capped && listed && roomy && budget < req.amount)
      && (r.code == -6 <==> short && (!readable || (capped && listed && roomy && budget >= req.amount && !req.writable)))
      && (r.code == 4 + size || -6 <= r.code < 0)
      && (r.code == -5 && req.receiptCap >= 4 && req.writable <==> r.code < 0 && r.written.Some?)
      && (r.code == -5 && r.written.Some? ==> r.written.value == U32(size))
  {
    hide U32, Receipt;
  }

  /** The fields of a receipt by position, and that its own key verifies its signature over all of them. */
  lemma ReceiptSays(req: Request, s: Signer, timestamp: int64, verify: (bytes, bytes, bytes) -> bool)
    requires req.Valid() && s.Valid() && req.recipient.Some? && req.recipientLen <= 256 && req.memoLen <= 512
    requires forall data :: verify(s.publicKey, data, s.sign(data))
    ensures
      var r := Receipt(req, s, timestamp);
      var memo := if req.memoLen > 0 && req.memo.Some? then req.memo.value else [];
      var n, m := |req.recipient.value|, |memo|;
      && |r| == 120 + n + m
      && r[..8] == I64(req.amount) && r[8..16] == I64(timestamp)
      && r[16..20] == U32(n) && r[20..20 + n] == req.recipient.value
      && r[20 + n..24 + n] == U32(m) && r[24 + n..24 + n + m] == memo
      && r[24 + n + m..56 + n + m] == s.publicKey
      && verify(r[24 + n + m..56 + n + m], r[..56 + n + m], r[56 + n + m..])
  {
    hide I64, U32;
    var memo := req.Memo();
    var n, m := |req.recipient.value|, |memo|;
    var data := ReceiptData(req.amount, timestamp, req.recipient.value, memo, s.publicKey);
    DataSays(req.amount, timestamp, req.recipient.value, memo, s.publicKey);
    var r := Receipt(req, s, timestamp);
    assert r == data + s.sign(data);
    assert r[..|data|] == data && r[|data|..] == s.sign(data);
    Within(r, data, 0, 8);
    Within(r, data, 8, 16);
    Within(r, data, 16, 20);
    Within(r, data, 20, 20 + n);
    Within(r, data, 20 + n, 24 + n);
    Within(r, data, 24 + n, 24 + n + m);
    Within(r, data, 24 + n + m, 56 + n + m);
  }

  lemma Within(r: bytes, front: bytes, i: nat, j: nat)
    requires i <= j <= |front| <= |r| && r[..|front|] == front
    ensures r[i..j] == front[i..j]
  {
    forall k | i <= k < j
      ensures r[k] == front[k]
    {
      assert r[k] == r[..|front|][k];
    }
  }

  lemma DataSays(amount: int64, timestamp: int64, recipient: bytes, memo: bytes, publicKey: bytes)
    requires |recipient| <= 256 && |memo| <= 512 && |publicKey| == 32
    ensures
      var d := ReceiptData(amount, timestamp, recipient, memo, publicKey);
      var n, m := |recipient|, |memo|;
      && |d| == 56 + n + m
      && d[..8] == I64(amount) && d[8..16] == I64(timestamp)
      && d[16..20] == U32(n) && d[20..20 + n] == recipient
      && d[20 + n..24 + n] == U32(m) && d[24 + n..24 + n + m] == memo
      && d[24 + n + m..] == publicKey
  {
    hide I64, U32;
  }

  /** What a replay rebuilds from the recorded observation is what the live call wrote. */
  lemma ObservationRebuildsReceipt(budget: int, p: Policy, s: Signer, req: Request, timestamp: int64)
    requires req.Valid() && s.Valid()
    ensures
      var r := Pay(budget, p, s, req, timestamp);
      r.code >= 0 ==>
        && |r.observed.value| >= 8
        && var receipt := r.observed.value[8..];
        && |receipt| == ReceiptSize(req)
        && r.written == Some(U32(|receipt|) + receipt)
        && r.code == 4 + |receipt| <= req.receiptCap
  {
    hide I64, U32;
    var r := Pay(budget, p, s, req, timestamp);
    if r.code >= 0 {
      var receipt := Receipt(req, s, timestamp);
      assert |receipt| == ReceiptSize(req);
      assert r.observed.value[8..] == receipt;
    }
  }

  /** The receipt buffer filled field by field, then signed. */
  method BuildReceipt(req: Request, s: Signer, timestamp: int64) returns (receipt: bytes)
    requires req.Valid() && s.Valid() && req.recipient.Some?
    requires req.recipientLen <= MAX_RECIPIENT_BYTES && req.memoLen <= MAX_MEMO_BYTES
    requires req.memoLen > 0 ==> req.memo.Some?
    ensures receipt == Receipt(req, s, timestamp)
  {
    hide I64, Prefixed, ReceiptData;
    var data := FillData(req.amount, timestamp, req.recipient.value, req.Memo(), s.publicKey);
    receipt := data + s.sign(data);
  }

  method FillData(amount: int64, timestamp: int64, recipient: bytes, memo: bytes, publicKey: bytes) returns (r: bytes)
    ensures r == ReceiptData(amount, timestamp, recipient, memo, publicKey)
  {
    hide I64, Prefixed;
    var data := new byte[8 + 8 + 4 + |recipient| + 4 + |memo| + |publicKey|];
    var off := 0;
    Put(data, off, I64(amount));
    off := off + 8;
    Put(data, off, I64(timestamp));
    off := off + 8;
    PutPrefixed(data, off, recipient);
    off := off + 4 + |recipient|;
    PutPrefixed(data, off, memo);
    off := off + 4 + |memo|;
    ghost var before := data[..off];
    assert before == I64(amount) + I64(timestamp) + Prefixed(recipient) + Prefixed(memo);
    Put(data, off, publicKey);
    assert data[..] == data[..off + |publicKey|] == before + publicKey;
    Regrouped(I64(amount), I64(timestamp), Prefixed(recipient), Prefixed(memo), publicKey);
    r := data[..];
  }
}
