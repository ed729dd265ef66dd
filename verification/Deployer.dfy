/** The deployer's payment path: the terms of a 402 response (cmd/mockcloud) through
    parsing, a recorded intent, a checkpoint and a resume, to the wallet_pay call. */
module Deploy {
  import opened Bytes
  import opened Buffers
  import opened Encoding
  import opened Effects

  const INTENT_PAYMENT: byte := 1
  const PHASE_DEPLOY: byte := 2

  datatype Terms = Terms(amount: int64, recipient: bytes, memo: bytes)

  const NO_TERMS := Terms(0, [], [])

  function TermsBytes(t: Terms): bytes {
    I64(t.amount) + (Prefixed(t.recipient) + Prefixed(t.memo))
  }

  /** The mock provider's encoder. */
  method EncodePaymentTerms(t: Terms) returns (body: array<byte>)
    ensures body[..] == TermsBytes(t)
  {
    hide I64, Prefixed;
    var r, m := |t.recipient|, |t.memo|;
    body := new byte[8 + 4 + r + 4 + m];
    var off := 0;
    Put(body, off, I64(t.amount));
    off := off + 8;
    PutPrefixed(body, off, t.recipient);
    off := off + 4 + r;
    ghost var front := body[..off];
    assert front == I64(t.amount) + Prefixed(t.recipient);
    PutPrefixed(body, off, t.memo);
    assert body[..] == body[..off + 4 + m] == front + Prefixed(t.memo);
    Nested(I64(t.amount), Prefixed(t.recipient), Prefixed(t.memo));
  }

  lemma Nested(a: bytes, b: bytes, c: bytes)
    ensures a + b + c == a + (b + c)
  {
  }

  /** The agents' parser: too short, or a recipient past the end, gives no terms at all;
      a memo past the end gives the terms without it. */
  function Parsed(body: bytes): Terms {
    if |body| < 12 then NO_TERMS
    else
      var amount := ToSigned(Uint64At(body[..8]));
      var r := Uint32At(body[8..12]);
      if 12 + r > |body| then NO_TERMS
      else
        var recipient, rest := body[12..12 + r], body[12 + r..];
        if |rest| < 4 then Terms(amount, recipient, [])
        else
          var m := Uint32At(rest[..4]);
          if 4 + m > |rest| then Terms(amount, recipient, [])
          else Terms(amount, recipient, rest[4..4 + m])
  }

  method ParsePaymentTerms(body: bytes) returns (t: Terms)
    ensures t == Parsed(body)
  {
    if |body| < 12 {
      return NO_TERMS;
    }
    var amount := ToSigned(Uint64At(body[..8]));
    var off := 8;
    var r := Uint32At(body[off..off + 4]);
    off := off + 4;
    if off + r > |body| {
      return NO_TERMS;
    }
    var recipient := body[off..off + r];
    off := off + r;
    if off + 4 > |body| {
      return Terms(amount, recipient, []);
    }
    assert body[12 + r..][..4] == body[off..off + 4];
    var m := Uint32At(body[off..off + 4]);
    off := off + 4;
    if off + m > |body| {
      return Terms(amount, recipient, []);
    }
    assert body[12 + r..][4..4 + m] == body[off..off + m];
    t := Terms(amount, recipient, body[off..off + m]);
  }

  lemma Slices(t: Terms)
    ensures
      var body, r, m := TermsBytes(t), |t.recipient|, |t.memo|;
      && |body| == 16 + r + m && body[..8] == I64(t.amount)
      && body[8..12] == U32(r % TWO_TO_THE_32) && body[12..12 + r] == t.recipient
      && body[12 + r..][..4] == U32(m % TWO_TO_THE_32) && body[12 + r..][4..4 + m] == t.memo
  {
    hide I64, U32;
    var body, r, m := TermsBytes(t), |t.recipient|, |t.memo|;
    assert body[12 + r..] == Prefixed(t.memo);
  }

  lemma ParseEncoded(t: Terms)
    requires |t.recipient| < TWO_TO_THE_32 && |t.memo| < TWO_TO_THE_32
    ensures Parsed(TermsBytes(t)) == t
  {
    hide I64, U32, FromLE, TermsBytes;
    Slices(t);
    I64RoundTrip(t.amount);
    U32RoundTrip(|t.recipient|);
    U32RoundTrip(|t.memo|);
  }

  /** A body that is cut off gives what it holds whole: nothing before the recipient is complete, and
      after that everything but the memo. */
  lemma CutOffBody(t: Terms, n: nat)
    requires |t.recipient| < TWO_TO_THE_32 && |t.memo| < TWO_TO_THE_32 && n < |TermsBytes(t)|
    ensures
      Parsed(TermsBytes(t)[..n])
      == if n < 12 + |t.recipient| then Terms(0, [], []) else Terms(t.amount, t.recipient, [])
  {
    hide I64, U32, FromLE, TermsBytes;
    Slices(t);
    I64RoundTrip(t.amount);
    U32RoundTrip(|t.recipient|);
    U32RoundTrip(|t.memo|);
    var body, r := TermsBytes(t), |t.recipient|;
    var cut := body[..n];
    if n >= 12 {
      assert cut[..8] == body[..8] && cut[8..12] == body[8..12];
    }
    if n >= 12 + r {
      assert cut[12..12 + r] == body[12..12 + r];
    }
    if n >= 16 + r {
      assert cut[12 + r..][..4] == body[12 + r..][..4];
    }
  }

  function IntentData(t: Terms): bytes {
    [INTENT_PAYMENT] + TermsBytes(t)
  }

  /** The arguments executePayment decodes from an intent, or none when the data is corrupt. */
  function PaymentCall(data: bytes): Option<Terms>
    requires data != []
  {
    var (amount, r1) := Reader(data[1..], false).ReadInt64();
    var (recipient, r2) := r1.ReadBytes();
    var (memo, r3) := r2.ReadBytes();
    if r3.failed then None else Some(Terms(amount, recipient, memo))
  }

  lemma PaymentCallOfIntent(t: Terms)
    requires |t.recipient| < TWO_TO_THE_32 && |t.memo| < TWO_TO_THE_32
    ensures PaymentCall(IntentData(t)) == Some(t)
  {
    hide I64, Prefixed;
    assert IntentData(t)[1..] == TermsBytes(t);
    Int64Written(t.amount, Prefixed(t.recipient) + Prefixed(t.memo));
    BytesWritten(t.recipient, Prefixed(t.memo));
    assert Prefixed(t.memo) == Prefixed(t.memo) + [];
    BytesWritten(t.memo, []);
  }

  /** Which intents pay, and what: those whose data holds the encoded terms behind its first byte. */
  lemma PaymentCallIff(data: bytes, t: Terms)
    requires data != []
    ensures PaymentCall(data) == Some(t) ==> TermsBytes(t) <= data[1..]
    ensures
      |t.recipient| < TWO_TO_THE_32 && |t.memo| < TWO_TO_THE_32 && TermsBytes(t) <= data[1..] ==> PaymentCall(data) == Some(t)
  {
    hide I64, U32, FromLE, Reader.ReadBytes, Reader.ReadInt64;
    var r := Reader(data[1..], false);
    if PaymentCall(data) == Some(t) {
      var (amount, r1) := r.ReadInt64();
      var (recipient, r2) := r1.ReadBytes();
      var (memo, r3) := r2.ReadBytes();
      Int64Read(r);
      BytesRead(r1);
      BytesRead(r2);
      assert data[1..] == I64(amount) + Prefixed(recipient) + Prefixed(memo) + r3.rest;
    }
    if |t.recipient| < TWO_TO_THE_32 && |t.memo| < TWO_TO_THE_32 && TermsBytes(t) <= data[1..] {
      var tail := data[1..][|TermsBytes(t)|..];
      assert data[1..] == I64(t.amount) + (Prefixed(t.recipient) + (Prefixed(t.memo) + tail));
      Int64Written(t.amount, Prefixed(t.recipient) + (Prefixed(t.memo) + tail));
      BytesWritten(t.recipient, Prefixed(t.memo) + tail);
      BytesWritten(t.memo, tail);
    }
  }

  lemma Int64Read(r: Reader)
    ensures
      var (v, s) := r.ReadInt64();
      (r.failed ==> s.failed) && (!s.failed ==> r.rest == I64(v) + s.rest)
  {
    hide LE, FromLE;
    ReadsSay(r);
    if !r.ReadInt64().1.failed {
      assert r.rest == r.rest[..8] + r.rest[8..];
    }
  }

  lemma BytesRead(r: Reader)
    ensures
      var (v, s) := r.ReadBytes();
      (r.failed ==> s.failed) && (!s.failed ==> r.rest == Prefixed(v) + s.rest)
  {
    hide LE, FromLE;
    ReadsSay(r);
    if !r.ReadBytes().1.failed {
      LEOfFromLE(r.rest[..4]);
    }
  }

  // ----- The agent's checkpoint -----

  datatype Agent = Agent(
    tickCount: uint64, birth: int64, lastNano: int64, phase: byte,
    deploymentID: bytes, deployIDLen: uint32, deployStatus: byte,
    paidCount: uint32, totalPaid: int64, lastReceipt: bytes, effects: seq<Intent>)

  ghost predicate WellFormed(a: Agent) { |a.deploymentID| == 64 }

  function HeadBytes(a: Agent, tail: bytes): bytes {
    U64(a.tickCount) + (I64(a.birth) + (I64(a.lastNano) + ([a.phase] + (a.deploymentID + (U32(a.deployIDLen) + tail)))))
  }

  function TailBytes(a: Agent): bytes {
    [a.deployStatus] + (U32(a.paidCount) + (I64(a.totalPaid)
    + (Prefixed(a.lastReceipt) + Prefixed(Effects.Marshalled(a.effects)))))
  }

  function AgentBytes(a: Agent): bytes { HeadBytes(a, TailBytes(a)) }

  function ReadHead(r: Reader): (Agent, Reader) {
    var (tickCount, r1) := r.ReadUint64();
    var (birth, r2) := r1.ReadInt64();
    var (lastNano, r3) := r2.ReadInt64();
    var (phase, r4) := r3.Take(1);
    var (id, r5) := r4.Take(64);
    var (idLen, r6) := r5.ReadUint32();
    (Agent(tickCount, birth, lastNano, if phase == [] then 0 else phase[0],
           if r5.failed then Zeros(64) else id, idLen, 0, 0, 0, [], []), r6)
  }

  function ReadTail(a: Agent, r: Reader): (Agent, Reader) {
    var (status, r1) := r.Take(1);
    var (paidCount, r2) := r1.ReadUint32();
    var (totalPaid, r3) := r2.ReadInt64();
    var (receipt, r4) := r3.ReadBytes();
    var (log, r5) := r4.ReadBytes();
    (a.(deployStatus := if status == [] then 0 else status[0], paidCount := paidCount, totalPaid := totalPaid,
        lastReceipt := receipt, effects := Unmarshalled(log)), r5)
  }

  /** Resuming onto a fresh agent; a short checkpoint panics instead. */
  function ResumedAgent(data: bytes): Option<Agent> {
    var (a, r) := ReadHead(Reader(data, false));
    var (b, s) := ReadTail(a, r);
    if s.failed then None else Some(b)
  }

  lemma HeadWritten(a: Agent, tail: bytes)
    requires WellFormed(a)
    ensures
      var (b, r) := ReadHead(Reader(HeadBytes(a, tail), false));
      && r == Reader(tail, false)
      && b == Agent(a.tickCount, a.birth, a.lastNano, a.phase, a.deploymentID, a.deployIDLen, 0, 0, 0, [], [])
  {
    hide U64, I64, U32;
    var t5 := U32(a.deployIDLen) + tail;
    var t4 := a.deploymentID + t5;
    var t3 := [a.phase] + t4;
    var t2 := I64(a.lastNano) + t3;
    var t1 := I64(a.birth) + t2;
    Uint64Written(a.tickCount, t1);
    Int64Written(a.birth, t2);
    Int64Written(a.lastNano, t3);
    TakeWritten([a.phase], t4);
    TakeWritten(a.deploymentID, t5);
    Uint32Written(a.deployIDLen, tail);
  }

  lemma TailWritten(a: Agent, b: Agent)
    requires |a.lastReceipt| < TWO_TO_THE_32 && Fits(a.effects) && |Effects.Marshalled(a.effects)| < TWO_TO_THE_32
    ensures
      ReadTail(b, Reader(TailBytes(a), false))
      == (b.(deployStatus := a.deployStatus, paidCount := a.paidCount, totalPaid := a.totalPaid,
             lastReceipt := a.lastReceipt, effects := ResumedLog(a.effects)), Reader([], false))
  {
    hide U64, I64, U32, Prefixed, Effects.Marshalled, Unmarshalled, ResumedLog;
    var log := Effects.Marshalled(a.effects);
    var t4 := Prefixed(log);
    var t3 := Prefixed(a.lastReceipt) + t4;
    var t2 := I64(a.totalPaid) + t3;
    var t1 := U32(a.paidCount) + t2;
    TakeWritten([a.deployStatus], t1);
    Uint32Written(a.paidCount, t2);
    Int64Written(a.totalPaid, t3);
    BytesWritten(a.lastReceipt, t4);
    assert t4 == Prefixed(log) + [];
    BytesWritten(log, []);
    RestoreAppliesResumeRule(a.effects);
  }

  /** A resumed deployer is the saved one with only the resume rule applied to its log. */
  lemma ResumeAfterMarshal(a: Agent)
    requires WellFormed(a) && |a.lastReceipt| < TWO_TO_THE_32
    requires Fits(a.effects) && |Effects.Marshalled(a.effects)| < TWO_TO_THE_32
    ensures ResumedAgent(AgentBytes(a)) == Some(a.(effects := ResumedLog(a.effects)))
  {
    hide ReadHead, ReadTail, HeadBytes, TailBytes;
    HeadWritten(a, TailBytes(a));
    TailWritten(a, ReadHead(Reader(AgentBytes(a), false)).0);
  }

  /** The terms a provider encodes reach wallet_pay unchanged: parsed from the 402 body,
      recorded as an intent, checkpointed, resumed, and decoded again. The sizes need only
      keep the marshalled log within its own 32-bit length. */
  lemma TermsReachWalletPay(a: Agent, key: bytes, t: Terms)
    requires WellFormed(a) && |a.lastReceipt| < TWO_TO_THE_32
    requires |t.recipient| < TWO_TO_THE_31 && |t.memo| < TWO_TO_THE_31
    requires Recorded(a.effects, key, IntentData(Parsed(TermsBytes(t)))).1 == Done
    requires
      var log := Recorded(a.effects, key, IntentData(Parsed(TermsBytes(t)))).0;
      Fits(log) && |Effects.Marshalled(log)| < TWO_TO_THE_32
    ensures
      var log := Recorded(a.effects, key, IntentData(Parsed(TermsBytes(t)))).0;
      var b := ResumedAgent(AgentBytes(a.(effects := log)));
      && b.Some?
      && var k := Find(b.value.effects, key);
      && k.Some?
      && b.value.effects[k.value].state == RECORDED
      && b.value.effects[k.value].data != []
      && PaymentCall(b.value.effects[k.value].data) == Some(t)
  {
    hide TermsBytes, Parsed, AgentBytes, ResumedAgent, PaymentCall, Effects.Marshalled;
    ParseEncoded(t);
    PaymentCallOfIntent(t);
    var log := Recorded(a.effects, key, IntentData(t)).0;
    ResumeAfterMarshal(a.(effects := log));
    var n := |a.effects|;
    var live := ResumedLog(log);
    assert live[n] == log[n];
    assert forall j :: 0 <= j < n ==> live[j].id == log[j].id == a.effects[j].id;
    assert Find(live, key) == Some(n);
  }

  /** The saved fields by position. */
  lemma LayoutSays(a: Agent)
    requires WellFormed(a)
    ensures
      var b, receipt, log := AgentBytes(a), a.lastReceipt, Effects.Marshalled(a.effects);
      var n := 106 + 4 + |receipt|;
      && |b| == n + 4 + |log|
      && b[..8] == U64(a.tickCount) && b[8..16] == I64(a.birth) && b[16..24] == I64(a.lastNano)
      && b[24] == a.phase && b[25..89] == a.deploymentID && b[89..93] == U32(a.deployIDLen)
      && b[93] == a.deployStatus && b[94..98] == U32(a.paidCount) && b[98..106] == I64(a.totalPaid)
      && b[106..110] == U32(|receipt| % TWO_TO_THE_32) && b[110..n] == receipt
      && b[n..n + 4] == U32(|log| % TWO_TO_THE_32) && b[n + 4..] == log
  {
    hide HeadBytes, TailBytes, U64, I64, U32, Effects.Marshalled;
    var tail := TailBytes(a);
    HeadAt(a, tail);
    TailAt(a);
    var b, n := AgentBytes(a), 17 + |a.lastReceipt|;
    assert b[93..] == tail;
    assert b[93] == tail[0];
    assert b[94..98] == b[93..][1..5] && b[98..106] == b[93..][5..13] && b[106..110] == b[93..][13..17];
    assert b[110..93 + n] == b[93..][17..n] && b[93 + n..97 + n] == b[93..][n..n + 4] && b[97 + n..] == b[93..][n + 4..];
  }

  lemma HeadAt(a: Agent, tail: bytes)
    requires WellFormed(a)
    ensures
      var b := HeadBytes(a, tail);
      && |b| == 93 + |tail| && b[93..] == tail
      && b[..8] == U64(a.tickCount) && b[8..16] == I64(a.birth) && b[16..24] == I64(a.lastNano)
      && b[24] == a.phase && b[25..89] == a.deploymentID && b[89..93] == U32(a.deployIDLen)
  {
    hide U64, I64, U32;
  }

  lemma TailAt(a: Agent)
    ensures
      var b, log := TailBytes(a), Effects.Marshalled(a.effects);
      var n := 17 + |a.lastReceipt|;
      && |b| == n + 4 + |log|
      && b[0] == a.deployStatus && b[1..5] == U32(a.paidCount) && b[5..13] == I64(a.totalPaid)
      && b[13..17] == U32(|a.lastReceipt| % TWO_TO_THE_32) && b[17..n] == a.lastReceipt
      && b[n..n + 4] == U32(|log| % TWO_TO_THE_32) && b[n + 4..] == log
  {
    hide U64, I64, U32, Effects.Marshalled;
  }

  // ----- The class -----

  class Deployer {
    var tickCount: uint64
    var birth: int64
    var lastNano: int64
    var phase: byte
    var deploymentID: bytes
    var deployIDLen: uint32
    var deployStatus: byte
    var paidCount: uint32
    var totalPaid: int64
    var lastReceipt: bytes
    const effects: EffectLog

    function View(): Agent
      reads this, effects
    {
      Agent(tickCount, birth, lastNano, phase, deploymentID, deployIDLen, deployStatus,
            paidCount, totalPaid, lastReceipt, effects.intents)
    }

    constructor ()
      ensures View() == Agent(0, 0, 0, 0, Zeros(64), 0, 0, 0, 0, [], []) && fresh(effects)
    {
      tickCount, birth, lastNano, phase, deploymentID, deployIDLen := 0, 0, 0, 0, Zeros(64), 0;
      deployStatus, paidCount, totalPaid, lastReceipt := 0, 0, 0, [];
      effects := new EffectLog();
    }

    method RecordPaymentIntent(t: Terms, key: bytes) returns (o: Outcome)
      modifies effects
      ensures (effects.intents, o) == Recorded(old(effects.intents), key, IntentData(t))
    {
      hide I64, Prefixed;
      var enc := new Encoder();
      enc.Raw([INTENT_PAYMENT]);
      enc.Int64(t.amount);
      enc.Bytes(t.recipient);
      enc.Bytes(t.memo);
      assert enc.buf == IntentData(t);
      o := effects.Record(key, enc.buf);
    }

    /** `paid` is what wallet_pay answers if it is called; `call` is what it was called with. */
    method ExecutePayment(i: Intent, paid: Option<bytes>) returns (call: Option<Terms>, more: bool)
      requires i.data != []
      modifies this, effects
      ensures View() == AfterPayment(old(View()), i, paid)
      ensures call == if Begun(old(effects.intents), i.id).1 == Done then PaymentCall(i.data) else None
      ensures more <==> call.Some? && paid.Some?
    {
      hide Begun, Confirmed, Compensated, Pruned, PaymentCall;
      call, more := None, false;
      var terms := DecodePayment(i.data);
      if terms.None? {
        var ignored := effects.Compensate(i.id);
        return;
      }
      var o := effects.Begin(i.id);
      if o != Done {
        return;
      }
      BegunCanSettle(old(effects.intents), i.id);
      call := terms;
      if paid.None? {
        var ignored := effects.Compensate(i.id);
        var n := effects.Prune();
        return;
      }
      paidCount := (paidCount + 1) % TWO_TO_THE_32;
      totalPaid := ToSigned((totalPaid + terms.value.amount) % TWO_TO_THE_64);
      lastReceipt := paid.value;
      o := effects.Confirm(i.id);
      if o != Done {
        return;
      }
      var n := effects.Prune();
      phase := PHASE_DEPLOY;
      more := true;
    }

    static method DecodePayment(data: bytes) returns (t: Option<Terms>)
      requires data != []
      ensures t == PaymentCall(data)
    {
      var d := new Decoder(data[1..]);
      var amount := d.Int64();
      var recipient := d.Bytes();
      var memo := d.Bytes();
      t := if d.err then None else Some(Terms(amount, recipient, memo));
    }

    method Marshal() returns (data: bytes)
      ensures data == AgentBytes(View())
    {
      hide HeadBytes, TailBytes;
      var log := effects.Marshal();
      var enc := new Encoder();
      WriteHead(enc, TailBytes(View()));
      WriteTail(enc, log);
      data := enc.buf;
    }

    method WriteHead(enc: Encoder, ghost tail: bytes)
      modifies enc
      ensures enc.buf + tail == old(enc.buf) + HeadBytes(View(), tail)
    {
      hide U64, I64, U32;
      enc.Uint64(tickCount);
      enc.Int64(birth);
      enc.Int64(lastNano);
      enc.Raw([phase]);
      enc.Raw(deploymentID);
      enc.Uint32(deployIDLen);
    }

    method WriteTail(enc: Encoder, log: bytes)
      requires log == Effects.Marshalled(effects.intents)
      modifies enc
      ensures enc.buf == old(enc.buf) + TailBytes(View())
    {
      hide U64, I64, U32, Prefixed, Effects.Marshalled;
      enc.Raw([deployStatus]);
      enc.Uint32(paidCount);
      enc.Int64(totalPaid);
      enc.Bytes(lastReceipt);
      enc.Bytes(log);
    }
  }

  method UnmarshalAgent(data: bytes) returns (a: Option<Agent>)
    ensures a == ResumedAgent(data)
  {
    hide ReadHead, ReadTail;
    var d := new Decoder(data);
    var h := ReadHeadFrom(d);
    var b := ReadTailFrom(d, h);
    a := if d.err then None else Some(b);
  }

  method ReadHeadFrom(d: Decoder) returns (a: Agent)
    requires d.Valid()
    modifies d
    ensures d.Valid() && (a, d.View()) == ReadHead(old(d.View()))
  {
    var tickCount := d.Uint64();
    var birth := d.Int64();
    var lastNano := d.Int64();
    var phase := d.FixedBytes(1);
    var id := d.FixedBytes(64);
    if d.err {
      id := Zeros(64);
    }
    var idLen := d.Uint32();
    a := Agent(tickCount, birth, lastNano, if phase == [] then 0 else phase[0], id, idLen, 0, 0, 0, [], []);
  }

  method ReadTailFrom(d: Decoder, h: Agent) returns (a: Agent)
    requires d.Valid()
    modifies d
    ensures d.Valid() && (a, d.View()) == ReadTail(h, old(d.View()))
  {
    hide Unmarshalled;
    var status := d.FixedBytes(1);
    var paidCount := d.Uint32();
    var totalPaid := d.Int64();
    var receipt := d.Bytes();
    var log := d.Bytes();
    var effects := new EffectLog();
    effects.Unmarshal(log);
    a := h.(deployStatus := if status == [] then 0 else status[0], paidCount := paidCount, totalPaid := totalPaid,
            lastReceipt := receipt, effects := effects.intents);
  }

  /** What one executePayment does with the first intent of that ID, by its stored state: undecodable data is
      compensated if it can be; otherwise only a recorded intent is paid, once. Exactly a payment that
      went through counts, adds its amount, and moves the agent on to deploying; paid or not, the intent
      is settled and pruned. */
  lemma PaymentSays(a: Agent, i: Intent, paid: Option<bytes>)
    requires i.data != []
    ensures
      var b, k, call := AfterPayment(a, i, paid), Find(a.effects, i.id), PaymentCall(i.data);
      if k.None? then b == a
      else
        var x := a.effects[k.value];
        if call.None? then
          b == a.(effects := if x.state == 2 || x.state == 4 then a.effects[k.value := Intent(i.id, 5, x.data)] else a.effects)
        else if x.state != 1 then b == a
        else if paid.None? then
          b == a.(effects := Pruned(a.effects[k.value := Intent(i.id, 5, x.data)]))
        else
          && b == a.(paidCount := (a.paidCount + 1) % TWO_TO_THE_32, totalPaid := b.totalPaid, lastReceipt := paid.value,
                     phase := 2, effects := Pruned(a.effects[k.value := Intent(i.id, 3, x.data)]))
          && b.totalPaid % TWO_TO_THE_64 == (a.totalPaid + call.value.amount) % TWO_TO_THE_64
  {
    hide Find, PaymentCall, Pruned, Begun, Confirmed, Compensated;
    OperationsSay(a.effects, i.id, []);
    var k := Find(a.effects, i.id);
    if k.Some? {
      var moved := Begun(a.effects, i.id).0;
      if a.effects[k.value].state == 1 {
        assert moved == a.effects[k.value := Intent(i.id, 2, a.effects[k.value].data)];
        StaysFirst(a.effects, i.id, k.value, moved);
        OperationsSay(moved, i.id, []);
        var x := a.effects[k.value];
        assert moved[k.value := Intent(i.id, 3, x.data)] == a.effects[k.value := Intent(i.id, 3, x.data)];
        assert moved[k.value := Intent(i.id, 5, x.data)] == a.effects[k.value := Intent(i.id, 5, x.data)];
      }
    }
  }

  lemma StaysFirst(log: seq<Intent>, id: bytes, k: nat, moved: seq<Intent>)
    requires Find(log, id) == Some(k) && |moved| == |log| && forall j :: 0 <= j < |log| ==> moved[j].id == log[j].id
    ensures Find(moved, id) == Some(k)
  {
    hide FindFrom;
  }

  /** The deployer after one executePayment: it ends where the intent's state machine allows,
      and only a payment that went through changes the totals. */
  function AfterPayment(a: Agent, i: Intent, paid: Option<bytes>): Agent
    requires i.data != []
  {
    var call := PaymentCall(i.data);
    if call.None? then a.(effects := Compensated(a.effects, i.id).0)
    else
      var (log, o) := Begun(a.effects, i.id);
      if o != Done then a
      else if paid.None? then a.(effects := Pruned(Compensated(log, i.id).0))
      else
        var b := a.(paidCount := (a.paidCount + 1) % TWO_TO_THE_32,
                    totalPaid := ToSigned((a.totalPaid + call.value.amount) % TWO_TO_THE_64),
                    lastReceipt := paid.value);
        var (done, p) := Confirmed(log, i.id);
        if p != Done then b.(effects := done) else b.(effects := Pruned(done), phase := PHASE_DEPLOY)
  }
}
