/** Checkpoints (internal/agent/instance.go, pkg/lineage): three header versions at fixed
    offsets, the signed lineage of version 4, building one and resuming from one. */
module Checkpoints {
  import opened Bytes
  import opened Buffers

  const VERSION2: byte := 2
  const VERSION3: byte := 3
  const VERSION4: byte := 4
  const HEADER_LEN2: nat := 57
  const HEADER_LEN3: nat := 81
  const HEADER_LEN4: nat := 209
  /** Where the signature of a version 4 header starts. */
  const SIGNATURE_AT: nat := 145

  // ----- Cryptography, as functions about which only this is known -----

  datatype Crypto = Crypto(hash: bytes -> bytes, publicKey: bytes -> bytes,
                           sign: (bytes, bytes) -> bytes, verify: (bytes, bytes, bytes) -> bool) {

    /** Sizes, and that verification accepts what signing made. */
    ghost predicate Valid() {
      && (forall x :: |hash(x)| == 32)
      && (forall k :: |publicKey(k)| == 32)
      && (forall k, d :: |sign(k, d)| == 64)
      && (forall k, d :: verify(publicKey(k), d, sign(k, d)))
    }

    /** These two do not collide. No hash of a fixed size can do this for all pairs. */
    predicate TellsApart(x: bytes, y: bytes) {
      hash(x) == hash(y) ==> x == y
    }
  }

  datatype Identity = Identity(publicKey: bytes, privateKey: bytes) {
    ghost predicate Valid(c: Crypto) {
      |privateKey| == 64 && publicKey == c.publicKey(privateKey)
    }
  }

  // ----- Headers -----

  datatype Meter = Meter(budget: int64, price: int64, tick: uint64, wasmHash: bytes)

  datatype LeaseInfo = LeaseInfo(major: uint64, generation: uint64, expiry: int64)

  const NO_LEASE := LeaseInfo(0, 0, 0)

  datatype Lineage = Lineage(prevHash: bytes, publicKey: bytes, signature: bytes)

  datatype Header = Header(version: byte, meter: Meter, lease: LeaseInfo, lineage: Option<Lineage>) {
    /** What a header of its version can hold. */
    predicate WellFormed() {
      && |meter.wasmHash| == 32
      && (version == VERSION2 || version == VERSION3 || version == VERSION4)
      && (version == VERSION2 ==> lease == NO_LEASE)
      && (version == VERSION4 <==> lineage.Some?)
      && (lineage.Some? ==>
            |lineage.value.prevHash| == 32 && |lineage.value.publicKey| == 32 && |lineage.value.signature| == 64)
    }
  }

  function MeterBytes(version: byte, m: Meter): bytes {
    [version] + I64(m.budget) + I64(m.price) + U64(m.tick) + m.wasmHash
  }

  function LeaseBytes(l: LeaseInfo): bytes {
    U64(l.major) + U64(l.generation) + I64(l.expiry)
  }

  function LineageBytes(l: Lineage): bytes {
    l.prevHash + l.publicKey + l.signature
  }

  function HeaderBytes(h: Header): bytes {
    MeterBytes(h.version, h.meter)
    + (if h.version == VERSION2 then [] else LeaseBytes(h.lease))
    + (if h.lineage.None? then [] else LineageBytes(h.lineage.value))
  }

  function HeaderLen(version: byte): Option<nat> {
    if version == VERSION2 then Some(HEADER_LEN2)
    else if version == VERSION3 then Some(HEADER_LEN3)
    else if version == VERSION4 then Some(HEADER_LEN4)
    else None
  }

  datatype Parsed = Parsed(header: Header, state: bytes)

  function ParsedMeter(b: bytes): Meter
    requires |b| >= HEADER_LEN2
  {
    Meter(ToSigned(Uint64At(b[1..9])), ToSigned(Uint64At(b[9..17])), Uint64At(b[17..25]), b[25..57])
  }

  function ParsedLease(b: bytes): LeaseInfo
    requires |b| >= HEADER_LEN3
  {
    LeaseInfo(Uint64At(b[57..65]), Uint64At(b[65..73]), ToSigned(Uint64At(b[73..81])))
  }

  function ParsedLineage(b: bytes): Lineage
    requires |b| >= HEADER_LEN4
  {
    Lineage(b[81..113], b[113..145], b[145..209])
  }

  function ParseCheckpointHeader(b: bytes): Result<Parsed> {
    if |b| < 1 then Err("checkpoint empty")
    else
      match HeaderLen(b[0])
      case None => Err("unsupported checkpoint version")
      case Some(n) =>
        if |b| < n then Err("checkpoint too short")
        else
          var meter := ParsedMeter(b);
          if meter.budget < 0 then Err("checkpoint contains negative budget")
          else if meter.price < 0 then Err("checkpoint contains negative price")
          else
            Ok(Parsed(Header(b[0], meter,
                             if b[0] >= VERSION3 then ParsedLease(b) else NO_LEASE,
                             if b[0] >= VERSION4 then Some(ParsedLineage(b)) else None), b[n..]))
  }

  // ----- The codec is a bijection -----

  lemma MeterBytesParse(version: byte, m: Meter, tail: bytes)
    requires |m.wasmHash| == 32
    ensures |MeterBytes(version, m)| == HEADER_LEN2
    ensures ParsedMeter(MeterBytes(version, m) + tail) == m
  {
    hide U64, I64, FromLE;
    var b := MeterBytes(version, m) + tail;
    assert b[1..9] == I64(m.budget) && b[9..17] == I64(m.price) && b[17..25] == U64(m.tick);
    assert b[25..57] == m.wasmHash;
    I64RoundTrip(m.budget);
    I64RoundTrip(m.price);
    U64RoundTrip(m.tick);
  }

  lemma LeaseBytesParse(before: bytes, l: LeaseInfo, tail: bytes)
    requires |before| == HEADER_LEN2
    ensures |LeaseBytes(l)| == HEADER_LEN3 - HEADER_LEN2
    ensures ParsedLease(before + LeaseBytes(l) + tail) == l
  {
    hide U64, I64, FromLE;
    var b := before + LeaseBytes(l) + tail;
    assert b[57..65] == U64(l.major) && b[65..73] == U64(l.generation) && b[73..81] == I64(l.expiry);
    U64RoundTrip(l.major);
    U64RoundTrip(l.generation);
    I64RoundTrip(l.expiry);
  }

  lemma LineageBytesParse(before: bytes, l: Lineage, tail: bytes)
    requires |before| == HEADER_LEN3
    requires |l.prevHash| == 32 && |l.publicKey| == 32 && |l.signature| == 64
    ensures ParsedLineage(before + LineageBytes(l) + tail) == l
  {
    var b := before + LineageBytes(l) + tail;
    assert b[81..113] == l.prevHash && b[113..145] == l.publicKey && b[145..209] == l.signature;
  }

  /** What was written is read back, unless the budget or the price is negative: then the
      checkpoint that was just built cannot be loaded again. */
  lemma ParseOfBytes(h: Header, state: bytes)
    requires h.WellFormed()
    ensures
      ParseCheckpointHeader(HeaderBytes(h) + state)
      == if h.meter.budget < 0 then Err("checkpoint contains negative budget")
         else if h.meter.price < 0 then Err("checkpoint contains negative price")
         else Ok(Parsed(h, state))
  {
    hide MeterBytes, LeaseBytes, LineageBytes, ParsedMeter, ParsedLease, ParsedLineage;
    var m := MeterBytes(h.version, h.meter);
    var l := if h.version == VERSION2 then [] else LeaseBytes(h.lease);
    var s := if h.lineage.None? then [] else LineageBytes(h.lineage.value);
    var b := HeaderBytes(h) + state;
    MeterBytesParse(h.version, h.meter, l + s + state);
    assert b == m + (l + s + state);
    MeterStart(h.version, h.meter);
    assert b[0] == h.version;
    if h.version != VERSION2 {
      LeaseBytesParse(m, h.lease, s + state);
      assert b == m + l + (s + state);
    }
    if h.lineage.Some? {
      LineageLength(h.lineage.value);
      LineageBytesParse(m + l, h.lineage.value, state);
      assert b == (m + l) + s + state;
    }
    assert b[|m + l + s|..] == state;
  }

  lemma MeterStart(version: byte, m: Meter)
    ensures |MeterBytes(version, m)| > 0 && MeterBytes(version, m)[0] == version
  {
    hide U64, I64;
  }

  lemma LineageLength(l: Lineage)
    ensures |LineageBytes(l)| == |l.prevHash| + |l.publicKey| + |l.signature|
  {
  }

  lemma SignedBytes(b: bytes)
    requires |b| == 8
    ensures I64(ToSigned(Uint64At(b))) == b && U64(Uint64At(b)) == b
  {
    hide FromLE, LE;
    LEOfFromLE(b);
  }

  lemma MeterBytesOfParsed(b: bytes)
    requires |b| >= HEADER_LEN2
    ensures MeterBytes(b[0], ParsedMeter(b)) == b[..57]
  {
    hide U64, I64, FromLE;
    SignedBytes(b[1..9]);
    SignedBytes(b[9..17]);
    SignedBytes(b[17..25]);
    assert b[..57] == [b[0]] + b[1..9] + b[9..17] + b[17..25] + b[25..57];
  }

  lemma LeaseBytesOfParsed(b: bytes)
    requires |b| >= HEADER_LEN3
    ensures LeaseBytes(ParsedLease(b)) == b[57..81]
  {
    hide U64, I64, FromLE;
    SignedBytes(b[57..65]);
    SignedBytes(b[65..73]);
    SignedBytes(b[73..81]);
    assert b[57..81] == b[57..65] + b[65..73] + b[73..81];
  }

  lemma LineageBytesOfParsed(b: bytes)
    requires |b| >= HEADER_LEN4
    ensures b[..209] == b[..81] + LineageBytes(ParsedLineage(b))
  {
    assert b[81..145] == b[81..113] + b[113..145];
    assert b[81..209] == b[81..145] + b[145..209];
    assert b[..209] == b[..81] + b[81..209];
  }

  /** Any file that parses is the encoding of what was parsed: no byte of it is ignored. */
  lemma BytesOfParse(b: bytes)
    requires ParseCheckpointHeader(b).Ok?
    ensures
      var p := ParseCheckpointHeader(b).value;
      p.header.WellFormed() && p.header.meter.budget >= 0 && p.header.meter.price >= 0
      && HeaderBytes(p.header) + p.state == b
  {
    hide MeterBytes, LeaseBytes, LineageBytes, ParsedLease, U64, I64, FromLE;
    var p := ParseCheckpointHeader(b).value;
    MeterBytesOfParsed(b);
    if b[0] >= VERSION3 {
      LeaseBytesOfParsed(b);
      assert b[..81] == b[..57] + b[57..81];
    }
    if b[0] >= VERSION4 {
      LineageBytesOfParsed(b);
    }
    assert b == b[..HeaderLen(b[0]).value] + p.state;
  }

  // ----- Building and resuming -----

  /** An instance's fields that a checkpoint carries, and the hash of its last one. */
  datatype Value = Value(meter: Meter, lease: Option<LeaseInfo>, prevHash: bytes) {
    predicate WellFormed() { |meter.wasmHash| == 32 && |prevHash| == 32 }
  }

  function LeaseOf(v: Value): LeaseInfo {
    if v.lease.None? then NO_LEASE else v.lease.value
  }

  /** Everything before the signature of a version 4 checkpoint. */
  function Unsigned(v: Value, publicKey: bytes): bytes {
    MeterBytes(VERSION4, v.meter) + LeaseBytes(LeaseOf(v)) + v.prevHash + publicKey
  }

  function BuildSigningDomain(headerBeforeSig: bytes, state: bytes): bytes {
    headerBeforeSig + state
  }

  function BuiltHeader(v: Value, c: Crypto, id: Option<Identity>, state: bytes): Header {
    match id
    case None => Header(VERSION3, v.meter, LeaseOf(v), None)
    case Some(i) =>
      var signature := c.sign(i.privateKey, BuildSigningDomain(Unsigned(v, i.publicKey), state));
      Header(VERSION4, v.meter, LeaseOf(v), Some(Lineage(v.prevHash, i.publicKey, signature)))
  }

  function Built(v: Value, c: Crypto, id: Option<Identity>, state: bytes): bytes {
    HeaderBytes(BuiltHeader(v, c, id, state)) + state
  }

  predicate CanSign(id: Option<Identity>) {
    id.Some? ==> |id.value.privateKey| == 64
  }

  /** buildCheckpoint: the bytes, and the instance with its chain advanced. */
  function AfterBuild(v: Value, c: Crypto, id: Option<Identity>, state: bytes): Value {
    if id.Some? && CanSign(id) then v.(prevHash := c.hash(Built(v, c, id, state))) else v
  }

  predicate GoodSignature(c: Crypto, checkpoint: bytes, p: Parsed)
    requires |checkpoint| >= SIGNATURE_AT && p.header.lineage.Some?
  {
    var l := p.header.lineage.value;
    |l.publicKey| == 32
    && c.verify(l.publicKey, BuildSigningDomain(checkpoint[..SIGNATURE_AT], p.state), l.signature)
  }

  /** LoadCheckpointFromStorage up to the receipts: the state to resume from, or nothing when
      there is no checkpoint. */
  function Loaded(v: Value, c: Crypto, stored: Option<bytes>): (Value, Result<Option<bytes>>) {
    if stored.None? then (v, Ok(None))
    else
      match ParseCheckpointHeader(stored.value)
      case Err(e) => (v, Err("invalid checkpoint"))
      case Ok(p) =>
        if p.header.meter.wasmHash != v.meter.wasmHash then (v, Err("WASM hash mismatch"))
        else if p.header.lineage.Some? && !GoodSignature(c, stored.value, p) then (v, Err("signature verification failed"))
        else
          (v.(meter := p.header.meter,
              prevHash := if p.header.lineage.Some? then c.hash(stored.value) else v.prevHash), Ok(Some(p.state)))
  }

  /** What a checkpoint says, read back: the builder's budget, price, tick and binary, the epoch and
      expiry of its lease if it has one and zeros otherwise, and under an identity the hash of the
      checkpoint before and the public key. */
  lemma BuiltSays(v: Value, c: Crypto, id: Option<Identity>, state: bytes)
    requires c.Valid() && v.WellFormed() && (id.Some? ==> id.value.Valid(c))
    ensures
      var r := ParseCheckpointHeader(Built(v, c, id, state));
      && (r.Ok? <==> v.meter.budget >= 0 && v.meter.price >= 0)
      && (r.Ok? ==>
            var h := r.value.header;
            && r.value.state == state && h.meter == v.meter
            && h.lease.major == (if v.lease.Some? then v.lease.value.major else 0)
            && h.lease.generation == (if v.lease.Some? then v.lease.value.generation else 0)
            && h.lease.expiry == (if v.lease.Some? then v.lease.value.expiry else 0)
            && h.version == (if id.Some? then 4 else 3)
            && (h.lineage.Some? <==> id.Some?)
            && (id.Some? ==> h.lineage.value.prevHash == v.prevHash && h.lineage.value.publicKey == id.value.publicKey))
  {
    hide HeaderBytes, ParseCheckpointHeader, Unsigned;
    ParseOfBytes(BuiltHeader(v, c, id, state), state);
  }

  /** The bytes of a parsed header, by position. */
  lemma HeaderFieldsAt(b: bytes)
    requires ParseCheckpointHeader(b).Ok?
    ensures
      var h := ParseCheckpointHeader(b).value.header;
      && |b| >= 57 && b[0] == h.version
      && b[1..9] == I64(h.meter.budget) && b[9..17] == I64(h.meter.price) && b[17..25] == U64(h.meter.tick)
      && b[25..57] == h.meter.wasmHash
      && (h.version >= 3 ==>
            && |b| >= 81
            && b[57..65] == U64(h.lease.major) && b[65..73] == U64(h.lease.generation) && b[73..81] == I64(h.lease.expiry))
      && (h.version >= 4 ==>
            var l := h.lineage.value;
            && |b| >= 209 && b[81..113] == l.prevHash && b[113..145] == l.publicKey && b[145..209] == l.signature)
      && ParseCheckpointHeader(b).value.state == b[if h.version == 2 then 57 else if h.version == 3 then 81 else 209..]
  {
    hide U64, I64, FromLE;
    SignedBytes(b[1..9]);
    SignedBytes(b[9..17]);
    SignedBytes(b[17..25]);
    if b[0] >= VERSION3 {
      SignedBytes(b[57..65]);
      SignedBytes(b[65..73]);
      SignedBytes(b[73..81]);
    }
  }

  /** Which files parse. */
  lemma ParsesIff(b: bytes)
    ensures
      ParseCheckpointHeader(b).Ok?
      <==> && b != []
           && ((b[0] == 2 && |b| >= 57) || (b[0] == 3 && |b| >= 81) || (b[0] == 4 && |b| >= 209))
           && b[8] < 128 && b[16] < 128
  {
    hide ParsedLease, ParsedLineage, FromLE;
    if |b| >= 57 {
      TopBit(b[1..9]);
      TopBit(b[9..17]);
    }
  }

  /** A stored int64 is negative if its last byte has the top bit. */
  lemma TopBit(b: bytes)
    requires |b| == 8
    ensures ToSigned(Uint64At(b)) < 0 <==> b[7] >= 128
  {
    Pow256Values();
    FromLEConcat(b[..7], b[7..]);
    assert b == b[..7] + b[7..];
    assert FromLE(b[7..]) == b[7];
    assert Pow256(8) == 256 * Pow256(7);
  }

  /** A stored checkpoint is loaded exactly if it parses, is for the instance's own binary, and, if it
      has a lineage, the key in it verifies its signature over everything else. */
  lemma LoadsIff(w: Value, c: Crypto, b: bytes)
    ensures
      Loaded(w, c, Some(b)).1.Ok?
      <==> && ParseCheckpointHeader(b).Ok? && |b| >= 57 && b[25..57] == w.meter.wasmHash
           && (b[0] == 4 ==> |b| >= 209 && c.verify(b[113..145], b[..145] + b[209..], b[145..209]))
    ensures
      var (r, outcome) := Loaded(w, c, Some(b));
      if outcome.Err? then r == w
      else
        var p := ParseCheckpointHeader(b).value;
        outcome.value == Some(p.state)
        && r == Value(p.header.meter, w.lease, if p.header.lineage.Some? then c.hash(b) else w.prevHash)
  {
    hide ParsedMeter, ParsedLease;
    if ParseCheckpointHeader(b).Ok? {
      HeaderFieldsAt(b);
    }
  }

  lemma SplitAtSignature(v: Value, c: Crypto, i: Identity, state: bytes)
    requires c.Valid() && i.Valid(c) && v.WellFormed()
    ensures |Unsigned(v, i.publicKey)| == SIGNATURE_AT
    ensures
      var s := c.sign(i.privateKey, BuildSigningDomain(Unsigned(v, i.publicKey), state));
      Built(v, c, Some(i), state) == Unsigned(v, i.publicKey) + s + state
    ensures Built(v, c, Some(i), state)[..SIGNATURE_AT] == Unsigned(v, i.publicKey)
  {
    hide MeterBytes, LeaseBytes, ParsedMeter, ParsedLease;
    MeterBytesParse(VERSION4, v.meter, []);
    LeaseBytesParse(MeterBytes(VERSION4, v.meter), LeaseOf(v), []);
  }

  /** A checkpoint is loadable, by any instance of the same binary, exactly when the budget and
      the price in it are not negative; then the loading instance has the builder's meter and
      continues its chain. */
  lemma LoadOfBuilt(v: Value, c: Crypto, id: Option<Identity>, state: bytes, w: Value)
    requires c.Valid() && v.WellFormed() && (id.Some? ==> id.value.Valid(c))
    requires w.WellFormed() && w.meter.wasmHash == v.meter.wasmHash
    ensures
      var (r, outcome) := Loaded(w, c, Some(Built(v, c, id, state)));
      && (outcome.Ok? <==> v.meter.budget >= 0 && v.meter.price >= 0)
      && (outcome.Ok? ==>
            && outcome.value == Some(state) && r.meter == v.meter
            && r.prevHash == (if id.Some? then AfterBuild(v, c, id, state).prevHash else w.prevHash))
      && (outcome.Err? ==> r == w)
  {
    hide HeaderBytes, ParseCheckpointHeader, Unsigned;
    var h := BuiltHeader(v, c, id, state);
    ParseOfBytes(h, state);
    if id.Some? {
      SplitAtSignature(v, c, id.value, state);
    }
  }

  /** The signature covers the whole file: what is signed is everything but the signature. */
  lemma SignedBytesAreAllButTheSignature(c: Crypto, b: bytes)
    requires ParseCheckpointHeader(b).Ok? && ParseCheckpointHeader(b).value.header.lineage.Some?
    ensures
      var p := ParseCheckpointHeader(b).value;
      |b| >= HEADER_LEN4 && b == b[..SIGNATURE_AT] + p.header.lineage.value.signature + p.state
  {
    hide ParsedMeter, ParsedLease;
  }

  // ----- The class -----

  class Checkpointer {
    const crypto: Crypto
    const identity: Option<Identity>
    const wasmHash: bytes
    const lease: Option<LeaseInfo>
    var budget: int64
    var price: int64
    var tick: uint64
    var prevHash: bytes

    function View(): Value
      reads this
    {
      Value(Meter(budget, price, tick, wasmHash), lease, prevHash)
    }

    constructor (c: Crypto, id: Option<Identity>, wasmHash: bytes, lease: Option<LeaseInfo>, budget: int64, price: int64)
      ensures crypto == c && identity == id
      ensures View() == Value(Meter(budget, price, 0, wasmHash), lease, Zeros(32))
    {
      crypto, identity, this.wasmHash, this.lease := c, id, wasmHash, lease;
      this.budget, this.price, tick, prevHash := budget, price, 0, Zeros(32);
    }

    method BuildCheckpoint(state: bytes) returns (r: Result<bytes>)
      requires crypto.Valid() && View().WellFormed()
      requires identity.Some? ==> |identity.value.publicKey| == 32
      modifies this`prevHash
      ensures r.Ok? <==> CanSign(identity)
      ensures r.Ok? ==> r.value == Built(old(View()), crypto, identity, state)
      ensures View() == AfterBuild(old(View()), crypto, identity, state)
      ensures prevHash == if r.Ok? && identity.Some? then crypto.hash(r.value) else old(prevHash)
    {
      hide HeaderBytes, Unsigned, Crypto.Valid;
      if identity.None? {
        var checkpoint := BuildUnsigned(View(), state);
        return Ok(checkpoint);
      }
      if |identity.value.privateKey| != 64 {
        return Err("sign checkpoint");
      }
      var checkpoint := BuildSigned(View(), identity.value, crypto, state);
      prevHash := crypto.hash(checkpoint);
      r := Ok(checkpoint);
    }

    static method BuildUnsigned(v: Value, state: bytes) returns (r: bytes)
      requires v.WellFormed()
      ensures r == HeaderBytes(Header(VERSION3, v.meter, LeaseOf(v), None)) + state
    {
      hide MeterBytes, LeaseBytes;
      MeterBytesParse(VERSION3, v.meter, []);
      LeaseBytesParse(MeterBytes(VERSION3, v.meter), LeaseOf(v), []);
      var buf := new byte[HEADER_LEN3 + |state|](_ => 0);
      PutMeter(buf, VERSION3, v.meter);
      PutLease(buf, LeaseOf(v));
      Put(buf, HEADER_LEN3, state);
      assert buf[..] == buf[..HEADER_LEN3 + |state|];
      r := buf[..];
    }

    static method BuildSigned(v: Value, id: Identity, c: Crypto, state: bytes) returns (r: bytes)
      requires c.Valid() && v.WellFormed() && |id.publicKey| == 32
      ensures r == Built(v, c, Some(id), state)
    {
      hide MeterBytes, LeaseBytes, Crypto.Valid;
      var buf := new byte[HEADER_LEN4 + |state|](_ => 0);
      PutUnsigned(buf, v, id.publicKey);
      var domain := BuildSigningDomain(buf[..SIGNATURE_AT], state);
      var signature := c.sign(id.privateKey, domain);
      SignatureSize(c, id.privateKey, domain);
      Put(buf, SIGNATURE_AT, signature);
      Put(buf, HEADER_LEN4, state);
      assert buf[..] == buf[..HEADER_LEN4 + |state|];
      r := buf[..];
    }

    static method PutUnsigned(buf: array<byte>, v: Value, publicKey: bytes)
      requires buf.Length >= HEADER_LEN4 && v.WellFormed() && |publicKey| == 32
      modifies buf
      ensures buf[..SIGNATURE_AT] == Unsigned(v, publicKey)
    {
      hide MeterBytes, LeaseBytes;
      MeterBytesParse(VERSION4, v.meter, []);
      LeaseBytesParse(MeterBytes(VERSION4, v.meter), LeaseOf(v), []);
      PutMeter(buf, VERSION4, v.meter);
      PutLease(buf, LeaseOf(v));
      Put(buf, 81, v.prevHash);
      Put(buf, 113, publicKey);
    }

    static lemma SignatureSize(c: Crypto, key: bytes, domain: bytes)
      requires c.Valid()
      ensures |c.sign(key, domain)| == 64
    {
    }

    static method PutMeter(buf: array<byte>, version: byte, m: Meter)
      requires buf.Length >= HEADER_LEN2 && |m.wasmHash| == 32
      modifies buf
      ensures buf[..HEADER_LEN2] == MeterBytes(version, m)
    {
      hide U64, I64;
      Put(buf, 0, [version]);
      Put(buf, 1, I64(m.budget));
      Put(buf, 9, I64(m.price));
      Put(buf, 17, U64(m.tick));
      Put(buf, 25, m.wasmHash);
    }

    static method PutLease(buf: array<byte>, l: LeaseInfo)
      requires buf.Length >= HEADER_LEN3
      modifies buf
      ensures buf[..HEADER_LEN3] == old(buf[..HEADER_LEN2]) + LeaseBytes(l)
    {
      hide U64, I64;
      Put(buf, 57, U64(l.major));
      Put(buf, 65, U64(l.generation));
      Put(buf, 73, I64(l.expiry));
    }

    method LoadCheckpoint(stored: Option<bytes>) returns (r: Result<Option<bytes>>)
      modifies this`budget, this`price, this`tick, this`prevHash
      ensures (View(), r) == Loaded(old(View()), crypto, stored)
    {
      hide ParsedMeter, ParsedLease;
      if stored.None? {
        return Ok(None);
      }
      var parsed := ParseCheckpointHeader(stored.value);
      if parsed.Err? {
        return Err("invalid checkpoint");
      }
      var p := parsed.value;
      if p.header.meter.wasmHash != wasmHash {
        return Err("WASM hash mismatch");
      }
      if p.header.lineage.Some? {
        if !GoodSignature(crypto, stored.value, p) {
          return Err("signature verification failed");
        }
        prevHash := crypto.hash(stored.value);
      }
      budget, price, tick := p.header.meter.budget, p.header.meter.price, p.header.meter.tick;
      r := Ok(Some(p.state));
    }
  }
}
