/** Verifying an archived checkpoint history (internal/inspector/chain.go). */
module Chains {
  import opened Bytes
  import opened Checkpoints

  datatype Fault =
    | FailedToRead(file: nat)
    | FailedToParse(file: nat)
    | NonMonotonic(tick: uint64, prev: uint64)
    | MissingLineage(tick: uint64)
    | InvalidSignature(tick: uint64)
    | PrevHashMismatch(tick: uint64, expected: bytes, got: bytes)
    | IdentityChanged(tick: uint64)

  /** A contiguous run of checkpoints made by one WASM binary. */
  datatype Segment = Segment(wasmHash: bytes, startTick: uint64, endTick: uint64, count: nat)

  datatype Report = Report(checkpoints: nat, firstTick: uint64, lastTick: uint64,
                           errors: seq<Fault>, segments: seq<Segment>, publicKey: Option<bytes>)

  /** What is remembered from one file to the next. */
  datatype Link = Link(prevHash: bytes, prevTick: uint64, segment: Option<Segment>, publicKey: bytes)

  const EMPTY_REPORT := Report(0, 0, 0, [], [], None)
  const NO_LINK := Link(Zeros(32), 0, None, [])

  // ----- One file -----

  function LineageFaults(l: Link, i: nat, data: bytes, p: Parsed, c: Crypto): seq<Fault>
    requires ParseCheckpointHeader(data) == Ok(p)
  {
    var tick := p.header.meter.tick;
    if p.header.lineage.None? then
      if i > 0 then [MissingLineage(tick)] else []
    else
      LongEnough(data);
      var x := p.header.lineage.value;
      (if !GoodSignature(c, data, p) then [InvalidSignature(tick)] else [])
      + (if i > 0 && x.prevHash != l.prevHash then [PrevHashMismatch(tick, l.prevHash, x.prevHash)] else [])
      + (if i > 0 && x.publicKey != l.publicKey then [IdentityChanged(tick)] else [])
  }

  lemma LongEnough(data: bytes)
    requires ParseCheckpointHeader(data).Ok? && ParseCheckpointHeader(data).value.header.lineage.Some?
    ensures |data| >= SIGNATURE_AT
  {
    hide ParsedMeter, ParsedLease, ParsedLineage;
  }

  function OrderFaults(l: Link, i: nat, tick: uint64): seq<Fault> {
    if i > 0 && tick <= l.prevTick then [NonMonotonic(tick, l.prevTick)] else []
  }

  function Extended(segments: seq<Segment>, current: Option<Segment>, m: Meter): (seq<Segment>, Segment) {
    if current.None? || segments == [] || current.value.wasmHash != m.wasmHash then
      var s := Segment(m.wasmHash, m.tick, m.tick, 1);
      (segments + [s], s)
    else
      var s := current.value.(endTick := m.tick, count := current.value.count + 1);
      (segments[|segments| - 1 := s], s)
  }

  function Verified(r: Report, l: Link, i: nat, data: bytes, p: Parsed, c: Crypto): (Report, Link)
    requires ParseCheckpointHeader(data) == Ok(p)
  {
    var m := p.header.meter;
    var named := i == 0 && p.header.lineage.Some?;
    var key := if named then p.header.lineage.value.publicKey else l.publicKey;
    var l0 := l.(publicKey := key);
    var (segments, segment) := Extended(r.segments, l.segment, m);
    (r.(firstTick := if i == 0 then m.tick else r.firstTick,
        publicKey := if named then Some(key) else r.publicKey,
        lastTick := m.tick,
        errors := r.errors + OrderFaults(l0, i, m.tick) + LineageFaults(l0, i, data, p, c),
        segments := segments),
     Link(c.hash(data), m.tick, Some(segment), key))
  }

  /** The first n files, in order; a file that could not be read is none. */
  function VerifiedAll(files: seq<Option<bytes>>, n: nat, c: Crypto): (Report, Link)
    requires n <= |files|
  {
    if n == 0 then (EMPTY_REPORT, NO_LINK)
    else
      var (r, l) := VerifiedAll(files, n - 1, c);
      if files[n - 1].None? then (r.(errors := r.errors + [FailedToRead(n - 1)]), l)
      else
        var data := files[n - 1].value;
        match ParseCheckpointHeader(data)
        case Err(_) => (r.(errors := r.errors + [FailedToParse(n - 1)]), l)
        case Ok(p) => Verified(r.(checkpoints := r.checkpoints + 1), l, n - 1, data, p, c)
  }

  predicate Valid(files: seq<Option<bytes>>, c: Crypto) {
    VerifiedAll(files, |files|, c).0.errors == []
  }

  // ----- What a valid history is -----

  ghost predicate Readable(file: Option<bytes>) {
    file.Some? && ParseCheckpointHeader(file.value).Ok?
  }

  ghost function HeaderOf(file: Option<bytes>): Header
    requires Readable(file)
  {
    ParseCheckpointHeader(file.value).value.header
  }

  ghost predicate Signed(file: Option<bytes>, c: Crypto) {
    && Readable(file) && HeaderOf(file).lineage.Some?
    && |file.value| >= SIGNATURE_AT
    && GoodSignature(c, file.value, ParseCheckpointHeader(file.value).value)
  }

  ghost predicate Follows(prev: Option<bytes>, next: Option<bytes>, c: Crypto)
    requires Signed(prev, c) && Signed(next, c)
  {
    && HeaderOf(next).lineage.value.prevHash == c.hash(prev.value)
    && HeaderOf(next).lineage.value.publicKey == HeaderOf(prev).lineage.value.publicKey
    && HeaderOf(prev).meter.tick < HeaderOf(next).meter.tick
  }

  /** All version 4 and properly signed, each the successor of the one before it. */
  ghost predicate Linked(files: seq<Option<bytes>>, c: Crypto) {
    && (forall k :: 0 <= k < |files| ==> Signed(files[k], c))
    && (forall k :: 0 < k < |files| ==> Follows(files[k - 1], files[k], c))
  }

  /** Once a file has failed nothing repairs the verdict. */
  lemma {:induction false} ErrorsStay(files: seq<Option<bytes>>, m: nat, n: nat, c: Crypto)
    requires m <= n <= |files|
    ensures VerifiedAll(files, m, c).0.errors <= VerifiedAll(files, n, c).0.errors
  {
    hide ParseCheckpointHeader, LineageFaults, OrderFaults, Extended;
    if m < n {
      ErrorsStay(files, m, n - 1, c);
    }
  }

  // ----- What the report says -----

  /** The last of the first n files that can be read and parsed. */
  ghost function LastReadable(files: seq<Option<bytes>>, n: nat): (j: Option<nat>)
    requires n <= |files|
    ensures j.Some? ==> j.value < n && Readable(files[j.value])
  {
    if n == 0 then None else if Readable(files[n - 1]) then Some(n - 1) else LastReadable(files, n - 1)
  }

  ghost function ReadableCount(files: seq<Option<bytes>>, n: nat): nat
    requires n <= |files|
  {
    if n == 0 then 0 else ReadableCount(files, n - 1) + if Readable(files[n - 1]) then 1 else 0
  }

  /** The hash, tick and key that file k is compared with. */
  ghost function HashBefore(files: seq<Option<bytes>>, k: nat, c: Crypto): bytes
    requires k <= |files|
  {
    var j := LastReadable(files, k);
    if j.None? then Zeros(32) else c.hash(files[j.value].value)
  }

  ghost function TickBefore(files: seq<Option<bytes>>, k: nat): uint64
    requires k <= |files|
  {
    var j := LastReadable(files, k);
    if j.None? then 0 else HeaderOf(files[j.value]).meter.tick
  }

  ghost function FirstKey(files: seq<Option<bytes>>, k: nat): bytes
    requires k <= |files|
  {
    if k > 0 && Readable(files[0]) && HeaderOf(files[0]).lineage.Some? then HeaderOf(files[0]).lineage.value.publicKey else []
  }

  /** The report's numbers and what is remembered for the next file. */
  lemma {:induction false} NumbersSay(files: seq<Option<bytes>>, n: nat, c: Crypto)
    requires n <= |files|
    ensures
      var (r, l) := VerifiedAll(files, n, c);
      && r.checkpoints == ReadableCount(files, n)
      && r.firstTick == (if n > 0 && Readable(files[0]) then HeaderOf(files[0]).meter.tick else 0)
      && r.lastTick == TickBefore(files, n) && l.prevTick == TickBefore(files, n)
      && l.prevHash == HashBefore(files, n, c) && l.publicKey == FirstKey(files, n)
      && r.publicKey == (if n > 0 && Readable(files[0]) && HeaderOf(files[0]).lineage.Some? then Some(FirstKey(files, n)) else None)
  {
    hide ParseCheckpointHeader, LineageFaults, OrderFaults, Extended;
    if n > 0 {
      NumbersSay(files, n - 1, c);
    }
  }

  /** This fault is true of file k: it cannot be read or parsed; its signature does not verify over
      everything else in it; or, behind the first file, it has no lineage, is not later than the readable
      file before it, does not name that file's hash, or has another key than the first. */
  ghost predicate TrueOf(f: Fault, files: seq<Option<bytes>>, k: nat, c: Crypto)
    requires k < |files|
  {
    match f
    case FailedToRead(i) => i == k && files[k].None?
    case FailedToParse(i) => i == k && files[k].Some? && ParseCheckpointHeader(files[k].value).Err?
    case InvalidSignature(t) =>
      && Readable(files[k]) && HeaderOf(files[k]).lineage.Some? && HeaderOf(files[k]).meter.tick == t
      && var b := files[k].value;
      |b| >= 209 && !c.verify(b[113..145], b[..145] + b[209..], b[145..209])
    case MissingLineage(t) =>
      k > 0 && Readable(files[k]) && HeaderOf(files[k]).lineage.None? && HeaderOf(files[k]).meter.tick == t
    case NonMonotonic(t, prev) =>
      k > 0 && Readable(files[k]) && HeaderOf(files[k]).meter.tick == t && prev == TickBefore(files, k) && t <= prev
    case PrevHashMismatch(t, expected, got) =>
      && k > 0 && Readable(files[k]) && HeaderOf(files[k]).lineage.Some? && HeaderOf(files[k]).meter.tick == t
      && got == HeaderOf(files[k]).lineage.value.prevHash && expected == HashBefore(files, k, c) && expected != got
    case IdentityChanged(t) =>
      && k > 0 && Readable(files[k]) && HeaderOf(files[k]).lineage.Some? && HeaderOf(files[k]).meter.tick == t
      && HeaderOf(files[k]).lineage.value.publicKey != FirstKey(files, k)
  }

  lemma LastErrorsSay(files: seq<Option<bytes>>, k: nat, c: Crypto, f: Fault)
    requires k < |files|
    ensures
      f in VerifiedAll(files, k + 1, c).0.errors
      <==> f in VerifiedAll(files, k, c).0.errors || TrueOf(f, files, k, c)
  {
    hide ParseCheckpointHeader, Extended, HashBefore, TickBefore, FirstKey, LineageFaults, OrderFaults, TrueOf;
    NumbersSay(files, k, c);
    var (r, l) := VerifiedAll(files, k, c);
    if Readable(files[k]) {
      var data := files[k].value;
      var p := ParseCheckpointHeader(data).value;
      var named := k == 0 && p.header.lineage.Some?;
      var l0 := l.(publicKey := if named then p.header.lineage.value.publicKey else l.publicKey);
      LineageErrorsSay(files, k, l0, c, f);
      OrderErrorsSay(files, k, l0, c, f);
      assert VerifiedAll(files, k + 1, c).0.errors
          == r.errors + OrderFaults(l0, k, p.header.meter.tick) + LineageFaults(l0, k, data, p, c);
    } else {
      UnreadableErrorsSay(files, k, c, f);
      assert VerifiedAll(files, k + 1, c).0.errors == r.errors + [if files[k].None? then FailedToRead(k) else FailedToParse(k)];
    }
  }

  lemma UnreadableErrorsSay(files: seq<Option<bytes>>, k: nat, c: Crypto, f: Fault)
    requires k < |files| && !Readable(files[k])
    ensures TrueOf(f, files, k, c) <==> f == if files[k].None? then FailedToRead(k) else FailedToParse(k)
  {
    hide ParseCheckpointHeader;
  }

  lemma OrderErrorsSay(files: seq<Option<bytes>>, k: nat, l: Link, c: Crypto, f: Fault)
    requires k < |files| && Readable(files[k]) && l.prevTick == TickBefore(files, k)
    ensures f in OrderFaults(l, k, HeaderOf(files[k]).meter.tick) <==> f.NonMonotonic? && TrueOf(f, files, k, c)
  {
    hide ParseCheckpointHeader, TickBefore;
  }

  lemma LineageErrorsSay(files: seq<Option<bytes>>, k: nat, l: Link, c: Crypto, f: Fault)
    requires k < |files| && Readable(files[k])
    requires l.prevHash == HashBefore(files, k, c) && (k > 0 ==> l.publicKey == FirstKey(files, k))
    ensures
      f in LineageFaults(l, k, files[k].value, ParseCheckpointHeader(files[k].value).value, c)
      <==> !f.NonMonotonic? && TrueOf(f, files, k, c)
  {
    hide ParseCheckpointHeader, HashBefore, FirstKey, TickBefore;
    HeaderFieldsAt(files[k].value);
    BytesOfParse(files[k].value);
    assert HeaderOf(files[k]).WellFormed();
    assert HeaderOf(files[k]).lineage.Some? <==> HeaderOf(files[k]).version == VERSION4;
  }

  ghost predicate TrueOfSome(f: Fault, files: seq<Option<bytes>>, n: nat, c: Crypto)
    requires n <= |files|
  {
    exists k :: 0 <= k < n && TrueOf(f, files, k, c)
  }

  lemma TrueOfOneMore(f: Fault, files: seq<Option<bytes>>, n: nat, c: Crypto)
    requires 0 < n <= |files|
    ensures TrueOfSome(f, files, n, c) <==> TrueOfSome(f, files, n - 1, c) || TrueOf(f, files, n - 1, c)
  {
    hide TrueOf;
  }

  /** The errors reported over the first n files are exactly the faults that are true of one of them. */
  lemma {:induction false} ErrorsSay(files: seq<Option<bytes>>, n: nat, c: Crypto, f: Fault)
    requires n <= |files|
    ensures f in VerifiedAll(files, n, c).0.errors <==> TrueOfSome(f, files, n, c)
  {
    hide TrueOf, TrueOfSome, VerifiedAll;
    if n == 0 {
      NoneTrue(files, c, f);
    } else {
      ErrorsSay(files, n - 1, c, f);
      LastErrorsSay(files, n - 1, c, f);
      TrueOfOneMore(f, files, n, c);
    }
  }

  lemma NoneTrue(files: seq<Option<bytes>>, c: Crypto, f: Fault)
    ensures VerifiedAll(files, 0, c).0.errors == [] && !TrueOfSome(f, files, 0, c)
  {
    hide TrueOf;
    assert VerifiedAll(files, 0, c) == (EMPTY_REPORT, NO_LINK);
  }

  ghost predicate LinkInv(files: seq<Option<bytes>>, n: nat, c: Crypto)
    requires 0 < n <= |files| && Signed(files[n - 1], c)
  {
    var l := VerifiedAll(files, n, c).1;
    && l.prevHash == c.hash(files[n - 1].value) && l.prevTick == HeaderOf(files[n - 1]).meter.tick
    && l.publicKey == HeaderOf(files[n - 1]).lineage.value.publicKey
  }

  lemma FirstFile(files: seq<Option<bytes>>, c: Crypto)
    requires |files| > 0
    ensures
      VerifiedAll(files, 1, c).0.errors == []
      <==> Readable(files[0]) && (HeaderOf(files[0]).lineage.Some? ==> Signed(files[0], c))
    ensures Signed(files[0], c) ==> LinkInv(files, 1, c)
    ensures Readable(files[0]) && HeaderOf(files[0]).lineage.None? ==> VerifiedAll(files, 1, c).1.publicKey == []
  {
    hide ParseCheckpointHeader, GoodSignature, Extended;
    assert VerifiedAll(files, 0, c) == (EMPTY_REPORT, NO_LINK);
    if Readable(files[0]) && HeaderOf(files[0]).lineage.Some? {
      LongEnough(files[0].value);
    }
  }

  lemma NextFile(files: seq<Option<bytes>>, n: nat, c: Crypto)
    requires 0 < n < |files| && VerifiedAll(files, n, c).0.errors == []
    requires Signed(files[n - 1], c) && LinkInv(files, n, c)
    ensures
      VerifiedAll(files, n + 1, c).0.errors == []
      <==> Signed(files[n], c) && Follows(files[n - 1], files[n], c)
    ensures Signed(files[n], c) && Follows(files[n - 1], files[n], c) ==> LinkInv(files, n + 1, c)
  {
    hide ParseCheckpointHeader, GoodSignature, Extended;
    if Readable(files[n]) && HeaderOf(files[n]).lineage.Some? {
      LongEnough(files[n].value);
    }
  }

  lemma {:induction false} ValidPrefix(files: seq<Option<bytes>>, n: nat, c: Crypto)
    requires 0 < n <= |files| && Signed(files[0], c)
    ensures VerifiedAll(files, n, c).0.errors == [] <==> Linked(files[..n], c)
    ensures Linked(files[..n], c) ==> Signed(files[n - 1], c) && LinkInv(files, n, c)
  {
    hide VerifiedAll, Signed, Follows, LinkInv;
    FirstFile(files, c);
    if n == 1 {
      LoneLinked(files, c);
    } else {
      ValidPrefix(files, n - 1, c);
      LinkedStep(files, n - 1, c);
      ErrorsStay(files, n - 1, n, c);
      if Linked(files[..n - 1], c) {
        NextFile(files, n - 1, c);
      }
    }
  }

  lemma LoneLinked(files: seq<Option<bytes>>, c: Crypto)
    requires |files| > 0 && Signed(files[0], c)
    ensures Readable(files[0]) && Linked(files[..1], c)
  {
    hide GoodSignature, ParseCheckpointHeader;
  }

  lemma LinkedStep(files: seq<Option<bytes>>, n: nat, c: Crypto)
    requires 0 < n < |files|
    ensures
      Linked(files[..n + 1], c)
      <==> Linked(files[..n], c) && Signed(files[n], c) && Follows(files[n - 1], files[n], c)
  {
    hide Signed, Follows;
    var a, b := files[..n], files[..n + 1];
    assert forall k :: 0 <= k < n ==> a[k] == b[k];
    assert b[n] == files[n] && b[n - 1] == files[n - 1];
  }

  /** Two or more files are accepted exactly when they all are signed version 4 checkpoints
      under the first one's key, chained by hash, with strictly increasing ticks. */
  lemma ValidIff(files: seq<Option<bytes>>, c: Crypto)
    requires |files| >= 2
    ensures Valid(files, c) <==> Linked(files, c)
  {
    hide VerifiedAll;
    assert files[..|files|] == files;
    if Signed(files[0], c) {
      ValidPrefix(files, |files|, c);
    } else {
      UnsignedFirstFails(files, c);
      ErrorsStay(files, 2, |files|, c);
    }
  }

  /** An unsigned first file is only noticed at the second one. */
  lemma UnsignedFirstFails(files: seq<Option<bytes>>, c: Crypto)
    requires |files| >= 2 && !Signed(files[0], c)
    ensures VerifiedAll(files, 2, c).0.errors != []
  {
    hide GoodSignature, Extended;
    FirstFile(files, c);
    ErrorsStay(files, 1, 2, c);
    if VerifiedAll(files, 1, c).0.errors == [] && Readable(files[1]) && HeaderOf(files[1]).lineage.Some? {
      LongEnough(files[1].value);
      LineageKey(files[1].value);
    }
  }

  lemma LineageKey(data: bytes)
    requires ParseCheckpointHeader(data).Ok? && ParseCheckpointHeader(data).value.header.lineage.Some?
    ensures |ParseCheckpointHeader(data).value.header.lineage.value.publicKey| == 32
  {
    hide ParsedMeter, ParsedLease;
  }

  /** A file that cannot be read or parsed spoils any history it is in. */
  lemma UnreadableFails(files: seq<Option<bytes>>, k: nat, c: Crypto)
    requires k < |files| && !Readable(files[k])
    ensures !Valid(files, c)
  {
    hide ParseCheckpointHeader, Verified;
    assert VerifiedAll(files, k + 1, c).0.errors != [];
    ErrorsStay(files, k + 1, |files|, c);
  }

  /** A lone file is accepted unsigned as well; but a signature, if there, must be good. */
  lemma SingleFileValidIff(file: Option<bytes>, c: Crypto)
    ensures Valid([file], c) <==> Readable(file) && (HeaderOf(file).lineage.Some? ==> Signed(file, c))
  {
    hide VerifiedAll;
    FirstFile([file], c);
  }

  // ----- Tampering -----

  /** Two different files with the same hash. */
  predicate Collide(x: Option<bytes>, y: Option<bytes>, c: Crypto) {
    x.Some? && y.Some? && x != y && c.hash(x.value) == c.hash(y.value)
  }

  ghost predicate HaveCollision(a: seq<Option<bytes>>, b: seq<Option<bytes>>, c: Crypto) {
    exists i, j :: 0 <= i < |a| && 0 <= j < |b| && Collide(a[i], b[j], c)
  }

  /** The last checkpoint fixes the whole history behind it: of two linked histories that end
      alike, the shorter one is the end of the longer one, or a hash collision is among them. */
  lemma {:induction false} LastCheckpointFixesHistory(a: seq<Option<bytes>>, b: seq<Option<bytes>>, c: Crypto)
    requires Linked(a, c) && Linked(b, c)
    requires 0 < |a| <= |b| && a[|a| - 1] == b[|b| - 1]
    ensures a == b[|b| - |a|..] || HaveCollision(a, b, c)
  {
    hide Signed, GoodSignature, ParseCheckpointHeader, Collide;
    var m, n := |a| - 1, |b| - 1;
    if m > 0 {
      PredecessorsHash(a, b, c);
      if a[m - 1] == b[n - 1] {
        assert Linked(a[..m], c) && Linked(b[..n], c) by { PrefixLinked(a, m, c); PrefixLinked(b, n, c); }
        LastCheckpointFixesHistory(a[..m], b[..n], c);
        if HaveCollision(a[..m], b[..n], c) {
          var i, j :| 0 <= i < m && 0 <= j < n && Collide(a[..m][i], b[..n][j], c);
          assert Collide(a[i], b[j], c);
        } else {
          assert a == a[..m] + [a[m]] && b[n - m..] == b[..n][n - m..] + [b[n]];
        }
      } else {
        assert Collide(a[m - 1], b[n - 1], c);
      }
    }
  }

  lemma PrefixLinked(files: seq<Option<bytes>>, n: nat, c: Crypto)
    requires n <= |files| && Linked(files, c)
    ensures Linked(files[..n], c)
  {
    hide Signed, Follows;
  }

  lemma PredecessorsHash(a: seq<Option<bytes>>, b: seq<Option<bytes>>, c: Crypto)
    requires Linked(a, c) && Linked(b, c)
    requires 1 < |a| && 1 < |b| && a[|a| - 1] == b[|b| - 1]
    ensures a[|a| - 2] == b[|b| - 2] || Collide(a[|a| - 2], b[|b| - 2], c)
  {
    hide GoodSignature, ParseCheckpointHeader;
    var x, y := a[|a| - 2], b[|b| - 2];
    assert Follows(a[|a| - 1 - 1], a[|a| - 1], c) && Follows(b[|b| - 1 - 1], b[|b| - 1], c);
    assert Signed(x, c) && Signed(y, c);
  }

  /** Two accepted histories of equal length with the same last checkpoint are identical, or
      exhibit a collision: tampering with anything before the last checkpoint takes one. */
  lemma EqualLengthHistoriesAreIdentical(a: seq<Option<bytes>>, b: seq<Option<bytes>>, c: Crypto)
    requires |a| == |b| && |a| >= 2
    requires Valid(a, c) && Valid(b, c) && a[|a| - 1] == b[|b| - 1]
    ensures a == b || HaveCollision(a, b, c)
  {
    hide VerifiedAll, Linked, HaveCollision;
    ValidIff(a, c);
    ValidIff(b, c);
    LastCheckpointFixesHistory(a, b, c);
  }

  // ----- Segments -----

  /** The meters of the first n files that could be read and parsed. */
  ghost function Meters(files: seq<Option<bytes>>, n: nat): seq<Meter>
    requires n <= |files|
  {
    if n == 0 then []
    else Meters(files, n - 1) + if Readable(files[n - 1]) then [HeaderOf(files[n - 1]).meter] else []
  }

  /** The segments are the run-length encoding of the meters' WASM hashes: maximal runs, in
      order, from the run's first tick to its last. */
  ghost predicate IsRunLength(segments: seq<Segment>, ms: seq<Meter>)
    decreases |segments|
  {
    if segments == [] then ms == []
    else
      var n := |segments| - 1;
      var s := segments[n];
      && 0 < s.count <= |ms|
      && (forall k :: |ms| - s.count <= k < |ms| ==> ms[k].wasmHash == s.wasmHash)
      && s.startTick == ms[|ms| - s.count].tick && s.endTick == ms[|ms| - 1].tick
      && (n > 0 ==> segments[n - 1].wasmHash != s.wasmHash)
      && IsRunLength(segments[..n], ms[..|ms| - s.count])
  }

  lemma NewRun(segments: seq<Segment>, ms: seq<Meter>, m: Meter)
    requires IsRunLength(segments, ms)
    requires segments != [] ==> segments[|segments| - 1].wasmHash != m.wasmHash
    ensures IsRunLength(segments + [Segment(m.wasmHash, m.tick, m.tick, 1)], ms + [m])
  {
    var next := segments + [Segment(m.wasmHash, m.tick, m.tick, 1)];
    assert next[..|segments|] == segments && (ms + [m])[..|ms|] == ms;
  }

  lemma LongerRun(segments: seq<Segment>, ms: seq<Meter>, m: Meter)
    requires IsRunLength(segments, ms) && segments != [] && segments[|segments| - 1].wasmHash == m.wasmHash
    ensures
      var n := |segments| - 1;
      IsRunLength(segments[n := segments[n].(endTick := m.tick, count := segments[n].count + 1)], ms + [m])
  {
    var n := |segments| - 1;
    var next, all := segments[n := segments[n].(endTick := m.tick, count := segments[n].count + 1)], ms + [m];
    assert next[..n] == segments[..n] && all[..|all| - next[n].count] == ms[..|ms| - segments[n].count];
  }

  lemma ExtendedIsRunLength(segments: seq<Segment>, current: Option<Segment>, ms: seq<Meter>, m: Meter)
    requires IsRunLength(segments, ms)
    requires current == if segments == [] then None else Some(segments[|segments| - 1])
    ensures
      var (next, s) := Extended(segments, current, m);
      IsRunLength(next, ms + [m]) && next != [] && s == next[|next| - 1]
  {
    hide IsRunLength;
    if segments != [] && segments[|segments| - 1].wasmHash == m.wasmHash {
      LongerRun(segments, ms, m);
    } else {
      NewRun(segments, ms, m);
    }
  }

  /** Whatever the files hold, the reported segments are that encoding of the readable ones. */
  lemma {:induction false} SegmentsAreRunLength(files: seq<Option<bytes>>, n: nat, c: Crypto)
    requires n <= |files|
    ensures
      var (r, l) := VerifiedAll(files, n, c);
      && IsRunLength(r.segments, Meters(files, n))
      && l.segment == (if r.segments == [] then None else Some(r.segments[|r.segments| - 1]))
      && r.checkpoints == |Meters(files, n)|
  {
    hide ParseCheckpointHeader, LineageFaults, OrderFaults, Extended, IsRunLength;
    if n == 0 {
      EmptyRunLength();
    } else {
      SegmentsAreRunLength(files, n - 1, c);
      var (r, l) := VerifiedAll(files, n - 1, c);
      assert Meters(files, n - 1) + [] == Meters(files, n - 1);
      if Readable(files[n - 1]) {
        ExtendedIsRunLength(r.segments, l.segment, Meters(files, n - 1), HeaderOf(files[n - 1]).meter);
      }
    }
  }

  lemma EmptyRunLength()
    ensures IsRunLength([], [])
  {
  }

  /** There is only one such encoding. */
  lemma {:induction false} RunLengthIsUnique(a: seq<Segment>, b: seq<Segment>, ms: seq<Meter>)
    requires IsRunLength(a, ms) && IsRunLength(b, ms)
    ensures a == b
    decreases |ms|
  {
    if a != [] && b != [] {
      var m, n := |a| - 1, |b| - 1;
      RunNotShorter(a, b, ms);
      RunNotShorter(b, a, ms);
      RunLengthIsUnique(a[..m], b[..n], ms[..|ms| - a[m].count]);
      assert a == a[..m] + [a[m]] && b == b[..n] + [b[n]];
    }
  }

  /** A run is maximal: the meter before it has another hash. */
  lemma RunIsMaximal(a: seq<Segment>, ms: seq<Meter>)
    requires IsRunLength(a, ms) && a != []
    ensures
      var k := |ms| - a[|a| - 1].count;
      0 <= k < |ms| && (k == 0 || ms[k - 1].wasmHash != ms[|ms| - 1].wasmHash)
  {
    var n := |a| - 1;
    var k := |ms| - a[n].count;
    assert a[..n] != [] ==> ms[..k][k - 1].wasmHash == a[..n][n - 1].wasmHash;
  }

  lemma RunNotShorter(a: seq<Segment>, b: seq<Segment>, ms: seq<Meter>)
    requires IsRunLength(a, ms) && IsRunLength(b, ms) && a != [] && b != []
    ensures b[|b| - 1].count <= a[|a| - 1].count && a[|a| - 1].wasmHash == b[|b| - 1].wasmHash
  {
    RunIsMaximal(a, ms);
    var k := |ms| - a[|a| - 1].count;
    assert ms[|ms| - 1].wasmHash == b[|b| - 1].wasmHash;
    assert k > 0 ==> ms[k - 1].wasmHash != ms[|ms| - 1].wasmHash;
  }

  // ----- The methods -----

  class ChainResult {
    var checkpoints: nat
    var firstTick: uint64
    var lastTick: uint64
    var chainValid: bool
    var errors: seq<Fault>
    var segments: seq<Segment>
    var publicKey: Option<bytes>

    function View(): Report
      reads this
    {
      Report(checkpoints, firstTick, lastTick, errors, segments, publicKey)
    }

    constructor ()
      ensures View() == EMPTY_REPORT && chainValid
    {
      checkpoints, firstTick, lastTick, chainValid, errors, segments, publicKey := 0, 0, 0, true, [], [], None;
    }

    method AddError(f: Fault)
      modifies this`errors
      ensures errors == old(errors) + [f]
    {
      errors := errors + [f];
    }
  }

  class ChainState {
    var prevContentHash: bytes
    var prevTick: uint64
    var currentSegment: Option<Segment>
    var agentPubKey: bytes

    function View(): Link
      reads this
    {
      Link(prevContentHash, prevTick, currentSegment, agentPubKey)
    }

    constructor ()
      ensures View() == NO_LINK
    {
      prevContentHash, prevTick, currentSegment, agentPubKey := Zeros(32), 0, None, [];
    }
  }

  method VerifyLineage(result: ChainResult, cs: ChainState, i: nat, data: bytes, p: Parsed, c: Crypto)
    requires ParseCheckpointHeader(data) == Ok(p)
    modifies result`errors
    ensures result.errors == old(result.errors) + LineageFaults(cs.View(), i, data, p, c)
  {
    hide GoodSignature, ParseCheckpointHeader;
    var tick := p.header.meter.tick;
    if p.header.lineage.None? {
      if i > 0 {
        result.AddError(MissingLineage(tick));
      }
      return;
    }
    LongEnough(data);
    var x := p.header.lineage.value;
    if !GoodSignature(c, data, p) {
      result.AddError(InvalidSignature(tick));
    }
    if i > 0 {
      if x.prevHash != cs.prevContentHash {
        result.AddError(PrevHashMismatch(tick, cs.prevContentHash, x.prevHash));
      }
      if x.publicKey != cs.agentPubKey {
        result.AddError(IdentityChanged(tick));
      }
    }
  }

  method UpdateSegments(result: ChainResult, cs: ChainState, m: Meter)
    requires cs.currentSegment.Some? ==> result.segments != []
    modifies result`segments, cs`currentSegment
    ensures cs.currentSegment.Some?
    ensures (result.segments, cs.currentSegment.value) == Extended(old(result.segments), old(cs.currentSegment), m)
    ensures result.segments != []
  {
    if cs.currentSegment.None? || cs.currentSegment.value.wasmHash != m.wasmHash {
      cs.currentSegment := Some(Segment(m.wasmHash, m.tick, m.tick, 1));
      result.segments := result.segments + [cs.currentSegment.value];
    } else {
      cs.currentSegment := Some(cs.currentSegment.value.(endTick := m.tick, count := cs.currentSegment.value.count + 1));
      result.segments := result.segments[|result.segments| - 1 := cs.currentSegment.value];
    }
  }

  method VerifyCheckpoint(result: ChainResult, cs: ChainState, i: nat, data: bytes, p: Parsed, c: Crypto)
    requires ParseCheckpointHeader(data) == Ok(p)
    requires cs.currentSegment.Some? ==> result.segments != []
    modifies result, cs
    ensures result.chainValid == old(result.chainValid) && result.segments != []
    ensures (result.View(), cs.View()) == Verified(old(result.View()), old(cs.View()), i, data, p, c)
  {
    hide ParseCheckpointHeader, LineageFaults, Extended;
    var m := p.header.meter;
    if i == 0 {
      result.firstTick := m.tick;
      if p.header.lineage.Some? {
        cs.agentPubKey := p.header.lineage.value.publicKey;
        result.publicKey := Some(cs.agentPubKey);
      }
    }
    result.lastTick := m.tick;
    if i > 0 && m.tick <= cs.prevTick {
      result.AddError(NonMonotonic(m.tick, cs.prevTick));
    }
    assert result.errors == old(result.errors) + OrderFaults(cs.View(), i, m.tick);
    VerifyLineage(result, cs, i, data, p, c);
    UpdateSegments(result, cs, m);
    cs.prevContentHash := c.hash(data);
    cs.prevTick := m.tick;
  }

  /** The files in name order; none when the directory holds no checkpoint file. */
  method VerifyChain(files: seq<Option<bytes>>, c: Crypto) returns (r: Option<ChainResult>)
    ensures r.None? <==> files == []
    ensures
      r.Some? ==>
        && r.value.View() == VerifiedAll(files, |files|, c).0
        && (r.value.chainValid <==> Valid(files, c))
  {
    hide ParseCheckpointHeader, Verified;
    if |files| == 0 {
      return None;
    }
    var result := new ChainResult();
    var cs := new ChainState();
    for i := 0 to |files|
      invariant (result.View(), cs.View()) == VerifiedAll(files, i, c)
      invariant cs.currentSegment.Some? ==> result.segments != []
      invariant result.chainValid
    {
      if files[i].None? {
        result.AddError(FailedToRead(i));
        continue;
      }
      var data := files[i].value;
      var parsed := ParseCheckpointHeader(data);
      if parsed.Err? {
        result.AddError(FailedToParse(i));
        continue;
      }
      result.checkpoints := result.checkpoints + 1;
      VerifyCheckpoint(result, cs, i, data, parsed.value, c);
    }
    if |result.errors| > 0 {
      result.chainValid := false;
    }
    r := Some(result);
  }
}
