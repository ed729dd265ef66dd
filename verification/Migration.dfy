/** Moving an agent (internal/migration): the retrying source, the deciding target, and how
    failures are classified. */
module Migrations {
  import opened Bytes
  import opened Authority
  import opened Checkpoints

  // ----- Failures -----

  const TARGET_FAILED := "target failed to start agent: "
  const WASM_HASH := "WASM hash"
  const WASM_MISMATCH := "WASM binary hash mismatch"
  const CAPABILITY_FAILED := "capability check failed"
  const MIGRATION_DISABLED := "agent migration policy disabled"
  const HANDOFF_FAILED := "lease handoff transition"

  const FATAL: seq<string> := [WASM_HASH, WASM_MISMATCH, CAPABILITY_FAILED, MIGRATION_DISABLED, HANDOFF_FAILED]

  datatype Failure = Failed(msg: string) | TransferSent

  predicate HasPrefix(s: string, prefix: string) {
    |prefix| <= |s| && s[..|prefix|] == prefix
  }

  predicate Contains(s: string, part: string) {
    exists i :: 0 <= i <= |s| && HasPrefix(s[i..], part)
  }

  predicate NamesFatal(msg: string) {
    exists k :: 0 <= k < |FATAL| && Contains(msg, FATAL[k])
  }

  predicate IsRetriable(e: Option<Failure>) {
    if e.None? then false
    else if e.value.TransferSent? then false
    else if NamesFatal(e.value.msg) then false
    else if HasPrefix(e.value.msg, TARGET_FAILED) then !NamesFatal(e.value.msg[|TARGET_FAILED|..])
    else true
  }

  predicate IsAmbiguous(e: Option<Failure>) {
    e.Some? && e.value.TransferSent?
  }

  lemma ContainsWithin(s: string, n: nat, part: string)
    requires n <= |s| && Contains(s[n..], part)
    ensures Contains(s, part)
  {
    var i :| 0 <= i <= |s[n..]| && HasPrefix(s[n..][i..], part);
    assert s[n..][i..] == s[n + i..];
  }

  /** The second look, behind the target's prefix, never finds more than the first. */
  lemma RetriableIff(msg: string)
    ensures IsRetriable(Some(Failed(msg))) <==> !NamesFatal(msg)
  {
    var n := |TARGET_FAILED|;
    if HasPrefix(msg, TARGET_FAILED) && NamesFatal(msg[n..]) {
      var k :| 0 <= k < |FATAL| && Contains(msg[n..], FATAL[k]);
      ContainsWithin(msg, n, FATAL[k]);
    }
  }

  /** No failure is both: an ambiguous one is never retried. */
  lemma AmbiguousIsNotRetriable(e: Option<Failure>)
    ensures IsAmbiguous(e) ==> !IsRetriable(e)
    ensures IsRetriable(e) ==> e.Some? && e.value.Failed?
  {
  }

  lemma FatalIsNotRetriable(before: string, k: nat, after: string)
    requires k < |FATAL|
    ensures !IsRetriable(Some(Failed(before + FATAL[k] + after)))
  {
    hide FATAL;
    var s, i := before + FATAL[k] + after, |before|;
    assert s[i..] == FATAL[k] + after;
    assert HasPrefix(s[i..], FATAL[k]);
  }

  // ----- The package -----

  datatype Package = Package(agentID: string, wasm: bytes, wasmHash: bytes, checkpoint: bytes, manifest: bytes,
                             budget: int64, price: int64, receipts: bytes, major: uint64, generation: uint64,
                             identity: bytes)

  /** The epoch and the meter come out of the stored checkpoint; zeros when it does not parse. */
  function Packaged(agentID: string, wasm: bytes, manifest: bytes, checkpoint: bytes, receipts: Option<bytes>,
                    identity: bytes, c: Crypto): Package {
    var h := ParseCheckpointHeader(checkpoint);
    Package(agentID, wasm, c.hash(wasm), checkpoint, manifest,
            if h.Ok? then h.value.header.meter.budget else 0,
            if h.Ok? then h.value.header.meter.price else 0,
            if receipts.Some? then receipts.value else [],
            if h.Ok? then h.value.header.lease.major else 0,
            if h.Ok? then h.value.header.lease.generation else 0,
            identity)
  }

  /** The package is the source's own files as they are, the binary's hash, and the meter and epoch
      that the checkpoint in it carries. */
  lemma PackageSays(agentID: string, wasm: bytes, manifest: bytes, checkpoint: bytes, receipts: Option<bytes>,
                    identity: bytes, c: Crypto)
    ensures
      var p := Packaged(agentID, wasm, manifest, checkpoint, receipts, identity, c);
      && p.agentID == agentID && p.wasm == wasm && p.wasmHash == c.hash(wasm)
      && p.checkpoint == checkpoint && p.manifest == manifest && p.identity == identity
      && (receipts.Some? ==> p.receipts == receipts.value) && (receipts.None? ==> p.receipts == [])
      && (if ParseCheckpointHeader(checkpoint).Err? then p.budget == 0 && p.price == 0 && p.major == 0 && p.generation == 0
          else
            && |checkpoint| >= 57 && I64(p.budget) == checkpoint[1..9] && I64(p.price) == checkpoint[9..17]
            && (checkpoint[0] >= 3 ==>
                  |checkpoint| >= 81 && U64(p.major) == checkpoint[57..65] && U64(p.generation) == checkpoint[65..73])
            && (checkpoint[0] < 3 ==> p.major == 0 && p.generation == 0))
  {
    hide U64, I64, ParsedMeter, ParsedLease;
    if ParseCheckpointHeader(checkpoint).Ok? {
      HeaderFieldsAt(checkpoint);
    }
  }

  /** The package of a checkpoint that was saved under a lease carries that lease's epoch, so the lease
      its target is granted supersedes the saver's own. */
  lemma PackageCarriesLease(v: Value, c: Crypto, id: Option<Identity>, state: bytes, agentID: string, wasm: bytes,
                            manifest: bytes, receipts: Option<bytes>, identity: bytes)
    requires c.Valid() && v.WellFormed() && (id.Some? ==> id.value.Valid(c))
    requires v.meter.budget >= 0 && v.meter.price >= 0 && v.lease.Some?
    ensures
      var p := Packaged(agentID, wasm, manifest, Built(v, c, id, state), receipts, identity, c);
      && p.major == v.lease.value.major && p.generation == v.lease.value.generation
      && p.budget == v.meter.budget && p.price == v.meter.price
      && (p.major + 1 < TWO_TO_THE_64 ==>
            Epoch((p.major + 1) % TWO_TO_THE_64, 0).Supersedes(Epoch(v.lease.value.major, v.lease.value.generation)))
  {
    hide Built, ParseCheckpointHeader;
    BuiltSays(v, c, id, state);
  }

  // ----- The attempts of one run -----

  /** What becomes of one transfer. It counts as not delivered when sending it failed; when the
      confirmation is lost, the target may or may not have activated the agent. */
  datatype Outcome = NotSent(msg: string) | Refused(msg: string) | Confirmed | Lost(activated: bool)

  function FailureOf(o: Outcome): Option<Failure> {
    match o
    case NotSent(msg) => Some(Failed(msg))
    case Refused(msg) => Some(Failed(TARGET_FAILED + msg))
    case Confirmed => None
    case Lost(_) => Some(TransferSent)
  }

  /** The error of one transfer and what became of it determine each other. */
  lemma FailureOfExchange(x: Exchange, e: Option<Failure>)
    requires IsAmbiguous(e) <==> x.Sent() && x.reply.None?
    requires e.None? <==> x.Sent() && x.reply.Some? && x.reply.value.success
    requires x.Sent() && x.reply.Some? && !x.reply.value.success ==> e == Some(Failed(TARGET_FAILED + x.reply.value.error))
    requires !x.Sent() ==> e == Some(Failed(x.SendError()))
    ensures e == FailureOf(x.Result())
  {
  }

  /** The text of a failed transfer ends with the error of the first step that failed. */
  lemma SendErrorTells(x: Exchange) returns (what: string)
    requires !x.Sent()
    ensures
      x.SendError()
      == what + if x.address.Some? then x.address.value
                else if x.peer.Some? then x.peer.value
                else if x.connect.Some? then x.connect.value
                else if x.stream.Some? then x.stream.value
                else x.send.value
  {
    what := if x.address.Some? then "invalid target address: "
            else if x.peer.Some? then "failed to extract peer info: "
            else if x.connect.Some? then "failed to connect to target peer: "
            else if x.stream.Some? then "failed to open migration stream: "
            else "failed to send transfer: ";
  }

  predicate Activates(o: Outcome) {
    o.Confirmed? || (o.Lost? && o.activated)
  }

  datatype Started = Started(success: bool, error: string)

  /** One conversation with a target: the error of each sending step, if it fails, then the reply
      if it can be read, and whether a target whose reply is lost has activated the agent. */
  datatype Exchange = Exchange(address: Option<string>, peer: Option<string>, connect: Option<string>,
                               stream: Option<string>, send: Option<string>, reply: Option<Started>, activated: bool) {

    /** The whole transfer has left the source. */
    predicate Sent() {
      address.None? && peer.None? && connect.None? && stream.None? && send.None?
    }

    function SendError(): string {
      if address.Some? then "invalid target address: " + address.value
      else if peer.Some? then "failed to extract peer info: " + peer.value
      else if connect.Some? then "failed to connect to target peer: " + connect.value
      else if stream.Some? then "failed to open migration stream: " + stream.value
      else if send.Some? then "failed to send transfer: " + send.value
      else ""
    }

    /** What has become of the transfer. */
    function Result(): Outcome {
      if !Sent() then NotSent(SendError())
      else if reply.None? then Lost(activated)
      else if reply.value.success then Confirmed
      else Refused(reply.value.error)
    }
  }

  /** The network and the caller's context, by target index and attempt. */
  datatype Network = Network(exchange: (nat, nat) -> Exchange, cancelled: (nat, nat) -> bool) {
    function At(t: nat, a: nat): Outcome { exchange(t, a).Result() }
  }

  datatype Attempt = Attempt(target: nat, number: nat)

  datatype Ending = Succeeded(target: nat) | Ambiguous | Cancelled | Exhausted

  /** What follows from attempt `a` on target `t`: how the run ends, and what it tries. */
  function Tried(targets: nat, max: int, net: Network, t: nat, a: nat): (Ending, seq<Attempt>)
    decreases targets - t, max - a
  {
    if t >= targets then (Exhausted, [])
    else if a >= max then Tried(targets, max, net, t + 1, 0)
    else
      var o := net.At(t, a);
      if o.Confirmed? then (Succeeded(t), [Attempt(t, a)])
      else if o.Lost? then (Ambiguous, [Attempt(t, a)])
      else if !IsRetriable(FailureOf(o)) then After(t, a, Tried(targets, max, net, t + 1, 0))
      else if a < max - 1 && net.cancelled(t, a) then (Cancelled, [Attempt(t, a)])
      else After(t, a, Tried(targets, max, net, t, a + 1))
  }

  function After(t: nat, a: nat, rest: (Ending, seq<Attempt>)): (Ending, seq<Attempt>) {
    (rest.0, [Attempt(t, a)] + rest.1)
  }

  /** The targets on which the tries activated the agent. */
  function Activated(net: Network, tries: seq<Attempt>): seq<nat> {
    if tries == [] then []
    else (if Activates(net.At(tries[0].target, tries[0].number)) then [tries[0].target] else []) + Activated(net, tries[1..])
  }

  /** In any run at most one target activates the agent: the confirmed one, or, when the
      confirmation was lost, perhaps the one tried last; nothing is tried after either. */
  lemma {:induction false} AtMostOneActivates(targets: nat, max: int, net: Network, t: nat, a: nat)
    ensures
      var (ending, tries) := Tried(targets, max, net, t, a);
      match ending
      case Succeeded(x) => Activated(net, tries) == [x] && x < targets
      case Ambiguous => |Activated(net, tries)| <= 1
      case _ => Activated(net, tries) == []
    decreases targets - t, max - a
  {
    hide IsRetriable, Activated, Exchange.Result;
    if t >= targets {
      ActivatedByNone(net);
    } else if a >= max {
      AtMostOneActivates(targets, max, net, t + 1, 0);
    } else {
      var o := net.At(t, a);
      ActivatedByNone(net);
      if o.Confirmed? || o.Lost? {
        ActivatedByFirst(net, Attempt(t, a), []);
      } else if !IsRetriable(FailureOf(o)) {
        AtMostOneActivates(targets, max, net, t + 1, 0);
        ActivatedByFirst(net, Attempt(t, a), Tried(targets, max, net, t + 1, 0).1);
      } else if a < max - 1 && net.cancelled(t, a) {
        ActivatedByFirst(net, Attempt(t, a), []);
      } else {
        AtMostOneActivates(targets, max, net, t, a + 1);
        ActivatedByFirst(net, Attempt(t, a), Tried(targets, max, net, t, a + 1).1);
      }
    }
  }

  lemma ActivatedByNone(net: Network)
    ensures Activated(net, []) == []
  {
  }

  lemma ActivatedByFirst(net: Network, x: Attempt, rest: seq<Attempt>)
    ensures
      Activated(net, [x] + rest)
      == (if Activates(net.At(x.target, x.number)) then [x.target] else []) + Activated(net, rest)
    ensures rest == [] ==> Activated(net, [x]) == if Activates(net.At(x.target, x.number)) then [x.target] else []
  {
    hide Exchange.Result;
    assert ([x] + rest)[1..] == rest;
    assert rest == [] ==> [x] + rest == [x];
  }

  /** So when a run is over, either the source may tick and no target was started, or it may not. */
  lemma OneOwnerAfterRun(l: LeaseValue, targets: nat, max: int, net: Network)
    requires l.state == ActiveOwner
    ensures
      var (ending, tries) := Tried(targets, max, net, 0, 0);
      && (CanTick(Ended(l, ending).state) ==> Activated(net, tries) == [] && Ended(l, ending) == l)
      && (Ended(l, ending).state == Retired <==> ending.Succeeded?)
      && (Ended(l, ending).state == RecoveryRequired <==> ending.Ambiguous?)
      && Ended(l, ending).epoch == l.epoch && Ended(l, ending).expiry == l.expiry
  {
    hide Tried, Activated;
    AtMostOneActivates(targets, max, net, 0, 0);
  }

  /** The order of tries: after a retriable failure the same target, up to `max` times, then the
      next one; after a fatal failure the next one at once. */
  ghost predicate NextTry(max: int, net: Network, x: Attempt, y: Attempt) {
    var f := FailureOf(net.At(x.target, x.number));
    && f.Some? && !IsAmbiguous(f)
    && if IsRetriable(f) && x.number + 1 < max
       then y == Attempt(x.target, x.number + 1) && !net.cancelled(x.target, x.number)
       else y == Attempt(x.target + 1, 0)
  }

  lemma {:induction false} TriesInOrder(targets: nat, max: int, net: Network, t: nat, a: nat)
    requires max > 0
    ensures
      var tries := Tried(targets, max, net, t, a).1;
      && (tries != [] ==> tries[0] == if a < max then Attempt(t, a) else Attempt(t + 1, 0))
      && (forall k :: 0 < k < |tries| ==> NextTry(max, net, tries[k - 1], tries[k]))
    decreases targets - t, max - a
  {
    hide IsRetriable;
    var (ending, tries) := Tried(targets, max, net, t, a);
    if t < targets {
      if a >= max {
        TriesInOrder(targets, max, net, t + 1, 0);
      } else {
        var o := net.At(t, a);
        if (o.NotSent? || o.Refused?) && !IsRetriable(FailureOf(o)) {
          TriesInOrder(targets, max, net, t + 1, 0);
          BehindFirst(max, net, Attempt(t, a), Tried(targets, max, net, t + 1, 0).1);
        } else if (o.NotSent? || o.Refused?) && !(a < max - 1 && net.cancelled(t, a)) {
          TriesInOrder(targets, max, net, t, a + 1);
          BehindFirst(max, net, Attempt(t, a), Tried(targets, max, net, t, a + 1).1);
        }
      }
    }
  }

  lemma BehindFirst(max: int, net: Network, x: Attempt, rest: seq<Attempt>)
    requires rest != [] ==> NextTry(max, net, x, rest[0])
    requires forall k :: 0 < k < |rest| ==> NextTry(max, net, rest[k - 1], rest[k])
    ensures
      var tries := [x] + rest;
      forall k :: 0 < k < |tries| ==> NextTry(max, net, tries[k - 1], tries[k])
  {
    hide NextTry;
    var tries := [x] + rest;
    forall k | 0 < k < |tries|
      ensures NextTry(max, net, tries[k - 1], tries[k])
    {
      if k > 1 {
        assert tries[k - 1] == rest[k - 2] && tries[k] == rest[k - 1];
      }
    }
  }

  /** A run that ends exhausted has tried every target, the last one fatally or `max` times. */
  lemma {:induction false} ExhaustedTriesAll(targets: nat, max: int, net: Network, t: nat, a: nat)
    requires max > 0 && t < targets && a < max && Tried(targets, max, net, t, a).0.Exhausted?
    ensures
      var tries := Tried(targets, max, net, t, a).1;
      && tries != []
      && tries[|tries| - 1].target == targets - 1
      && (tries[|tries| - 1].number == max - 1
          || !IsRetriable(FailureOf(net.At(targets - 1, tries[|tries| - 1].number))))
    decreases targets - t, max - a
  {
    hide IsRetriable;
    var tries := Tried(targets, max, net, t, a).1;
    if !IsRetriable(FailureOf(net.At(t, a))) || a + 1 == max {
      assert a + 1 == max ==> Tried(targets, max, net, t, a + 1) == Tried(targets, max, net, t + 1, 0);
      if t + 1 < targets {
        ExhaustedTriesAll(targets, max, net, t + 1, 0);
      }
    } else {
      ExhaustedTriesAll(targets, max, net, t, a + 1);
    }
  }

  /** How a run ended is what became of its last try. */
  lemma {:induction false} LastTryDecides(targets: nat, max: int, net: Network, t: nat, a: nat)
    ensures
      var (ending, tries) := Tried(targets, max, net, t, a);
      if tries == [] then ending.Exhausted?
      else
        var x := tries[|tries| - 1];
        var o := net.At(x.target, x.number);
        match ending
        case Succeeded(y) => o.Confirmed? && y == x.target
        case Ambiguous => o.Lost?
        case Cancelled => IsRetriable(FailureOf(o)) && x.number < max - 1 && net.cancelled(x.target, x.number)
        case Exhausted => o.NotSent? || o.Refused?
    decreases targets - t, max - a
  {
    hide IsRetriable, Exchange.Result;
    if t < targets {
      if a >= max {
        LastTryDecides(targets, max, net, t + 1, 0);
      } else {
        var o := net.At(t, a);
        if (o.NotSent? || o.Refused?) && !IsRetriable(FailureOf(o)) {
          LastTryDecides(targets, max, net, t + 1, 0);
        } else if (o.NotSent? || o.Refused?) && !(a < max - 1 && net.cancelled(t, a)) {
          LastTryDecides(targets, max, net, t, a + 1);
        }
      }
    }
  }

  /** The primary target comes first, and never again; each candidate other than it follows in order. */
  lemma TargetsSay(primary: string, a: seq<string>, x: string)
    ensures Targets(primary, []) == if primary == "" then [] else [primary]
    ensures Targets(primary, a + [x]) == if x == primary then Targets(primary, a) else Targets(primary, a) + [x]
    ensures primary != "" ==> Targets(primary, a)[0] == primary && primary !in Targets(primary, a)[1..]
    ensures x in Targets(primary, a) <==> (x == primary && x != "") || (x in a && x != primary)
  {
    OthersSay(primary, a, x);
    assert (a + [x])[..|a|] == a;
    if primary != "" {
      OthersSay(primary, a, primary);
      assert Targets(primary, a)[1..] == Others(primary, a);
    }
  }

  lemma {:induction false} OthersSay(primary: string, a: seq<string>, x: string)
    ensures x in Others(primary, a) <==> x in a && x != primary
  {
    if a != [] {
      OthersSay(primary, a[..|a| - 1], x);
      assert a == a[..|a| - 1] + [a[|a| - 1]];
    }
  }

  /** The primary target first, then the candidates other than it. */
  function Targets(primary: string, candidates: seq<string>): seq<string> {
    (if primary != "" then [primary] else []) + Others(primary, candidates)
  }

  function Others(primary: string, candidates: seq<string>): seq<string> {
    if candidates == [] then []
    else
      var n := |candidates| - 1;
      Others(primary, candidates[..n]) + if candidates[n] != primary then [candidates[n]] else []
  }

  // ----- The target's decision -----

  datatype MigrationPolicy = MigrationPolicy(enabled: bool, maxPrice: int64)

  datatype Manifest = Manifest(policy: Option<MigrationPolicy>, maxMemory: int)

  const NODE_MEMORY: int := 67_108_864

  /** What the target finds out while it handles a package, apart from the checks below. */
  datatype Findings = Findings(replay: Option<string>, manifest: Result<Manifest>, missing: Option<string>,
                               saveError: Option<string>, identityError: Option<string>, loadError: Option<string>,
                               resumeError: Option<string>)

  /** Which of the target's storage operations that do not decide anything succeed. */
  datatype Writes = Writes(receipts: bool, identity: bool, orphanDeletion: bool)

  function ManifestRefusal(m: Manifest, nodePrice: int64, missing: Option<string>): Option<string> {
    if m.policy.Some? && !m.policy.value.enabled then Some(MIGRATION_DISABLED)
    else if m.policy.Some? && m.policy.value.maxPrice > 0 && nodePrice > m.policy.value.maxPrice then Some("node price exceeds agent max")
    else if m.maxMemory > 0 && m.maxMemory > NODE_MEMORY then Some("agent requires more memory than the node provides")
    else if missing.Some? then Some(CAPABILITY_FAILED + ": " + missing.value)
    else None
  }

  /** What the manifest asks for is what this node offers. */
  ghost predicate Admits(m: Manifest, nodePrice: int64) {
    && (m.policy.None?
        || (m.policy.value.enabled && (m.policy.value.maxPrice <= 0 || nodePrice <= m.policy.value.maxPrice)))
    && (m.maxMemory <= 0 || m.maxMemory <= 67_108_864)
  }

  /** What has to hold for a package to be stored. */
  ghost predicate Storable(pkg: Package, f: Findings, nodePrice: int64, c: Crypto) {
    && |pkg.wasmHash| == 32 && c.hash(pkg.wasm) == pkg.wasmHash
    && f.replay.None? && f.manifest.Ok? && Admits(f.manifest.value, nodePrice) && f.missing.None?
  }

  /** What has to hold for a stored package to be started: its checkpoint parses, is for the binary in
      the package, and is signed by the key in it if it has one. */
  ghost predicate Startable(pkg: Package, f: Findings, c: Crypto) {
    var b := pkg.checkpoint;
    && (pkg.identity == [] || f.identityError.None?) && f.loadError.None? && f.resumeError.None?
    && ParseCheckpointHeader(b).Ok? && |b| >= 57 && b[25..57] == c.hash(pkg.wasm)
    && (b[0] == 4 ==> |b| >= 209 && c.verify(b[113..145], b[..145] + b[209..], b[145..209]))
  }

  /** The target accepts exactly the packages that can be stored, are stored, and can be started. */
  lemma AcceptsIff(pkg: Package, f: Findings, nodePrice: int64, c: Crypto)
    ensures EarlyRefusal(pkg, f, nodePrice, c).None? <==> Storable(pkg, f, nodePrice, c)
    ensures
      Refusal(pkg, f, nodePrice, c).None?
      <==> Storable(pkg, f, nodePrice, c) && f.saveError.None? && Startable(pkg, f, c)
  {
    hide Loaded, ParseCheckpointHeader;
    LoadsIff(Blank(pkg, c), c, pkg.checkpoint);
  }

  /** The checks made before anything is stored. */
  function EarlyRefusal(pkg: Package, f: Findings, nodePrice: int64, c: Crypto): Option<string> {
    if |pkg.wasmHash| != 32 then Some(WASM_HASH + " missing or invalid length")
    else if c.hash(pkg.wasm) != pkg.wasmHash then Some(WASM_MISMATCH)
    else if f.replay.Some? then f.replay
    else if f.manifest.Err? then Some("invalid manifest: " + f.manifest.error)
    else ManifestRefusal(f.manifest.value, nodePrice, f.missing)
  }

  /** The blank instance that loads the package's checkpoint. */
  function Blank(pkg: Package, c: Crypto): Value {
    Value(Meter(pkg.budget, pkg.price, 0, c.hash(pkg.wasm)), None, Zeros(32))
  }

  function LoadRefusal(pkg: Package, f: Findings, c: Crypto): Option<string> {
    if pkg.identity != [] && f.identityError.Some? then Some("invalid agent identity: " + f.identityError.value)
    else if f.loadError.Some? then f.loadError
    else
      var outcome := Loaded(Blank(pkg, c), c, Some(pkg.checkpoint)).1;
      if outcome.Err? then Some("resume agent: " + outcome.error) else f.resumeError
  }

  function Refusal(pkg: Package, f: Findings, nodePrice: int64, c: Crypto): Option<string> {
    var early := EarlyRefusal(pkg, f, nodePrice, c);
    if early.Some? then early
    else if f.saveError.Some? then f.saveError
    else LoadRefusal(pkg, f, c)
  }

  /** A refusal for the binary, the policy or a capability ends the tries at that target: the
      words the target sends are ones the source looks for. */
  lemma PermanentRefusalsAreFatal(pkg: Package, f: Findings, nodePrice: int64, c: Crypto)
    requires
      || |pkg.wasmHash| != 32
      || c.hash(pkg.wasm) != pkg.wasmHash
      || (f.replay.None? && f.manifest.Ok? && f.manifest.value.policy.Some? && !f.manifest.value.policy.value.enabled)
      || (f.replay.None? && f.manifest.Ok? && f.missing.Some? && Admits(f.manifest.value, nodePrice))
    ensures
      var r := Refusal(pkg, f, nodePrice, c);
      r.Some? && !IsRetriable(FailureOf(Refused(r.value)))
  {
    hide IsRetriable, HasPrefix;
    var msg := Refusal(pkg, f, nodePrice, c).value;
    var k := if |pkg.wasmHash| != 32 then 0
             else if c.hash(pkg.wasm) != pkg.wasmHash then 1
             else if f.manifest.value.policy.Some? && !f.manifest.value.policy.value.enabled then 3
             else 2;
    var after := msg[|FATAL[k]|..];
    assert msg == FATAL[k] + after;
    FatalIsNotRetriable(TARGET_FAILED, k, after);
    assert TARGET_FAILED + msg == TARGET_FAILED + FATAL[k] + after;
  }

  /** What is accepted carries its checkpoint's own epoch, so the lease the target grants itself
      supersedes the one the checkpoint was saved under. */
  lemma AcceptedLeaseSupersedes(agentID: string, wasm: bytes, manifest: bytes, checkpoint: bytes, receipts: Option<bytes>,
                                identity: bytes, f: Findings, nodePrice: int64, c: Crypto)
    requires Refusal(Packaged(agentID, wasm, manifest, checkpoint, receipts, identity, c), f, nodePrice, c).None?
    ensures
      var pkg := Packaged(agentID, wasm, manifest, checkpoint, receipts, identity, c);
      && ParseCheckpointHeader(checkpoint).Ok?
      && var saved := ParseCheckpointHeader(checkpoint).value.header.lease;
      pkg.major == saved.major
      && (saved.major + 1 < TWO_TO_THE_64 ==>
            Epoch(Inc64(pkg.major), 0).Supersedes(Epoch(saved.major, saved.generation)))
  {
    hide ParseCheckpointHeader, GoodSignature, EarlyRefusal;
  }

  /** An untampered package survives the target's own hash, parse and signature checks exactly
      when the budget and the price in its checkpoint are not negative. */
  lemma HonestPackageLoads(v: Value, c: Crypto, id: Option<Identity>, state: bytes, agentID: string, wasm: bytes,
                           manifest: bytes, receipts: Option<bytes>, identity: bytes, f: Findings, nodePrice: int64)
    requires c.Valid() && v.WellFormed() && v.meter.wasmHash == c.hash(wasm) && (id.Some? ==> id.value.Valid(c))
    requires f.replay.None? && f.manifest.Ok? && Admits(f.manifest.value, nodePrice) && f.missing.None?
    requires f.saveError.None? && f.identityError.None? && f.loadError.None? && f.resumeError.None?
    ensures
      Refusal(Packaged(agentID, wasm, manifest, Built(v, c, id, state), receipts, identity, c), f, nodePrice, c).None?
      <==> v.meter.budget >= 0 && v.meter.price >= 0
  {
    hide Loaded, Built, ParseCheckpointHeader;
    var pkg := Packaged(agentID, wasm, manifest, Built(v, c, id, state), receipts, identity, c);
    HashSize(c, wasm);
    LoadOfBuilt(v, c, id, state, Blank(pkg, c));
  }

  lemma HashSize(c: Crypto, data: bytes)
    requires c.Valid()
    ensures |c.hash(data)| == 32
  {
  }

  // ----- The service -----

  class Agent {
    const lease: Lease?
    /** The serialized agent identity, empty without one. */
    const identity: bytes

    constructor (lease: Lease?, identity: bytes)
      ensures this.lease == lease && this.identity == identity
    {
      this.lease, this.identity := lease, identity;
    }
  }

  /** Which deletions succeed when the source cleans up; the first failing one ends it. */
  datatype Cleanup = Cleanup(checkpoint: bool, receipts: bool, identity: bool)

  /** The lease after a run that ended so. */
  function Ended(l: LeaseValue, e: Ending): LeaseValue {
    match e
    case Succeeded(_) => l.(state := Retired)
    case Ambiguous => l.(state := RecoveryRequired)
    case _ => l
  }

  class Service {
    const crypto: Crypto
    const leaseConfig: Config
    const nodePrice: int64
    var activeAgents: map<string, Agent>
    var checkpoints: map<string, bytes>
    var receipts: map<string, bytes>
    var identities: map<string, bytes>

    constructor (c: Crypto, cfg: Config, price: int64)
      ensures activeAgents == map[] && checkpoints == map[] && receipts == map[] && identities == map[]
      ensures crypto == c && leaseConfig == cfg && nodePrice == price
    {
      crypto, leaseConfig, nodePrice := c, cfg, price;
      activeAgents, checkpoints, receipts, identities := map[], map[], map[], map[];
    }

    function Leased(agentID: string): (l: Lease?)
      reads this
    {
      if agentID in activeAgents then activeAgents[agentID].lease else null
    }

    function LeaseSet(agentID: string): set<object>
      reads this
    {
      if Leased(agentID) == null then {} else {Leased(agentID)}
    }

    method RevertHandoff(agentID: string)
      modifies LeaseSet(agentID)
      ensures Leased(agentID) != null ==> Leased(agentID).View() == Reverted(old(Leased(agentID).View())).0
    {
      if agentID in activeAgents {
        var lease := activeAgents[agentID].lease;
        if lease != null {
          var ok := lease.RevertHandoff();
        }
      }
    }

    /** Only the instance that was migrated is removed; one registered meanwhile stays. */
    method FinalizeMigration(agentID: string, instance: Agent?, cleanup: Cleanup)
      modifies this, if instance != null && instance.lease != null then {instance.lease} else {}
      ensures
        activeAgents
        == if instance != null && agentID in old(activeAgents) && old(activeAgents)[agentID] == instance
           then old(activeAgents) - {agentID} else old(activeAgents)
      ensures
        instance != null && instance.lease != null ==>
          instance.lease.View() == RetiredLease(old(instance.lease.View())).0
      ensures checkpoints == if cleanup.checkpoint then old(checkpoints) - {agentID} else old(checkpoints)
      ensures receipts == if cleanup.checkpoint && cleanup.receipts then old(receipts) - {agentID} else old(receipts)
      ensures identities == if cleanup.checkpoint && cleanup.identity then old(identities) - {agentID} else old(identities)
    {
      if instance != null && instance.lease != null {
        var ok := instance.lease.TransitionToRetired();
      }
      if instance != null && agentID in activeAgents && activeAgents[agentID] == instance {
        activeAgents := activeAgents - {agentID};
      }
      if !cleanup.checkpoint {
        return;
      }
      checkpoints := checkpoints - {agentID};
      if cleanup.receipts {
        receipts := receipts - {agentID};
      }
      if cleanup.identity {
        identities := identities - {agentID};
      }
    }

    /** The steps of one transfer. Ambiguous exactly when everything was sent and no reply could be
        read, success exactly when the reply says so, and a target that was not reached has no part
        in the error. */
    method MigrateToTarget(x: Exchange) returns (e: Option<Failure>)
      ensures IsAmbiguous(e) <==> x.Sent() && x.reply.None?
      ensures e.None? <==> x.Sent() && x.reply.Some? && x.reply.value.success
      ensures x.Sent() && x.reply.Some? && !x.reply.value.success ==> e == Some(Failed(TARGET_FAILED + x.reply.value.error))
      ensures !x.Sent() ==> e == Some(Failed(x.SendError()))
    {
      if x.address.Some? {
        return Some(Failed("invalid target address: " + x.address.value));
      }
      if x.peer.Some? {
        return Some(Failed("failed to extract peer info: " + x.peer.value));
      }
      if x.connect.Some? {
        return Some(Failed("failed to connect to target peer: " + x.connect.value));
      }
      if x.stream.Some? {
        return Some(Failed("failed to open migration stream: " + x.stream.value));
      }
      if x.send.Some? {
        return Some(Failed("failed to send transfer: " + x.send.value));
      }
      if x.reply.None? {
        return Some(TransferSent);
      }
      if !x.reply.value.success {
        return Some(Failed(TARGET_FAILED + x.reply.value.error));
      }
      e := None;
    }

    method TargetList(primary: string, candidates: seq<string>) returns (targets: seq<string>)
      ensures targets == Targets(primary, candidates)
    {
      targets := [];
      if primary != "" {
        targets := targets + [primary];
      }
      ghost var first := targets;
      for k := 0 to |candidates|
        invariant targets == first + Others(primary, candidates[..k])
      {
        assert candidates[..k + 1][..k] == candidates[..k];
        if candidates[k] != primary {
          targets := targets + [candidates[k]];
        }
      }
      assert candidates[..|candidates|] == candidates;
    }

    /** One run over all targets. It is refused outright unless the lease, if there is one, is
        ACTIVE_OWNER; a missing binary, checkpoint or target list leaves everything as it was. */
    method MigrateAgentWithRetry(agentID: string, wasm: Option<bytes>, manifest: bytes, primary: string,
                                 candidates: seq<string>, max: int, net: Network, cleanup: Cleanup)
      returns (result: Result<string>, tries: seq<Attempt>)
      modifies this, LeaseSet(agentID)
      ensures
        var targets := Targets(primary, candidates);
        var lease := old(Leased(agentID));
        var ready := (lease == null || old(lease.state) == ActiveOwner)
                     && wasm.Some? && agentID in old(checkpoints) && targets != [];
        var (ending, all) := Tried(|targets|, max, net, 0, 0);
        && tries == (if ready then all else [])
        && (lease != null ==> lease.View() == if ready then Ended(old(lease.View()), ending) else old(lease.View()))
        && (if ready && ending.Succeeded? then
              && ending.target < |targets| && result == Ok(targets[ending.target])
              && activeAgents == old(activeAgents) - {agentID}
              && checkpoints == (if cleanup.checkpoint then old(checkpoints) - {agentID} else old(checkpoints))
            else
              result.Err? && activeAgents == old(activeAgents) && checkpoints == old(checkpoints))
    {
      hide Tried, IsRetriable, Packaged, Targets;
      tries := [];
      var instance := if agentID in activeAgents then activeAgents[agentID] else null;
      var lease := if instance != null then instance.lease else null;
      if lease != null {
        var ok := lease.TransitionToHandoff();
        if !ok {
          return Err(HANDOFF_FAILED), [];
        }
      }
      if wasm.None? || agentID !in checkpoints {
        RevertHandoff(agentID);
        return Err("package"), [];
      }
      var pkg := Packaged(agentID, wasm.value, manifest, checkpoints[agentID],
                          if agentID in receipts then Some(receipts[agentID]) else None,
                          if instance != null then instance.identity else [], crypto);
      var targets := TargetList(primary, candidates);
      if |targets| == 0 {
        RevertHandoff(agentID);
        return Err("no migration targets available"), [];
      }
      result, tries := SendToTargets(agentID, instance, targets, max, net, cleanup);
    }

    method SendToTargets(agentID: string, instance: Agent?, targets: seq<string>, max: int, net: Network, cleanup: Cleanup)
      returns (result: Result<string>, tries: seq<Attempt>)
      requires instance == if agentID in activeAgents then activeAgents[agentID] else null
      requires Leased(agentID) != null ==> Leased(agentID).state == HandoffInitiated
      modifies this, LeaseSet(agentID)
      ensures
        var lease := old(Leased(agentID));
        var (ending, all) := Tried(|targets|, max, net, 0, 0);
        && tries == all
        && (lease != null ==> lease.View() == Ended(old(lease.View()).(state := ActiveOwner), ending))
        && (if ending.Succeeded? then
              && ending.target < |targets| && result == Ok(targets[ending.target])
              && activeAgents == old(activeAgents) - {agentID}
              && checkpoints == (if cleanup.checkpoint then old(checkpoints) - {agentID} else old(checkpoints))
            else
              result.Err? && activeAgents == old(activeAgents) && checkpoints == old(checkpoints))
    {
      hide Tried;
      var ending;
      ending, tries := TryTargets(|targets|, max, net);
      Conclude(agentID, instance, ending, cleanup);
      result := if ending.Succeeded? then Ok(targets[ending.target])
                else if ending.Ambiguous? then Err("migration ambiguous")
                else if ending.Cancelled? then Err("cancelled")
                else Err("migration failed");
    }

    /** Retire and clean up, or remember that the agent may be elsewhere, or resume here. */
    method Conclude(agentID: string, instance: Agent?, ending: Ending, cleanup: Cleanup)
      requires instance == if agentID in activeAgents then activeAgents[agentID] else null
      requires Leased(agentID) != null ==> Leased(agentID).state == HandoffInitiated
      modifies this, LeaseSet(agentID)
      ensures
        old(Leased(agentID)) != null ==>
          old(Leased(agentID)).View() == Ended(old(Leased(agentID).View()).(state := ActiveOwner), ending)
      ensures activeAgents == if ending.Succeeded? then old(activeAgents) - {agentID} else old(activeAgents)
      ensures checkpoints == if ending.Succeeded? && cleanup.checkpoint then old(checkpoints) - {agentID} else old(checkpoints)
    {
      match ending {
        case Succeeded(t) =>
          FinalizeMigration(agentID, instance, cleanup);
        case Ambiguous =>
          if instance != null && instance.lease != null {
            instance.lease.state := RecoveryRequired;
          }
        case Cancelled =>
          RevertHandoff(agentID);
        case Exhausted =>
          RevertHandoff(agentID);
      }
    }

    /** The nested loops: up to `max` tries at each target in turn. */
    method TryTargets(targets: nat, max: int, net: Network) returns (ending: Ending, tries: seq<Attempt>)
      ensures (ending, tries) == Tried(targets, max, net, 0, 0)
      ensures ending.Succeeded? ==> ending.target < targets
    {
      hide IsRetriable;
      ghost var all := Tried(targets, max, net, 0, 0);
      tries := [];
      assert [] + all.1 == all.1;
      var t := 0;
      while t < targets
        invariant t <= targets && all == Continued(tries, Tried(targets, max, net, t, 0))
      {
        var attempt := 0;
        while attempt < max
          invariant 0 <= attempt && all == Continued(tries, Tried(targets, max, net, t, attempt))
        {
          ContinuedStep(tries, Attempt(t, attempt), if IsRetriable(FailureOf(net.At(t, attempt)))
                                                    then Tried(targets, max, net, t, attempt + 1)
                                                    else Tried(targets, max, net, t + 1, 0));
          tries := tries + [Attempt(t, attempt)];
          var failure := MigrateToTarget(net.exchange(t, attempt));
          FailureOfExchange(net.exchange(t, attempt), failure);
          if failure.None? {
            return Succeeded(t), tries;
          }
          if IsAmbiguous(failure) {
            return Ambiguous, tries;
          }
          if !IsRetriable(failure) {
            break;
          }
          if attempt < max - 1 && net.cancelled(t, attempt) {
            return Cancelled, tries;
          }
          attempt := attempt + 1;
        }
        t := t + 1;
      }
      assert tries + [] == tries;
      ending := Exhausted;
    }

    static function Continued(done: seq<Attempt>, rest: (Ending, seq<Attempt>)): (Ending, seq<Attempt>) {
      (rest.0, done + rest.1)
    }

    static lemma ContinuedStep(done: seq<Attempt>, x: Attempt, rest: (Ending, seq<Attempt>))
      ensures Continued(done, After(x.target, x.number, rest)) == Continued(done + [x], rest)
    {
      assert done + ([x] + rest.1) == done + [x] + rest.1;
    }

    /** The target's side: the reply is the refusal, if there is one. */
    method HandleIncomingMigration(pkg: Package, f: Findings, writes: Writes, now: int) returns (reply: Option<string>)
      modifies this
      ensures reply == Refusal(pkg, f, nodePrice, crypto)
      ensures reply.None? <==> Storable(pkg, f, nodePrice, crypto) && f.saveError.None? && Startable(pkg, f, crypto)
      ensures
        if reply.None? then
          && activeAgents.Keys == old(activeAgents).Keys + {pkg.agentID}
          && activeAgents == old(activeAgents)[pkg.agentID := activeAgents[pkg.agentID]]
          && fresh(activeAgents[pkg.agentID]) && activeAgents[pkg.agentID].identity == pkg.identity
          && var lease := activeAgents[pkg.agentID].lease;
          && (lease != null <==> leaseConfig.duration > 0)
          && (lease != null ==>
                lease.View() == LeaseValue(Epoch((pkg.major + 1) % TWO_TO_THE_64, 0), Some(now + leaseConfig.duration), ActiveOwner))
        else activeAgents == old(activeAgents)
      ensures
        checkpoints
        == if reply.None? then old(checkpoints)[pkg.agentID := pkg.checkpoint]
           else if !Storable(pkg, f, nodePrice, crypto) || f.saveError.Some? then old(checkpoints)
           else if writes.orphanDeletion then old(checkpoints) - {pkg.agentID}
           else old(checkpoints)[pkg.agentID := pkg.checkpoint]
      ensures
        var stored := Storable(pkg, f, nodePrice, crypto) && f.saveError.None?;
        && receipts == (if stored && pkg.receipts != [] && writes.receipts
                        then old(receipts)[pkg.agentID := pkg.receipts] else old(receipts))
        && identities == (if stored && pkg.identity != [] && f.identityError.None? && writes.identity
                          then old(identities)[pkg.agentID := pkg.identity] else old(identities))
    {
      hide LoadRefusal, EarlyRefusal, Storable, Startable;
      AcceptsIff(pkg, f, nodePrice, crypto);
      reply := EarlyRefusal(pkg, f, nodePrice, crypto);
      if reply.Some? {
        return;
      }
      if f.saveError.Some? {
        return f.saveError;
      }
      checkpoints := checkpoints[pkg.agentID := pkg.checkpoint];
      if |pkg.receipts| > 0 && writes.receipts {
        receipts := receipts[pkg.agentID := pkg.receipts];
      }
      if |pkg.identity| > 0 && f.identityError.None? && writes.identity {
        identities := identities[pkg.agentID := pkg.identity];
      }
      reply := LoadRefusal(pkg, f, crypto);
      if reply.Some? {
        if writes.orphanDeletion {
          checkpoints := checkpoints - {pkg.agentID};
        }
        return;
      }
      Activate(pkg, now);
    }

    /** Grant the lease, if leases are on, and register the new instance. */
    method Activate(pkg: Package, now: int)
      modifies this`activeAgents
      ensures activeAgents.Keys == old(activeAgents).Keys + {pkg.agentID}
      ensures activeAgents == old(activeAgents)[pkg.agentID := activeAgents[pkg.agentID]]
      ensures fresh(activeAgents[pkg.agentID]) && activeAgents[pkg.agentID].identity == pkg.identity
      ensures
        var lease := activeAgents[pkg.agentID].lease;
        && (lease != null <==> leaseConfig.duration > 0)
        && (lease != null ==>
              lease.View() == LeaseValue(Epoch((pkg.major + 1) % TWO_TO_THE_64, 0), Some(now + leaseConfig.duration), ActiveOwner))
    {
      var lease: Lease? := null;
      if leaseConfig.duration > 0 {
        lease := new Lease.FromMigration(pkg.major, leaseConfig, now);
      }
      var instance := new Agent(lease, pkg.identity);
      activeAgents := activeAgents[pkg.agentID := instance];
    }
  }
}
