/** Recording a tick (internal/hostcall) and replaying it (internal/replay). The agent is any
    deterministic program that asks for hostcalls; the host answers from the world when it runs
    live, and from the event log when it replays. */
module Replays {
  import opened Bytes
  import opened EventLogs
  import I = Instances
  import P = Payments

  const CLOCK_NOW: HostcallID := 1
  const RAND_BYTES: HostcallID := 2
  const LOG_EMIT: HostcallID := 3
  const WALLET_BALANCE: HostcallID := 4
  const WALLET_RECEIPT_COUNT: HostcallID := 5
  const WALLET_RECEIPT: HostcallID := 6
  const NODE_PRICE: HostcallID := 7
  const WALLET_PAY: HostcallID := 9

  const MAX_RAND_BYTES: nat := 67_108_864
  const MAX_LOG_BYTES: nat := 1_048_576

  // ----- Agents -----

  /** A hostcall with its arguments. `room` is how many bytes of WASM memory there are behind the
      given pointer; a string argument out of bounds is none. */
  datatype Call =
    | ClockNow
    | RandBytes(length: uint32, room: nat)
    | LogEmit(length: uint32, data: Option<bytes>)
    | WalletBalance
    | WalletReceiptCount
    | WalletReceipt(index: int, length: uint32, room: nat)
    | NodePrice
    | WalletPay(req: P.Request)

  /** The returned value and what was written to WASM memory, if anything. */
  datatype Reply = Reply(value: int, written: Option<bytes>)

  datatype Act<!K(!new)> = Ask(call: Call, next: Reply -> K) | Return(k: K) | Trap

  /** Entering a tick, the next thing to do, and the exports that restore and capture the state. */
  datatype Agent<!K(!new)> = Agent(enter: K -> K, act: K -> Act<K>, restore: bytes -> Option<K>, capture: K -> Option<bytes>) {
    /** What is captured is the whole state. */
    ghost predicate Lossless() {
      forall k :: capture(k).Some? ==> restore(capture(k).value) == Some(k)
    }
  }

  function IdOf(c: Call): HostcallID {
    match c
    case ClockNow => CLOCK_NOW
    case RandBytes(_, _) => RAND_BYTES
    case LogEmit(_, _) => LOG_EMIT
    case WalletBalance => WALLET_BALANCE
    case WalletReceiptCount => WALLET_RECEIPT_COUNT
    case WalletReceipt(_, _, _) => WALLET_RECEIPT
    case NodePrice => NODE_PRICE
    case WalletPay(_) => WALLET_PAY
  }

  // ----- Live -----

  /** What the world holds when one hostcall is made. */
  datatype Reading = Reading(now: int64, random: Option<bytes>, receipts: seq<bytes>, price: int64)

  datatype Wallet = Wallet(policy: P.Policy, signer: P.Signer)

  datatype Answer = Answer(reply: Reply, recorded: Option<bytes>, charged: nat)

  /** The value an int32 or int64 result carries. */
  function Int32(x: int): int {
    var u := x % TWO_TO_THE_32;
    if u >= TWO_TO_THE_31 then u - TWO_TO_THE_32 else u
  }

  function Int64(x: int): int64 {
    ToSigned(x % TWO_TO_THE_64)
  }

  function Plain(value: int64): Answer { Answer(Reply(value, None), Some(I64(value)), 0) }

  function Unrecorded(value: int): Answer { Answer(Reply(value, None), None, 0) }

  function Live(c: Call, r: Reading, w: Wallet, budget: int): Answer {
    match c
    case ClockNow => Plain(r.now)
    case RandBytes(length, room) =>
      if length == 0 then Unrecorded(0)
      else if length > MAX_RAND_BYTES then Unrecorded(-2)
      else if r.random.None? || |r.random.value| != length then Unrecorded(-1)
      else if length > room then Answer(Reply(-4, None), r.random, 0)
      else Answer(Reply(0, r.random), r.random, 0)
    case LogEmit(length, data) =>
      if length == 0 || length > MAX_LOG_BYTES || data.None? then Unrecorded(0)
      else Answer(Reply(0, None), data, 0)
    case WalletBalance => Plain(Int64(budget))
    case WalletReceiptCount =>
      Answer(Reply(Int32(|r.receipts|), None), Some(U32(|r.receipts| % TWO_TO_THE_32)), 0)
    case WalletReceipt(index, length, room) =>
      if index < 0 || index >= |r.receipts| then Unrecorded(-1)
      else
        var data := r.receipts[index];
        if |data| % TWO_TO_THE_32 > length then Unrecorded(-4)
        else if |data| > room then Answer(Reply(-4, None), Some(data), 0)
        else Answer(Reply(Int32(|data|), Some(data)), Some(data), 0)
    case NodePrice => Plain(r.price)
    case WalletPay(req) =>
      var p := P.Pay(budget, w.policy, w.signer, req, r.now);
      Answer(Reply(p.code, p.written), p.observed, p.charged)
  }

  /** The call does what it is for, on arguments that are not empty. */
  predicate Succeeds(c: Call, r: Reading, w: Wallet, budget: int) {
    match c
    case RandBytes(length, room) =>
      0 < length <= MAX_RAND_BYTES && r.random.Some? && |r.random.value| == length && length <= room
    case LogEmit(length, data) => 0 < length <= MAX_LOG_BYTES && data.Some?
    case WalletReceipt(index, length, room) =>
      0 <= index < |r.receipts| && |r.receipts[index]| % TWO_TO_THE_32 <= length && |r.receipts[index]| <= room
    case WalletPay(req) => P.Pay(budget, w.policy, w.signer, req, r.now).code >= 0
    case _ => true
  }

  /** What each hostcall answers, records and charges, told from the world, the wallet and the budget. */
  ghost predicate Answers(c: Call, r: Reading, w: Wallet, budget: int, x: Answer) {
    (!c.WalletPay? ==> x.charged == 0) &&
    match c
    case ClockNow => x == Answer(Reply(r.now, None), Some(I64(r.now)), 0)
    case NodePrice => x == Answer(Reply(r.price, None), Some(I64(r.price)), 0)
    case WalletBalance =>
      -MAX_INT64 <= budget <= MAX_INT64 ==> x == Answer(Reply(budget, None), Some(I64(budget)), 0)
    case WalletReceiptCount =>
      |r.receipts| < TWO_TO_THE_31 ==> x == Answer(Reply(|r.receipts|, None), Some(U32(|r.receipts|)), 0)
    case WalletReceipt(index, length, room) =>
      if !(0 <= index < |r.receipts|) then x == Answer(Reply(-1, None), None, 0)
      else
        var data := r.receipts[index];
        |data| < TWO_TO_THE_31 ==>
          if |data| > length then x == Answer(Reply(-4, None), None, 0)
          else if |data| > room then x == Answer(Reply(-4, None), Some(data), 0)
          else x == Answer(Reply(|data|, Some(data)), Some(data), 0)
    case RandBytes(length, room) =>
      if length == 0 then x == Answer(Reply(0, None), None, 0)
      else if length > 64 * 1024 * 1024 then x == Answer(Reply(-2, None), None, 0)
      else if r.random.None? || |r.random.value| != length then x == Answer(Reply(-1, None), None, 0)
      else x == Answer(if length > room then Reply(-4, None) else Reply(0, r.random), r.random, 0)
    case LogEmit(length, data) =>
      x == Answer(Reply(0, None), if 0 < length <= 1024 * 1024 then data else None, 0)
    case WalletPay(req) =>
      var p := P.Pay(budget, w.policy, w.signer, req, r.now);
      && x.reply.value == p.code && x.reply.written == p.written && x.charged == p.charged
      && x.recorded == p.observed
  }

  lemma AnswersSay(c: Call, r: Reading, w: Wallet, budget: int)
    ensures Answers(c, r, w, budget, Live(c, r, w, budget))
  {
    hide U32, I64, P.Pay;
    if -MAX_INT64 <= budget <= MAX_INT64 {
      assert Int64(budget) == budget;
    }
  }

  /** Every kind of hostcall is recorded under its own number. */
  lemma NumbersSay(c: Call, d: Call)
    ensures
      IdOf(c) == (match c
                  case ClockNow => 1
                  case RandBytes(_, _) => 2
                  case LogEmit(_, _) => 3
                  case WalletBalance => 4
                  case WalletReceiptCount => 5
                  case WalletReceipt(_, _, _) => 6
                  case NodePrice => 7
                  case WalletPay(_) => 9)
    ensures
      IdOf(c) == IdOf(d) ==>
        (c.ClockNow? <==> d.ClockNow?) && (c.RandBytes? <==> d.RandBytes?) && (c.LogEmit? <==> d.LogEmit?)
        && (c.WalletBalance? <==> d.WalletBalance?) && (c.WalletReceiptCount? <==> d.WalletReceiptCount?)
        && (c.WalletReceipt? <==> d.WalletReceipt?) && (c.NodePrice? <==> d.NodePrice?) && (c.WalletPay? <==> d.WalletPay?)
  {
  }

  // ----- Replayed -----

  /** Where the iterator stands, and whether any hostcall has failed. */
  datatype Cursor = Cursor(pos: nat, failed: bool)

  function Next(entries: seq<Observation>, pos: nat, id: HostcallID): Option<bytes> {
    if pos < |entries| && entries[pos].id == id then Some(entries[pos].payload) else None
  }

  /** What a replayed call returns when there is no entry for it. */
  function Missing(c: Call): Reply {
    match c
    case RandBytes(_, _) => Reply(-1, None)
    case WalletReceipt(_, _, _) => Reply(-1, None)
    case WalletPay(_) => Reply(P.PROCESSING, None)
    case _ => Reply(0, None)
  }

  /** The reply made of a recorded payload, and whether it was fit for the call. */
  function Decoded(c: Call, payload: bytes): (Reply, bool) {
    match c
    case RandBytes(length, room) =>
      if |payload| % TWO_TO_THE_32 != length then (Reply(-1, None), false)
      else if |payload| > room then (Reply(-4, None), false)
      else (Reply(0, Some(payload)), true)
    case LogEmit(_, _) => (Reply(0, None), true)
    case WalletReceiptCount =>
      if |payload| != 4 then (Reply(0, None), false) else (Reply(Int32(Uint32At(payload)), None), true)
    case WalletReceipt(_, length, room) =>
      if |payload| % TWO_TO_THE_32 > length || |payload| > room then (Reply(-4, None), false)
      else (Reply(Int32(|payload|), Some(payload)), true)
    case WalletPay(req) =>
      if |payload| < 8 then (Reply(P.PROCESSING, None), false)
      else
        var receipt := payload[8..];
        var needed := (4 + |receipt|) % TWO_TO_THE_32;
        var size := U32(|receipt| % TWO_TO_THE_32);
        if needed > req.receiptCap then
          (Reply(P.BUFFER_TOO_SMALL, if req.receiptCap >= 4 && req.writable then Some(size) else None), true)
        else if !req.writable then (Reply(P.PROCESSING, None), false)
        else (Reply(Int32(needed), Some(size + receipt)), true)
    case _ =>
      if |payload| != 8 then (Reply(0, None), false) else (Reply(ToSigned(Uint64At(payload)), None), true)
  }

  /** What a replayed call answers without an entry of its kind, and on a payload that is not fit for it. */
  lemma FailuresSay(c: Call, payload: bytes)
    ensures Missing(c) == Reply(if c.RandBytes? || c.WalletReceipt? then -1 else if c.WalletPay? then -6 else 0, None)
    ensures
      !Decoded(c, payload).1 ==>
        Decoded(c, payload).0
        == Reply(match c
                 case RandBytes(length, _) => if |payload| % TWO_TO_THE_32 != length then -1 else -4
                 case WalletReceipt(_, _, _) => -4
                 case WalletPay(_) => -6
                 case _ => 0, None)
  {
    hide U32, FromLE;
  }

  function Served(entries: seq<Observation>, at: Cursor, c: Call): (Reply, Cursor) {
    var payload := Next(entries, at.pos, IdOf(c));
    if payload.None? then (Missing(c), at.(failed := true))
    else
      var (reply, ok) := Decoded(c, payload.value);
      (reply, Cursor(at.pos + 1, at.failed || !ok))
  }

  ghost predicate Sane(c: Call, r: Reading, w: Wallet) {
    && w.signer.Valid()
    && (c.WalletPay? ==> c.req.Valid())
    && (c.LogEmit? && c.data.Some? ==> |c.data.value| == c.length)
    && (forall k :: 0 <= k < |r.receipts| ==> |r.receipts[k]| < TWO_TO_THE_31)
  }

  /** A hostcall that succeeds is recorded, and the record replays to the same reply. */
  lemma SuccessIsReplayed(c: Call, r: Reading, w: Wallet, budget: int)
    requires Sane(c, r, w) && Succeeds(c, r, w, budget)
    ensures
      var a := Live(c, r, w, budget);
      a.recorded.Some? && Decoded(c, a.recorded.value) == (a.reply, true)
  {
    hide U32, I64, FromLE, P.Pay, P.Receipt;
    match c {
      case ClockNow => Int64Recorded(r.now);
      case WalletBalance => Int64Recorded(Int64(budget));
      case NodePrice => Int64Recorded(r.price);
      case WalletReceiptCount => U32RoundTrip(|r.receipts| % TWO_TO_THE_32);
      case WalletPay(req) => PaymentIsReplayed(req, r, w, budget);
      case RandBytes(_, _) =>
      case LogEmit(_, _) =>
      case WalletReceipt(_, _, _) =>
    }
  }

  lemma Int64Recorded(v: int64)
    ensures ToSigned(Uint64At(I64(v))) == v
  {
    I64RoundTrip(v);
  }

  lemma PaymentIsReplayed(req: P.Request, r: Reading, w: Wallet, budget: int)
    requires w.signer.Valid() && req.Valid() && P.Pay(budget, w.policy, w.signer, req, r.now).code >= 0
    ensures
      var p := P.Pay(budget, w.policy, w.signer, req, r.now);
      p.observed.Some? && Decoded(WalletPay(req), p.observed.value) == (Reply(p.code, p.written), true)
  {
    hide U32, P.Receipt;
    P.ObservationRebuildsReceipt(budget, w.policy, w.signer, req, r.now);
    P.ChargedOnceIff(budget, w.policy, w.signer, req, r.now);
  }

  /** For one call alone, its own record replays to the same reply without an error exactly when
      the call succeeds: a refused, failed or empty call is either not recorded or not replayable. */
  lemma ReplaysIffSucceeds(c: Call, r: Reading, w: Wallet, budget: int)
    requires Sane(c, r, w)
    ensures
      var a := Live(c, r, w, budget);
      var log := if a.recorded.Some? then [Observation(IdOf(c), a.recorded.value)] else [];
      Served(log, Cursor(0, false), c) == (a.reply, Cursor(|log|, false)) <==> Succeeds(c, r, w, budget)
  {
    hide U32, I64, FromLE, P.Pay, P.Receipt;
    if Succeeds(c, r, w, budget) {
      SuccessIsReplayed(c, r, w, budget);
    } else if c.WalletPay? {
      P.ChargedOnceIff(budget, w.policy, w.signer, c.req, r.now);
    }
  }

  // ----- Whole ticks -----

  datatype LiveRun<!K(!new)> = LiveRun(end: Option<K>, log: seq<Observation>, budget: int)

  /** One agent_tick call from state k, at most `fuel` hostcalls long; the n-th reading answers
      its n-th hostcall. A trap or running out of time leaves no state. */
  function RunLive<K(!new)>(a: Agent<K>, k: K, world: nat -> Reading, w: Wallet, n: nat, budget: int, fuel: nat): LiveRun<K>
    decreases fuel
  {
    match a.act(k)
    case Trap => LiveRun(None, [], budget)
    case Return(end) => LiveRun(Some(end), [], budget)
    case Ask(call, next) =>
      if fuel == 0 then LiveRun(None, [], budget)
      else
        var x := Live(call, world(n), w, budget);
        var rest := RunLive(a, next(x.reply), world, w, n + 1, budget - x.charged, fuel - 1);
        rest.(log := (if x.recorded.Some? then [Observation(IdOf(call), x.recorded.value)] else []) + rest.log)
  }

  ghost predicate AllSucceed<K(!new)>(a: Agent<K>, k: K, world: nat -> Reading, w: Wallet, n: nat, budget: int, fuel: nat)
    decreases fuel
  {
    match a.act(k)
    case Ask(call, next) =>
      fuel == 0 ||
      (Sane(call, world(n), w) && Succeeds(call, world(n), w, budget)
       && var x := Live(call, world(n), w, budget);
       AllSucceed(a, next(x.reply), world, w, n + 1, budget - x.charged, fuel - 1))
    case _ => true
  }

  /** The same call with replay-mode hostcalls. */
  function RunReplay<K(!new)>(a: Agent<K>, k: K, entries: seq<Observation>, at: Cursor, fuel: nat): (Option<K>, Cursor)
    decreases fuel
  {
    match a.act(k)
    case Trap => (None, at)
    case Return(end) => (Some(end), at)
    case Ask(call, next) =>
      if fuel == 0 then (None, at)
      else
        var (reply, now) := Served(entries, at, call);
        RunReplay(a, next(reply), entries, now, fuel - 1)
  }

  lemma {:induction false} ReplayFollowsLive<K(!new)>(a: Agent<K>, k: K, world: nat -> Reading, w: Wallet, n: nat, budget: int,
                                                fuel: nat, before: seq<Observation>)
    requires AllSucceed(a, k, world, w, n, budget, fuel)
    requires RunLive(a, k, world, w, n, budget, fuel).end.Some?
    ensures
      var live := RunLive(a, k, world, w, n, budget, fuel);
      RunReplay(a, k, before + live.log, Cursor(|before|, false), fuel)
      == (live.end, Cursor(|before| + |live.log|, false))
    decreases fuel
  {
    hide Live, Succeeds, Sane, Decoded, Served;
    var act := a.act(k);
    if act.Ask? {
      var x := Live(act.call, world(n), w, budget);
      SuccessIsReplayed(act.call, world(n), w, budget);
      var o := Observation(IdOf(act.call), x.recorded.value);
      var rest := RunLive(a, act.next(x.reply), world, w, n + 1, budget - x.charged, fuel - 1);
      ReplayFollowsLive(a, act.next(x.reply), world, w, n + 1, budget - x.charged, fuel - 1, before + [o]);
      assert before + ([o] + rest.log) == before + [o] + rest.log;
      ServedNext(before, o, rest.log, act.call, x.reply);
    }
  }

  lemma ServedNext(before: seq<Observation>, o: Observation, after: seq<Observation>, c: Call, reply: Reply)
    requires o.id == IdOf(c) && Decoded(c, o.payload) == (reply, true)
    ensures Served(before + [o] + after, Cursor(|before|, false), c) == (reply, Cursor(|before| + 1, false))
  {
    hide Decoded;
    assert (before + [o] + after)[|before|] == o;
  }

  datatype Fault = NotRestored | TickFailed | HostcallFailed | Unconsumed(entries: nat) | NotCaptured | NoSnapshots

  datatype TickResult = TickResult(verified: bool, replayed: Option<bytes>, firstDiff: int, fault: Option<Fault>)

  function Faulty(f: Fault): TickResult { TickResult(false, None, -1, Some(f)) }

  /** A state after one replayed tick, or what went wrong. */
  datatype Replayed<!K(!new)> = Reached(k: K) | Stopped(fault: Fault)

  function ReplayedFrom<K(!new)>(a: Agent<K>, k: K, entries: seq<Observation>, fuel: nat): Replayed<K> {
    var (end, at) := RunReplay(a, a.enter(k), entries, Cursor(0, false), fuel);
    if end.None? then Stopped(TickFailed)
    else if at.failed then Stopped(HostcallFailed)
    else if |entries| - at.pos > 0 then Stopped(Unconsumed(|entries| - at.pos))
    else Reached(end.value)
  }

  // ----- What a replay that gets through has done -----

  /** The hostcalls a replay asks for. */
  function Asked<K(!new)>(a: Agent<K>, k: K, entries: seq<Observation>, at: Cursor, fuel: nat): seq<Call>
    decreases fuel
  {
    match a.act(k)
    case Ask(call, next) =>
      if fuel == 0 then []
      else
        var (reply, now) := Served(entries, at, call);
        [call] + Asked(a, next(reply), entries, now, fuel - 1)
    case _ => []
  }

  /** The payload is one that a call of this kind can be answered with. */
  ghost predicate FitFor(c: Call, payload: bytes) {
    |payload| < TWO_TO_THE_31 ==>
      match c
      case RandBytes(length, room) => |payload| == length && |payload| <= room
      case LogEmit(_, _) => true
      case WalletReceiptCount => |payload| == 4
      case WalletReceipt(_, length, room) => |payload| <= length && |payload| <= room
      case WalletPay(req) => |payload| >= 8 && (|payload| - 4 <= req.receiptCap ==> req.writable)
      case _ => |payload| == 8
  }

  ghost predicate AskedFor(calls: seq<Call>, entries: seq<Observation>, from: nat) {
    && from + |calls| <= |entries|
    && forall j :: 0 <= j < |calls| ==> entries[from + j].id == IdOf(calls[j]) && FitFor(calls[j], entries[from + j].payload)
  }

  lemma ServedSays(entries: seq<Observation>, at: Cursor, c: Call)
    requires at.pos <= |entries|
    ensures
      var now := Served(entries, at, c).1;
      && at.pos <= now.pos <= |entries| && (at.failed ==> now.failed)
      && (!now.failed ==>
            now.pos == at.pos + 1 && entries[at.pos].id == IdOf(c) && FitFor(c, entries[at.pos].payload))
  {
    hide U32, FromLE;
  }

  lemma {:induction false} ReplaySays<K(!new)>(a: Agent<K>, k: K, entries: seq<Observation>, at: Cursor, fuel: nat)
    requires at.pos <= |entries|
    ensures
      var now := RunReplay(a, k, entries, at, fuel).1;
      && at.pos <= now.pos <= |entries| && (at.failed ==> now.failed)
      && (!now.failed ==>
            now.pos == at.pos + |Asked(a, k, entries, at, fuel)| && AskedFor(Asked(a, k, entries, at, fuel), entries, at.pos))
    decreases fuel
  {
    hide Served, FitFor, IdOf;
    var act := a.act(k);
    if act.Ask? && fuel > 0 {
      var (reply, next) := Served(entries, at, act.call);
      ServedSays(entries, at, act.call);
      ReplaySays(a, act.next(reply), entries, next, fuel - 1);
      var rest := Asked(a, act.next(reply), entries, next, fuel - 1);
      if !RunReplay(a, k, entries, at, fuel).1.failed {
        AskedOneMore(act.call, rest, entries, at.pos);
      }
    }
  }

  lemma AskedOneMore(c: Call, rest: seq<Call>, entries: seq<Observation>, from: nat)
    requires AskedFor(rest, entries, from + 1) && from < |entries|
    requires entries[from].id == IdOf(c) && FitFor(c, entries[from].payload)
    ensures AskedFor([c] + rest, entries, from)
  {
    hide FitFor, IdOf;
    var calls := [c] + rest;
    forall j | 0 <= j < |calls|
      ensures entries[from + j].id == IdOf(calls[j]) && FitFor(calls[j], entries[from + j].payload)
    {
      if j > 0 {
        assert calls[j] == rest[j - 1] && entries[from + j] == entries[from + 1 + (j - 1)];
      }
    }
  }

  /** A replayed tick gets through exactly if the call returns, no hostcall failed and every entry was
      used; and then the calls it asked for are the recorded ones, one for one and in order. */
  lemma ReachedIff<K(!new)>(a: Agent<K>, k: K, entries: seq<Observation>, fuel: nat, end: K)
    ensures
      ReplayedFrom(a, k, entries, fuel) == Reached(end)
      <==> RunReplay(a, a.enter(k), entries, Cursor(0, false), fuel) == (Some(end), Cursor(|entries|, false))
    ensures
      ReplayedFrom(a, k, entries, fuel) == Reached(end) ==>
        var calls := Asked(a, a.enter(k), entries, Cursor(0, false), fuel);
        |calls| == |entries| && AskedFor(calls, entries, 0)
  {
    hide Served, AskedFor, Asked, RunReplay;
    ReplaySays(a, a.enter(k), entries, Cursor(0, false), fuel);
  }

  /** The first position at which two byte strings differ, or -1. */
  ghost predicate IsFirstDiff(x: bytes, y: bytes, d: int) {
    if x == y then d == -1
    else
      && 0 <= d <= |x| && d <= |y| && x[..d] == y[..d]
      && (d == |x| || d == |y| || x[d] != y[d])
  }

  ghost predicate IsTickResult<K(!new)>(r: TickResult, a: Agent<K>, state: bytes, entries: seq<Observation>,
                                  expected: Option<bytes>, fuel: nat) {
    var k := a.restore(state);
    if k.None? then r == Faulty(NotRestored)
    else
      match ReplayedFrom(a, k.value, entries, fuel)
      case Stopped(f) => r == Faulty(f)
      case Reached(end) =>
        var replayed := a.capture(end);
        if replayed.None? then r == Faulty(NotCaptured)
        else
          && r.fault.None? && r.replayed == replayed
          && (r.verified <==> expected == replayed)
          && (if expected.Some? then IsFirstDiff(replayed.value, expected.value, r.firstDiff) else r.firstDiff == -1)
  }

  /** A recorded tick, as the live instance keeps it: what was captured before it, its log, and
      the state it left. */
  ghost predicate Recorded<K(!new)>(a: Agent<K>, k: K, end: K, log: seq<Observation>, world: nat -> Reading, w: Wallet,
                              budget: int, fuel: nat) {
    && AllSucceed(a, a.enter(k), world, w, 0, budget, fuel)
    && RunLive(a, a.enter(k), world, w, 0, budget, fuel).end == Some(end)
    && RunLive(a, a.enter(k), world, w, 0, budget, fuel).log == log
  }

  lemma RecordedReplays<K(!new)>(a: Agent<K>, k: K, end: K, log: seq<Observation>, world: nat -> Reading, w: Wallet,
                           budget: int, fuel: nat)
    requires Recorded(a, k, end, log, world, w, budget, fuel)
    ensures ReplayedFrom(a, k, log, fuel) == Reached(end)
    ensures RunReplay(a, a.enter(k), log, Cursor(0, false), fuel).1 == Cursor(|log|, false)
  {
    ReplayFollowsLive(a, a.enter(k), world, w, 0, budget, fuel, []);
    assert [] + log == log;
  }

  /** A tick whose hostcalls all succeed replays from its captured pre-state: no error, every
      entry consumed, and the captured post-state reached again. */
  lemma RecordedTickVerifies<K(!new)>(a: Agent<K>, k: K, end: K, log: seq<Observation>, world: nat -> Reading, w: Wallet,
                                budget: int, fuel: nat, r: TickResult)
    requires a.Lossless() && a.capture(k).Some? && a.capture(end).Some?
    requires Recorded(a, k, end, log, world, w, budget, fuel)
    requires IsTickResult(r, a, a.capture(k).value, log, a.capture(end), fuel)
    ensures r == TickResult(true, a.capture(end), -1, None)
  {
    hide Recorded, ReplayedFrom;
    RecordedReplays(a, k, end, log, world, w, budget, fuel);
  }

  // ----- Chains of ticks -----

  /** The entries of each tick; a snapshot without a log replays with none. */
  datatype Snap = Snap(tick: uint64, log: Option<seq<Observation>>) {
    function Entries(): seq<Observation> {
      if log.None? then [] else log.value
    }
  }

  datatype ChainState<!K(!new)> = ChainState(k: K, replayed: nat, fault: Option<Fault>)

  /** One instance ticked through the snapshots from the i-th on, until one fails. */
  function Chained<K(!new)>(a: Agent<K>, k: K, snaps: seq<Snap>, i: nat, fuel: nat): ChainState<K>
    decreases |snaps| - i
  {
    if i >= |snaps| then ChainState(k, i, None)
    else
      match ReplayedFrom(a, k, snaps[i].Entries(), fuel)
      case Stopped(f) => ChainState(k, i, Some(f))
      case Reached(end) => Chained(a, end, snaps, i + 1, fuel)
  }

  datatype ChainResult = ChainResult(verified: bool, ticksReplayed: nat, firstTick: uint64, lastTick: uint64,
                                     finalState: Option<bytes>, fault: Option<Fault>, failedAt: uint64)

  const NO_CHAIN := ChainResult(false, 0, 0, 0, None, None, 0)

  function ChainVerdict<K(!new)>(a: Agent<K>, state: bytes, snaps: seq<Snap>, expectedHash: bytes, hash: bytes -> bytes, fuel: nat): ChainResult {
    if snaps == [] then NO_CHAIN.(fault := Some(NoSnapshots))
    else
      var r := NO_CHAIN.(firstTick := snaps[0].tick, lastTick := snaps[|snaps| - 1].tick);
      match a.restore(state)
      case None => r.(fault := Some(NotRestored))
      case Some(k) =>
        var c := Chained(a, k, snaps, 0, fuel);
        if c.fault.Some? then
          r.(ticksReplayed := c.replayed, fault := c.fault,
             failedAt := if c.replayed < |snaps| then snaps[c.replayed].tick else 0)
        else
          match a.capture(c.k)
          case None => r.(ticksReplayed := c.replayed, fault := Some(NotCaptured))
          case Some(final) =>
            r.(ticksReplayed := c.replayed, finalState := Some(final), verified := hash(final) == expectedHash)
  }

  /** What the verdict on a chain says: it verifies exactly if the state restores, every tick gets through,
      and the state at the end has the expected hash; a tick that does not is named. */
  lemma VerdictSays<K(!new)>(a: Agent<K>, state: bytes, snaps: seq<Snap>, expectedHash: bytes, hash: bytes -> bytes, fuel: nat)
    requires snaps != []
    ensures
      var v := ChainVerdict(a, state, snaps, expectedHash, hash, fuel);
      var k := a.restore(state);
      && v.firstTick == snaps[0].tick && v.lastTick == snaps[|snaps| - 1].tick
      && (k.None? ==> v.fault == Some(NotRestored) && !v.verified && v.ticksReplayed == 0)
      && (k.Some? ==>
            var c := Chained(a, k.value, snaps, 0, fuel);
            && v.ticksReplayed == c.replayed <= |snaps|
            && (c.fault.Some? ==>
                  c.replayed < |snaps| && !v.verified && v.fault == c.fault && v.failedAt == snaps[c.replayed].tick)
            && (c.fault.None? ==>
                  && c.replayed == |snaps|
                  && (v.fault.None? <==> a.capture(c.k).Some?)
                  && (v.verified <==> a.capture(c.k).Some? && hash(a.capture(c.k).value) == expectedHash)))
  {
    hide ReplayedFrom;
    if a.restore(state).Some? {
      ChainedStops(a, a.restore(state).value, snaps, 0, fuel);
    }
  }

  lemma {:induction false} ChainedStops<K(!new)>(a: Agent<K>, k: K, snaps: seq<Snap>, i: nat, fuel: nat)
    requires i <= |snaps|
    ensures
      var c := Chained(a, k, snaps, i, fuel);
      i <= c.replayed <= |snaps| && (c.fault.None? <==> c.replayed == |snaps|)
    decreases |snaps| - i
  {
    hide ReplayedFrom;
    if i < |snaps| {
      var x := ReplayedFrom(a, k, snaps[i].Entries(), fuel);
      if x.Reached? {
        ChainedStops(a, x.k, snaps, i + 1, fuel);
      }
    }
  }

  /** Replaying tick by tick, each from the state the previous one captured. */
  datatype Folded = Folded(state: bytes, replayed: nat, fault: Option<Fault>)

  function Fold<K(!new)>(a: Agent<K>, state: bytes, snaps: seq<Snap>, i: nat, fuel: nat): Folded
    decreases |snaps| - i
  {
    if i >= |snaps| then Folded(state, i, None)
    else
      match a.restore(state)
      case None => Folded(state, i, Some(NotRestored))
      case Some(k) =>
        match ReplayedFrom(a, k, snaps[i].Entries(), fuel)
        case Stopped(f) => Folded(state, i, Some(f))
        case Reached(end) =>
          match a.capture(end)
          case None => Folded(state, i, Some(NotCaptured))
          case Some(next) => Fold(a, next, snaps, i + 1, fuel)
  }

  ghost predicate Capturable<K(!new)>(a: Agent<K>) {
    forall k :: a.capture(k).Some?
  }

  /** One instance through all ticks and a new instance for every tick fail at the same tick for
      the same reason, or end in the same state. */
  lemma {:induction false} ChainIsFold<K(!new)>(a: Agent<K>, k: K, state: bytes, snaps: seq<Snap>, i: nat, fuel: nat)
    requires a.Lossless() && Capturable(a) && a.restore(state) == Some(k) && a.capture(k) == Some(state)
    ensures
      var c := Chained(a, k, snaps, i, fuel);
      var f := Fold(a, state, snaps, i, fuel);
      c.replayed == f.replayed && c.fault == f.fault && a.capture(c.k) == Some(f.state)
    decreases |snaps| - i
  {
    hide ReplayedFrom;
    if i < |snaps| {
      var x := ReplayedFrom(a, k, snaps[i].Entries(), fuel);
      if x.Reached? {
        ChainIsFold(a, x.k, a.capture(x.k).value, snaps, i + 1, fuel);
      }
    }
  }

  /** Consecutive live ticks, each recorded. */
  datatype Lived<!K(!new)> = Lived(end: K, tick: uint64, log: seq<Observation>, world: nat -> Reading, budget: int)

  ghost predicate RecordedChain<K(!new)>(a: Agent<K>, k: K, ticks: seq<Lived<K>>, w: Wallet, fuel: nat)
    decreases |ticks|
  {
    ticks == [] ||
    (Recorded(a, k, ticks[0].end, ticks[0].log, ticks[0].world, w, ticks[0].budget, fuel)
     && RecordedChain(a, ticks[0].end, ticks[1..], w, fuel))
  }

  function SnapsOf<K(!new)>(ticks: seq<Lived<K>>): (s: seq<Snap>)
    ensures |s| == |ticks|
  {
    if ticks == [] then [] else [Snap(ticks[0].tick, Some(ticks[0].log))] + SnapsOf(ticks[1..])
  }

  lemma {:induction false} RecordedChainReplays<K(!new)>(a: Agent<K>, k: K, ticks: seq<Lived<K>>, w: Wallet, fuel: nat,
                                                   before: seq<Snap>)
    requires RecordedChain(a, k, ticks, w, fuel)
    ensures
      Chained(a, k, before + SnapsOf(ticks), |before|, fuel)
      == ChainState(if ticks == [] then k else ticks[|ticks| - 1].end, |before| + |ticks|, None)
    decreases |ticks|
  {
    hide Recorded, ReplayedFrom;
    if ticks != [] {
      var t := ticks[0];
      RecordedReplays(a, k, t.end, t.log, t.world, w, t.budget, fuel);
      RecordedChainReplays(a, t.end, ticks[1..], w, fuel, before + [Snap(t.tick, Some(t.log))]);
      assert before + SnapsOf(ticks) == before + [Snap(t.tick, Some(t.log))] + SnapsOf(ticks[1..]);
    }
  }

  /** A recorded chain verifies against the hash of the live final state. */
  lemma RecordedChainVerifies<K(!new)>(a: Agent<K>, k: K, ticks: seq<Lived<K>>, w: Wallet, hash: bytes -> bytes, fuel: nat)
    requires a.Lossless() && Capturable(a) && ticks != [] && RecordedChain(a, k, ticks, w, fuel)
    ensures
      var final := a.capture(ticks[|ticks| - 1].end).value;
      var r := ChainVerdict(a, a.capture(k).value, SnapsOf(ticks), hash(final), hash, fuel);
      r.verified && r.fault.None? && r.ticksReplayed == |ticks| && r.finalState == Some(final)
  {
    hide RecordedChain, Chained, SnapsOf;
    RecordedChainReplays(a, k, ticks, w, fuel, []);
    assert [] + SnapsOf(ticks) == SnapsOf(ticks);
  }

  // ----- The engine -----

  method FirstDiff(x: bytes, y: bytes) returns (d: int)
    ensures IsFirstDiff(x, y, d)
  {
    var n := if |y| < |x| then |y| else |x|;
    for i := 0 to n
      invariant x[..i] == y[..i]
    {
      if x[i] != y[i] {
        return i;
      }
    }
    if |x| != |y| {
      return n;
    }
    assert x == x[..n] && y == y[..n];
    d := -1;
  }

  class EntryIterator {
    const entries: seq<Observation>
    var pos: nat

    constructor (entries: seq<Observation>)
      ensures this.entries == entries && pos == 0
    {
      this.entries := entries;
      pos := 0;
    }

    /** The next entry, if it is of the expected kind; otherwise the iterator stays where it is. */
    method NextEntry(id: HostcallID) returns (payload: Option<bytes>)
      modifies this
      ensures payload == Next(entries, old(pos), id)
      ensures pos == old(pos) + if payload.Some? then 1 else 0
    {
      if pos >= |entries| {
        return None;
      }
      var entry := entries[pos];
      if entry.id != id {
        return None;
      }
      pos := pos + 1;
      payload := Some(entry.payload);
    }

    method Remaining() returns (n: int)
      ensures n == |entries| - pos
    {
      n := |entries| - pos;
    }
  }

  /** The host module of a replay: the iterator in use, and an error that stays once set. */
  class ReplayHost {
    var iter: EntryIterator
    var failed: bool

    ghost function View(): Cursor
      reads this, iter
    {
      Cursor(iter.pos, failed)
    }

    constructor (iter: EntryIterator)
      ensures this.iter == iter && !failed
    {
      this.iter, failed := iter, false;
    }

    method Serve(c: Call) returns (reply: Reply)
      modifies this`failed, iter
      ensures (reply, View()) == Served(iter.entries, old(View()), c)
    {
      hide Decoded;
      var payload := iter.NextEntry(IdOf(c));
      if payload.None? {
        failed := true;
        return Missing(c);
      }
      var (decoded, ok) := Decoded(c, payload.value);
      if !ok {
        failed := true;
      }
      reply := decoded;
    }

    /** One agent_tick call; none when it traps or runs out of time. */
    method CallTick<K(!new)>(a: Agent<K>, k: K, fuel: nat) returns (end: Option<K>)
      modifies this`failed, iter
      ensures (end, View()) == RunReplay(a, a.enter(k), iter.entries, old(View()), fuel)
    {
      hide Served;
      var state, left := a.enter(k), fuel;
      while true
        invariant
          RunReplay(a, state, iter.entries, View(), left)
          == RunReplay(a, a.enter(k), iter.entries, old(View()), fuel)
        decreases left
      {
        match a.act(state) {
          case Trap =>
            return None;
          case Return(last) =>
            return Some(last);
          case Ask(call, next) =>
            if left == 0 {
              return None;
            }
            var reply := Serve(call);
            state, left := next(reply), left - 1;
        }
      }
    }

    /** The call and the checks after it. */
    method ReplayEntries<K(!new)>(a: Agent<K>, k: K, entries: seq<Observation>, fuel: nat) returns (r: Replayed<K>)
      modifies this
      ensures r == ReplayedFrom(a, k, entries, fuel)
    {
      hide RunReplay;
      iter := new EntryIterator(entries);
      failed := false;
      var end := CallTick(a, k, fuel);
      if end.None? {
        return Stopped(TickFailed);
      }
      if failed {
        return Stopped(HostcallFailed);
      }
      var n := iter.Remaining();
      if n > 0 {
        return Stopped(Unconsumed(n));
      }
      r := Reached(end.value);
    }
  }

  method ReplayTick<K(!new)>(a: Agent<K>, state: bytes, entries: seq<Observation>, expected: Option<bytes>, fuel: nat)
    returns (r: TickResult)
    ensures IsTickResult(r, a, state, entries, expected, fuel)
  {
    hide ReplayedFrom, IsFirstDiff;
    var iter := new EntryIterator(entries);
    var host := new ReplayHost(iter);
    var k := a.restore(state);
    if k.None? {
      return Faulty(NotRestored);
    }
    var outcome := host.ReplayEntries(a, k.value, entries, fuel);
    if outcome.Stopped? {
      return Faulty(outcome.fault);
    }
    var replayed := a.capture(outcome.k);
    if replayed.None? {
      return Faulty(NotCaptured);
    }
    r := TickResult(false, replayed, -1, None);
    if expected.Some? {
      r := r.(verified := replayed.value == expected.value);
      if !r.verified {
        var d := FirstDiff(replayed.value, expected.value);
        r := r.(firstDiff := d);
      } else {
        SameNeverDiffers(expected.value);
      }
    }
  }

  lemma SameNeverDiffers(x: bytes)
    ensures IsFirstDiff(x, x, -1)
  {
  }

  method ReplayChain<K(!new)>(a: Agent<K>, state: bytes, snaps: seq<Snap>, expectedHash: bytes, hash: bytes -> bytes, fuel: nat)
    returns (r: ChainResult)
    ensures r == ChainVerdict(a, state, snaps, expectedHash, hash, fuel)
  {
    hide ReplayedFrom;
    r := NO_CHAIN;
    if |snaps| == 0 {
      return r.(fault := Some(NoSnapshots));
    }
    r := r.(firstTick := snaps[0].tick, lastTick := snaps[|snaps| - 1].tick);
    var restored := a.restore(state);
    if restored.None? {
      return r.(fault := Some(NotRestored));
    }
    var iter := new EntryIterator([]);
    var host := new ReplayHost(iter);
    var k := restored.value;
    for i := 0 to |snaps|
      invariant Chained(a, k, snaps, i, fuel) == Chained(a, restored.value, snaps, 0, fuel)
      invariant r == NO_CHAIN.(firstTick := snaps[0].tick, lastTick := snaps[|snaps| - 1].tick, ticksReplayed := i)
    {
      var outcome := host.ReplayEntries(a, k, snaps[i].Entries(), fuel);
      if outcome.Stopped? {
        return r.(fault := Some(outcome.fault), failedAt := snaps[i].tick);
      }
      k := outcome.k;
      r := r.(ticksReplayed := i + 1);
    }
    var final := a.capture(k);
    if final.None? {
      return r.(fault := Some(NotCaptured));
    }
    r := r.(finalState := final, verified := hash(final.value) == expectedHash);
  }

  // ----- Periodic verification of the window (internal/runner/research) -----

  predicate Due(s: I.Snapshot, lastVerified: uint64) {
    s.tick > lastVerified && s.log.Some? && s.log.value != []
  }

  /** The oldest snapshot still to be verified; the window's length when there is none. */
  function NextDue(window: seq<I.Snapshot>, lastVerified: uint64): (k: nat)
    ensures k <= |window| && (k < |window| ==> Due(window[k], lastVerified))
    ensures forall j :: 0 <= j < k ==> !Due(window[j], lastVerified)
    ensures k < |window| ==> window[k].tick > lastVerified && I.Entries(window[k]) > 0
    ensures forall j :: 0 <= j < k ==> window[j].tick <= lastVerified || I.Entries(window[j]) == 0
  {
    if window == [] then 0
    else if Due(window[0], lastVerified) then 0
    else
      var k := NextDue(window[1..], lastVerified);
      assert forall j :: 0 < j < k + 1 ==> window[j] == window[1..][j - 1];
      k + 1
  }

  /** The snapshot's replay ends in a state with its hash. */
  predicate Confirmed<K(!new)>(a: Agent<K>, s: I.Snapshot, hash: bytes -> bytes, fuel: nat) {
    var k := a.restore(s.preState);
    && k.Some? && s.log.Some?
    && var r := ReplayedFrom(a, k.value, s.log.value, fuel);
    && r.Reached? && a.capture(r.k).Some? && hash(a.capture(r.k).value) == s.postHash
  }

  method VerifyNextTick<K(!new)>(a: Agent<K>, window: seq<I.Snapshot>, lastVerified: uint64, hash: bytes -> bytes, fuel: nat)
    returns (tick: uint64, diverged: bool)
    ensures
      var k := NextDue(window, lastVerified);
      if k == |window| then tick == lastVerified && !diverged
      else tick == window[k].tick && (diverged <==> !Confirmed(a, window[k], hash, fuel))
  {
    hide ReplayedFrom, IsFirstDiff;
    for i := 0 to |window|
      invariant NextDue(window, lastVerified) >= i
    {
      var snap := window[i];
      if snap.tick <= lastVerified {
        continue;
      }
      if snap.log.None? || |snap.log.value| == 0 {
        continue;
      }
      var result := ReplayTick(a, snap.preState, snap.log.value, None, fuel);
      if result.fault.Some? {
        return snap.tick, true;
      }
      return snap.tick, hash(result.replayed.value) != snap.postHash;
    }
    tick, diverged := lastVerified, false;
  }

  /** A snapshot taken of a tick whose hostcalls all succeed is never reported as diverged. */
  lemma RecordedSnapshotIsConfirmed<K(!new)>(a: Agent<K>, k: K, end: K, s: I.Snapshot, world: nat -> Reading, w: Wallet,
                                       budget: int, hash: bytes -> bytes, fuel: nat)
    requires a.Lossless() && a.capture(k).Some? && a.capture(end).Some? && s.log.Some?
    requires Recorded(a, k, end, s.log.value, world, w, budget, fuel)
    requires s.preState == a.capture(k).value && s.postHash == hash(a.capture(end).value)
    ensures Confirmed(a, s, hash, fuel)
  {
    hide Recorded, ReplayedFrom;
    RecordedReplays(a, k, end, s.log.value, world, w, budget, fuel);
  }

  /** A snapshot of some post-state is confirmed exactly when its replay reaches that state,
      provided the hash tells these two states apart. */
  lemma ConfirmedIffReplayed<K(!new)>(a: Agent<K>, k: K, s: I.Snapshot, post: bytes, hash: bytes -> bytes, fuel: nat)
    requires s.postHash == hash(post) && s.log.Some? && a.restore(s.preState) == Some(k)
    requires
      var r := ReplayedFrom(a, k, s.log.value, fuel);
      r.Reached? && a.capture(r.k).Some? && hash(a.capture(r.k).value) == hash(post) ==> a.capture(r.k).value == post
    ensures
      var r := ReplayedFrom(a, k, s.log.value, fuel);
      Confirmed(a, s, hash, fuel) <==> r.Reached? && a.capture(r.k) == Some(post)
  {
    hide ReplayedFrom;
  }

  /** In a window in tick order, verifying a snapshot moves on to the ones after it. */
  lemma VerifiedIsBehind(window: seq<I.Snapshot>, lastVerified: uint64)
    requires forall i, j :: 0 <= i < j < |window| ==> window[i].tick < window[j].tick
    requires NextDue(window, lastVerified) < |window|
    ensures NextDue(window, window[NextDue(window, lastVerified)].tick) > NextDue(window, lastVerified)
  {
    hide NextDue;
    var k := NextDue(window, lastVerified);
    assert forall j :: 0 <= j <= k ==> !Due(window[j], window[k].tick);
  }
}
