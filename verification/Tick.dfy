/** A whole tick of a running agent (internal/agent/instance.go): the instance's budget and replay
    window and its event log, while the agent asks for hostcalls. */
module LiveTicks {
  import opened Bytes
  import opened EventLogs
  import opened Replays
  import I = Instances
  import P = Payments
  import R = Receipts

  /** What the host contributes to one tick: the budget adapter's verdict, whether the module has
      a tick function, what each hostcall finds, how long the call took, and the returned hint. */
  datatype Host = Host(admits: bool, exported: bool, world: nat -> Reading, nanos: I.Amount, more: bool)

  function WalletOf(c: I.Setup): Wallet { Wallet(c.policy, c.signer) }

  /** What each hostcall finds: receipts and price are the instance's own. */
  function Seen(world: nat -> Reading, receipts: seq<R.Receipt>, price: I.Amount): nat -> Reading {
    (n: nat) => world(n).(receipts := seq(|receipts|, i requires 0 <= i < |receipts| => R.ReceiptBytes(receipts[i])), price := price)
  }

  /** The payments one agent_tick call asks for, in order. */
  function PaymentsMade<K(!new)>(a: Agent<K>, k: K, world: nat -> Reading, w: Wallet, n: nat, budget: int, fuel: nat): seq<I.Payment>
    decreases fuel
  {
    match a.act(k)
    case Ask(call, next) =>
      if fuel == 0 then []
      else
        var x := Live(call, world(n), w, budget);
        (if call.WalletPay? then [I.Payment(call.req, world(n).now)] else [])
        + PaymentsMade(a, next(x.reply), world, w, n + 1, budget - x.charged, fuel - 1)
    case _ => []
  }

  lemma ChargeOfCall(call: Call, r: Reading, c: I.Setup, budget: int)
    ensures
      Live(call, r, WalletOf(c), budget).charged
      == if call.WalletPay? then I.Charged(budget, c, I.Payment(call.req, r.now)) else 0
  {
    hide P.Pay, U32, I64;
  }

  lemma NothingCharged(budget: int, c: I.Setup)
    ensures I.TotalCharged(budget, c, []) == 0
  {
  }

  lemma TotalCharges(budget: int, c: I.Setup, first: I.Payment, rest: seq<I.Payment>)
    ensures
      I.TotalCharged(budget, c, [first] + rest)
      == I.Charged(budget, c, first) + I.TotalCharged(budget - I.Charged(budget, c, first), c, rest)
  {
    hide I.Charged;
    assert ([first] + rest)[1..] == rest;
  }

  /** What one hostcall costs, ahead of the payments after it. */
  lemma FirstCharge(call: Call, r: Reading, c: I.Setup, budget: int, rest: seq<I.Payment>)
    ensures
      var x := Live(call, r, WalletOf(c), budget).charged;
      I.TotalCharged(budget, c, (if call.WalletPay? then [I.Payment(call.req, r.now)] else []) + rest)
      == x + I.TotalCharged(budget - x, c, rest)
  {
    hide Live, I.Charged, I.TotalCharged;
    ChargeOfCall(call, r, c, budget);
    if call.WalletPay? {
      TotalCharges(budget, c, I.Payment(call.req, r.now), rest);
    } else {
      assert [] + rest == rest;
    }
  }

  /** The call takes out of the budget what its payments cost, and nothing else. */
  lemma {:induction false} ChargesArePayments<K(!new)>(a: Agent<K>, k: K, world: nat -> Reading, c: I.Setup, n: nat, budget: int,
                                                 fuel: nat)
    ensures
      RunLive(a, k, world, WalletOf(c), n, budget, fuel).budget
      == budget - I.TotalCharged(budget, c, PaymentsMade(a, k, world, WalletOf(c), n, budget, fuel))
    decreases fuel
  {
    hide Live, I.Charged, I.TotalCharged;
    var act := a.act(k);
    if act.Ask? && fuel > 0 {
      var x := Live(act.call, world(n), WalletOf(c), budget);
      ChargesArePayments(a, act.next(x.reply), world, c, n + 1, budget - x.charged, fuel - 1);
      var rest := PaymentsMade(a, act.next(x.reply), world, WalletOf(c), n + 1, budget - x.charged, fuel - 1);
      FirstCharge(act.call, world(n), c, budget, rest);
    } else {
      NothingCharged(budget, c);
    }
  }

  // ----- One tick -----

  function CallOf<K(!new)>(a: Agent<K>, k: K, h: Host, v: I.Value, c: I.Setup, fuel: nat): LiveRun<K> {
    RunLive(a, a.enter(k), Seen(h.world, v.receipts, c.price), WalletOf(c), 0, v.budget, fuel)
  }

  /** The tick as the ledger sees it. */
  function RunOf<K(!new)>(a: Agent<K>, k: K, h: Host, v: I.Value, c: I.Setup, hash: bytes -> bytes, fuel: nat): I.TickRun {
    if !h.admits then I.BudgetRejected
    else if a.capture(k).None? then I.PreCaptureFailed
    else if !h.exported then I.NoTickExport
    else
      var live := CallOf(a, k, h, v, c, fuel);
      var ps := PaymentsMade(a, a.enter(k), Seen(h.world, v.receipts, c.price), WalletOf(c), 0, v.budget, fuel);
      if live.end.None? then I.Trapped(ps)
      else if a.capture(live.end.value).None? then I.PostCaptureFailed(ps)
      else
        I.Completed(ps, a.capture(k).value, hash(a.capture(live.end.value).value), Some(live.log), h.nanos, h.more)
  }

  /** The tick function is called. */
  predicate Called<K(!new)>(a: Agent<K>, k: K, h: Host, v: I.Value) {
    v.budget > 0 && h.admits && a.capture(k).Some? && h.exported
  }

  /** The call leaves a state that can be captured. */
  predicate Completes<K(!new)>(a: Agent<K>, k: K, h: Host, v: I.Value, c: I.Setup, fuel: nat) {
    var live := CallOf(a, k, h, v, c, fuel);
    Called(a, k, h, v) && live.end.Some? && a.capture(live.end.value).Some?
  }

  function SnapshotOf<K(!new)>(a: Agent<K>, k: K, h: Host, v: I.Value, c: I.Setup, hash: bytes -> bytes, fuel: nat): I.Snapshot
    requires Completes(a, k, h, v, c, fuel)
  {
    var live := CallOf(a, k, h, v, c, fuel);
    I.Snapshot(Inc64(v.tick), a.capture(k).value, hash(a.capture(live.end.value).value), Some(live.log))
  }

  /** A tick costs what its hostcalls charge and, when it completes, its time; its snapshot is what
      was captured around the call, with what the call recorded. */
  lemma TickIsTheCall<K(!new)>(a: Agent<K>, k: K, h: Host, v: I.Value, c: I.Setup, hash: bytes -> bytes, fuel: nat)
    ensures
      var (u, ok) := I.Ticked(v, c, RunOf(a, k, h, v, c, hash, fuel));
      var begun := v.budget > 0 && h.admits && a.capture(k).Some?;
      var left := if Called(a, k, h, v) then CallOf(a, k, h, v, c, fuel).budget else v.budget;
      && (ok <==> Completes(a, k, h, v, c, fuel))
      && u.tick == (if begun then Inc64(v.tick) else v.tick)
      && (!ok ==> u == v.(tick := u.tick, budget := left))
      && (ok ==>
            var cost := I.TickCost(h.nanos, c.price, left);
            u == v.(tick := u.tick, budget := left - cost, epochCost := v.epochCost + cost,
                    window := I.Windowed(v.window, SnapshotOf(a, k, h, v, c, hash, fuel), c.Max())))
  {
    hide RunLive, PaymentsMade, I.Windowed, I.TickCost;
    ChargesArePayments(a, a.enter(k), Seen(h.world, v.receipts, c.price), c, 0, v.budget, fuel);
  }

  function Appended(before: Option<Observed>, more: seq<Observation>): (r: Option<Observed>)
    ensures more == [] ==> r == before
  {
    if before.None? then None
    else
      assert more == [] ==> before.value.entries + more == before.value.entries;
      Some(before.value.(entries := before.value.entries + more))
  }

  lemma AppendedTwice(before: Option<Observed>, x: seq<Observation>, y: seq<Observation>)
    ensures Appended(Appended(before, x), y) == Appended(before, x + y)
  {
    if before.Some? {
      assert before.value.entries + (x + y) == before.value.entries + x + y;
    }
  }

  /** The answer to one hostcall, charged to the instance. */
  method Respond(inst: I.Instance, call: Call, r: Reading) returns (reply: Reply, recorded: Option<bytes>)
    modifies inst`budget
    ensures
      var x := Live(call, r, WalletOf(inst.setup), old(inst.budget));
      reply == x.reply && recorded == x.recorded && inst.budget == old(inst.budget) - x.charged
    ensures call.WalletBalance? && -MAX_INT64 <= old(inst.budget) <= MAX_INT64 ==> reply == Reply(old(inst.budget), None)
    ensures call.NodePrice? ==> reply == Reply(r.price, None)
    ensures call.ClockNow? ==> reply == Reply(r.now, None)
    ensures call.RandBytes? && reply.value == 0 && call.length > 0 ==> reply.written == r.random && r.random.Some?
    ensures !call.WalletPay? ==> inst.budget == old(inst.budget)
  {
    hide P.Pay, U32, I64;
    AnswersSay(call, r, WalletOf(inst.setup), inst.budget);
    if call.WalletPay? {
      var p := inst.WalletPay(I.Payment(call.req, r.now));
      reply, recorded := Reply(p.code, p.written), p.observed;
    } else {
      var x := Live(call, r, WalletOf(inst.setup), inst.budget);
      reply, recorded := x.reply, x.recorded;
    }
  }

  /** One hostcall: answered, charged to the instance, and recorded. */
  method Hostcall(inst: I.Instance, log: EventLog, call: Call, r: Reading) returns (reply: Reply, ghost made: seq<Observation>)
    requires log.Valid() && inst !in log.Repr
    modifies inst`budget, log.Repr
    ensures log.Valid() && fresh(log.Repr - old(log.Repr)) && log.recorded == old(log.recorded)
    ensures
      var x := Live(call, r, WalletOf(inst.setup), old(inst.budget));
      && reply == x.reply && inst.budget == old(inst.budget) - x.charged
      && made == (if x.recorded.Some? then [Observation(IdOf(call), x.recorded.value)] else [])
    ensures log.Current() == Appended(old(log.Current()), made)
    ensures call.WalletBalance? && -MAX_INT64 <= old(inst.budget) <= MAX_INT64 ==> reply == Reply(old(inst.budget), None)
    ensures call.NodePrice? ==> reply == Reply(r.price, None)
    ensures call.ClockNow? ==> reply == Reply(r.now, None)
    ensures call.RandBytes? && reply.value == 0 && call.length > 0 ==> reply.written == r.random && r.random.Some?
    ensures !call.WalletPay? ==> inst.budget == old(inst.budget)
  {
    hide Live;
    var recorded;
    reply, recorded := Respond(inst, call, r);
    made := [];
    if recorded.Some? {
      var data := recorded.value;
      var payload := new byte[|data|](i requires 0 <= i < |data| => data[i]);
      assert payload[..] == data;
      log.Record(IdOf(call), payload);
      made := [Observation(IdOf(call), data)];
    }
  }

  /** The run from `state` on, behind what has been recorded before it. */
  function Onward<K(!new)>(a: Agent<K>, state: K, world: nat -> Reading, w: Wallet, n: nat, budget: int, left: nat,
                     before: seq<Observation>): LiveRun<K> {
    var rest := RunLive(a, state, world, w, n, budget, left);
    rest.(log := before + rest.log)
  }

  lemma OnwardEnds<K(!new)>(a: Agent<K>, state: K, world: nat -> Reading, w: Wallet, n: nat, budget: int, left: nat,
                      before: seq<Observation>)
    requires a.act(state).Ask? ==> left == 0
    ensures
      Onward(a, state, world, w, n, budget, left, before)
      == LiveRun(if a.act(state).Return? then Some(a.act(state).k) else None, before, budget)
  {
    assert before + [] == before;
  }

  lemma OnwardAsks<K(!new)>(a: Agent<K>, state: K, world: nat -> Reading, w: Wallet, n: nat, budget: int, left: nat,
                      before: seq<Observation>, made: seq<Observation>)
    requires a.act(state).Ask? && left > 0
    requires
      var x := Live(a.act(state).call, world(n), w, budget);
      made == if x.recorded.Some? then [Observation(IdOf(a.act(state).call), x.recorded.value)] else []
    ensures
      var x := Live(a.act(state).call, world(n), w, budget);
      Onward(a, state, world, w, n, budget, left, before)
      == Onward(a, a.act(state).next(x.reply), world, w, n + 1, budget - x.charged, left - 1, before + made)
  {
    hide Live;
    var x := Live(a.act(state).call, world(n), w, budget);
    var rest := RunLive(a, a.act(state).next(x.reply), world, w, n + 1, budget - x.charged, left - 1);
    assert before + (made + rest.log) == before + made + rest.log;
  }

  /** One agent_tick call; none when it traps or runs out of time. */
  method CallTick<K(!new)>(inst: I.Instance, log: EventLog, a: Agent<K>, k: K, world: nat -> Reading, fuel: nat) returns (end: Option<K>)
    requires log.Valid() && inst !in log.Repr
    modifies inst`budget, log.Repr
    ensures log.Valid() && fresh(log.Repr - old(log.Repr)) && log.recorded == old(log.recorded)
    ensures
      var live := RunLive(a, k, world, WalletOf(inst.setup), 0, old(inst.budget), fuel);
      end == live.end && inst.budget == live.budget && log.Current() == Appended(old(log.Current()), live.log)
  {
    hide Live, RunLive, EventLog.Valid, EventLog.Current, Appended;
    var state, n, left := k, 0, fuel;
    ghost var done: seq<Observation> := [];
    ghost var w := WalletOf(inst.setup);
    ghost var live := RunLive(a, k, world, w, 0, inst.budget, fuel);
    assert [] + live.log == live.log;
    while true
      invariant log.Valid() && fresh(log.Repr - old(log.Repr)) && inst !in log.Repr
      invariant log.recorded == old(log.recorded) && log.Current() == Appended(old(log.Current()), done)
      invariant Onward(a, state, world, w, n, inst.budget, left, done) == live
      decreases left
    {
      var act := a.act(state);
      if !act.Ask? || left == 0 {
        OnwardEnds(a, state, world, w, n, inst.budget, left, done);
        return if act.Return? then Some(act.k) else None;
      }
      ghost var budget := inst.budget;
      var reply;
      ghost var made;
      reply, made := Hostcall(inst, log, act.call, world(n));
      OnwardAsks(a, state, world, w, n, budget, left, done, made);
      AppendedTwice(old(log.Current()), done, made);
      state, n, left, done := act.next(reply), n + 1, left - 1, done + made;
    }
  }

  /** The call between opening and sealing the tick's log, and what the log then shows. */
  method CallLogged<K(!new)>(inst: I.Instance, log: EventLog, a: Agent<K>, k: K, world: nat -> Reading, fuel: nat)
    returns (end: Option<K>, entries: seq<Observation>)
    requires log.Valid() && inst !in log.Repr && log.Current() == Some(Observed(inst.tickNumber, []))
    modifies inst`budget, log.Repr
    ensures log.Valid() && fresh(log.Repr - old(log.Repr))
    ensures
      var live := RunLive(a, k, world, WalletOf(inst.setup), 0, old(inst.budget), fuel);
      && end == live.end && entries == live.log && inst.budget == live.budget
      && log.recorded == old(log.recorded) + [Observed(inst.tickNumber, live.log)]
  {
    hide RunLive, Shown, TickLog.Valid;
    end := CallTick(inst, log, a, k, world, fuel);
    var sealed := log.SealTick();
    entries := sealed.Observations();
  }

  // ----- What the agent is told -----

  /** Within a tick of the instance: the price is its own, the receipts are its own as marshalled, the
      balance is its budget, and clock and random bytes are the host's. */
  lemma AgentIsTold(call: Call, world: nat -> Reading, n: nat, v: I.Value, c: I.Setup)
    requires -MAX_INT64 <= v.budget <= MAX_INT64 && |v.receipts| < TWO_TO_THE_31
    requires forall k :: 0 <= k < |v.receipts| ==> |R.ReceiptBytes(v.receipts[k])| < TWO_TO_THE_31
    ensures
      var x := Live(call, Seen(world, v.receipts, c.price)(n), WalletOf(c), v.budget).reply;
      match call
      case WalletBalance => x == Reply(v.budget, None)
      case NodePrice => x == Reply(c.price, None)
      case ClockNow => x == Reply(world(n).now, None)
      case WalletReceiptCount => x == Reply(|v.receipts|, None)
      case WalletReceipt(index, length, room) =>
        if 0 <= index < |v.receipts| then
          var b := R.ReceiptBytes(v.receipts[index]);
          x == if |b| <= length && |b| <= room then Reply(|b|, Some(b)) else Reply(-4, None)
        else x == Reply(-1, None)
      case RandBytes(length, room) =>
        0 < length <= 64 * 1024 * 1024 && world(n).random.Some? && |world(n).random.value| == length <= room ==>
          x == Reply(0, world(n).random)
      case _ => true
  {
    hide Live, R.ReceiptBytes;
    AnswersSay(call, Seen(world, v.receipts, c.price)(n), WalletOf(c), v.budget);
  }

  /** The state after the first m hostcalls of a call that makes as many. */
  function StateAfter<K(!new)>(a: Agent<K>, k: K, world: nat -> Reading, w: Wallet, n: nat, budget: int, m: nat): Option<K>
    decreases m
  {
    if m == 0 then Some(k)
    else
      match a.act(k)
      case Ask(call, next) =>
        var x := Live(call, world(n), w, budget);
        StateAfter(a, next(x.reply), world, w, n + 1, budget - x.charged, m - 1)
      case _ => None
  }

  /** An agent that asks for its balance after m hostcalls is told, and goes on with, what the tick
      started with less what its payments so far have cost. */
  lemma {:induction false} BalanceIsWhatIsLeft<K(!new)>(a: Agent<K>, k: K, world: nat -> Reading, c: I.Setup, n: nat, budget: int,
                                                  m: nat, fuel: nat)
    requires 0 <= budget <= MAX_INT64 && m < fuel
    requires
      var s := StateAfter(a, k, world, WalletOf(c), n, budget, m);
      s.Some? && a.act(s.value).Ask? && a.act(s.value).call.WalletBalance?
    ensures
      var s := StateAfter(a, k, world, WalletOf(c), n, budget, m).value;
      var left := budget - I.TotalCharged(budget, c, PaymentsMade(a, k, world, WalletOf(c), n, budget, m));
      && left >= 0
      && RunLive(a, k, world, WalletOf(c), n, budget, fuel).end
         == RunLive(a, a.act(s).next(Reply(left, None)), world, WalletOf(c), n + m + 1, left, fuel - m - 1).end
    decreases m
  {
    hide Live, I.Charged, I.TotalCharged;
    var w, act := WalletOf(c), a.act(k);
    I.PaymentsStayWithinBudget(budget, c, PaymentsMade(a, k, world, w, n, budget, m));
    if m == 0 {
      NothingCharged(budget, c);
      BalanceNow(a, k, world, w, n, budget, fuel);
    } else {
      hide RunLive;
      AskingGoesOn(a, k, world, w, n, budget, fuel);
      var x := Live(act.call, world(n), w, budget);
      ChargeWithin(act.call, world(n), c, budget);
      var rest := PaymentsMade(a, act.next(x.reply), world, w, n + 1, budget - x.charged, m - 1);
      BalanceIsWhatIsLeft(a, act.next(x.reply), world, c, n + 1, budget - x.charged, m - 1, fuel - 1);
      FirstCharge(act.call, world(n), c, budget, rest);
    }
  }

  lemma BalanceNow<K(!new)>(a: Agent<K>, k: K, world: nat -> Reading, w: Wallet, n: nat, budget: int, fuel: nat)
    requires 0 <= budget <= MAX_INT64 && fuel > 0 && a.act(k).Ask? && a.act(k).call.WalletBalance?
    ensures
      RunLive(a, k, world, w, n, budget, fuel).end
      == RunLive(a, a.act(k).next(Reply(budget, None)), world, w, n + 1, budget, fuel - 1).end
  {
    hide Live, U32, I64;
    AnswersSay(WalletBalance, world(n), w, budget);
  }

  lemma AskingGoesOn<K(!new)>(a: Agent<K>, k: K, world: nat -> Reading, w: Wallet, n: nat, budget: int, fuel: nat)
    requires fuel > 0 && a.act(k).Ask?
    ensures
      var x := Live(a.act(k).call, world(n), w, budget);
      RunLive(a, k, world, w, n, budget, fuel).end
      == RunLive(a, a.act(k).next(x.reply), world, w, n + 1, budget - x.charged, fuel - 1).end
  {
    hide Live;
  }

  lemma ChargeWithin(call: Call, r: Reading, c: I.Setup, budget: int)
    requires budget >= 0
    ensures 0 <= Live(call, r, WalletOf(c), budget).charged <= budget
  {
    hide U32, I64, P.Receipt;
  }

  /** A tick: the ledger, the window and the log afterwards are those of the agent's own run. The
      log of a failed call is sealed too; without a tick function it is left open. */
  method Tick<K(!new)>(inst: I.Instance, log: EventLog, a: Agent<K>, k: K, h: Host, hash: bytes -> bytes, fuel: nat)
    returns (ok: bool, more: bool, end: Option<K>)
    requires log.Valid() && inst !in log.Repr
    modifies inst`budget, inst`tickNumber, inst`replayWindow, inst`epochCost, log.Repr
    ensures log.Valid() && fresh(log.Repr - old(log.Repr))
    ensures
      var v, c := old(inst.View()), inst.setup;
      && (inst.View(), ok) == I.Ticked(v, c, RunOf(a, k, h, v, c, hash, fuel))
      && (more <==> ok && h.more)
      && (if Called(a, k, h, v) then
            && log.recorded == old(log.recorded) + [Observed(inst.tickNumber, CallOf(a, k, h, v, c, fuel).log)]
            && end == CallOf(a, k, h, v, c, fuel).end
          else log.recorded == old(log.recorded) && end == None)
  {
    hide RunLive, RunOf, I.Ticked, I.Windowed, I.TickCost, Shown, TickLog.Valid;
    TickIsTheCall(a, k, h, inst.View(), inst.setup, hash, fuel);
    if inst.budget <= 0 {
      return false, false, None;
    }
    if !h.admits {
      return false, false, None;
    }
    var pre := a.capture(k);
    if pre.None? {
      return false, false, None;
    }
    inst.tickNumber := Inc64(inst.tickNumber);
    log.BeginTick(inst.tickNumber);
    if !h.exported {
      return false, false, None;
    }
    var entries;
    end, entries := CallLogged(inst, log, a, a.enter(k), Seen(h.world, inst.receipts, inst.setup.price), fuel);
    if end.None? {
      return false, false, end;
    }
    var post := a.capture(end.value);
    if post.None? {
      return false, false, end;
    }
    inst.Remember(I.Snapshot(inst.tickNumber, pre.value, hash(post.value), Some(entries)));
    inst.Meter(h.nanos);
    ok, more := true, h.more;
  }

  // ----- Runs -----

  /** A tick of the agent in some state, or one of the other two events of a process. */
  datatype LiveEvent<!K(!new)> =
    | AgentTick(k: K, host: Host)
    | Save(timestamp: int64, receiptsSaved: bool)
    | Resume(budget: int, tick: uint64)

  function EventOf<K(!new)>(v: I.Value, c: I.Setup, a: Agent<K>, e: LiveEvent<K>, hash: bytes -> bytes, fuel: nat): I.Event {
    match e
    case AgentTick(k, h) => I.Tick(RunOf(a, k, h, v, c, hash, fuel))
    case Save(timestamp, saved) => I.Checkpoint(timestamp, saved)
    case Resume(budget, tick) => I.Restart(budget, tick)
  }

  /** The run of the ledger that these events make. */
  function EventsOf<K(!new)>(p: I.Process, c: I.Setup, a: Agent<K>, es: seq<LiveEvent<K>>, hash: bytes -> bytes, fuel: nat): seq<I.Event>
    decreases |es|
  {
    if es == [] then []
    else
      var e := EventOf(p.v, c, a, es[0], hash, fuel);
      [e] + EventsOf(I.Step(p, c, e), c, a, es[1..], hash, fuel)
  }

  /** Every hostcall of the tick does what it is for. */
  ghost predicate Calm<K(!new)>(a: Agent<K>, k: K, h: Host, v: I.Value, c: I.Setup, fuel: nat) {
    AllSucceed(a, a.enter(k), Seen(h.world, v.receipts, c.price), WalletOf(c), 0, v.budget, fuel)
  }

  /** So do those of every tick that completes. */
  ghost predicate CalmRun<K(!new)>(p: I.Process, c: I.Setup, a: Agent<K>, es: seq<LiveEvent<K>>, hash: bytes -> bytes, fuel: nat)
    decreases |es|
  {
    es == [] ||
    ((es[0].AgentTick? && Completes(a, es[0].k, es[0].host, p.v, c, fuel) ==> Calm(a, es[0].k, es[0].host, p.v, c, fuel))
     && CalmRun(I.Step(p, c, EventOf(p.v, c, a, es[0], hash, fuel)), c, a, es[1..], hash, fuel))
  }

  ghost predicate AllConfirmed<K(!new)>(a: Agent<K>, window: seq<I.Snapshot>, hash: bytes -> bytes, fuel: nat) {
    forall s :: s in window ==> Confirmed(a, s, hash, fuel)
  }

  lemma SnapshotIsConfirmed<K(!new)>(a: Agent<K>, k: K, h: Host, v: I.Value, c: I.Setup, hash: bytes -> bytes, fuel: nat)
    requires a.Lossless() && Completes(a, k, h, v, c, fuel) && Calm(a, k, h, v, c, fuel)
    ensures Confirmed(a, SnapshotOf(a, k, h, v, c, hash, fuel), hash, fuel)
  {
    hide RunLive, AllSucceed, Confirmed;
    RecordedSnapshotIsConfirmed(a, k, CallOf(a, k, h, v, c, fuel).end.value, SnapshotOf(a, k, h, v, c, hash, fuel),
                                Seen(h.world, v.receipts, c.price), WalletOf(c), v.budget, hash, fuel);
  }

  lemma WindowedWithin(w: seq<I.Snapshot>, s: I.Snapshot, max: nat, x: I.Snapshot)
    requires max > 0 && x in I.Windowed(w, s, max)
    ensures x in w || x == s
  {
    hide I.Evicted;
    assert x in w + [s];
  }

  lemma StepKeepsConfirmed<K(!new)>(p: I.Process, c: I.Setup, a: Agent<K>, e: LiveEvent<K>, hash: bytes -> bytes, fuel: nat)
    requires a.Lossless() && AllConfirmed(a, p.v.window, hash, fuel)
    requires e.AgentTick? && Completes(a, e.k, e.host, p.v, c, fuel) ==> Calm(a, e.k, e.host, p.v, c, fuel)
    ensures AllConfirmed(a, I.Step(p, c, EventOf(p.v, c, a, e, hash, fuel)).v.window, hash, fuel)
  {
    hide RunOf, I.Ticked, Calm, Completes, SnapshotOf, Confirmed, I.Windowed;
    if e.AgentTick? {
      TickIsTheCall(a, e.k, e.host, p.v, c, hash, fuel);
      if Completes(a, e.k, e.host, p.v, c, fuel) {
        SnapshotIsConfirmed(a, e.k, e.host, p.v, c, hash, fuel);
        var s := SnapshotOf(a, e.k, e.host, p.v, c, hash, fuel);
        forall x | x in I.Windowed(p.v.window, s, c.Max())
          ensures Confirmed(a, x, hash, fuel)
        {
          WindowedWithin(p.v.window, s, c.Max(), x);
        }
      }
    }
  }

  lemma {:induction false} RunKeepsConfirmed<K(!new)>(p: I.Process, c: I.Setup, a: Agent<K>, es: seq<LiveEvent<K>>,
                                                hash: bytes -> bytes, fuel: nat)
    requires a.Lossless() && AllConfirmed(a, p.v.window, hash, fuel) && CalmRun(p, c, a, es, hash, fuel)
    ensures AllConfirmed(a, I.Run(p, c, EventsOf(p, c, a, es, hash, fuel)).v.window, hash, fuel)
    decreases |es|
  {
    hide AllConfirmed, EventOf, I.Step, Completes, Calm;
    if es != [] {
      var e := EventOf(p.v, c, a, es[0], hash, fuel);
      var next := I.Step(p, c, e);
      StepKeepsConfirmed(p, c, a, es[0], hash, fuel);
      RunKeepsConfirmed(next, c, a, es[1..], hash, fuel);
      var rest := EventsOf(next, c, a, es[1..], hash, fuel);
      assert ([e] + rest)[1..] == rest;
    }
  }

  /** One run of one agent, two results: its money is conserved, and every snapshot it keeps
      replays to the state it was taken of, so periodic verification never reports one. */
  lemma LiveRunConservesAndReplays<K(!new)>(budget: int, tick: uint64, c: I.Setup, a: Agent<K>, es: seq<LiveEvent<K>>,
                                      hash: bytes -> bytes, fuel: nat)
    requires 0 <= budget <= MAX_INT64 - I.MAX_TICK_COST && a.Lossless()
    requires I.AllowedRun(I.Fresh(budget, tick, None), c, EventsOf(I.Fresh(budget, tick, None), c, a, es, hash, fuel))
    requires CalmRun(I.Fresh(budget, tick, None), c, a, es, hash, fuel)
    ensures
      var p := I.Run(I.Fresh(budget, tick, None), c, EventsOf(I.Fresh(budget, tick, None), c, a, es, hash, fuel));
      && p.startBudget == p.v.budget + p.costs + p.paid && p.v.budget >= -I.MAX_TICK_COST
      && (forall s :: s in p.v.window ==> Confirmed(a, s, hash, fuel))
  {
    hide I.Run, I.AllowedRun, EventsOf, CalmRun, Confirmed;
    var p := I.Fresh(budget, tick, None);
    I.BudgetIsConserved(budget, tick, c, EventsOf(p, c, a, es, hash, fuel));
    RunKeepsConfirmed(p, c, a, es, hash, fuel);
  }
}
